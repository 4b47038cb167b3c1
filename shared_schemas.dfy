/**
 * The shared package's Zod schemas (`packages/shared/src/index.ts`). The
 * backend animal DTO binds `CreateAnimalSchema` from here. Unlike the backend
 * copy, a contact only needs 5 characters, owner fields are optional on an
 * animal, and the create schema keeps only name, age, type and breed.
 */
module SharedSchemas {
  import opened Wrappers
  import opened Validation

  datatype UserPayload = UserPayload(
    id: Option<string>,
    name: Option<string>,
    email: Option<string>,
    password: Option<string>,
    contact: Option<string>)

  datatype LoginPayload = LoginPayload(email: Option<string>, password: Option<string>)

  datatype AnimalPayload = AnimalPayload(
    id: Option<string>,
    name: Option<string>,
    age: Option<real>,
    animalType: Option<string>,
    breed: Option<string>,
    ownerId: Option<string>,
    ownerName: Option<string>,
    ownerContact: Option<string>)

  datatype AnimalType = Cat | Dog

  function TypeName(t: AnimalType): string
  {
    match t
    case Cat => "CAT"
    case Dog => "DOG"
  }

  const AnimalTypes: seq<string> := ["CAT", "DOG"]

  /** What a successful parse of `CreateAnimalSchema` returns: only the four kept keys. */
  datatype CreateAnimalData = CreateAnimalData(name: string, age: int, animalType: AnimalType, breed: string)

  const UserKeys: seq<string> := ["id", "name", "email", "password", "contact"]
  const LoginKeys: seq<string> := ["email", "password"]
  const RegisterKeys: seq<string> := ["name", "email", "password", "contact"]
  const AnimalKeys: seq<string> := ["id", "name", "age", "type", "breed", "ownerId", "ownerName", "ownerContact"]
  const CreateKeys: seq<string> := ["name", "age", "type", "breed"]

  // The fields of `UserSchema`, each with its checks.

  function UserId(f: Formats, u: UserPayload): seq<Issue>
  {
    StringField("id", u.id, true, [Matches(Uuid, f.isUuid)])
  }

  function UserName(u: UserPayload): seq<Issue>
  {
    StringField("name", u.name, false, [MinLength(2)])
  }

  function UserEmail(f: Formats, u: UserPayload): seq<Issue>
  {
    StringField("email", u.email, false, [Matches(Email, f.isEmail)])
  }

  function UserPassword(u: UserPayload): seq<Issue>
  {
    StringField("password", u.password, true, [MinLength(6)])
  }

  function UserContact(u: UserPayload): seq<Issue>
  {
    StringField("contact", u.contact, false, [MinLength(5)])
  }

  function UserIssues(f: Formats, u: UserPayload): (r: seq<Issue>)
    ensures InKeyOrder(r, UserKeys)
  {
    var id, name, email, password, contact := UserId(f, u), UserName(u), UserEmail(f, u), UserPassword(u), UserContact(u);
    Fields5(id, name, email, password, contact, UserKeys);
    id + (name + (email + (password + contact)))
  }

  predicate UserValid(f: Formats, u: UserPayload)
  {
    UserIssues(f, u) == []
  }

  function LoginIssues(f: Formats, l: LoginPayload): (r: seq<Issue>)
    ensures InKeyOrder(r, LoginKeys)
  {
    var email := StringField("email", l.email, false, [Matches(Email, f.isEmail)]);
    var password := StringField("password", l.password, false, [MinLength(6)]);
    Fields2(email, password, LoginKeys);
    email + password
  }

  predicate LoginValid(f: Formats, l: LoginPayload)
  {
    LoginIssues(f, l) == []
  }

  /** `UserSchema.omit({ id, createdAt, updatedAt })`: an `id` in the payload is stripped, not checked. */
  function RegisterIssues(f: Formats, u: UserPayload): (r: seq<Issue>)
    ensures InKeyOrder(r, RegisterKeys)
  {
    var name, email, password, contact := UserName(u), UserEmail(f, u), UserPassword(u), UserContact(u);
    Fields4(name, email, password, contact, RegisterKeys);
    name + (email + (password + contact))
  }

  predicate RegisterValid(f: Formats, u: UserPayload)
  {
    RegisterIssues(f, u) == []
  }

  // The fields of `AnimalSchema`; `optional` is the `.partial()` of the update schema.

  function AnimalId(f: Formats, p: AnimalPayload): seq<Issue>
  {
    StringField("id", p.id, true, [Matches(Uuid, f.isUuid)])
  }

  function AnimalName(p: AnimalPayload, optional: bool): seq<Issue>
  {
    StringField("name", p.name, optional, [MinLength(1)])
  }

  function AnimalAge(p: AnimalPayload, optional: bool): seq<Issue>
  {
    NumberField("age", p.age, optional, [Integer, AtLeast(0)])
  }

  function AnimalTypeField(p: AnimalPayload, optional: bool): seq<Issue>
  {
    EnumField("type", p.animalType, optional, AnimalTypes)
  }

  function AnimalBreed(p: AnimalPayload, optional: bool): seq<Issue>
  {
    StringField("breed", p.breed, optional, [MinLength(1)])
  }

  function AnimalOwnerId(f: Formats, p: AnimalPayload): seq<Issue>
  {
    StringField("ownerId", p.ownerId, true, [Matches(Uuid, f.isUuid)])
  }

  /** `ownerName` and `ownerContact` are optional strings with no checks. */
  function AnimalOwnerName(p: AnimalPayload): seq<Issue>
  {
    StringField("ownerName", p.ownerName, true, [])
  }

  function AnimalOwnerContact(p: AnimalPayload): seq<Issue>
  {
    StringField("ownerContact", p.ownerContact, true, [])
  }

  /** The four fields `CreateAnimalSchema` keeps, in key order; `optional` makes them `.partial()`. */
  function AnimalCoreIssues(p: AnimalPayload, optional: bool): (r: seq<Issue>)
    ensures InKeyOrder(r, CreateKeys)
  {
    var a, b, c, d := AnimalName(p, optional), AnimalAge(p, optional), AnimalTypeField(p, optional), AnimalBreed(p, optional);
    Fields4(a, b, c, d, CreateKeys);
    a + (b + (c + d))
  }

  function AnimalIssues(f: Formats, p: AnimalPayload): (r: seq<Issue>)
    ensures InKeyOrder(r, AnimalKeys)
  {
    var i, a, b, c := AnimalId(f, p), AnimalName(p, false), AnimalAge(p, false), AnimalTypeField(p, false);
    var d, o, e, g := AnimalBreed(p, false), AnimalOwnerId(f, p), AnimalOwnerName(p), AnimalOwnerContact(p);
    Fields8(i, a, b, c, d, o, e, g, AnimalKeys);
    i + (a + (b + (c + (d + (o + (e + g))))))
  }

  predicate AnimalValid(f: Formats, p: AnimalPayload)
  {
    AnimalIssues(f, p) == []
  }

  predicate CreateAnimalValid(p: AnimalPayload)
  {
    AnimalCoreIssues(p, false) == []
  }

  predicate UpdateAnimalValid(p: AnimalPayload)
  {
    AnimalCoreIssues(p, true) == []
  }

  function ParseType(s: string): Option<AnimalType>
  {
    if s == "CAT" then Some(Cat) else if s == "DOG" then Some(Dog) else None
  }

  /** `CreateAnimalSchema.safeParse`: the issues, or the payload with every other key stripped. */
  function ParseCreateAnimal(p: AnimalPayload): (r: Result<CreateAnimalData, seq<Issue>>)
    ensures r.Failure? <==> !CreateAnimalValid(p)
    ensures r.Failure? ==> r.error == AnimalCoreIssues(p, false) && r.error != []
    ensures r.Success? ==>
      p.name == Some(r.value.name) && p.age == Some(r.value.age as real)
      && p.animalType == Some(TypeName(r.value.animalType)) && p.breed == Some(r.value.breed)
  {
    var issues := AnimalCoreIssues(p, false);
    if issues != [] then Failure(issues)
    else
      AnimalCoreRules(p, false);
      Success(CreateAnimalData(p.name.value, p.age.value.Floor, ParseType(p.animalType.value).value, p.breed.value))
  }

  lemma AnimalCoreRules(p: AnimalPayload, optional: bool)
    ensures AnimalCoreIssues(p, optional) == [] <==>
      (if p.name.None? then optional else |p.name.value| >= 1)
      && (if p.age.None? then optional else IsInteger(p.age.value) && p.age.value >= 0.0)
      && (if p.animalType.None? then optional else p.animalType.value in AnimalTypes)
      && (if p.breed.None? then optional else |p.breed.value| >= 1)
  {
    var a, b, c, d := AnimalName(p, optional), AnimalAge(p, optional), AnimalTypeField(p, optional), AnimalBreed(p, optional);
    var ageRules := [Integer, AtLeast(0)];
    assert p.age.Some? ==> (b == [] <==> SatisfiesNumber(p.age.value, ageRules[0]) && SatisfiesNumber(p.age.value, ageRules[1]));
    NoIssuesConcat(a, b + (c + d));
    NoIssuesConcat(b, c + d);
    NoIssuesConcat(c, d);
  }

  /** The shared contact rule is only a length: 5 characters or more, no pattern. */
  lemma UserRules(f: Formats, u: UserPayload)
    ensures UserValid(f, u) <==>
      (u.id.None? || f.isUuid(u.id.value))
      && u.name.Some? && |u.name.value| >= 2
      && u.email.Some? && f.isEmail(u.email.value)
      && (u.password.None? || |u.password.value| >= 6)
      && u.contact.Some? && |u.contact.value| >= 5
  {
    var id, name, email, password, contact := UserId(f, u), UserName(u), UserEmail(f, u), UserPassword(u), UserContact(u);
    NoIssuesConcat(id, name + (email + (password + contact)));
    NoIssuesConcat(name, email + (password + contact));
    NoIssuesConcat(email, password + contact);
    NoIssuesConcat(password, contact);
  }

  /** Registering validates a user with any id stripped. */
  lemma RegisterRules(f: Formats, u: UserPayload)
    ensures RegisterValid(f, u) <==> UserValid(f, u.(id := None))
  {
    var name, email, password, contact := UserName(u), UserEmail(f, u), UserPassword(u), UserContact(u);
    assert UserIssues(f, u.(id := None)) == [] + (name + (email + (password + contact)));
  }

  lemma LoginRules(f: Formats, l: LoginPayload)
    ensures LoginValid(f, l) <==>
      l.email.Some? && f.isEmail(l.email.value) && l.password.Some? && |l.password.value| >= 6
  {
    NoIssuesConcat(StringField("email", l.email, false, [Matches(Email, f.isEmail)]),
                   StringField("password", l.password, false, [MinLength(6)]));
  }

  /** An animal may leave owner name and contact out; any strings there are accepted. */
  lemma AnimalRules(f: Formats, p: AnimalPayload)
    ensures AnimalValid(f, p) <==>
      (p.id.None? || f.isUuid(p.id.value))
      && CreateAnimalValid(p)
      && (p.ownerId.None? || f.isUuid(p.ownerId.value))
    ensures AnimalValid(f, p) ==> AnimalValid(f, p.(ownerName := None, ownerContact := None))
  {
    var i, a, b, c := AnimalId(f, p), AnimalName(p, false), AnimalAge(p, false), AnimalTypeField(p, false);
    var d, o, e, g := AnimalBreed(p, false), AnimalOwnerId(f, p), AnimalOwnerName(p), AnimalOwnerContact(p);
    assert e == [] && g == [];
    NoIssuesConcat(i, a + (b + (c + (d + (o + (e + g))))));
    NoIssuesConcat(a, b + (c + (d + (o + (e + g)))));
    NoIssuesConcat(b, c + (d + (o + (e + g))));
    NoIssuesConcat(c, d + (o + (e + g)));
    NoIssuesConcat(d, o + (e + g));
    NoIssuesConcat(o, e + g);
    NoIssuesConcat(a, b + (c + d));
    NoIssuesConcat(b, c + d);
    NoIssuesConcat(c, d);
  }

  /**
   * The age rule: with the other three fields acceptable, an age is accepted
   * exactly when it is an integer of at least 0, by the create schema and by
   * the update schema alike.
   */
  lemma AgeRule(p: AnimalPayload, x: real)
    requires p.age == Some(x)
    ensures AnimalCoreIssues(p, true) == [] ==> IsInteger(x) && x >= 0.0
    ensures CreateAnimalValid(p) ==> IsInteger(x) && x >= 0.0
    ensures CreateAnimalValid(p.(age := Some(0.0))) ==> (CreateAnimalValid(p) <==> IsInteger(x) && x >= 0.0)
    ensures UpdateAnimalValid(p.(age := None)) ==> (UpdateAnimalValid(p) <==> IsInteger(x) && x >= 0.0)
  {
    AnimalCoreRules(p, true);
    AnimalCoreRules(p, false);
    AnimalCoreRules(p.(age := Some(0.0)), false);
    AnimalCoreRules(p.(age := None), true);
  }

  /** A missing age is never a valid create payload: the field is required. */
  lemma AgeRequired(p: AnimalPayload)
    ensures !CreateAnimalValid(p.(age := None))
    ensures UpdateAnimalValid(p) ==> UpdateAnimalValid(p.(age := None))
  {
    AnimalCoreRules(p.(age := None), false);
    AnimalCoreRules(p, true);
    AnimalCoreRules(p.(age := None), true);
  }

  /**
   * Parsing a create payload depends only on name, age, type and breed: two
   * payloads that agree on those four parse to the same result, whatever ids,
   * owner fields or timestamps they carry.
   */
  lemma CreateKeepsFourFields(p: AnimalPayload, q: AnimalPayload)
    requires p.name == q.name && p.age == q.age && p.animalType == q.animalType && p.breed == q.breed
    ensures ParseCreateAnimal(p) == ParseCreateAnimal(q)
  {
  }

  /** A successful parse gives back the payload's own four values. */
  lemma {:induction false} ParseCreateRoundTrip(d: CreateAnimalData, id: Option<string>, ownerId: Option<string>,
                                                 ownerName: Option<string>, ownerContact: Option<string>)
    requires |d.name| >= 1 && |d.breed| >= 1 && d.age >= 0
    ensures ParseCreateAnimal(AnimalPayload(id, Some(d.name), Some(d.age as real), Some(TypeName(d.animalType)),
                                            Some(d.breed), ownerId, ownerName, ownerContact)) == Success(d)
  {
    var p := AnimalPayload(id, Some(d.name), Some(d.age as real), Some(TypeName(d.animalType)),
                           Some(d.breed), ownerId, ownerName, ownerContact);
    assert IsInteger(d.age as real);
    AnimalCoreRules(p, false);
    assert (d.age as real).Floor == d.age;
  }

  /** The update schema is the partial create schema: any subset of the four fields, and `{}`, is valid. */
  lemma UpdateIsPartialCreate(p: AnimalPayload, keepName: bool, keepAge: bool, keepType: bool, keepBreed: bool)
    requires CreateAnimalValid(p)
    ensures UpdateAnimalValid(p)
    ensures UpdateAnimalValid(p.(name := if keepName then p.name else None,
                                 age := if keepAge then p.age else None,
                                 animalType := if keepType then p.animalType else None,
                                 breed := if keepBreed then p.breed else None))
  {
    AnimalCoreRules(p, false);
    AnimalCoreRules(p, true);
    AnimalCoreRules(p.(name := if keepName then p.name else None,
                       age := if keepAge then p.age else None,
                       animalType := if keepType then p.animalType else None,
                       breed := if keepBreed then p.breed else None), true);
  }
}
