/**
 * The backend's own Zod schemas (`apps/backend/src/common/schemas.ts`), which
 * the authentication endpoints bind. Contacts must match the backend copy of
 * the Brazilian phone pattern.
 */
module BackendSchemas {
  import opened Wrappers
  import opened Validation
  import PhonePattern

  /** A user payload as it arrives: every field may be missing. */
  datatype UserPayload = UserPayload(
    id: Option<string>,
    name: Option<string>,
    email: Option<string>,
    password: Option<string>,
    contact: Option<string>)

  datatype LoginPayload = LoginPayload(email: Option<string>, password: Option<string>)

  datatype AnimalPayload = AnimalPayload(
    id: Option<string>,
    name: Option<string>,
    age: Option<real>,
    animalType: Option<string>,
    breed: Option<string>,
    ownerId: Option<string>,
    ownerName: Option<string>,
    ownerContact: Option<string>)

  const AnimalTypes: seq<string> := ["CAT", "DOG"]

  function Phone(): StringRule
  {
    Matches(PhonePattern, PhonePattern.BackendPhone)
  }

  const UserKeys: seq<string> := ["id", "name", "email", "password", "contact"]
  const LoginKeys: seq<string> := ["email", "password"]
  const RegisterKeys: seq<string> := ["name", "email", "password", "contact"]
  const AnimalKeys: seq<string> := ["id", "name", "age", "type", "breed", "ownerId", "ownerName", "ownerContact"]
  const CreateKeys: seq<string> := ["name", "age", "type", "breed", "ownerName", "ownerContact"]

  // The fields of `UserSchema`, each with its checks.

  function UserId(f: Formats, u: UserPayload): seq<Issue>
  {
    StringField("id", u.id, true, [Matches(Uuid, f.isUuid)])
  }

  function UserName(u: UserPayload): seq<Issue>
  {
    StringField("name", u.name, false, [MinLength(2)])
  }

  function UserEmail(f: Formats, u: UserPayload): seq<Issue>
  {
    StringField("email", u.email, false, [Matches(Email, f.isEmail)])
  }

  function UserPassword(u: UserPayload): seq<Issue>
  {
    StringField("password", u.password, true, [MinLength(6)])
  }

  function UserContact(u: UserPayload): seq<Issue>
  {
    StringField("contact", u.contact, false, [Phone()])
  }

  function UserIssues(f: Formats, u: UserPayload): (r: seq<Issue>)
    ensures InKeyOrder(r, UserKeys)
  {
    var id, name, email, password, contact := UserId(f, u), UserName(u), UserEmail(f, u), UserPassword(u), UserContact(u);
    Fields5(id, name, email, password, contact, UserKeys);
    id + (name + (email + (password + contact)))
  }

  predicate UserValid(f: Formats, u: UserPayload)
  {
    UserIssues(f, u) == []
  }

  function LoginIssues(f: Formats, l: LoginPayload): (r: seq<Issue>)
    ensures InKeyOrder(r, LoginKeys)
  {
    var email := StringField("email", l.email, false, [Matches(Email, f.isEmail)]);
    var password := StringField("password", l.password, false, [MinLength(6)]);
    Fields2(email, password, LoginKeys);
    email + password
  }

  predicate LoginValid(f: Formats, l: LoginPayload)
  {
    LoginIssues(f, l) == []
  }

  /** `UserSchema.omit({ id, createdAt, updatedAt })`: an `id` in the payload is stripped, not checked. */
  function RegisterIssues(f: Formats, u: UserPayload): (r: seq<Issue>)
    ensures InKeyOrder(r, RegisterKeys)
  {
    var name, email, password, contact := UserName(u), UserEmail(f, u), UserPassword(u), UserContact(u);
    Fields4(name, email, password, contact, RegisterKeys);
    name + (email + (password + contact))
  }

  predicate RegisterValid(f: Formats, u: UserPayload)
  {
    RegisterIssues(f, u) == []
  }

  predicate AnimalTypeValid(s: string)
  {
    s in AnimalTypes
  }

  // The fields of `AnimalSchema`; `optional` is the `.partial()` of the update schema.

  function AnimalId(f: Formats, p: AnimalPayload): seq<Issue>
  {
    StringField("id", p.id, true, [Matches(Uuid, f.isUuid)])
  }

  function AnimalName(p: AnimalPayload, optional: bool): seq<Issue>
  {
    StringField("name", p.name, optional, [MinLength(1)])
  }

  function AnimalAge(p: AnimalPayload, optional: bool): seq<Issue>
  {
    NumberField("age", p.age, optional, [Integer, AtLeast(0)])
  }

  function AnimalTypeField(p: AnimalPayload, optional: bool): seq<Issue>
  {
    EnumField("type", p.animalType, optional, AnimalTypes)
  }

  function AnimalBreed(p: AnimalPayload, optional: bool): seq<Issue>
  {
    StringField("breed", p.breed, optional, [MinLength(1)])
  }

  function AnimalOwnerId(f: Formats, p: AnimalPayload): seq<Issue>
  {
    StringField("ownerId", p.ownerId, true, [Matches(Uuid, f.isUuid)])
  }

  function AnimalOwnerName(p: AnimalPayload, optional: bool): seq<Issue>
  {
    StringField("ownerName", p.ownerName, optional, [MinLength(1)])
  }

  function AnimalOwnerContact(p: AnimalPayload, optional: bool): seq<Issue>
  {
    StringField("ownerContact", p.ownerContact, optional, [Phone()])
  }

  /** The fields `CreateAnimalSchema` keeps, in key order; `optional` turns them into `.partial()`. */
  function AnimalBodyIssues(p: AnimalPayload, optional: bool): (r: seq<Issue>)
    ensures InKeyOrder(r, CreateKeys)
  {
    var a, b, c := AnimalName(p, optional), AnimalAge(p, optional), AnimalTypeField(p, optional);
    var d, e, g := AnimalBreed(p, optional), AnimalOwnerName(p, optional), AnimalOwnerContact(p, optional);
    Fields6(a, b, c, d, e, g, CreateKeys);
    a + (b + (c + (d + (e + g))))
  }

  function AnimalIssues(f: Formats, p: AnimalPayload): (r: seq<Issue>)
    ensures InKeyOrder(r, AnimalKeys)
  {
    var i, a, b, c := AnimalId(f, p), AnimalName(p, false), AnimalAge(p, false), AnimalTypeField(p, false);
    var d, o, e, g := AnimalBreed(p, false), AnimalOwnerId(f, p), AnimalOwnerName(p, false), AnimalOwnerContact(p, false);
    Fields8(i, a, b, c, d, o, e, g, AnimalKeys);
    i + (a + (b + (c + (d + (o + (e + g))))))
  }

  predicate AnimalValid(f: Formats, p: AnimalPayload)
  {
    AnimalIssues(f, p) == []
  }

  predicate CreateAnimalValid(p: AnimalPayload)
  {
    AnimalBodyIssues(p, false) == []
  }

  predicate UpdateAnimalValid(p: AnimalPayload)
  {
    AnimalBodyIssues(p, true) == []
  }

  /** A present, non-empty string holding at least `n` characters. */
  predicate AtLeastChars(v: Option<string>, n: nat)
  {
    v.Some? && |v.value| >= n
  }

  /** The user rules: name of 2 or more, a valid email, a password of 6 or more when present, a phone contact. */
  lemma UserRules(f: Formats, u: UserPayload)
    ensures UserValid(f, u) <==>
      (u.id.None? || f.isUuid(u.id.value))
      && AtLeastChars(u.name, 2)
      && u.email.Some? && f.isEmail(u.email.value)
      && (u.password.None? || |u.password.value| >= 6)
      && u.contact.Some? && PhonePattern.BackendPhone(u.contact.value)
  {
    var id, name, email, password, contact := UserId(f, u), UserName(u), UserEmail(f, u), UserPassword(u), UserContact(u);
    NoIssuesConcat(id, name + (email + (password + contact)));
    NoIssuesConcat(name, email + (password + contact));
    NoIssuesConcat(email, password + contact);
    NoIssuesConcat(password, contact);
  }

  /** The register rules are the user rules without the id. */
  lemma RegisterFieldRules(f: Formats, u: UserPayload)
    ensures RegisterValid(f, u) <==>
      AtLeastChars(u.name, 2)
      && u.email.Some? && f.isEmail(u.email.value)
      && (u.password.None? || |u.password.value| >= 6)
      && u.contact.Some? && PhonePattern.BackendPhone(u.contact.value)
  {
    var name, email, password, contact := UserName(u), UserEmail(f, u), UserPassword(u), UserContact(u);
    NoIssuesConcat(name, email + (password + contact));
    NoIssuesConcat(email, password + contact);
    NoIssuesConcat(password, contact);
  }

  /** A user with a one-character name is rejected, whatever else it carries. */
  lemma UserRejectsShortName(f: Formats, u: UserPayload)
    requires u.name.Some? && |u.name.value| < 2
    ensures !UserValid(f, u) && !RegisterValid(f, u)
  {
    UserRules(f, u);
    RegisterFieldRules(f, u);
  }

  /** A present password shorter than 6 is rejected; leaving it out is accepted. */
  lemma UserPasswordRule(f: Formats, u: UserPayload)
    ensures u.password.Some? && |u.password.value| < 6 ==> !UserValid(f, u)
    ensures UserValid(f, u) ==> UserValid(f, u.(password := None))
  {
    UserRules(f, u);
    UserRules(f, u.(password := None));
  }

  /** Login needs a valid email and a password of at least 6 characters. */
  lemma LoginRules(f: Formats, l: LoginPayload)
    ensures LoginValid(f, l) <==>
      l.email.Some? && f.isEmail(l.email.value) && AtLeastChars(l.password, 6)
  {
    NoIssuesConcat(StringField("email", l.email, false, [Matches(Email, f.isEmail)]),
                   StringField("password", l.password, false, [MinLength(6)]));
  }

  /**
   * Registering is validating a user without its id: a payload with no
   * password still registers, and every valid user registers.
   */
  lemma RegisterRules(f: Formats, u: UserPayload)
    ensures RegisterValid(f, u) <==> UserValid(f, u.(id := None))
    ensures RegisterValid(f, u) ==> RegisterValid(f, u.(password := None))
    ensures UserValid(f, u) ==> RegisterValid(f, u)
  {
    UserRules(f, u);
    UserRules(f, u.(id := None));
    RegisterFieldRules(f, u);
    RegisterFieldRules(f, u.(password := None));
  }

  lemma AnimalBodyRules(p: AnimalPayload, optional: bool)
    ensures AnimalBodyIssues(p, optional) == [] <==>
      (if p.name.None? then optional else |p.name.value| >= 1)
      && (if p.age.None? then optional else IsInteger(p.age.value) && p.age.value >= 0.0)
      && (if p.animalType.None? then optional else AnimalTypeValid(p.animalType.value))
      && (if p.breed.None? then optional else |p.breed.value| >= 1)
      && (if p.ownerName.None? then optional else |p.ownerName.value| >= 1)
      && (if p.ownerContact.None? then optional else PhonePattern.BackendPhone(p.ownerContact.value))
  {
    var a, b, c := AnimalName(p, optional), AnimalAge(p, optional), AnimalTypeField(p, optional);
    var d, e, g := AnimalBreed(p, optional), AnimalOwnerName(p, optional), AnimalOwnerContact(p, optional);
    var ageRules := [Integer, AtLeast(0)];
    assert p.age.Some? ==> (b == [] <==> SatisfiesNumber(p.age.value, ageRules[0]) && SatisfiesNumber(p.age.value, ageRules[1]));
    NoIssuesConcat(a, b + (c + (d + (e + g))));
    NoIssuesConcat(b, c + (d + (e + g)));
    NoIssuesConcat(c, d + (e + g));
    NoIssuesConcat(d, e + g);
    NoIssuesConcat(e, g);
  }

  /**
   * The animal rules: non-empty name, breed and owner name, an integer age of
   * at least 0, a type of CAT or DOG, an owner contact matching the phone
   * pattern, and uuids where ids are given.
   */
  lemma AnimalRules(f: Formats, p: AnimalPayload)
    ensures AnimalValid(f, p) <==>
      (p.id.None? || f.isUuid(p.id.value))
      && AtLeastChars(p.name, 1)
      && p.age.Some? && IsInteger(p.age.value) && p.age.value >= 0.0
      && p.animalType.Some? && AnimalTypeValid(p.animalType.value)
      && AtLeastChars(p.breed, 1)
      && (p.ownerId.None? || f.isUuid(p.ownerId.value))
      && AtLeastChars(p.ownerName, 1)
      && p.ownerContact.Some? && PhonePattern.BackendPhone(p.ownerContact.value)
  {
    var i, a, b, c := AnimalId(f, p), AnimalName(p, false), AnimalAge(p, false), AnimalTypeField(p, false);
    var d, o, e, g := AnimalBreed(p, false), AnimalOwnerId(f, p), AnimalOwnerName(p, false), AnimalOwnerContact(p, false);
    var ageRules := [Integer, AtLeast(0)];
    assert p.age.Some? ==> (b == [] <==> SatisfiesNumber(p.age.value, ageRules[0]) && SatisfiesNumber(p.age.value, ageRules[1]));
    NoIssuesConcat(i, a + (b + (c + (d + (o + (e + g))))));
    NoIssuesConcat(a, b + (c + (d + (o + (e + g)))));
    NoIssuesConcat(b, c + (d + (o + (e + g))));
    NoIssuesConcat(c, d + (o + (e + g)));
    NoIssuesConcat(d, o + (e + g));
    NoIssuesConcat(o, e + g);
    NoIssuesConcat(e, g);
  }

  /** The create schema is the animal schema without the ids: a valid animal is a valid create payload. */
  lemma CreateFromAnimal(f: Formats, p: AnimalPayload)
    ensures AnimalValid(f, p) ==> CreateAnimalValid(p)
    ensures CreateAnimalValid(p) <==> AnimalValid(f, p.(id := None, ownerId := None))
  {
    AnimalRules(f, p);
    AnimalRules(f, p.(id := None, ownerId := None));
    AnimalBodyRules(p, false);
  }

  /** Every valid create payload is a valid update, and so is the empty payload. */
  lemma UpdateIsPartialCreate(p: AnimalPayload)
    ensures CreateAnimalValid(p) ==> UpdateAnimalValid(p)
    ensures UpdateAnimalValid(AnimalPayload(None, None, None, None, None, None, None, None))
  {
    AnimalBodyRules(p, false);
    AnimalBodyRules(p, true);
    AnimalBodyRules(AnimalPayload(None, None, None, None, None, None, None, None), true);
  }

  /** Dropping fields from a valid update leaves it valid. */
  lemma UpdateDropField(p: AnimalPayload)
    requires UpdateAnimalValid(p)
    ensures UpdateAnimalValid(p.(name := None))
    ensures UpdateAnimalValid(p.(age := None))
    ensures UpdateAnimalValid(p.(animalType := None))
    ensures UpdateAnimalValid(p.(breed := None))
    ensures UpdateAnimalValid(p.(ownerName := None))
    ensures UpdateAnimalValid(p.(ownerContact := None))
  {
    AnimalBodyRules(p, true);
    AnimalBodyRules(p.(name := None), true);
    AnimalBodyRules(p.(age := None), true);
    AnimalBodyRules(p.(animalType := None), true);
    AnimalBodyRules(p.(breed := None), true);
    AnimalBodyRules(p.(ownerName := None), true);
    AnimalBodyRules(p.(ownerContact := None), true);
  }
}
