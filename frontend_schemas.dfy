/**
 * The frontend form schemas (`apps/frontend/src/lib/schemas.ts`). Phone and
 * contact fields combine a length window of 10 to 15 characters with the
 * frontend copy of the phone pattern, whose separator class includes
 * whitespace. The animal age has bounds but no integer check.
 */
module FrontendSchemas {
  import opened Wrappers
  import opened Validation
  import PhonePattern
  import Regex

  datatype LoginForm = LoginForm(email: Option<string>, password: Option<string>)

  datatype RegisterForm = RegisterForm(
    name: Option<string>,
    email: Option<string>,
    phone: Option<string>,
    password: Option<string>,
    confirmPassword: Option<string>)

  datatype AnimalForm = AnimalForm(
    name: Option<string>,
    animalType: Option<string>,
    age: Option<real>,
    breed: Option<string>,
    ownerName: Option<string>,
    ownerContact: Option<string>)

  const PasswordMismatch := "As senhas não coincidem"

  function PhoneRules(): seq<StringRule>
  {
    [MinLength(10), MaxLength(15), Matches(PhonePattern, PhonePattern.FrontendPhone)]
  }

  predicate PhoneAccepted(s: string)
  {
    10 <= |s| <= 15 && PhonePattern.FrontendPhone(s)
  }

  lemma PhoneRulesMeaning(s: string)
    ensures (forall i :: 0 <= i < |PhoneRules()| ==> SatisfiesString(s, PhoneRules()[i])) <==> PhoneAccepted(s)
  {
    var rs := PhoneRules();
    assert SatisfiesString(s, rs[0]) <==> |s| >= 10;
    assert SatisfiesString(s, rs[1]) <==> |s| <= 15;
    assert SatisfiesString(s, rs[2]) <==> PhonePattern.FrontendPhone(s);
  }

  const LoginKeys: seq<string> := ["email", "password"]
  const RegisterKeys: seq<string> := ["name", "email", "phone", "password", "confirmPassword"]
  const AnimalKeys: seq<string> := ["name", "type", "age", "breed", "ownerName", "ownerContact"]

  function LoginIssues(f: Formats, l: LoginForm): (r: seq<Issue>)
    ensures InKeyOrder(r, LoginKeys)
  {
    var email := StringField("email", l.email, false, [Matches(Email, f.isEmail)]);
    var password := StringField("password", l.password, false, [MinLength(6)]);
    Fields2(email, password, LoginKeys);
    email + password
  }

  predicate LoginValid(f: Formats, l: LoginForm)
  {
    LoginIssues(f, l) == []
  }

  // The fields of the register form, each with its checks.

  function RegisterName(r: RegisterForm): seq<Issue>
  {
    StringField("name", r.name, false, [MinLength(2)])
  }

  function RegisterEmail(f: Formats, r: RegisterForm): seq<Issue>
  {
    StringField("email", r.email, false, [Matches(Email, f.isEmail)])
  }

  function RegisterPhone(r: RegisterForm): seq<Issue>
  {
    StringField("phone", r.phone, false, PhoneRules())
  }

  function RegisterPassword(r: RegisterForm): seq<Issue>
  {
    StringField("password", r.password, false, [MinLength(6)])
  }

  function RegisterConfirm(r: RegisterForm): seq<Issue>
  {
    StringField("confirmPassword", r.confirmPassword, false, [])
  }

  function RegisterFieldIssues(f: Formats, r: RegisterForm): (res: seq<Issue>)
    ensures InKeyOrder(res, RegisterKeys)
  {
    var a, b, c, d, e := RegisterName(r), RegisterEmail(f, r), RegisterPhone(r), RegisterPassword(r), RegisterConfirm(r);
    Fields5(a, b, c, d, e, RegisterKeys);
    a + (b + (c + (d + e)))
  }

  /** Every field is a string, so the object parse is not aborted and the refinement runs. */
  predicate AllPresent(r: RegisterForm)
  {
    r.name.Some? && r.email.Some? && r.phone.Some? && r.password.Some? && r.confirmPassword.Some?
  }

  /** The `refine` issue, on `confirmPassword`, when the refinement runs and the passwords differ. */
  function Mismatch(r: RegisterForm): seq<Issue>
  {
    if AllPresent(r) && r.password != r.confirmPassword
    then [Issue("confirmPassword", Custom(PasswordMismatch))] else []
  }

  /**
   * The object's field issues, then the `refine` issue; since that issue is
   * on the last key, the whole list is still grouped in key order.
   */
  function RegisterIssues(f: Formats, r: RegisterForm): (res: seq<Issue>)
    ensures InKeyOrder(res, RegisterKeys)
  {
    AppendLastField(RegisterFieldIssues(f, r), Mismatch(r), RegisterKeys, 0);
    RegisterFieldIssues(f, r) + Mismatch(r)
  }

  predicate RegisterValid(f: Formats, r: RegisterForm)
  {
    RegisterIssues(f, r) == []
  }

  // The fields of the animal form.

  function AnimalName(a: AnimalForm): seq<Issue>
  {
    StringField("name", a.name, false, [MinLength(1)])
  }

  function AnimalTypeField(a: AnimalForm): seq<Issue>
  {
    EnumField("type", a.animalType, false, ["DOG", "CAT"])
  }

  function AnimalAge(a: AnimalForm): seq<Issue>
  {
    NumberField("age", a.age, false, [AtLeast(0), AtMost(30)])
  }

  function AnimalBreed(a: AnimalForm): seq<Issue>
  {
    StringField("breed", a.breed, false, [MinLength(1)])
  }

  function AnimalOwnerName(a: AnimalForm): seq<Issue>
  {
    StringField("ownerName", a.ownerName, false, [MinLength(1)])
  }

  function AnimalOwnerContact(a: AnimalForm): seq<Issue>
  {
    StringField("ownerContact", a.ownerContact, false, PhoneRules())
  }

  function AnimalIssues(a: AnimalForm): (r: seq<Issue>)
    ensures InKeyOrder(r, AnimalKeys)
  {
    var n, t, g, b, o, c := AnimalName(a), AnimalTypeField(a), AnimalAge(a), AnimalBreed(a), AnimalOwnerName(a), AnimalOwnerContact(a);
    Fields6(n, t, g, b, o, c, AnimalKeys);
    n + (t + (g + (b + (o + c))))
  }

  predicate AnimalValid(a: AnimalForm)
  {
    AnimalIssues(a) == []
  }

  lemma LoginRules(f: Formats, l: LoginForm)
    ensures LoginValid(f, l) <==>
      l.email.Some? && f.isEmail(l.email.value) && l.password.Some? && |l.password.value| >= 6
  {
    NoIssuesConcat(StringField("email", l.email, false, [Matches(Email, f.isEmail)]),
                   StringField("password", l.password, false, [MinLength(6)]));
  }

  lemma RegisterFieldRules(f: Formats, r: RegisterForm)
    ensures RegisterFieldIssues(f, r) == [] <==>
      AllPresent(r) && |r.name.value| >= 2 && f.isEmail(r.email.value)
      && PhoneAccepted(r.phone.value) && |r.password.value| >= 6
  {
    var a, b, c, d, e := RegisterName(r), RegisterEmail(f, r), RegisterPhone(r), RegisterPassword(r), RegisterConfirm(r);
    if r.phone.Some? {
      PhoneRulesMeaning(r.phone.value);
    }
    NoIssuesConcat(a, b + (c + (d + e)));
    NoIssuesConcat(b, c + (d + e));
    NoIssuesConcat(c, d + e);
    NoIssuesConcat(d, e);
  }

  /** The register form: the field rules, and the two passwords equal. */
  lemma RegisterRules(f: Formats, r: RegisterForm)
    ensures RegisterValid(f, r) <==>
      AllPresent(r) && |r.name.value| >= 2 && f.isEmail(r.email.value)
      && PhoneAccepted(r.phone.value) && |r.password.value| >= 6
      && r.password == r.confirmPassword
  {
    RegisterFieldRules(f, r);
    NoIssuesConcat(RegisterFieldIssues(f, r), Mismatch(r));
  }

  /**
   * With every field present and different passwords, the mismatch is
   * reported on `confirmPassword`, even when other fields fail their own
   * checks; with a field missing the refinement does not run.
   */
  lemma PasswordConfirmation(f: Formats, r: RegisterForm)
    ensures (AllPresent(r) && r.password != r.confirmPassword) <==>
      Issue("confirmPassword", Custom(PasswordMismatch)) in RegisterIssues(f, r)
  {
    var fields := RegisterFieldIssues(f, r);
    var i := Issue("confirmPassword", Custom(PasswordMismatch));
    if i in fields {
      var k :| 0 <= k < |fields| && fields[k] == i;
      FieldIssuesNotCustom(f, r, k);
    }
    if AllPresent(r) && r.password != r.confirmPassword {
      assert RegisterIssues(f, r)[|fields|] == i;
    }
  }

  /** Field checks never produce a custom issue; only the refinement does. */
  lemma FieldIssuesNotCustom(f: Formats, r: RegisterForm, k: int)
    requires 0 <= k < |RegisterFieldIssues(f, r)|
    ensures !RegisterFieldIssues(f, r)[k].code.Custom?
  {
    var a, b, c, d, e := RegisterName(r), RegisterEmail(f, r), RegisterPhone(r), RegisterPassword(r), RegisterConfirm(r);
    NoCustom("name", r.name, [MinLength(2)]);
    NoCustom("email", r.email, [Matches(Email, f.isEmail)]);
    NoCustom("phone", r.phone, PhoneRules());
    NoCustom("password", r.password, [MinLength(6)]);
    NoCustom("confirmPassword", r.confirmPassword, []);
    assert RegisterFieldIssues(f, r) == a + (b + (c + (d + e)));
  }

  lemma {:induction false} NoCustomIssues(path: string, s: string, rules: seq<StringRule>)
    ensures forall i :: 0 <= i < |StringIssues(path, s, rules)| ==> !StringIssues(path, s, rules)[i].code.Custom?
  {
    if rules != [] {
      NoCustomIssues(path, s, rules[1..]);
    }
  }

  lemma NoCustom(path: string, v: Option<string>, rules: seq<StringRule>)
    ensures forall i :: 0 <= i < |StringField(path, v, false, rules)| ==> !StringField(path, v, false, rules)[i].code.Custom?
  {
    if v.Some? {
      NoCustomIssues(path, v.value, rules);
    }
  }

  /** The animal form: non-empty name, breed and owner name, DOG or CAT, age within 0..30, a phone contact. */
  lemma AnimalRules(a: AnimalForm)
    ensures AnimalValid(a) <==>
      a.name.Some? && |a.name.value| >= 1
      && a.animalType.Some? && a.animalType.value in ["DOG", "CAT"]
      && a.age.Some? && 0.0 <= a.age.value <= 30.0
      && a.breed.Some? && |a.breed.value| >= 1
      && a.ownerName.Some? && |a.ownerName.value| >= 1
      && a.ownerContact.Some? && PhoneAccepted(a.ownerContact.value)
  {
    var n, t, g, b, o, c := AnimalName(a), AnimalTypeField(a), AnimalAge(a), AnimalBreed(a), AnimalOwnerName(a), AnimalOwnerContact(a);
    var ageRules := [AtLeast(0), AtMost(30)];
    assert a.age.Some? ==> (g == [] <==> SatisfiesNumber(a.age.value, ageRules[0]) && SatisfiesNumber(a.age.value, ageRules[1]));
    if a.ownerContact.Some? {
      PhoneRulesMeaning(a.ownerContact.value);
    }
    NoIssuesConcat(n, t + (g + (b + (o + c))));
    NoIssuesConcat(t, g + (b + (o + c)));
    NoIssuesConcat(g, b + (o + c));
    NoIssuesConcat(b, o + c);
    NoIssuesConcat(o, c);
  }

  /** The age needs no integer: a valid form stays valid with a fractional age inside the bounds. */
  lemma FractionalAgeAccepted(a: AnimalForm)
    requires AnimalValid(a)
    ensures AnimalValid(a.(age := Some(2.5)))
    ensures !AnimalValid(a.(age := Some(30.5))) && !AnimalValid(a.(age := Some(-1.0)))
  {
    AnimalRules(a);
    AnimalRules(a.(age := Some(2.5)));
    AnimalRules(a.(age := Some(30.5)));
    AnimalRules(a.(age := Some(-1.0)));
  }

  /** The pattern alone accepts "99999999", but the register phone field rejects it for its length. */
  lemma ShortPhoneRejected(f: Formats, r: RegisterForm)
    requires r.phone == Some("99999999")
    ensures PhonePattern.FrontendPhone("99999999")
    ensures !RegisterValid(f, r)
  {
    PhonePattern.EightDigitsExample(PhonePattern.FrontendSeparator());
    RegisterRules(f, r);
  }

  /** The documented example "11 99999-9999" is an accepted phone for both forms. */
  lemma MessageExampleAccepted()
    ensures PhoneAccepted("11 99999-9999")
  {
    PhonePattern.FrontendAcceptsExamples();
  }
}
