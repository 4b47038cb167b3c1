/**
 * The fragment of Zod that the schemas use. A schema is a function from a
 * payload to the list of issues Zod would report, in field order; a payload is
 * valid when the list is empty. Every check of a string field runs (Zod keeps
 * going after a failed length check), a missing required field reports one
 * `Required` issue and no further checks, and a missing optional field reports
 * nothing.
 */
module Validation {
  import opened Wrappers

  datatype Format = Email | Uuid | PhonePattern

  datatype IssueCode =
    | Required
    | TooShort(minimum: nat)
    | TooLong(maximum: nat)
    | BadFormat(format: Format)
    | NotInEnum(options: seq<string>)
    | NotInteger
    | BelowMinimum(lowest: int)
    | AboveMaximum(highest: int)
    | Custom(message: string)

  datatype Issue = Issue(path: string, code: IssueCode)

  /** Zod's `email()` and `uuid()` recognisers, taken as given. */
  datatype Formats = Formats(isEmail: string -> bool, isUuid: string -> bool)

  datatype StringRule =
    | MinLength(min: nat)
    | MaxLength(max: nat)
    | Matches(format: Format, accepts: string -> bool)

  predicate SatisfiesString(s: string, rule: StringRule)
  {
    match rule
    case MinLength(n) => |s| >= n
    case MaxLength(n) => |s| <= n
    case Matches(_, accepts) => accepts(s)
  }

  function StringIssue(path: string, rule: StringRule): Issue
  {
    match rule
    case MinLength(n) => Issue(path, TooShort(n))
    case MaxLength(n) => Issue(path, TooLong(n))
    case Matches(f, _) => Issue(path, BadFormat(f))
  }

  /** The issues of the checks chained on a present string, in chain order. */
  function StringIssues(path: string, s: string, rules: seq<StringRule>): (r: seq<Issue>)
    ensures r == [] <==> forall i :: 0 <= i < |rules| ==> SatisfiesString(s, rules[i])
    ensures |r| <= |rules| && forall i :: 0 <= i < |r| ==> r[i].path == path
  {
    if rules == [] then []
    else
      (if SatisfiesString(s, rules[0]) then [] else [StringIssue(path, rules[0])])
      + StringIssues(path, s, rules[1..])
  }

  /** A `z.string()` field with its chained checks; `optional` is `.optional()`. */
  function StringField(path: string, v: Option<string>, optional: bool, rules: seq<StringRule>): (r: seq<Issue>)
    ensures r == [] <==> if v.None? then optional else forall i :: 0 <= i < |rules| ==> SatisfiesString(v.value, rules[i])
    ensures forall i :: 0 <= i < |r| ==> r[i].path == path
  {
    match v
    case None => if optional then [] else [Issue(path, Required)]
    case Some(s) => StringIssues(path, s, rules)
  }

  predicate IsInteger(x: real)
  {
    x.Floor as real == x
  }

  datatype NumberRule = Integer | AtLeast(lo: int) | AtMost(hi: int)

  predicate SatisfiesNumber(x: real, rule: NumberRule)
  {
    match rule
    case Integer => IsInteger(x)
    case AtLeast(lo) => x >= lo as real
    case AtMost(hi) => x <= hi as real
  }

  function NumberIssue(path: string, rule: NumberRule): Issue
  {
    match rule
    case Integer => Issue(path, NotInteger)
    case AtLeast(lo) => Issue(path, BelowMinimum(lo))
    case AtMost(hi) => Issue(path, AboveMaximum(hi))
  }

  function NumberIssues(path: string, x: real, rules: seq<NumberRule>): (r: seq<Issue>)
    ensures r == [] <==> forall i :: 0 <= i < |rules| ==> SatisfiesNumber(x, rules[i])
    ensures forall i :: 0 <= i < |r| ==> r[i].path == path
  {
    if rules == [] then []
    else
      (if SatisfiesNumber(x, rules[0]) then [] else [NumberIssue(path, rules[0])])
      + NumberIssues(path, x, rules[1..])
  }

  /**
   * A `z.coerce.number()` field. The coercion itself is not modelled: the
   * payload carries the number it produced, and `None` stands for a missing
   * field (which coerces to NaN and is reported as an invalid type).
   */
  function NumberField(path: string, v: Option<real>, optional: bool, rules: seq<NumberRule>): (r: seq<Issue>)
    ensures r == [] <==> if v.None? then optional else forall i :: 0 <= i < |rules| ==> SatisfiesNumber(v.value, rules[i])
    ensures forall i :: 0 <= i < |r| ==> r[i].path == path
  {
    match v
    case None => if optional then [] else [Issue(path, Required)]
    case Some(x) => NumberIssues(path, x, rules)
  }

  /** A `z.enum([...])` field. */
  function EnumField(path: string, v: Option<string>, optional: bool, options: seq<string>): (r: seq<Issue>)
    ensures r == [] <==> if v.None? then optional else v.value in options
    ensures forall i :: 0 <= i < |r| ==> r[i].path == path
  {
    match v
    case None => if optional then [] else [Issue(path, Required)]
    case Some(s) => if s in options then [] else [Issue(path, NotInEnum(options))]
  }

  /** The issues of an object schema are the concatenation of its fields' issues. */
  lemma NoIssuesConcat(a: seq<Issue>, b: seq<Issue>)
    ensures a + b == [] <==> a == [] && b == []
  {
    if a != [] {
      assert (a + b)[0] == a[0];
    }
  }

  /**
   * The issues split into consecutive groups, one per key from `keys[k]` on,
   * every issue of a group being on its key.
   */
  predicate GroupedFrom(r: seq<Issue>, keys: seq<string>, k: nat)
    requires k <= |keys|
    decreases |keys| - k
  {
    if k == |keys| then r == []
    else exists n :: 0 <= n <= |r| && (forall i :: 0 <= i < n ==> r[i].path == keys[k]) && GroupedFrom(r[n..], keys, k + 1)
  }

  /**
   * The issues of an object are grouped by field, in the order of its keys, as
   * Zod walks the object's shape.
   */
  predicate InKeyOrder(r: seq<Issue>, keys: seq<string>)
  {
    GroupedFrom(r, keys, 0)
  }

  /** Putting the issues of the field `keys[k]` in front of those of the later fields keeps key order. */
  lemma PrependField(first: seq<Issue>, rest: seq<Issue>, keys: seq<string>, k: nat)
    requires k < |keys|
    requires forall i :: 0 <= i < |first| ==> first[i].path == keys[k]
    requires GroupedFrom(rest, keys, k + 1)
    ensures GroupedFrom(first + rest, keys, k)
  {
    var r := first + rest;
    assert r[|first|..] == rest;
    assert forall i :: 0 <= i < |first| ==> r[i] == first[i];
  }

  /** The issues of the last field alone are in key order from that field on. */
  lemma LastField(last: seq<Issue>, keys: seq<string>, k: nat)
    requires k + 1 == |keys|
    requires forall i :: 0 <= i < |last| ==> last[i].path == keys[k]
    ensures GroupedFrom(last, keys, k)
  {
    PrependField(last, [], keys, k);
    assert last + [] == last;
  }

  /** Issues in key order are all on keys. */
  lemma {:induction false} GroupedOnKeys(r: seq<Issue>, keys: seq<string>, k: nat)
    requires k <= |keys| && GroupedFrom(r, keys, k)
    ensures forall i :: 0 <= i < |r| ==> r[i].path in keys[k..]
    decreases |keys| - k
  {
    if k < |keys| {
      var n :| 0 <= n <= |r| && (forall i :: 0 <= i < n ==> r[i].path == keys[k]) && GroupedFrom(r[n..], keys, k + 1);
      GroupedOnKeys(r[n..], keys, k + 1);
      forall i | 0 <= i < |r| ensures r[i].path in keys[k..] {
        if i >= n {
          assert r[i] == r[n..][i - n];
          assert keys[k + 1..] == keys[k..][1..];
        }
      }
    }
  }

  /** Issues of the last key appended after issues in key order (an object-level `refine` on that key) keep key order. */
  lemma {:induction false} AppendLastField(r: seq<Issue>, m: seq<Issue>, keys: seq<string>, k: nat)
    requires k < |keys| && GroupedFrom(r, keys, k)
    requires forall i :: 0 <= i < |m| ==> m[i].path == keys[|keys| - 1]
    ensures GroupedFrom(r + m, keys, k)
    decreases |keys| - k
  {
    var n :| 0 <= n <= |r| && (forall i :: 0 <= i < n ==> r[i].path == keys[k]) && GroupedFrom(r[n..], keys, k + 1);
    if k + 1 == |keys| {
      assert r[n..] == [];
      assert r == r[..n];
      LastField(r + m, keys, k);
    } else {
      AppendLastField(r[n..], m, keys, k + 1);
      assert r + m == r[..n] + (r[n..] + m);
      PrependField(r[..n], r[n..] + m, keys, k);
    }
  }

  // An object of two, four, five, six or eight fields, each field's issues on its own key.

  lemma Fields2(a: seq<Issue>, b: seq<Issue>, keys: seq<string>)
    requires |keys| == 2
    requires forall i :: 0 <= i < |a| ==> a[i].path == keys[0]
    requires forall i :: 0 <= i < |b| ==> b[i].path == keys[1]
    ensures InKeyOrder(a + b, keys)
  {
    LastField(b, keys, 1);
    PrependField(a, b, keys, 0);
  }

  lemma Fields4(a: seq<Issue>, b: seq<Issue>, c: seq<Issue>, d: seq<Issue>, keys: seq<string>)
    requires |keys| == 4
    requires forall i :: 0 <= i < |a| ==> a[i].path == keys[0]
    requires forall i :: 0 <= i < |b| ==> b[i].path == keys[1]
    requires forall i :: 0 <= i < |c| ==> c[i].path == keys[2]
    requires forall i :: 0 <= i < |d| ==> d[i].path == keys[3]
    ensures InKeyOrder(a + (b + (c + d)), keys)
  {
    LastField(d, keys, 3);
    PrependField(c, d, keys, 2);
    PrependField(b, c + d, keys, 1);
    PrependField(a, b + (c + d), keys, 0);
  }

  lemma Fields5(a: seq<Issue>, b: seq<Issue>, c: seq<Issue>, d: seq<Issue>, e: seq<Issue>, keys: seq<string>)
    requires |keys| == 5
    requires forall i :: 0 <= i < |a| ==> a[i].path == keys[0]
    requires forall i :: 0 <= i < |b| ==> b[i].path == keys[1]
    requires forall i :: 0 <= i < |c| ==> c[i].path == keys[2]
    requires forall i :: 0 <= i < |d| ==> d[i].path == keys[3]
    requires forall i :: 0 <= i < |e| ==> e[i].path == keys[4]
    ensures InKeyOrder(a + (b + (c + (d + e))), keys)
  {
    LastField(e, keys, 4);
    PrependField(d, e, keys, 3);
    PrependField(c, d + e, keys, 2);
    PrependField(b, c + (d + e), keys, 1);
    PrependField(a, b + (c + (d + e)), keys, 0);
  }

  lemma Fields6(a: seq<Issue>, b: seq<Issue>, c: seq<Issue>, d: seq<Issue>, e: seq<Issue>, f: seq<Issue>, keys: seq<string>)
    requires |keys| == 6
    requires forall i :: 0 <= i < |a| ==> a[i].path == keys[0]
    requires forall i :: 0 <= i < |b| ==> b[i].path == keys[1]
    requires forall i :: 0 <= i < |c| ==> c[i].path == keys[2]
    requires forall i :: 0 <= i < |d| ==> d[i].path == keys[3]
    requires forall i :: 0 <= i < |e| ==> e[i].path == keys[4]
    requires forall i :: 0 <= i < |f| ==> f[i].path == keys[5]
    ensures InKeyOrder(a + (b + (c + (d + (e + f)))), keys)
  {
    LastField(f, keys, 5);
    PrependField(e, f, keys, 4);
    PrependField(d, e + f, keys, 3);
    PrependField(c, d + (e + f), keys, 2);
    PrependField(b, c + (d + (e + f)), keys, 1);
    PrependField(a, b + (c + (d + (e + f))), keys, 0);
  }

  lemma Fields8(a: seq<Issue>, b: seq<Issue>, c: seq<Issue>, d: seq<Issue>, e: seq<Issue>, f: seq<Issue>, g: seq<Issue>, h: seq<Issue>, keys: seq<string>)
    requires |keys| == 8
    requires forall i :: 0 <= i < |a| ==> a[i].path == keys[0]
    requires forall i :: 0 <= i < |b| ==> b[i].path == keys[1]
    requires forall i :: 0 <= i < |c| ==> c[i].path == keys[2]
    requires forall i :: 0 <= i < |d| ==> d[i].path == keys[3]
    requires forall i :: 0 <= i < |e| ==> e[i].path == keys[4]
    requires forall i :: 0 <= i < |f| ==> f[i].path == keys[5]
    requires forall i :: 0 <= i < |g| ==> g[i].path == keys[6]
    requires forall i :: 0 <= i < |h| ==> h[i].path == keys[7]
    ensures InKeyOrder(a + (b + (c + (d + (e + (f + (g + h)))))), keys)
  {
    LastField(h, keys, 7);
    PrependField(g, h, keys, 6);
    PrependField(f, g + h, keys, 5);
    PrependField(e, f + (g + h), keys, 4);
    PrependField(d, e + (f + (g + h)), keys, 3);
    PrependField(c, d + (e + (f + (g + h))), keys, 2);
    PrependField(b, c + (d + (e + (f + (g + h)))), keys, 1);
    PrependField(a, b + (c + (d + (e + (f + (g + h))))), keys, 0);
  }
}
