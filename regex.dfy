/**
 * A small regular-expression language, enough to write the Brazilian phone
 * pattern of the schema files term by term: single-character classes,
 * optional groups `( … )?` and two-way alternation `( … | … )`.
 * `Match(ts, s)` holds when the whole string `s` (anchored at both ends,
 * as `^…$`) belongs to the language of the term list `ts`.
 */
module Regex {

  /** A set of characters, as written inside a JavaScript regular expression. */
  datatype CharClass =
    | Single(c: char)        // a literal character
    | Digit                  // \d and [0-9]
    | NonZeroDigit           // [1-9]
    | Space                  // \s
    | Union(left: CharClass, right: CharClass)

  /** The characters JavaScript's `\s` matches (ECMAScript WhiteSpace and LineTerminator). */
  predicate IsJsSpace(c: char)
  {
    c == ' ' || c == '\t' || c == '\n' || c == '\U{000B}' || c == '\U{000C}' || c == '\r'
    || c == '\U{00A0}' || c == '\U{1680}' || ('\U{2000}' <= c <= '\U{200A}')
    || c == '\U{2028}' || c == '\U{2029}' || c == '\U{202F}' || c == '\U{205F}'
    || c == '\U{3000}' || c == '\U{FEFF}'
  }

  predicate IsDigit(c: char)
  {
    '0' <= c <= '9'
  }

  predicate InClass(cls: CharClass, c: char)
  {
    match cls
    case Single(d) => c == d
    case Digit => IsDigit(c)
    case NonZeroDigit => '1' <= c <= '9'
    case Space => IsJsSpace(c)
    case Union(l, r) => InClass(l, c) || InClass(r, c)
  }

  /** One item of a pattern. */
  datatype Term =
    | Char(cls: CharClass)                       // one character of the class
    | Opt(body: seq<Term>)                       // ( body )?
    | Alt(left: seq<Term>, right: seq<Term>)     // ( left | right )

  /** The number of term constructors in a pattern; it decreases as matching proceeds. */
  function Size(ts: seq<Term>): nat
  {
    if ts == [] then 0
    else
      (match ts[0]
       case Char(_) => 1
       case Opt(b) => 1 + Size(b)
       case Alt(l, r) => 1 + Size(l) + Size(r))
      + Size(ts[1..])
  }

  lemma {:induction false} SizeAppend(a: seq<Term>, b: seq<Term>)
    ensures Size(a + b) == Size(a) + Size(b)
  {
    if a == [] {
      assert a + b == b;
    } else {
      assert (a + b)[0] == a[0];
      assert (a + b)[1..] == a[1..] + b;
      SizeAppend(a[1..], b);
    }
  }

  /** Anchored matching: the whole of `s` is in the language of `ts`. */
  predicate Match(ts: seq<Term>, s: string)
    decreases Size(ts)
  {
    if ts == [] then s == []
    else
      match ts[0]
      case Char(cls) => |s| > 0 && InClass(cls, s[0]) && Match(ts[1..], s[1..])
      case Opt(b) =>
        SizeAppend(b, ts[1..]);
        Match(b + ts[1..], s) || Match(ts[1..], s)
      case Alt(l, r) =>
        SizeAppend(l, ts[1..]);
        SizeAppend(r, ts[1..]);
        Match(l + ts[1..], s) || Match(r + ts[1..], s)
  }

  /** Matching a concatenation: the two parts match two consecutive pieces of the string. */
  lemma {:induction false} JoinMatch(a: seq<Term>, b: seq<Term>, s1: string, s2: string)
    requires Match(a, s1) && Match(b, s2)
    ensures Match(a + b, s1 + s2)
    decreases Size(a), 1
  {
    if a == [] {
      assert a + b == b && s1 + s2 == s2;
    } else {
      assert a == [a[0]] + a[1..];
      assert a + b == [a[0]] + (a[1..] + b);
      match a[0]
      case Char(c) => JoinChar(c, a[1..], b, s1, s2);
      case Opt(body) => JoinOpt(body, a[1..], b, s1, s2);
      case Alt(l, r) => JoinAlt(l, r, a[1..], b, s1, s2);
    }
  }

  /** The step of `JoinMatch` for a pattern that starts with one character. */
  lemma {:induction false} JoinChar(c: CharClass, rest: seq<Term>, b: seq<Term>, s1: string, s2: string)
    requires Match([Char(c)] + rest, s1) && Match(b, s2)
    ensures Match([Char(c)] + (rest + b), s1 + s2)
    decreases Size([Char(c)] + rest), 0
  {
    SizeAppend([Char(c)], rest);
    assert [Char(c)][1..] == [];
    MatchCons(Char(c), rest, s1);
    MatchCons(Char(c), rest + b, s1 + s2);
    JoinMatch(rest, b, s1[1..], s2);
    assert (s1 + s2)[1..] == s1[1..] + s2;
  }

  /** The step of `JoinMatch` for a pattern that starts with an optional group. */
  lemma {:induction false} JoinOpt(body: seq<Term>, rest: seq<Term>, b: seq<Term>, s1: string, s2: string)
    requires Match([Opt(body)] + rest, s1) && Match(b, s2)
    ensures Match([Opt(body)] + (rest + b), s1 + s2)
    decreases Size([Opt(body)] + rest), 0
  {
    SizeAppend([Opt(body)], rest);
    SizeAppend(body, rest);
    assert [Opt(body)][1..] == [];
    MatchCons(Opt(body), rest, s1);
    MatchCons(Opt(body), rest + b, s1 + s2);
    assert body + (rest + b) == (body + rest) + b;
    if Match(body + rest, s1) {
      JoinMatch(body + rest, b, s1, s2);
    } else {
      JoinMatch(rest, b, s1, s2);
    }
  }

  /** The step of `JoinMatch` for a pattern that starts with an alternative. */
  lemma {:induction false} JoinAlt(l: seq<Term>, r: seq<Term>, rest: seq<Term>, b: seq<Term>, s1: string, s2: string)
    requires Match([Alt(l, r)] + rest, s1) && Match(b, s2)
    ensures Match([Alt(l, r)] + (rest + b), s1 + s2)
    decreases Size([Alt(l, r)] + rest), 0
  {
    SizeAppend([Alt(l, r)], rest);
    SizeAppend(l, rest);
    SizeAppend(r, rest);
    assert [Alt(l, r)][1..] == [];
    MatchCons(Alt(l, r), rest, s1);
    MatchCons(Alt(l, r), rest + b, s1 + s2);
    assert l + (rest + b) == (l + rest) + b;
    assert r + (rest + b) == (r + rest) + b;
    if Match(l + rest, s1) {
      JoinMatch(l + rest, b, s1, s2);
    } else {
      JoinMatch(r + rest, b, s1, s2);
    }
  }

  /** Every match of a concatenation splits the string where the first part ends. */
  lemma {:induction false} SplitMatch(a: seq<Term>, b: seq<Term>, s: string) returns (i: nat)
    requires Match(a + b, s)
    ensures i <= |s| && Match(a, s[..i]) && Match(b, s[i..])
    decreases Size(a)
  {
    if a == [] {
      assert a + b == b && s[..0] == [] && s[0..] == s;
      i := 0;
    } else {
      assert (a + b)[0] == a[0];
      assert (a + b)[1..] == a[1..] + b;
      SizeAppend(a[1..], b);
      match a[0]
      case Char(c) =>
        var j := SplitMatch(a[1..], b, s[1..]);
        i := j + 1;
        assert s[..i][1..] == s[1..][..j];
        assert s[i..] == s[1..][j..];
      case Opt(body) =>
        SizeAppend(body, a[1..]);
        assert body + (a + b)[1..] == (body + a[1..]) + b;
        if Match((body + a[1..]) + b, s) {
          i := SplitMatch(body + a[1..], b, s);
        } else {
          i := SplitMatch(a[1..], b, s);
        }
      case Alt(l, r) =>
        SizeAppend(l, a[1..]);
        SizeAppend(r, a[1..]);
        assert l + (a + b)[1..] == (l + a[1..]) + b;
        assert r + (a + b)[1..] == (r + a[1..]) + b;
        if Match((l + a[1..]) + b, s) {
          i := SplitMatch(l + a[1..], b, s);
        } else {
          i := SplitMatch(r + a[1..], b, s);
        }
    }
  }

  /** The shortest string a pattern can match. */
  function MinLen(ts: seq<Term>): nat
  {
    if ts == [] then 0
    else
      (match ts[0]
       case Char(_) => 1
       case Opt(_) => 0
       case Alt(l, r) => if MinLen(l) <= MinLen(r) then MinLen(l) else MinLen(r))
      + MinLen(ts[1..])
  }

  /** The longest string a pattern can match. */
  function MaxLen(ts: seq<Term>): nat
  {
    if ts == [] then 0
    else
      (match ts[0]
       case Char(_) => 1
       case Opt(b) => MaxLen(b)
       case Alt(l, r) => if MaxLen(l) >= MaxLen(r) then MaxLen(l) else MaxLen(r))
      + MaxLen(ts[1..])
  }

  lemma {:induction false} LenAppend(a: seq<Term>, b: seq<Term>)
    ensures MinLen(a + b) == MinLen(a) + MinLen(b)
    ensures MaxLen(a + b) == MaxLen(a) + MaxLen(b)
  {
    if a == [] {
      assert a + b == b;
    } else {
      assert (a + b)[0] == a[0];
      assert (a + b)[1..] == a[1..] + b;
      LenAppend(a[1..], b);
    }
  }

  /** Every string a pattern matches is between its shortest and its longest match in length. */
  lemma {:induction false} MatchLength(ts: seq<Term>, s: string)
    requires Match(ts, s)
    ensures MinLen(ts) <= |s| <= MaxLen(ts)
    decreases Size(ts)
  {
    if ts != [] {
      SizeAppend(ts[1..], []);
      match ts[0]
      case Char(c) =>
        MatchLength(ts[1..], s[1..]);
      case Opt(body) =>
        SizeAppend(body, ts[1..]);
        LenAppend(body, ts[1..]);
        if Match(body + ts[1..], s) {
          MatchLength(body + ts[1..], s);
        } else {
          MatchLength(ts[1..], s);
        }
      case Alt(l, r) =>
        SizeAppend(l, ts[1..]);
        SizeAppend(r, ts[1..]);
        LenAppend(l, ts[1..]);
        LenAppend(r, ts[1..]);
        if Match(l + ts[1..], s) {
          MatchLength(l + ts[1..], s);
        } else {
          MatchLength(r + ts[1..], s);
        }
    }
  }

  /** A pattern made only of single characters matches exactly the strings of its length, one class per position. */
  lemma {:induction false} MatchChars(ts: seq<Term>, s: string)
    requires forall k :: 0 <= k < |ts| ==> ts[k].Char?
    ensures Match(ts, s) <==> |s| == |ts| && forall k :: 0 <= k < |ts| ==> InClass(ts[k].cls, s[k])
    decreases |ts|
  {
    if ts != [] {
      MatchChars(ts[1..], if s == [] then [] else s[1..]);
      if |s| == |ts| && forall k :: 0 <= k < |ts| ==> InClass(ts[k].cls, s[k]) {
        assert forall k :: 0 <= k < |ts[1..]| ==> InClass(ts[1..][k].cls, s[1..][k]) by {
          forall k | 0 <= k < |ts[1..]| ensures InClass(ts[1..][k].cls, s[1..][k]) {
            assert ts[1..][k] == ts[k + 1] && s[1..][k] == s[k + 1];
          }
        }
      }
    }
  }

  /** One step of matching, for building a match of a known string term by term. */
  lemma MatchCons(t: Term, rest: seq<Term>, s: string)
    ensures t.Char? ==> (Match([t] + rest, s) <==> |s| > 0 && InClass(t.cls, s[0]) && Match(rest, s[1..]))
    ensures t.Opt? ==> (Match([t] + rest, s) <==> Match(t.body + rest, s) || Match(rest, s))
    ensures t.Alt? ==> (Match([t] + rest, s) <==> Match(t.left + rest, s) || Match(t.right + rest, s))
  {
    assert ([t] + rest)[0] == t && ([t] + rest)[1..] == rest;
  }
}
