/**
 * The Brazilian phone pattern shared, with one difference, by the backend
 * and the frontend schema files:
 *
 *   ^(\+55|55)?\s?(\(?[1-9]{2}\)?)?\s?(9?\d{4})[SEP]?(\d{4})$
 *
 * The backend writes the separator class as `[-.\\s]` inside a regular-expression
 * literal, which is the four characters `-`, `.`, `\` and `s`; the frontend writes
 * `[-.\s]`, which is `-`, `.` and any whitespace. The pattern is therefore
 * parameterised by the separator class.
 */
module PhonePattern {
  import opened Regex

  /** `(\+55|55)?` */
  function CountryCode(): seq<Term>
  {
    [Opt([Alt([Char(Single('+')), Char(Single('5')), Char(Single('5'))],
              [Char(Single('5')), Char(Single('5'))])])]
  }

  /** `\s?` */
  function OptSpace(): seq<Term>
  {
    [Opt([Char(Space)])]
  }

  /** `(\(?[1-9]{2}\)?)?` */
  function AreaCode(): seq<Term>
  {
    [Opt([Opt([Char(Single('('))]), Char(NonZeroDigit), Char(NonZeroDigit), Opt([Char(Single(')'))])])]
  }

  /** `(9?\d{4})` */
  function Exchange(): seq<Term>
  {
    [Opt([Char(Single('9'))]), Char(Digit), Char(Digit), Char(Digit), Char(Digit)]
  }

  /** `[SEP]?` */
  function Separator(sep: CharClass): seq<Term>
  {
    [Opt([Char(sep)])]
  }

  /** `(\d{4})` */
  function LineNumber(): seq<Term>
  {
    [Char(Digit), Char(Digit), Char(Digit), Char(Digit)]
  }

  function Pattern(sep: CharClass): seq<Term>
  {
    CountryCode() + OptSpace() + AreaCode() + OptSpace() + Exchange() + Separator(sep) + LineNumber()
  }

  /** `[-.\\s]` as the backend's regular-expression literal reads: minus, dot, backslash, the letter s. */
  function BackendSeparator(): CharClass
  {
    Union(Single('-'), Union(Single('.'), Union(Single('\\'), Single('s'))))
  }

  /** `[-.\s]` as the frontend writes it: minus, dot, whitespace. */
  function FrontendSeparator(): CharClass
  {
    Union(Single('-'), Union(Single('.'), Space))
  }

  predicate BackendPhone(s: string)
  {
    Match(Pattern(BackendSeparator()), s)
  }

  predicate FrontendPhone(s: string)
  {
    Match(Pattern(FrontendSeparator()), s)
  }

  // ----- The language of each component -----

  lemma CountryCodeLanguage(s: string)
    ensures Match(CountryCode(), s) <==> s == "" || s == "+55" || s == "55"
  {
    var plus := [Char(Single('+')), Char(Single('5')), Char(Single('5'))];
    var five := [Char(Single('5')), Char(Single('5'))];
    assert plus + [] == plus && five + [] == five;
    MatchCons(Opt([Alt(plus, five)]), [], s);
    assert [Alt(plus, five)] + [] == [Alt(plus, five)];
    MatchCons(Alt(plus, five), [], s);
    MatchChars(plus, s);
    MatchChars(five, s);
  }

  lemma OptSpaceLanguage(s: string)
    ensures Match(OptSpace(), s) <==> s == "" || (|s| == 1 && IsJsSpace(s[0]))
  {
    MatchCons(Opt([Char(Space)]), [], s);
    assert [Char(Space)] + [] == [Char(Space)];
    MatchChars([Char(Space)], s);
  }

  lemma SeparatorLanguage(sep: CharClass, s: string)
    ensures Match(Separator(sep), s) <==> s == "" || (|s| == 1 && InClass(sep, s[0]))
  {
    MatchCons(Opt([Char(sep)]), [], s);
    assert [Char(sep)] + [] == [Char(sep)];
    MatchChars([Char(sep)], s);
  }

  lemma ExchangeLanguage(s: string)
    ensures Match(Exchange(), s) <==>
      (|s| == 4 || (|s| == 5 && s[0] == '9')) && forall k :: |s| - 4 <= k < |s| ==> IsDigit(s[k])
  {
    var digits := LineNumber();
    var nine := [Char(Single('9'))] + digits;
    MatchCons(Opt([Char(Single('9'))]), digits, s);
    assert forall k :: 0 <= k < 4 ==> digits[k] == Char(Digit);
    assert nine[0] == Char(Single('9')) && forall k :: 1 <= k < 5 ==> nine[k] == Char(Digit);
    MatchChars(digits, s);
    MatchChars(nine, s);
  }

  lemma LineNumberLanguage(s: string)
    ensures Match(LineNumber(), s) <==> |s| == 4 && forall k :: 0 <= k < 4 ==> IsDigit(s[k])
  {
    MatchChars(LineNumber(), s);
  }

  /** The area code without parentheses, and with both of them. */
  lemma AreaCodeExamples(d1: char, d2: char)
    requires '1' <= d1 <= '9' && '1' <= d2 <= '9'
    ensures Match(AreaCode(), "") && Match(AreaCode(), [d1, d2]) && Match(AreaCode(), ['(', d1, d2, ')'])
  {
    var open, close := Opt([Char(Single('('))]), Opt([Char(Single(')'))]);
    var area := [open, Char(NonZeroDigit), Char(NonZeroDigit), close];
    assert area + [] == area;
    MatchCons(Opt(area), [], "");
    MatchCons(Opt(area), [], [d1, d2]);
    MatchCons(Opt(area), [], ['(', d1, d2, ')']);
    // without parentheses
    MatchCons(close, [], []);
    MatchCons(Char(NonZeroDigit), [close], [d2]);
    MatchCons(Char(NonZeroDigit), [Char(NonZeroDigit), close], [d1, d2]);
    MatchCons(open, area[1..], [d1, d2]);
    // with parentheses
    assert [Char(Single(')'))] + [] == [Char(Single(')'))];
    MatchCons(Char(Single(')')), [], [')']);
    MatchCons(close, [], [')']);
    MatchCons(Char(NonZeroDigit), [close], [d2, ')']);
    MatchCons(Char(NonZeroDigit), [Char(NonZeroDigit), close], [d1, d2, ')']);
    assert [Char(Single('('))] + area[1..] == [Char(Single('(')), Char(NonZeroDigit), Char(NonZeroDigit), close];
    MatchCons(Char(Single('(')), area[1..], ['(', d1, d2, ')']);
    MatchCons(open, area[1..], ['(', d1, d2, ')']);
  }

  /** A phone number assembled from one match of each component. */
  lemma JoinPhone(sep: CharClass, cc: string, sp1: string, area: string, sp2: string,
                  exchange: string, separator: string, line: string)
    requires Match(CountryCode(), cc) && Match(OptSpace(), sp1) && Match(AreaCode(), area)
    requires Match(OptSpace(), sp2) && Match(Exchange(), exchange)
    requires Match(Separator(sep), separator) && Match(LineNumber(), line)
    ensures Match(Pattern(sep), cc + sp1 + area + sp2 + exchange + separator + line)
  {
    JoinMatch(CountryCode(), OptSpace(), cc, sp1);
    JoinMatch(CountryCode() + OptSpace(), AreaCode(), cc + sp1, area);
    JoinMatch(CountryCode() + OptSpace() + AreaCode(), OptSpace(), cc + sp1 + area, sp2);
    JoinMatch(CountryCode() + OptSpace() + AreaCode() + OptSpace(), Exchange(), cc + sp1 + area + sp2, exchange);
    JoinMatch(CountryCode() + OptSpace() + AreaCode() + OptSpace() + Exchange(), Separator(sep),
              cc + sp1 + area + sp2 + exchange, separator);
    JoinMatch(CountryCode() + OptSpace() + AreaCode() + OptSpace() + Exchange() + Separator(sep), LineNumber(),
              cc + sp1 + area + sp2 + exchange + separator, line);
  }

  // ----- Properties of the whole pattern -----

  lemma CountryCodeLengths()
    ensures MinLen(CountryCode()) == 0 && MaxLen(CountryCode()) == 3
  {
    var plus := [Char(Single('+')), Char(Single('5')), Char(Single('5'))];
    var five := [Char(Single('5')), Char(Single('5'))];
    assert MaxLen(plus) == 3 && MaxLen(five) == 2;
    assert MaxLen([Alt(plus, five)]) == 3;
  }

  /** The shortest and the longest phone the pattern can match, whatever the separator class. */
  lemma {:induction false} PatternLengths(sep: CharClass)
    ensures MinLen(Pattern(sep)) == 8 && MaxLen(Pattern(sep)) == 19
  {
    var lead := CountryCode() + OptSpace() + AreaCode() + OptSpace();
    LenAppend(CountryCode(), OptSpace());
    LenAppend(CountryCode() + OptSpace(), AreaCode());
    LenAppend(CountryCode() + OptSpace() + AreaCode(), OptSpace());
    LenAppend(lead, Exchange());
    LenAppend(lead + Exchange(), Separator(sep));
    LenAppend(lead + Exchange() + Separator(sep), LineNumber());
    CountryCodeLengths();
    assert MinLen(AreaCode()) == 0 && MaxLen(AreaCode()) == 4;
    assert MinLen(Exchange()) == 4 && MaxLen(Exchange()) == 5;
    assert MinLen(LineNumber()) == 4 && MaxLen(LineNumber()) == 4;
    assert MinLen(OptSpace()) == 0 && MaxLen(OptSpace()) == 1;
    assert MaxLen([Char(sep)]) == 1;
    assert MinLen(Separator(sep)) == 0 && MaxLen(Separator(sep)) == 1;
  }

  /** Every accepted string is 8 to 19 characters long and ends in four decimal digits. */
  lemma {:induction false} PhoneBounds(sep: CharClass, s: string)
    requires Match(Pattern(sep), s)
    ensures 8 <= |s| <= 19
    ensures forall k :: |s| - 4 <= k < |s| ==> IsDigit(s[k])
  {
    var lead := CountryCode() + OptSpace() + AreaCode() + OptSpace();
    PatternLengths(sep);
    MatchLength(Pattern(sep), s);
    var i := SplitMatch(lead + Exchange() + Separator(sep), LineNumber(), s);
    LineNumberLanguage(s[i..]);
    assert i == |s| - 4;
    forall k | |s| - 4 <= k < |s| ensures IsDigit(s[k]) {
      assert s[k] == s[i..][k - i];
    }
  }

  /**
   * The fifth character from the end is the last digit of the exchange or the
   * separator: it is a digit or a member of the separator class.
   */
  lemma {:induction false} SeparatorPosition(sep: CharClass, s: string)
    ensures Match(Pattern(sep), s) ==> |s| >= 8 && (IsDigit(s[|s| - 5]) || InClass(sep, s[|s| - 5]))
  {
    if Match(Pattern(sep), s) {
      PhoneBounds(sep, s);
      var lead := CountryCode() + OptSpace() + AreaCode() + OptSpace();
      var i1 := SplitMatch(lead + Exchange() + Separator(sep), LineNumber(), s);
      LineNumberLanguage(s[i1..]);
      var front := s[..i1];
      var i2 := SplitMatch(lead + Exchange(), Separator(sep), front);
      SeparatorLanguage(sep, front[i2..]);
      var i3 := SplitMatch(lead, Exchange(), front[..i2]);
      var exchange := front[..i2][i3..];
      ExchangeLanguage(exchange);
      if i2 == i1 {
        assert s[|s| - 5] == exchange[|exchange| - 1];
      } else {
        assert s[|s| - 5] == front[i2..][0];
      }
    }
  }

  // ----- Examples -----

  /** The format the error message cites, accepted by both copies of the pattern. */
  lemma {:induction false} MessageExample(sep: CharClass)
    requires InClass(sep, '-')
    ensures Match(Pattern(sep), "11 99999-9999")
  {
    CountryCodeLanguage("");
    OptSpaceLanguage("");
    AreaCodeExamples('1', '1');
    OptSpaceLanguage(" ");
    ExchangeLanguage("99999");
    SeparatorLanguage(sep, "-");
    LineNumberLanguage("9999");
    JoinPhone(sep, "", "", "11", " ", "99999", "-", "9999");
    assert "" + "" + "11" + " " + "99999" + "-" + "9999" == "11 99999-9999";
  }

  /** The contact example of the DTO documentation: country code, area code, no separators. */
  lemma {:induction false} InternationalExample(sep: CharClass)
    ensures Match(Pattern(sep), "+5581987730575")
  {
    CountryCodeLanguage("+55");
    OptSpaceLanguage("");
    AreaCodeExamples('8', '1');
    ExchangeLanguage("98773");
    SeparatorLanguage(sep, "");
    LineNumberLanguage("0575");
    JoinPhone(sep, "+55", "", "81", "", "98773", "", "0575");
    assert "+55" + "" + "81" + "" + "98773" + "" + "0575" == "+5581987730575";
  }

  lemma BackendAcceptsExamples()
    ensures BackendPhone("11 99999-9999") && BackendPhone("+5581987730575")
  {
    MessageExample(BackendSeparator());
    InternationalExample(BackendSeparator());
  }

  lemma FrontendAcceptsExamples()
    ensures FrontendPhone("11 99999-9999") && FrontendPhone("+5581987730575")
  {
    MessageExample(FrontendSeparator());
    InternationalExample(FrontendSeparator());
  }

  /** The backend separator class holds no whitespace: a space between the two digit groups is rejected. */
  lemma {:induction false} BackendRejectsSpaceSeparator()
    ensures !BackendPhone("1199999 9999")
  {
    var s := "1199999 9999";
    SeparatorPosition(BackendSeparator(), s);
    assert s[|s| - 5] == ' ';
  }

  /** ... but the letter `s` is accepted there, because of the doubled backslash. */
  lemma {:induction false} BackendAcceptsLetterS()
    ensures BackendPhone("1199999s9999")
  {
    CountryCodeLanguage("");
    OptSpaceLanguage("");
    AreaCodeExamples('1', '1');
    ExchangeLanguage("99999");
    SeparatorLanguage(BackendSeparator(), "s");
    LineNumberLanguage("9999");
    JoinPhone(BackendSeparator(), "", "", "11", "", "99999", "s", "9999");
    assert "" + "" + "11" + "" + "99999" + "s" + "9999" == "1199999s9999";
  }

  /** The frontend copy accepts whitespace as the separator. */
  lemma {:induction false} FrontendAcceptsSpaceSeparator()
    ensures FrontendPhone("1199999 9999")
  {
    CountryCodeLanguage("");
    OptSpaceLanguage("");
    AreaCodeExamples('1', '1');
    ExchangeLanguage("99999");
    assert InClass(FrontendSeparator(), ' ') by {
      assert IsJsSpace(' ');
    }
    SeparatorLanguage(FrontendSeparator(), " ");
    LineNumberLanguage("9999");
    JoinPhone(FrontendSeparator(), "", "", "11", "", "99999", " ", "9999");
    assert "" + "" + "11" + "" + "99999" + " " + "9999" == "1199999 9999";
  }

  /** Eight bare digits are the shortest accepted string. */
  lemma {:induction false} EightDigitsExample(sep: CharClass)
    ensures Match(Pattern(sep), "99999999")
  {
    CountryCodeLanguage("");
    OptSpaceLanguage("");
    AreaCodeExamples('1', '1');
    ExchangeLanguage("9999");
    SeparatorLanguage(sep, "");
    LineNumberLanguage("9999");
    JoinPhone(sep, "", "", "", "", "9999", "", "9999");
    assert "" + "" + "" + "" + "9999" + "" + "9999" == "99999999";
  }
}
