/**
 The text of a generated comparison, and a parser for it.

 The generator writes each comparison as C source. `CheckText` is that text, character by
 character; `ParseCheck` reads the C fragment back. The round trip says which patterns
 survive being written between single quotes.
 */
module CSource {
  import opened Wrappers
  import opened Comm

  // ----- rendering

  function Decimal(n: nat): string {
    if n < 10 then [Digit(n)] else Decimal(n / 10) + [Digit(n % 10)]
  }

  function Digit(n: nat): char
    requires n < 10
  {
    ('0' as int + n) as char
  }

  function PartText(test: Test): string {
    "comm[" + Decimal(test.index) + "] == '" + [test.ch] + "'"
  }

  function Join(parts: seq<string>, separator: string): string {
    if parts == [] then ""
    else if |parts| == 1 then parts[0]
    else parts[0] + separator + Join(parts[1..], separator)
  }

  function Separator(indent: string): string {
    " &&\n" + indent + "    "
  }

  function PartTexts(tests: seq<Test>): seq<string> {
    seq(|tests|, i requires 0 <= i < |tests| => PartText(tests[i]))
  }

  /** The C text that stands for the comparison of `comm` with a pattern. */
  function CheckText(pattern: string, indent: string): string {
    Join(PartTexts(PrefixTests(pattern)), Separator(indent))
  }

  // ----- parsing

  /**
   A character that stands for itself between single quotes in C source: any of the source
   character set but quote, backslash and newline (section 6.4.4.4 of ISO/IEC 9899:2011).
   */
  predicate Plain(ch: char) {
    (' ' <= ch <= '~' || ch in WHITE) && ch != '\'' && ch != '\\'
  }

  /** Tab, vertical tab and form feed. */
  const WHITE := ['\t', '\U{000B}', '\U{000C}']

  predicate AllPlain(s: string) {
    forall i :: 0 <= i < |s| ==> Plain(s[i])
  }

  predicate IsDigit(ch: char) {
    '0' <= ch <= '9'
  }

  predicate IsBlank(ch: char) {
    ch == ' ' || ch == '\t' || ch == '\n'
  }

  predicate Blank(s: string) {
    forall i :: 0 <= i < |s| ==> IsBlank(s[i])
  }

  function Expect(s: string, token: string): (rest: Option<string>)
    ensures rest.Some? <==> token <= s
    ensures rest.Some? ==> s == token + rest.value
  {
    if token <= s then Some(s[|token|..]) else None
  }

  function ParseDigits(s: string, value: nat): (r: (nat, string))
    ensures |r.1| <= |s|
  {
    if s != [] && IsDigit(s[0]) then
      ParseDigits(s[1..], 10 * value + (s[0] as int - '0' as int))
    else
      (value, s)
  }

  function SkipBlanks(s: string): (rest: string)
    ensures |rest| <= |s|
  {
    if s != [] && IsBlank(s[0]) then SkipBlanks(s[1..]) else s
  }

  /** `comm[<digits>] == '<plain character>'` */
  function ParseTest(s: string): (r: Option<(Test, string)>)
    ensures r.Some? ==> |r.value.1| < |s|
  {
    var s :- Expect(s, "comm[");
    if s == [] || !IsDigit(s[0]) then None
    else
      var (index, s) := ParseDigits(s, 0);
      ParseComparand(index, s)
  }

  /** The rest of a comparison after its index. */
  function ParseComparand(index: nat, s: string): (r: Option<(Test, string)>)
    ensures r.Some? ==> |r.value.1| < |s|
  {
    var s :- Expect(s, "] == '");
    if s == [] || !Plain(s[0]) then None
    else
      var rest :- Expect(s[1..], "'");
      Some((Test(index, s[0]), rest))
  }

  /** What follows the next `&&`. */
  function AfterAnd(s: string): (r: Option<string>)
    ensures r.Some? ==> |r.value| < |s|
  {
    var rest :- Expect(SkipBlanks(s), "&&");
    Some(SkipBlanks(rest))
  }

  /** One or more comparisons joined by `&&`. */
  function ParseCheck(s: string): Option<seq<Test>>
    decreases |s|
  {
    var (test, rest) :- ParseTest(s);
    if rest == [] then Some([test])
    else
      var next :- AfterAnd(rest);
      var tests :- ParseCheck(next);
      Some([test] + tests)
  }

  // ----- the round trip

  lemma {:induction false} ParseDecimal(n: nat, rest: string)
    ensures |Decimal(n)| > 0 && IsDigit(Decimal(n)[0])
    ensures ParseDigits(Decimal(n) + rest, 0) == ParseDigits(rest, n)
  {
    if n < 10 {
      assert (Decimal(n) + rest)[1..] == rest;
    } else {
      var last := [Digit(n % 10)];
      ParseDecimal(n / 10, last + rest);
      assert Decimal(n) + rest == Decimal(n / 10) + (last + rest);
      assert (last + rest)[1..] == rest;
    }
  }

  lemma {:induction false} SkipBlankText(blanks: string, rest: string)
    requires Blank(blanks) && rest != [] && !IsBlank(rest[0])
    ensures SkipBlanks(blanks + rest) == rest
  {
    if blanks == [] {
      assert blanks + rest == rest;
    } else {
      assert (blanks + rest)[1..] == blanks[1..] + rest;
      SkipBlankText(blanks[1..], rest);
    }
  }

  lemma ExpectToken(token: string, rest: string)
    ensures Expect(token + rest, token) == Some(rest)
  {
    assert (token + rest)[|token|..] == rest;
  }

  lemma ParseQuoted(test: Test, rest: string)
    ensures ParseComparand(test.index, "] == '" + ([test.ch] + ("'" + rest)))
         == if Plain(test.ch) then Some((test, rest)) else None
  {
    var close := [test.ch] + ("'" + rest);
    ExpectToken("] == '", close);
    ExpectToken("'", rest);
    assert close[1..] == "'" + rest;
  }

  lemma ParsePart(test: Test, rest: string)
    ensures ParseTest(PartText(test) + rest) == if Plain(test.ch) then Some((test, rest)) else None
  {
    var middle := "] == '" + ([test.ch] + ("'" + rest));
    var digits := Decimal(test.index) + middle;
    assert PartText(test) + rest == "comm[" + digits;
    ExpectToken("comm[", digits);
    ParseDecimal(test.index, middle);
    assert ParseDigits(middle, test.index) == (test.index, middle);
    ParseQuoted(test, rest);
  }

  function Prepend(test: Test, tests: Option<seq<Test>>): Option<seq<Test>> {
    if Plain(test.ch) && tests.Some? then Some([test] + tests.value) else None
  }

  lemma ParseSeparator(tail: string, indent: string)
    requires Blank(indent) && tail != [] && !IsBlank(tail[0])
    ensures AfterAnd(Separator(indent) + tail) == Some(tail)
  {
    var blanks := "\n" + indent + "    ";
    var rest := "&&" + (blanks + tail);
    assert Separator(indent) + tail == " " + rest;
    SkipBlankText(" ", rest);
    assert Expect(rest, "&&") == Some(blanks + tail);
    SkipBlankText(blanks, tail);
  }

  lemma ParseConjunction(test: Test, tail: string, indent: string)
    requires Blank(indent) && tail != [] && !IsBlank(tail[0])
    ensures ParseCheck(PartText(test) + (Separator(indent) + tail)) == Prepend(test, ParseCheck(tail))
  {
    ParsePart(test, Separator(indent) + tail);
    ParseSeparator(tail, indent);
  }

  predicate PlainTests(tests: seq<Test>) {
    forall i :: 0 <= i < |tests| ==> Plain(tests[i].ch)
  }

  lemma {:induction false} ParseJoined(tests: seq<Test>, indent: string)
    requires tests != [] && Blank(indent)
    ensures ParseCheck(Join(PartTexts(tests), Separator(indent)))
         == if PlainTests(tests) then Some(tests) else None
  {
    if |tests| == 1 {
      ParsePart(tests[0], "");
      assert PartText(tests[0]) + "" == PartText(tests[0]);
      assert tests == [tests[0]];
    } else {
      JoinStep(tests, Separator(indent));
      JoinStartsWithPart(tests[1..], Separator(indent));
      ParseConjunction(tests[0], Join(PartTexts(tests[1..]), Separator(indent)), indent);
      ParseJoined(tests[1..], indent);
      PlainStep(tests);
    }
  }

  lemma JoinStep(tests: seq<Test>, separator: string)
    requires |tests| > 1
    ensures Join(PartTexts(tests), separator)
         == PartText(tests[0]) + (separator + Join(PartTexts(tests[1..]), separator))
  {
    assert PartTexts(tests)[1..] == PartTexts(tests[1..]);
    var tail := Join(PartTexts(tests[1..]), separator);
    assert PartText(tests[0]) + (separator + tail) == PartText(tests[0]) + separator + tail;
  }

  lemma PlainStep(tests: seq<Test>)
    requires tests != []
    ensures PlainTests(tests) <==> Plain(tests[0].ch) && PlainTests(tests[1..])
    ensures tests == [tests[0]] + tests[1..]
  {
    assert forall i :: 0 <= i < |tests[1..]| ==> tests[1..][i] == tests[i + 1];
    assert forall i :: 1 <= i < |tests| ==> tests[i] == tests[1..][i - 1];
  }

  lemma JoinStartsWithPart(tests: seq<Test>, separator: string)
    requires tests != []
    ensures Join(PartTexts(tests), separator) != ""
    ensures Join(PartTexts(tests), separator)[0] == 'c'
  {
    assert PartText(tests[0])[0] == 'c';
  }

  lemma {:induction false} JoinAppend(parts: seq<string>, part: string, separator: string)
    requires parts != []
    ensures Join(parts + [part], separator) == Join(parts, separator) + separator + part
  {
    if |parts| == 1 {
      assert (parts + [part])[1..] == [part];
    } else {
      assert (parts + [part])[1..] == parts[1..] + [part];
      JoinAppend(parts[1..], part, separator);
    }
  }

  lemma PartTextsAppend(pattern: string, ch: char)
    ensures PartTexts(PrefixTests(pattern + [ch]))
         == PartTexts(PrefixTests(pattern)) + [PartText(Test(|pattern|, ch))]
  {
    assert PrefixTests(pattern + [ch]) == PrefixTests(pattern) + [Test(|pattern|, ch)];
  }

  /** The text, character by character of the pattern. */
  lemma NextText(pattern: string, ch: char, indent: string)
    requires pattern != ""
    ensures CheckText(pattern + [ch], indent)
         == CheckText(pattern, indent) + (" &&\n" + indent + "    ")
            + ("comm[" + Decimal(|pattern|) + "] == '" + [ch] + "'")
  {
    PartTextsAppend(pattern, ch);
    JoinAppend(PartTexts(PrefixTests(pattern)), PartText(Test(|pattern|, ch)), Separator(indent));
  }

  lemma FirstText(ch: char, indent: string)
    ensures CheckText([ch], indent) == "comm[" + Decimal(0) + "] == '" + [ch] + "'"
  {
    assert PartTexts(PrefixTests([ch])) == [PartText(Test(0, ch))];
  }

  /**
   The text written for a pattern is C source exactly when the pattern is non-empty and
   made of plain characters, and then it says exactly what was meant.
   */
  lemma CheckTextRoundTrip(pattern: string, indent: string)
    requires Blank(indent)
    ensures ParseCheck(CheckText(pattern, indent))
         == if pattern != [] && AllPlain(pattern) then Some(PrefixTests(pattern)) else None
  {
    if pattern != [] {
      var tests := PrefixTests(pattern);
      ParseJoined(tests, indent);
      assert forall i :: 0 <= i < |pattern| ==> tests[i].ch == pattern[i];
    }
  }
}
