/** Figures in a text: how they are matched, read, and compared. */
module Figures {
  import opened Common
  import opened Regex
  import opened Decimals

  /** What Unicode says about characters, as far as the gate asks: word characters, decimal
      digits and their values, white space, equality up to case, lower case and case folding. */
  datatype Chars = Chars(
    word: char -> bool, digit: char -> Option<nat>, space: char -> bool, same: (char, char) -> bool,
    lower: string -> string, fold: string -> string)

  const MINUS: char := '\U{2212}'

  predicate IsSign(c: char) { c == '+' || c == '-' || c == MINUS }

  predicate IsDigitOf(ch: Chars, c: char) { ch.digit(c).Some? }

  /** None of the characters a number is punctuated with is a digit. */
  predicate Sane(ch: Chars) {
    !IsDigitOf(ch, '+') && !IsDigitOf(ch, '-') && !IsDigitOf(ch, MINUS) && !IsDigitOf(ch, ',')
    && !IsDigitOf(ch, '.') && !IsDigitOf(ch, '%')
  }

  // ---------------------------------------------------------------- the expressions

  function Digit(ch: Chars): Regex { Set(c => IsDigitOf(ch, c)) }

  function Char(c: char): Regex { Set(x => x == c) }

  function Thousands(ch: Chars): Regex { Cat(Char(','), Cat(Digit(ch), Cat(Digit(ch), Digit(ch)))) }

  function Fraction(ch: Chars): Regex { Cat(Char('.'), Plus(Digit(ch))) }

  function Ending(): Regex { Cat(Maybe(Char('%')), After) }

  function Fractional(ch: Chars): Regex { Cat(Maybe(Fraction(ch)), Ending()) }

  function Grouped(ch: Chars): Regex { Cat(Star(Thousands(ch)), Fractional(ch)) }

  function Unsigned(ch: Chars): Regex { Cat(Plus(Digit(ch)), Grouped(ch)) }

  /** A figure: sign, digits, groups of three, fraction, percent mark; no word around it. */
  function Figure(ch: Chars): Regex { Cat(Before, Cat(Maybe(Set(IsSign)), Unsigned(ch))) }

  // ---------------------------------------------------------------- reading a figure

  function WithoutPercents(s: string): string {
    if s != "" && s[|s| - 1] == '%' then WithoutPercents(s[..|s| - 1]) else s
  }

  function WithoutCommas(s: string): string {
    if s == "" then "" else (if s[0] == ',' then "" else [s[0]]) + WithoutCommas(s[1..])
  }

  function AsciiMinus(s: string): string {
    if s == "" then "" else [if s[0] == MINUS then '-' else s[0]] + AsciiMinus(s[1..])
  }

  predicate Digits(ch: Chars, s: string) { forall c | c in s :: IsDigitOf(ch, c) }

  /** The whole number a run of digits says. */
  function Reading(ch: Chars, s: string): nat {
    if s == "" then 0
    else 10 * Reading(ch, s[..|s| - 1]) + if IsDigitOf(ch, s[|s| - 1]) then ch.digit(s[|s| - 1]).value else 0
  }

  function PointAt(s: string): (i: nat)
    ensures i <= |s|
  {
    if s == "" || s[0] == '.' then 0 else 1 + PointAt(s[1..])
  }

  /** A sign taken off the front. */
  function Unsign(s: string): (bool, string) {
    if s != "" && (s[0] == '-' || s[0] == '+') then (s[0] == '-', s[1..]) else (false, s)
  }

  function SplitPoint(s: string): (string, string) {
    var p := PointAt(s);
    (s[..p], if p < |s| then s[p + 1..] else "")
  }

  /** The decimal constructor on plain notation; None is its error. */
  function ReadDecimal(ch: Chars, s: string): Option<Number> {
    var (neg, body) := Unsign(s);
    var (whole, fraction) := SplitPoint(body);
    ReadParts(ch, neg, whole, fraction)
  }

  function ReadParts(ch: Chars, neg: bool, whole: string, fraction: string): Option<Number> {
    if whole + fraction == "" || !Digits(ch, whole + fraction) then None
    else Some(Number(neg, Reading(ch, whole + fraction), -|fraction|))
  }

  function Cleaned(token: string): string { AsciiMinus(WithoutCommas(WithoutPercents(token))) }

  predicate IsFigure(ch: Chars, token: string) { FullMatch(ch.word, Figure(ch), token) }

  predicate Percent(token: string) { token != "" && token[|token| - 1] == '%' }

  /** One entry of the signature. `None` stands for a figure that would not read, which
      FiguresRead rules out. */
  function Entry(ch: Chars, token: string): Option<string> {
    if IsFigure(ch, token) then
      var n := ReadDecimal(ch, Cleaned(token));
      if n.None? then None else Some(Canonical(n.value) + if Percent(token) then "%" else "")
    else Some(ch.fold(token))
  }

  // ---------------------------------------------------------------- what a figure is

  /** The written forms of a figure. */
  datatype Lexeme = Lexeme(sign: string, first: string, groups: seq<string>, fraction: string, percent: bool)

  function Join(groups: seq<string>, between: string): string {
    if groups == [] then "" else between + groups[0] + Join(groups[1..], between)
  }

  predicate WellFormed(ch: Chars, l: Lexeme) {
    && (l.sign == "" || (|l.sign| == 1 && IsSign(l.sign[0])))
    && l.first != "" && Digits(ch, l.first)
    && GroupsOf(ch, l.groups)
    && Digits(ch, l.fraction)
  }

  function Written(l: Lexeme): string {
    l.sign + (l.first + (Join(l.groups, ",") + (Pointed(l.fraction) + Marked(l.percent))))
  }

  /** The number a written figure stands for. */
  function Denotes(ch: Chars, l: Lexeme): Number {
    Number(l.sign != "" && l.sign != "+", Reading(ch, l.first + Join(l.groups, "") + l.fraction), -|l.fraction|)
  }

  lemma OneDigit(ch: Chars, s: string, i: nat, j: nat)
    requires Reaches(ch.word, Digit(ch), s, i, j)
    ensures j == i + 1 <= |s| && Digits(ch, s[i..j])
  {
    OneCharacter(ch.word, c => IsDigitOf(ch, c), s, i, j);
  }

  lemma DigitsJoin(ch: Chars, s: string, i: nat, k: nat, j: nat)
    requires i <= k <= j <= |s| && Digits(ch, s[i..k]) && Digits(ch, s[k..j])
    ensures Digits(ch, s[i..j])
  {
    assert s[i..j] == s[i..k] + s[k..j];
  }

  lemma {:induction false} DigitRun(ch: Chars, s: string, i: nat, j: nat)
    requires Reaches(ch.word, Star(Digit(ch)), s, i, j)
    ensures i <= j <= |s| && Digits(ch, s[i..j])
    decreases |s| - i
  {
    var k := Round(ch.word, Digit(ch), s, i, j);
    if k > i {
      OneDigit(ch, s, i, k);
      DigitRun(ch, s, k, j);
      DigitsJoin(ch, s, i, k, j);
    }
  }

  lemma DigitsPlus(ch: Chars, s: string, i: nat, j: nat)
    requires Reaches(ch.word, Plus(Digit(ch)), s, i, j)
    ensures i < j <= |s| && Digits(ch, s[i..j])
  {
    var k := Middle(ch.word, Digit(ch), Star(Digit(ch)), s, i, j);
    OneDigit(ch, s, i, k);
    DigitRun(ch, s, k, j);
    DigitsJoin(ch, s, i, k, j);
  }

  lemma ThreeDigits(ch: Chars, s: string, i: nat, j: nat)
    requires Reaches(ch.word, Cat(Digit(ch), Cat(Digit(ch), Digit(ch))), s, i, j)
    ensures j == i + 3 <= |s| && Digits(ch, s[i..j])
  {
    var d := Digit(ch);
    var k := Middle(ch.word, d, Cat(d, d), s, i, j);
    var m := Middle(ch.word, d, d, s, k, j);
    OneDigit(ch, s, i, k);
    OneDigit(ch, s, k, m);
    OneDigit(ch, s, m, j);
    DigitsJoin(ch, s, k, m, j);
    DigitsJoin(ch, s, i, k, j);
  }

  lemma OneGroup(ch: Chars, s: string, i: nat, j: nat)
    requires Reaches(ch.word, Thousands(ch), s, i, j)
    ensures j == i + 4 <= |s| && s[i] == ',' && Digits(ch, s[i + 1..j]) && |s[i + 1..j]| == 3
  {
    var d := Digit(ch);
    var k := Middle(ch.word, Char(','), Cat(d, Cat(d, d)), s, i, j);
    OneCharacter(ch.word, x => x == ',', s, i, k);
    ThreeDigits(ch, s, k, j);
  }

  predicate GroupsOf(ch: Chars, groups: seq<string>) { forall g | g in groups :: |g| == 3 && Digits(ch, g) }

  lemma JoinFirst(g: string, rest: seq<string>, between: string)
    ensures Join([g] + rest, between) == between + g + Join(rest, between)
  {
    assert ([g] + rest)[1..] == rest;
  }

  lemma {:induction false} ManyGroups(ch: Chars, s: string, i: nat, j: nat) returns (groups: seq<string>)
    requires Reaches(ch.word, Star(Thousands(ch)), s, i, j)
    ensures i <= j <= |s| && GroupsOf(ch, groups) && s[i..j] == Join(groups, ",")
    decreases |s| - i
  {
    var k := Round(ch.word, Thousands(ch), s, i, j);
    groups := [];
    if k > i {
      OneGroup(ch, s, i, k);
      groups := ManyGroups(ch, s, k, j);
      JoinFirst(s[i + 1..k], groups, ",");
      FirstGroup(s, i, k, j);
      groups := [s[i + 1..k]] + groups;
    }
  }

  lemma FirstGroup(s: string, i: nat, k: nat, j: nat)
    requires i < k <= j <= |s| && s[i] == ','
    ensures s[i..j] == "," + s[i + 1..k] + s[k..j]
  {}

  lemma OptionalCharacter(ch: Chars, has: char -> bool, s: string, i: nat, j: nat)
    requires Reaches(ch.word, Maybe(Set(has)), s, i, j)
    ensures i <= j <= |s| && (j == i || (j == i + 1 && has(s[i])))
  {
    Optional(ch.word, Set(has), s, i, j);
    if j != i { OneCharacter(ch.word, has, s, i, j); }
  }

  function Pointed(fraction: string): string { if fraction == "" then "" else ['.'] + fraction }

  function Marked(percent: bool): string { if percent then ['%'] else [] }

  lemma EndingIs(ch: Chars, s: string, i: nat) returns (percent: bool)
    requires Reaches(ch.word, Ending(), s, i, |s|)
    ensures i <= |s| && s[i..] == Marked(percent)
  {
    var k := Middle(ch.word, Maybe(Char('%')), After, s, i, |s|);
    OptionalCharacter(ch, x => x == '%', s, i, k);
    percent := k > i;
  }

  lemma OptionalFraction(ch: Chars, s: string, i: nat, j: nat) returns (fraction: string)
    requires Reaches(ch.word, Maybe(Fraction(ch)), s, i, j)
    ensures i <= j <= |s| && Digits(ch, fraction) && s[i..j] == Pointed(fraction)
  {
    Optional(ch.word, Fraction(ch), s, i, j);
    fraction := "";
    if j != i {
      var k := Middle(ch.word, Char('.'), Plus(Digit(ch)), s, i, j);
      OneCharacter(ch.word, x => x == '.', s, i, k);
      DigitsPlus(ch, s, k, j);
      fraction := s[k..j];
    }
  }

  lemma Divide(s: string, i: nat, k: nat)
    requires i <= k <= |s|
    ensures s[i..] == s[i..k] + s[k..]
  {}

  lemma FractionalIs(ch: Chars, s: string, i: nat) returns (fraction: string, percent: bool)
    requires Reaches(ch.word, Fractional(ch), s, i, |s|)
    ensures i <= |s| && Digits(ch, fraction) && s[i..] == Pointed(fraction) + Marked(percent)
  {
    var k := Middle(ch.word, Maybe(Fraction(ch)), Ending(), s, i, |s|);
    fraction := OptionalFraction(ch, s, i, k);
    percent := EndingIs(ch, s, k);
    Divide(s, i, k);
  }

  lemma GroupedIs(ch: Chars, s: string, i: nat) returns (groups: seq<string>, fraction: string, percent: bool)
    requires Reaches(ch.word, Grouped(ch), s, i, |s|)
    ensures i <= |s| && GroupsOf(ch, groups) && Digits(ch, fraction)
    ensures s[i..] == Join(groups, ",") + (Pointed(fraction) + Marked(percent))
  {
    var k := Middle(ch.word, Star(Thousands(ch)), Fractional(ch), s, i, |s|);
    groups := ManyGroups(ch, s, i, k);
    fraction, percent := FractionalIs(ch, s, k);
    Divide(s, i, k);
  }

  lemma UnsignedIs(ch: Chars, s: string, i: nat)
    returns (first: string, groups: seq<string>, fraction: string, percent: bool)
    requires Reaches(ch.word, Unsigned(ch), s, i, |s|)
    ensures i <= |s| && first != "" && Digits(ch, first) && GroupsOf(ch, groups) && Digits(ch, fraction)
    ensures s[i..] == first + (Join(groups, ",") + (Pointed(fraction) + Marked(percent)))
  {
    var k := Middle(ch.word, Plus(Digit(ch)), Grouped(ch), s, i, |s|);
    DigitsPlus(ch, s, i, k);
    first := s[i..k];
    groups, fraction, percent := GroupedIs(ch, s, k);
    Divide(s, i, k);
  }

  lemma AtStart(ch: Chars, s: string, k: nat)
    requires Reaches(ch.word, Before, s, 0, k)
    ensures k == 0
  {}

  /** Every text the figure expression matches in full is a written figure. */
  lemma FigureIsWritten(ch: Chars, s: string) returns (l: Lexeme)
    requires IsFigure(ch, s)
    ensures WellFormed(ch, l) && Written(l) == s
  {
    var signed := Cat(Maybe(Set(IsSign)), Unsigned(ch));
    var k0 := Middle(ch.word, Before, signed, s, 0, |s|);
    AtStart(ch, s, k0);
    var k := Middle(ch.word, Maybe(Set(IsSign)), Unsigned(ch), s, 0, |s|);
    OptionalCharacter(ch, IsSign, s, 0, k);
    var first, groups, fraction, percent := UnsignedIs(ch, s, k);
    Divide(s, 0, k);
    l := Lexeme(s[..k], first, groups, fraction, percent);
  }

  lemma {:induction false} RunMatches(ch: Chars, s: string, i: nat, j: nat)
    requires i <= j <= |s| && Digits(ch, s[i..j])
    ensures Reaches(ch.word, Star(Digit(ch)), s, i, j)
    decreases j - i
  {
    if i == j {
      StarIff(ch.word, Digit(ch), s, i, j);
    } else {
      assert s[i..j][0] == s[i] && s[i..j][0] in s[i..j];
      assert forall c | c in s[i + 1..j] :: c in s[i..j];
      RunMatches(ch, s, i + 1, j);
      assert Reaches(ch.word, Digit(ch), s, i, i + 1);
      Again(ch.word, Digit(ch), s, i, i + 1, j);
    }
  }

  lemma PlusMatches(ch: Chars, s: string, i: nat, j: nat)
    requires i < j <= |s| && Digits(ch, s[i..j])
    ensures Reaches(ch.word, Plus(Digit(ch)), s, i, j)
  {
    assert s[i..j][0] == s[i] && s[i..j][0] in s[i..j];
    assert forall c | c in s[i + 1..j] :: c in s[i..j];
    RunMatches(ch, s, i + 1, j);
    assert Reaches(ch.word, Digit(ch), s, i, i + 1);
    Through(ch.word, Digit(ch), Star(Digit(ch)), s, i, i + 1, j);
  }

  lemma GroupMatches(ch: Chars, s: string, i: nat, g: string)
    requires i + 4 <= |s| && s[i] == ',' && s[i + 1..i + 4] == g && Digits(ch, g)
    ensures Reaches(ch.word, Thousands(ch), s, i, i + 4)
  {
    var d := Digit(ch);
    assert g[0] in g && g[1] in g && g[2] in g && s[i + 1] == g[0] && s[i + 2] == g[1] && s[i + 3] == g[2];
    assert Reaches(ch.word, d, s, i + 1, i + 2) && Reaches(ch.word, d, s, i + 2, i + 3)
           && Reaches(ch.word, d, s, i + 3, i + 4);
    Through(ch.word, d, d, s, i + 2, i + 3, i + 4);
    Through(ch.word, d, Cat(d, d), s, i + 1, i + 2, i + 4);
    assert Reaches(ch.word, Char(','), s, i, i + 1);
    Through(ch.word, Char(','), Cat(d, Cat(d, d)), s, i, i + 1, i + 4);
  }

  lemma OneMoreGroup(ch: Chars, s: string, i: nat, g: string, rest: string)
    requires |g| == 3 && Digits(ch, g) && i + 4 + |rest| <= |s| && s[i..i + 4 + |rest|] == "," + g + rest
    requires Reaches(ch.word, Star(Thousands(ch)), s, i + 4, i + 4 + |rest|)
    ensures Reaches(ch.word, Star(Thousands(ch)), s, i, i + 4 + |rest|)
  {
    FirstOfJoined(s, i, g, rest);
    GroupMatches(ch, s, i, g);
    Again(ch.word, Thousands(ch), s, i, i + 4, i + 4 + |rest|);
  }

  lemma GroupsSplit(ch: Chars, groups: seq<string>)
    requires GroupsOf(ch, groups) && groups != []
    ensures |groups[0]| == 3 && Digits(ch, groups[0]) && GroupsOf(ch, groups[1..])
    ensures groups == [groups[0]] + groups[1..]
  {
    assert groups[0] in groups;
  }

  /** The text of `groups` stands at `i`. */
  predicate JoinedAt(s: string, i: nat, groups: seq<string>, text: string) {
    text == Join(groups, ",") && i + |text| <= |s| && s[i..i + |text|] == text
  }

  lemma {:induction false} GroupsMatch(ch: Chars, s: string, i: nat, groups: seq<string>, text: string)
    requires GroupsOf(ch, groups) && JoinedAt(s, i, groups, text)
    ensures Reaches(ch.word, Star(Thousands(ch)), s, i, i + |text|)
    decreases |groups|
  {
    if groups == [] {
      StarIff(ch.word, Thousands(ch), s, i, i);
    } else {
      var g, rest := groups[0], groups[1..];
      GroupsSplit(ch, groups);
      var tail := Join(rest, ",");
      JoinFirst(g, rest, ",");
      GroupAhead(s, i, g, tail, text);
      GroupsMatch(ch, s, i + 4, rest, tail);
      OneMoreGroup(ch, s, i, g, tail);
    }
  }

  lemma GroupAhead(s: string, i: nat, g: string, tail: string, text: string)
    requires |g| == 3 && text == "," + g + tail && i + |text| <= |s| && s[i..i + |text|] == text
    ensures |text| == 4 + |tail| && s[i + 4..i + 4 + |tail|] == tail && s[i..i + 4 + |tail|] == "," + g + tail
  {
    FirstOfJoined(s, i, g, tail);
  }

  lemma FirstOfJoined(s: string, i: nat, g: string, rest: string)
    requires |g| == 3 && i + 4 + |rest| <= |s| && s[i..i + 4 + |rest|] == "," + g + rest
    ensures s[i] == ',' && s[i + 1..i + 4] == g && s[i + 4..i + 4 + |rest|] == rest
  {
    var t := s[i..i + 4 + |rest|];
    assert t[0] == ',' && t[1..4] == g && t[4..4 + |rest|] == rest;
    SliceOfSlice(s, i, i + 4 + |rest|, 1, 4);
    SliceOfSlice(s, i, i + 4 + |rest|, 4, 4 + |rest|);
  }

  lemma SliceOfSlice(s: string, i: nat, j: nat, a: nat, b: nat)
    requires i <= j <= |s| && a <= b <= j - i
    ensures s[i..j][a..b] == s[i + a..i + b]
  {
    var t, u := s[i..j][a..b], s[i + a..i + b];
    forall k | 0 <= k < b - a ensures t[k] == u[k] {
      assert t[k] == s[i..j][a + k] == s[i + (a + k)];
    }
  }

  lemma FractionMatches(ch: Chars, s: string, i: nat, fraction: string)
    requires Digits(ch, fraction) && i + |Pointed(fraction)| <= |s|
             && s[i..i + |Pointed(fraction)|] == Pointed(fraction)
    ensures Reaches(ch.word, Maybe(Fraction(ch)), s, i, i + |Pointed(fraction)|)
  {
    var j := i + |Pointed(fraction)|;
    if fraction != "" {
      assert s[i..j][0] == '.' && s[i..j][1..] == fraction && s[i + 1..j] == s[i..j][1..];
      PlusMatches(ch, s, i + 1, j);
      assert Reaches(ch.word, Char('.'), s, i, i + 1);
      Through(ch.word, Char('.'), Plus(Digit(ch)), s, i, i + 1, j);
    }
    Taken(ch.word, Fraction(ch), s, i, j);
  }

  lemma EndingMatches(ch: Chars, s: string, i: nat, percent: bool)
    requires i <= |s| && s[i..] == Marked(percent)
    ensures Reaches(ch.word, Ending(), s, i, |s|)
  {
    if percent { assert s[i..][0] == s[i] && Reaches(ch.word, Char('%'), s, i, i + 1); }
    Taken(ch.word, Char('%'), s, i, |s|);
    assert Reaches(ch.word, After, s, |s|, |s|);
    Through(ch.word, Maybe(Char('%')), After, s, i, |s|, |s|);
  }

  lemma FractionalMatches(ch: Chars, s: string, k3: nat, k4: nat, fraction: string, percent: bool)
    requires k3 <= k4 <= |s| && Digits(ch, fraction) && s[k3..k4] == Pointed(fraction) && s[k4..] == Marked(percent)
    ensures Reaches(ch.word, Fractional(ch), s, k3, |s|)
  {
    EndingMatches(ch, s, k4, percent);
    FractionMatches(ch, s, k3, fraction);
    Through(ch.word, Maybe(Fraction(ch)), Ending(), s, k3, k4, |s|);
  }

  lemma UnsignedMatches(ch: Chars, s: string, k1: nat, k2: nat, k3: nat, groups: seq<string>)
    requires k1 < k2 <= k3 <= |s| && Digits(ch, s[k1..k2]) && GroupsOf(ch, groups) && s[k2..k3] == Join(groups, ",")
    requires Reaches(ch.word, Fractional(ch), s, k3, |s|)
    ensures Reaches(ch.word, Unsigned(ch), s, k1, |s|)
  {
    GroupsMatch(ch, s, k2, groups, s[k2..k3]);
    Through(ch.word, Star(Thousands(ch)), Fractional(ch), s, k2, k3, |s|);
    PlusMatches(ch, s, k1, k2);
    Through(ch.word, Plus(Digit(ch)), Grouped(ch), s, k1, k2, |s|);
  }

  /** A slice behind `a` is a slice of what follows it. */
  lemma Shifted(a: string, t: string, i: nat, j: nat)
    requires i <= j <= |t|
    ensures (a + t)[|a| + i..|a| + j] == t[i..j]
  {
    var x, y := (a + t)[|a| + i..|a| + j], t[i..j];
    forall k | 0 <= k < j - i ensures x[k] == y[k] {
      assert x[k] == (a + t)[|a| + (i + k)] == t[i + k];
    }
  }

  lemma TwoSlices(a: string, t: string)
    ensures (a + t)[..|a|] == a && (a + t)[|a|..] == t && (a + t)[0..|a|] == a
  {}

  lemma ThreeSlices(c: string, d: string, e: string)
    ensures var s := c + (d + e);
      s[0..|c|] == c && s[|c|..|c| + |d|] == d && s[|c| + |d|..|s|] == e
  {
    TwoSlices(c, d + e);
    TwoSlices(d, e);
    Shifted(c, d + e, 0, |d|);
    Shifted(c, d + e, |d|, |d + e|);
  }

  lemma FourSlices(b: string, c: string, d: string, e: string)
    ensures var s := b + (c + (d + e)); var k2 := |b|; var k3 := k2 + |c|; var k4 := k3 + |d|;
      s[0..k2] == b && s[k2..k3] == c && s[k3..k4] == d && s[k4..|s|] == e
  {
    var t := c + (d + e);
    TwoSlices(b, t);
    ThreeSlices(c, d, e);
    Shifted(b, t, 0, |c|);
    Shifted(b, t, |c|, |c| + |d|);
    Shifted(b, t, |c| + |d|, |t|);
  }

  /** Where the five parts of a text stand. */
  predicate InParts(s: string, a: string, b: string, c: string, d: string, e: string) {
    var k2 := |a| + |b|;
    var k3 := k2 + |c|;
    var k4 := k3 + |d|;
    && |s| == k4 + |e|
    && s[..|a|] == a && s[|a|..k2] == b && s[k2..k3] == c && s[k3..k4] == d && s[k4..] == e
  }

  lemma FiveSlices(a: string, b: string, c: string, d: string, e: string)
    ensures InParts(a + (b + (c + (d + e))), a, b, c, d, e)
  {
    var t := b + (c + (d + e));
    TwoSlices(a, t);
    FourSlices(b, c, d, e);
    Shifted(a, t, 0, |b|);
    Shifted(a, t, |b|, |b| + |c|);
    Shifted(a, t, |b| + |c|, |b| + |c| + |d|);
    Shifted(a, t, |b| + |c| + |d|, |t|);
  }

  lemma SignMatches(ch: Chars, s: string, sign: string)
    requires |sign| <= |s| && s[..|sign|] == sign && (sign == "" || (|sign| == 1 && IsSign(sign[0])))
    ensures Reaches(ch.word, Maybe(Set(IsSign)), s, 0, |sign|)
  {
    if sign != "" { assert s[0] == sign[0] && Reaches(ch.word, Set(IsSign), s, 0, 1); }
    Taken(ch.word, Set(IsSign), s, 0, |sign|);
  }

  lemma FigureMatches(ch: Chars, s: string, k1: nat)
    requires Reaches(ch.word, Maybe(Set(IsSign)), s, 0, k1) && Reaches(ch.word, Unsigned(ch), s, k1, |s|)
    ensures IsFigure(ch, s)
  {
    Through(ch.word, Maybe(Set(IsSign)), Unsigned(ch), s, 0, k1, |s|);
    assert Reaches(ch.word, Before, s, 0, 0);
    Through(ch.word, Before, Cat(Maybe(Set(IsSign)), Unsigned(ch)), s, 0, 0, |s|);
  }

  /** And every written figure matches it. */
  lemma WrittenIsFigure(ch: Chars, l: Lexeme)
    requires WellFormed(ch, l)
    ensures IsFigure(ch, Written(l))
  {
    FiveSlices(l.sign, l.first, Join(l.groups, ","), Pointed(l.fraction), Marked(l.percent));
    PartsAreFigure(ch, Written(l), l);
  }

  lemma PartsAreUnsigned(ch: Chars, s: string, l: Lexeme)
    requires WellFormed(ch, l)
    requires InParts(s, l.sign, l.first, Join(l.groups, ","), Pointed(l.fraction), Marked(l.percent))
    ensures Reaches(ch.word, Unsigned(ch), s, |l.sign|, |s|)
  {
    var k1 := |l.sign|;
    var k2 := k1 + |l.first|;
    var k3 := k2 + |Join(l.groups, ",")|;
    FractionalMatches(ch, s, k3, k3 + |Pointed(l.fraction)|, l.fraction, l.percent);
    UnsignedMatches(ch, s, k1, k2, k3, l.groups);
  }

  lemma PartsAreFigure(ch: Chars, s: string, l: Lexeme)
    requires WellFormed(ch, l)
    requires InParts(s, l.sign, l.first, Join(l.groups, ","), Pointed(l.fraction), Marked(l.percent))
    ensures IsFigure(ch, s)
  {
    PartsAreUnsigned(ch, s, l);
    SignMatches(ch, s, l.sign);
    FigureMatches(ch, s, |l.sign|);
  }

  // ---------------------------------------------------------------- what cleaning and reading make of it

  lemma Regrouped(a: string, b: string, c: string)
    ensures a + (b + c) == (a + b) + c
  {}

  lemma FirstOfCat(a: string, b: string)
    requires a != ""
    ensures (a + b)[0] == a[0] && (a + b)[1..] == a[1..] + b
  {}

  lemma {:induction false} CommasCat(a: string, b: string)
    ensures WithoutCommas(a + b) == WithoutCommas(a) + WithoutCommas(b)
    decreases |a|
  {
    if a == "" {
      assert a + b == b;
    } else {
      FirstOfCat(a, b);
      CommasCat(a[1..], b);
      Regrouped(if a[0] == ',' then "" else [a[0]], WithoutCommas(a[1..]), WithoutCommas(b));
    }
  }

  lemma {:induction false} NoCommas(a: string)
    requires ',' !in a
    ensures WithoutCommas(a) == a
    decreases |a|
  {
    if a != "" { NoCommas(a[1..]); }
  }

  lemma {:induction false} MinusCat(a: string, b: string)
    ensures AsciiMinus(a + b) == AsciiMinus(a) + AsciiMinus(b)
    decreases |a|
  {
    if a == "" {
      assert a + b == b;
    } else {
      FirstOfCat(a, b);
      MinusCat(a[1..], b);
      Regrouped([if a[0] == MINUS then '-' else a[0]], AsciiMinus(a[1..]), AsciiMinus(b));
    }
  }

  lemma {:induction false} NoMinus(a: string)
    requires MINUS !in a
    ensures AsciiMinus(a) == a
    decreases |a|
  {
    if a != "" { NoMinus(a[1..]); }
  }

  lemma {:induction false} JoinedGroups(ch: Chars, groups: seq<string>)
    requires Sane(ch) && GroupsOf(ch, groups)
    ensures WithoutCommas(Join(groups, ",")) == Join(groups, "") && Digits(ch, Join(groups, ""))
            && '%' !in Join(groups, ",")
    decreases |groups|
  {
    if groups != [] {
      var g, rest := groups[0], groups[1..];
      assert g in groups && Digits(ch, g);
      JoinedGroups(ch, rest);
      CommasCat("," + g, Join(rest, ","));
      NoCommas(g);
      assert ("," + g)[1..] == g;
    }
  }

  lemma PercentsGone(u: string, percent: bool)
    requires '%' !in u
    ensures WithoutPercents(u + Marked(percent)) == u
    ensures u != "" ==> Percent(u + Marked(percent)) == percent
  {
    var s := u + Marked(percent);
    if percent { assert s[..|s| - 1] == u; }
    assert WithoutPercents(u) == u;
  }

  /** A figure without its percent mark, and with it cleaned. */
  function Unmarked(l: Lexeme): string { l.sign + (l.first + (Join(l.groups, ",") + Pointed(l.fraction))) }

  function WholePart(l: Lexeme): string { l.first + Join(l.groups, "") }

  lemma EndMoves(a: string, b: string, c: string, d: string, e: string)
    ensures a + (b + (c + (d + e))) == (a + (b + (c + d))) + e
  {}

  lemma NoneInside(c: char, a: string, b: string, d: string, e: string)
    requires c !in a && c !in b && c !in d && c !in e
    ensures c !in a + (b + (d + e))
  {}

  lemma PartsClean(ch: Chars, l: Lexeme)
    requires Sane(ch) && WellFormed(ch, l)
    ensures '%' !in Unmarked(l) && Written(l) == Unmarked(l) + Marked(l.percent)
  {
    JoinedGroups(ch, l.groups);
    EndMoves(l.sign, l.first, Join(l.groups, ","), Pointed(l.fraction), Marked(l.percent));
    NoneInside('%', l.sign, l.first, Join(l.groups, ","), Pointed(l.fraction));
  }

  lemma CommasJoin(a: string, b: string, x: string, y: string)
    requires WithoutCommas(a) == x && WithoutCommas(b) == y
    ensures WithoutCommas(a + b) == x + y
  {
    CommasCat(a, b);
  }

  lemma Associates(a: string, b: string, c: string, d: string)
    ensures a + (b + (c + d)) == a + ((b + c) + d)
  {}

  lemma CommasInGroups(sign: string, first: string, grouped: string, joined: string, tail: string)
    requires ',' !in sign && ',' !in first && ',' !in tail && WithoutCommas(grouped) == joined
    ensures WithoutCommas(sign + (first + (grouped + tail))) == sign + ((first + joined) + tail)
  {
    NoCommas(sign);
    NoCommas(first);
    NoCommas(tail);
    CommasJoin(grouped, tail, joined, tail);
    CommasJoin(first, grouped + tail, first, joined + tail);
    CommasJoin(sign, first + (grouped + tail), sign, first + (joined + tail));
    Associates(sign, first, joined, tail);
  }

  lemma CommasClean(ch: Chars, l: Lexeme)
    requires Sane(ch) && WellFormed(ch, l)
    ensures WithoutCommas(Unmarked(l)) == l.sign + (WholePart(l) + Pointed(l.fraction))
    ensures Digits(ch, WholePart(l))
  {
    JoinedGroups(ch, l.groups);
    CommasInGroups(l.sign, l.first, Join(l.groups, ","), Join(l.groups, ""), Pointed(l.fraction));
  }

  function PlainSign(sign: string): string { if sign == [MINUS] then ['-'] else sign }

  lemma MinusClean(ch: Chars, sign: string, whole: string, fraction: string)
    requires Sane(ch) && (sign == "" || (|sign| == 1 && IsSign(sign[0]))) && Digits(ch, whole) && Digits(ch, fraction)
    ensures AsciiMinus(sign + (whole + Pointed(fraction))) == PlainSign(sign) + (whole + Pointed(fraction))
  {
    MinusCat(sign, whole + Pointed(fraction));
    NoMinus(whole + Pointed(fraction));
    if sign != "" { assert sign == [sign[0]] && sign[1..] == ""; }
  }

  lemma {:induction false} PointIs(a: string, b: string)
    requires '.' !in a
    ensures PointAt(a + ['.'] + b) == |a| && PointAt(a) == |a|
    decreases |a|
  {
    if a != "" {
      assert (a + ['.'] + b)[1..] == a[1..] + ['.'] + b;
      PointIs(a[1..], b);
    }
  }

  lemma PointSplits(whole: string, fraction: string)
    requires '.' !in whole
    ensures SplitPoint(whole + Pointed(fraction)) == (whole, fraction)
  {
    PointIs(whole, fraction);
    if fraction == "" {
      assert whole + Pointed(fraction) == whole;
    } else {
      var s := whole + ['.'] + fraction;
      assert whole + Pointed(fraction) == s;
      assert s[..|whole|] == whole && s[|whole| + 1..] == fraction;
    }
  }

  lemma SignSplits(sign: string, body: string)
    requires sign == "" || sign == "+" || sign == "-"
    requires body != "" && body[0] != '-' && body[0] != '+'
    ensures Unsign(sign + body) == (sign == "-", body)
  {
    if sign != "" { assert (sign + body)[1..] == body; } else { assert sign + body == body; }
  }

  lemma ReadsPlain(ch: Chars, sign: string, whole: string, fraction: string)
    requires Sane(ch) && (sign == "" || sign == "+" || sign == "-")
    requires whole != "" && Digits(ch, whole) && Digits(ch, fraction)
    ensures ReadDecimal(ch, sign + (whole + Pointed(fraction)))
            == Some(Number(sign == "-", Reading(ch, whole + fraction), -|fraction|))
  {
    var body := whole + Pointed(fraction);
    assert body[0] == whole[0] && whole[0] in whole;
    SignSplits(sign, body);
    PointSplits(whole, fraction);
  }

  lemma CleanedIs(ch: Chars, l: Lexeme)
    requires Sane(ch) && WellFormed(ch, l)
    ensures Cleaned(Written(l)) == PlainSign(l.sign) + (WholePart(l) + Pointed(l.fraction))
    ensures Percent(Written(l)) == l.percent && Digits(ch, WholePart(l))
  {
    PartsClean(ch, l);
    assert Unmarked(l) != "";
    PercentsGone(Unmarked(l), l.percent);
    CommasClean(ch, l);
    MinusClean(ch, l.sign, WholePart(l), l.fraction);
  }

  /** The decimal constructor never fails on a figure, and reads the number it stands for. */
  lemma FiguresRead(ch: Chars, l: Lexeme)
    requires Sane(ch) && WellFormed(ch, l)
    ensures ReadDecimal(ch, Cleaned(Written(l))) == Some(Denotes(ch, l)) && Percent(Written(l)) == l.percent
  {
    CleanedIs(ch, l);
    ReadsPlain(ch, PlainSign(l.sign), WholePart(l), l.fraction);
  }

  // ---------------------------------------------------------------- figures compare by value

  /** A figure's entry in the signature. */
  lemma FigureEntry(ch: Chars, token: string) returns (l: Lexeme)
    requires Sane(ch) && IsFigure(ch, token)
    ensures WellFormed(ch, l) && Written(l) == token
    ensures Entry(ch, token) == Some(Canonical(Denotes(ch, l)) + Marked(l.percent))
  {
    l := FigureIsWritten(ch, token);
    FiguresRead(ch, l);
  }

  lemma MarkSplits(a: string, p: bool, b: string, q: bool)
    requires '%' !in a && '%' !in b
    ensures a + Marked(p) == b + Marked(q) <==> a == b && p == q
  {
    var s, t := a + Marked(p), b + Marked(q);
    if s == t {
      assert p <==> '%' in s;
      assert q <==> '%' in t;
      assert s[..|s| - |Marked(p)|] == a && t[..|t| - |Marked(q)|] == b;
    }
  }

  /** Two figures agree in the signature exactly when their percent marks, their signs and
      their magnitudes, rounded to 28 digits, do. */
  lemma FiguresAgreeIff(ch: Chars, a: Lexeme, b: Lexeme)
    requires Sane(ch) && WellFormed(ch, a) && WellFormed(ch, b)
    ensures Entry(ch, Written(a)) == Entry(ch, Written(b))
            <==> a.percent == b.percent && Denotes(ch, a).neg == Denotes(ch, b).neg
                 && SameMagnitude(Rounded(Denotes(ch, a)), Rounded(Denotes(ch, b)))
  {
    var m, n := Denotes(ch, a), Denotes(ch, b);
    WrittenIsFigure(ch, a);
    WrittenIsFigure(ch, b);
    FiguresRead(ch, a);
    FiguresRead(ch, b);
    NoPercentPrinted(m);
    NoPercentPrinted(n);
    MarkSplits(Canonical(m), a.percent, Canonical(n), b.percent);
    CanonicalIff(m, n);
  }

  lemma NoPercentPrinted(n: Number)
    ensures '%' !in Canonical(n)
  {
    PrintsNoPercent(Normalize(n));
  }

  lemma DigitsNoPercent(s: string)
    requires AllDigits(s)
    ensures '%' !in s
  {
    assert '%' in s ==> IsDigit('%');
  }

  lemma SignedNoPercent(k: int)
    ensures '%' !in Signed(k)
  {
    DecimalRoundTrip(if k >= 0 then k else -k);
    DigitsNoPercent(Decimal(if k >= 0 then k else -k));
  }

  lemma MantissaNoPercent(whole: string, fraction: string)
    requires AllDigits(whole) && AllDigits(fraction)
    ensures '%' !in Mantissa(whole, fraction)
  {
    DigitsNoPercent(whole);
    DigitsNoPercent(fraction);
  }

  lemma TextNoPercent(s: Shape)
    requires WellShaped(s)
    ensures '%' !in Text(s)
  {
    MantissaNoPercent(s.whole, s.fraction);
    if s.mark.Some? { SignedNoPercent(s.mark.value); }
  }

  lemma PrintsNoPercent(n: Number)
    ensures '%' !in Print(n)
  {
    ShapeSays(n.coeff, n.exp);
    TextNoPercent(ShapeOf(n.coeff, n.exp));
  }

  /** Figures other than zero, of at most 28 significant digits, agree exactly when value and
      percent mark do. */
  lemma FiguresAgreeByValue(ch: Chars, a: Lexeme, b: Lexeme)
    requires Sane(ch) && WellFormed(ch, a) && WellFormed(ch, b)
    requires Denotes(ch, a).coeff != 0 && Denotes(ch, b).coeff != 0 && Short(Denotes(ch, a)) && Short(Denotes(ch, b))
    ensures Entry(ch, Written(a)) == Entry(ch, Written(b))
            <==> a.percent == b.percent && SameValue(Denotes(ch, a), Denotes(ch, b))
  {
    FiguresAgreeIff(ch, a, b);
  }
}
