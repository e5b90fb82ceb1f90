/** The gate a rewritten text must pass: the same figures, names and comparisons, in order. */
module Grounding {
  import opened Common
  import opened Regex
  import opened Decimals
  import opened Figures

  const MAX_LENGTH: nat := 4000

  function Word(ch: Chars, options: Regex): Regex { Cat(Edge, Cat(options, Edge)) }

  function Spelled(ch: Chars, text: string): Regex { Literal(ch.same, text) }

  function Plural(ch: Chars, text: string): Regex { Cat(Spelled(ch, text), Maybe(Spelled(ch, "s"))) }

  function Spellings(ch: Chars, names: seq<string>): (rs: seq<Regex>)
    ensures |rs| == |names| && forall k | 0 <= k < |names| :: rs[k] == Spelled(ch, names[k])
  {
    seq(|names|, k requires 0 <= k < |names| => Spelled(ch, names[k]))
  }

  function Plurals(ch: Chars, stems: seq<string>): (rs: seq<Regex>)
    ensures |rs| == |stems| && forall k | 0 <= k < |stems| :: rs[k] == Plural(ch, stems[k])
  {
    seq(|stems|, k requires 0 <= k < |stems| => Plural(ch, stems[k]))
  }

  function Capital(): Regex { Set(c => 'A' <= c <= 'Z') }

  predicate SameCharacter(a: char, b: char) { a == b }

  function Exactly(text: string): Regex { Literal(SameCharacter, text) }

  function Symbol(): Regex { Set(c => c in "$\U{20AC}\U{A3}\U{A5}\U{20B9}") }

  function CurrencyCode(ch: Chars): Regex { Word(ch, Cat(Capital(), Cat(Capital(), Capital()))) }

  function CurrencyNames(ch: Chars): seq<Regex> {
    Spellings(ch, ["usd", "eur", "gbp", "jpy", "inr", "cad", "aud", "chf", "yen"])
    + Plurals(ch, ["dollar", "euro", "pound", "rupee"])
  }

  function Currency(ch: Chars): Regex {
    Any([Exactly("CA$"), Exactly("A$"), Symbol(), CurrencyCode(ch), Word(ch, Any(CurrencyNames(ch)))])
  }

  const COMPARISONS: seq<string> := ["more", "less", "included", "excluded"]

  function Comparison(ch: Chars): Regex { Word(ch, Any(Spellings(ch, COMPARISONS))) }

  const NUMBERS: seq<string> := [
    "zero", "one", "two", "three", "four", "five", "six", "seven", "eight", "nine", "ten", "hundred", "thousand",
    "million"]

  function NumberWord(ch: Chars): Regex { Word(ch, Any(Spellings(ch, NUMBERS))) }

  /** The facts' names: categories, merchants and the focus; `known` are the category names and
      the months. */
  datatype Facts = Facts(known: seq<string>, merchants: seq<string>, categories: seq<string>, focus: Option<string>)

  function Names(f: Facts): seq<string> {
    f.known + f.merchants + f.categories + if f.focus.Some? then [f.focus.value] else []
  }

  function InsertByLength(name: string, sorted: seq<string>): seq<string> {
    if sorted == [] || |name| > |sorted[0]| then [name] + sorted else [sorted[0]] + InsertByLength(name, sorted[1..])
  }

  /** The names that say anything, longest first. */
  function Ordered(names: seq<string>): (r: seq<string>)
    ensures forall n | n in r :: n != ""
  {
    if names == [] then []
    else
      var rest := Ordered(names[..|names| - 1]);
      var name := names[|names| - 1];
      if name == "" then rest else (InsertedSame(name, rest); InsertByLength(name, rest))
  }

  lemma {:induction false} InsertedSame(name: string, sorted: seq<string>)
    ensures forall n :: n in InsertByLength(name, sorted) <==> n == name || n in sorted
    decreases |sorted|
  {
    if sorted != [] && |name| <= |sorted[0]| {
      InsertedSame(name, sorted[1..]);
      assert sorted == [sorted[0]] + sorted[1..];
    }
  }

  function Choices(ch: Chars, f: Facts): seq<Regex> {
    Spellings(ch, Ordered(Names(f))) + [Currency(ch), Figure(ch), Comparison(ch)]
  }

  function Pattern(ch: Chars, f: Facts): Regex { Any(Choices(ch, f)) }

  // ---------------------------------------------------------------- signatures

  function Entries(ch: Chars, s: string, found: seq<Span>): seq<Option<string>>
    requires forall k | 0 <= k < |found| :: found[k].from < found[k].upTo <= |s|
  {
    seq(|found|, k requires 0 <= k < |found| => Entry(ch, Slice(s, found[k])))
  }

  function Signature(ch: Chars, f: Facts, s: string): seq<Option<string>> {
    Entries(ch, s, FindAll(ch.word, Pattern(ch, f), s))
  }

  function NumberWords(ch: Chars, s: string): seq<string> {
    var found := FindAll(ch.word, NumberWord(ch), s);
    seq(|found|, k requires 0 <= k < |found| => Slice(s, found[k]))
  }

  function StripLeft(ch: Chars, s: string): string { if s != "" && ch.space(s[0]) then StripLeft(ch, s[1..]) else s }

  function StripRight(ch: Chars, s: string): string {
    if s != "" && ch.space(s[|s| - 1]) then StripRight(ch, s[..|s| - 1]) else s
  }

  function Strip(ch: Chars, s: string): string { StripRight(ch, StripLeft(ch, s)) }

  /** The gate. None is a value that is not a string. */
  predicate ValidRewrite(ch: Chars, value: Option<string>, draft: string, f: Facts) {
    value.Some? && Strip(ch, value.value) != "" && |value.value| <= MAX_LENGTH
    && var text := Strip(ch, value.value);
       && NumberWords(ch, ch.lower(text)) == NumberWords(ch, ch.lower(draft))
       && Signature(ch, f, text) == Signature(ch, f, draft)
  }

  // ---------------------------------------------------------------- the gate as the code runs it

  method EntryOf(ch: Chars, token: string) returns (e: Option<string>)
    ensures e == Entry(ch, token)
  {
    if IsFigure(ch, token) {
      var suffix := if Percent(token) then "%" else "";
      var n := ReadDecimal(ch, Cleaned(token));
      return if n.None? then None else Some(Canonical(n.value) + suffix);
    }
    e := Some(ch.fold(token));
  }

  method EntriesOf(ch: Chars, s: string, found: seq<Span>) returns (result: seq<Option<string>>)
    requires forall k | 0 <= k < |found| :: found[k].from < found[k].upTo <= |s|
    ensures result == Entries(ch, s, found)
  {
    result := [];
    for k := 0 to |found|
      invariant |result| == k && forall i | 0 <= i < k :: result[i] == Entry(ch, Slice(s, found[i]))
    {
      var e := EntryOf(ch, Slice(s, found[k]));
      result := result + [e];
    }
    EntriesAre(ch, s, found, result);
  }

  lemma EntriesAre(ch: Chars, s: string, found: seq<Span>, result: seq<Option<string>>)
    requires forall k | 0 <= k < |found| :: found[k].from < found[k].upTo <= |s|
    requires |result| == |found| && forall k | 0 <= k < |found| :: result[k] == Entry(ch, Slice(s, found[k]))
    ensures result == Entries(ch, s, found)
  {}

  method SignatureOf(ch: Chars, f: Facts, sentence: string) returns (result: seq<Option<string>>)
    ensures result == Signature(ch, f, sentence)
  {
    result := EntriesOf(ch, sentence, FindAll(ch.word, Pattern(ch, f), sentence));
  }

  method CheckRewrite(ch: Chars, value: Option<string>, draft: string, f: Facts) returns (ok: bool)
    ensures ok <==> ValidRewrite(ch, value, draft, f)
  {
    if value.None? || Strip(ch, value.value) == "" || |value.value| > MAX_LENGTH { return false; }
    var text := Strip(ch, value.value);
    if NumberWords(ch, ch.lower(text)) != NumberWords(ch, ch.lower(draft)) { return false; }
    var mine := SignatureOf(ch, f, text);
    var drafted := SignatureOf(ch, f, draft);
    ok := mine == drafted;
  }

  // ---------------------------------------------------------------- what the gate guarantees

  /** A stripped draft that says something accepts itself, up to the length limit. */
  lemma DraftAcceptsItself(ch: Chars, draft: string, f: Facts)
    requires Strip(ch, draft) == draft
    ensures ValidRewrite(ch, Some(draft), draft, f) <==> draft != "" && |draft| <= 4000
  {}

  /** The gate never fails on a figure: every entry of a signature reads. */
  lemma SignaturesRead(ch: Chars, f: Facts, s: string, k: nat)
    requires Sane(ch) && k < |Signature(ch, f, s)|
    ensures Signature(ch, f, s)[k].Some?
  {
    var token := Slice(s, FindAll(ch.word, Pattern(ch, f), s)[k]);
    if IsFigure(ch, token) { var l := FigureEntry(ch, token); }
  }

  function Tokens(ch: Chars, f: Facts, s: string): seq<Span> { FindAll(ch.word, Pattern(ch, f), s) }

  function Token(ch: Chars, f: Facts, s: string, k: nat): string
    requires k < |Tokens(ch, f, s)|
  {
    Slice(s, Tokens(ch, f, s)[k])
  }

  /** An accepted text has as many tokens as the draft, and entry for entry the same ones. */
  lemma AcceptedTokensAgree(ch: Chars, value: string, draft: string, f: Facts, k: nat)
    requires ValidRewrite(ch, Some(value), draft, f) && k < |Tokens(ch, f, Strip(ch, value))|
    ensures |Tokens(ch, f, Strip(ch, value))| == |Tokens(ch, f, draft)|
    ensures Entry(ch, Token(ch, f, Strip(ch, value), k)) == Entry(ch, Token(ch, f, draft, k))
  {
    var text := Strip(ch, value);
    assert |Signature(ch, f, text)| == |Tokens(ch, f, text)| && |Signature(ch, f, draft)| == |Tokens(ch, f, draft)|;
    assert Signature(ch, f, text)[k] == Entry(ch, Token(ch, f, text, k));
    assert Signature(ch, f, draft)[k] == Entry(ch, Token(ch, f, draft, k));
  }

  /** Where an accepted text and its draft both have a figure, as they do in the same places of
      the signature, the figures say the same: no amount is changed, and none is swapped. */
  lemma AcceptedFiguresAgree(ch: Chars, value: string, draft: string, f: Facts, k: nat, a: Lexeme, b: Lexeme)
    requires Sane(ch) && ValidRewrite(ch, Some(value), draft, f) && k < |Tokens(ch, f, Strip(ch, value))|
             && k < |Tokens(ch, f, draft)|
    requires WellFormed(ch, a) && Written(a) == Token(ch, f, Strip(ch, value), k)
    requires WellFormed(ch, b) && Written(b) == Token(ch, f, draft, k)
    requires Denotes(ch, a).coeff != 0 && Denotes(ch, b).coeff != 0 && Short(Denotes(ch, a)) && Short(Denotes(ch, b))
    ensures a.percent == b.percent && SameValue(Denotes(ch, a), Denotes(ch, b))
  {
    AcceptedTokensAgree(ch, value, draft, f, k);
    FiguresAgreeByValue(ch, a, b);
  }

  lemma SpellingsConsume(ch: Chars, names: seq<string>)
    requires forall n | n in names :: n != ""
    ensures forall k | 0 <= k < |names| :: Consumes(Spellings(ch, names)[k])
  {
    forall k | 0 <= k < |names| ensures Consumes(Spellings(ch, names)[k]) {
      assert names[k] in names;
    }
  }

  lemma AnySpellingConsumes(ch: Chars, names: seq<string>)
    requires names != [] && forall n | n in names :: n != ""
    ensures Consumes(Any(Spellings(ch, names)))
  {
    SpellingsConsume(ch, names);
    AnyConsumes(Spellings(ch, names));
  }

  lemma PluralsConsume(ch: Chars, stems: seq<string>)
    requires forall n | n in stems :: n != ""
    ensures forall k | 0 <= k < |stems| :: Consumes(Plurals(ch, stems)[k])
  {
    forall k | 0 <= k < |stems| ensures Consumes(Plurals(ch, stems)[k]) {
      assert stems[k] in stems;
    }
  }

  lemma NamesConsume(ch: Chars)
    ensures Consumes(Any(CurrencyNames(ch)))
  {
    SpellingsConsume(ch, ["usd", "eur", "gbp", "jpy", "inr", "cad", "aud", "chf", "yen"]);
    PluralsConsume(ch, ["dollar", "euro", "pound", "rupee"]);
    AnyConsumes(CurrencyNames(ch));
  }

  lemma WordConsumes(ch: Chars, options: Regex)
    requires Consumes(options)
    ensures Consumes(Word(ch, options))
  {}

  lemma CurrencyConsumes(ch: Chars)
    ensures Consumes(Currency(ch))
  {
    NamesConsume(ch);
    WordConsumes(ch, Any(CurrencyNames(ch)));
    AnyConsumes([Exactly("CA$"), Exactly("A$"), Symbol(), CurrencyCode(ch), Word(ch, Any(CurrencyNames(ch)))]);
  }

  lemma ComparisonConsumes(ch: Chars)
    ensures Consumes(Comparison(ch))
  {
    AnySpellingConsumes(ch, COMPARISONS);
    WordConsumes(ch, Any(Spellings(ch, COMPARISONS)));
  }

  lemma FigureConsumes(ch: Chars)
    ensures Consumes(Figure(ch))
  {
    assert Consumes(Plus(Digit(ch))) && Consumes(Unsigned(ch));
  }

  lemma AllConsume(rs: seq<Regex>, a: Regex, b: Regex, c: Regex)
    requires (forall k | 0 <= k < |rs| :: Consumes(rs[k])) && Consumes(a) && Consumes(b) && Consumes(c)
    ensures Consumes(Any(rs + [a, b, c]))
  {
    AnyConsumes(rs + [a, b, c]);
  }

  lemma PatternConsumes(ch: Chars, f: Facts)
    ensures Consumes(Pattern(ch, f))
  {
    var names := Ordered(Names(f));
    SpellingsConsume(ch, names);
    CurrencyConsumes(ch);
    FigureConsumes(ch);
    ComparisonConsumes(ch);
    AllConsume(Spellings(ch, names), Currency(ch), Figure(ch), Comparison(ch));
  }

  /** No figure of an accepted text escapes the comparison: wherever one starts, its position
      lies in a token that agrees with the draft's token in the same place. */
  lemma NoFigureEscapes(ch: Chars, value: string, draft: string, f: Facts, p: nat)
    requires ValidRewrite(ch, Some(value), draft, f)
    requires p < |Strip(ch, value)| && Ends(ch.word, Figure(ch), Strip(ch, value), p) != []
    ensures var text := Strip(ch, value); var mine := Tokens(ch, f, text);
      |mine| == |Tokens(ch, f, draft)| &&
      exists k :: 0 <= k < |mine| && mine[k].from <= p < mine[k].upTo
        && Entry(ch, Token(ch, f, text, k)) == Entry(ch, Token(ch, f, draft, k))
  {
    var text := Strip(ch, value);
    var mine := Tokens(ch, f, text);
    var rs := Choices(ch, f);
    assert rs[|rs| - 2] == Figure(ch);
    AnyReaches(ch.word, rs, |rs| - 2, text, p);
    PatternConsumes(ch, f);
    NothingEscapes(ch.word, Pattern(ch, f), text, p);
    var k :| 0 <= k < |mine| && mine[k].from <= p < mine[k].upTo;
    AcceptedTokensAgree(ch, value, draft, f, k);
  }
}
