/** What the gate compares, in terms of the characters of a text. */
module Anchors {
  import opened Common
  import opened Regex
  import opened Decimals
  import opened Figures
  import opened Grounding

  // ---------------------------------------------------------------- when two tokens pass for each other

  /** Both are figures, of one percent mark, sign and rounded magnitude. */
  ghost predicate SameFigure(ch: Chars, a: string, b: string) {
    exists l, m :: SaidBy(ch, l, a) && SaidBy(ch, m, b) && SayTheSame(ch, l, m)
  }

  predicate SaidBy(ch: Chars, l: Lexeme, s: string) { WellFormed(ch, l) && Written(l) == s }

  predicate SayTheSame(ch: Chars, l: Lexeme, m: Lexeme) {
    l.percent == m.percent && Denotes(ch, l).neg == Denotes(ch, m).neg
    && SameMagnitude(Rounded(Denotes(ch, l)), Rounded(Denotes(ch, m)))
  }

  /** A word spelled like the canonical text of a figure. */
  ghost predicate SpelledLike(ch: Chars, figure: string, word: string) {
    exists l :: SaidBy(ch, l, figure) && ch.fold(word) == Canonical(Denotes(ch, l)) + Marked(l.percent)
  }

  ghost predicate PassesFor(ch: Chars, a: string, b: string) {
    if IsFigure(ch, a) then if IsFigure(ch, b) then SameFigure(ch, a, b) else SpelledLike(ch, a, b)
    else if IsFigure(ch, b) then SpelledLike(ch, b, a) else ch.fold(a) == ch.fold(b)
  }

  lemma SaidAgreeIff(ch: Chars, l: Lexeme, m: Lexeme, a: string, b: string)
    requires Sane(ch) && SaidBy(ch, l, a) && SaidBy(ch, m, b)
    ensures Entry(ch, a) == Entry(ch, b) <==> SayTheSame(ch, l, m)
  {
    FiguresAgreeIff(ch, l, m);
  }

  lemma FiguresPassIff(ch: Chars, l: Lexeme, m: Lexeme, a: string, b: string)
    requires Sane(ch) && SaidBy(ch, l, a) && SaidBy(ch, m, b)
    ensures Entry(ch, a) == Entry(ch, b) <==> SameFigure(ch, a, b)
  {
    SaidAgreeIff(ch, l, m, a, b);
    if x, y :| SaidBy(ch, x, a) && SaidBy(ch, y, b) && SayTheSame(ch, x, y) { SaidAgreeIff(ch, x, y, a, b); }
  }

  lemma SpelledLikeIff(ch: Chars, figure: string, word: string)
    requires Sane(ch) && IsFigure(ch, figure) && !IsFigure(ch, word)
    ensures Entry(ch, figure) == Entry(ch, word) <==> SpelledLike(ch, figure, word)
  {
    var l := FigureEntry(ch, figure);
    assert SaidBy(ch, l, figure);
    if m :| SaidBy(ch, m, figure) && ch.fold(word) == Canonical(Denotes(ch, m)) + Marked(m.percent) {
      FiguresRead(ch, m);
    }
  }

  /** Two entries of a signature agree exactly when the tokens pass for each other. */
  lemma EntriesAgreeIff(ch: Chars, a: string, b: string)
    requires Sane(ch)
    ensures Entry(ch, a) == Entry(ch, b) <==> PassesFor(ch, a, b)
  {
    if IsFigure(ch, a) && IsFigure(ch, b) {
      var l := FigureIsWritten(ch, a);
      var m := FigureIsWritten(ch, b);
      FiguresPassIff(ch, l, m, a, b);
    } else if IsFigure(ch, a) {
      SpelledLikeIff(ch, a, b);
    } else if IsFigure(ch, b) {
      SpelledLikeIff(ch, b, a);
    }
  }

  // ---------------------------------------------------------------- where a token starts

  /** A whole word: word characters from `i` to `j`, and none before or behind. */
  predicate WholeWord(ch: Chars, s: string, i: nat, j: nat) {
    i < j <= |s| && (forall k | i <= k < j :: ch.word(s[k])) && !WordAt(ch.word, s, i - 1) && !WordAt(ch.word, s, j)
  }

  /** The word at `i` is `text`, up to case. */
  predicate IsWord(ch: Chars, s: string, i: nat, text: string) {
    Agrees(ch.same, text, s, i) && WholeWord(ch, s, i, i + |text|)
  }

  predicate IsSymbol(c: char) {
    c == '$' || c == '\U{20AC}' || c == '\U{A3}' || c == '\U{A5}' || c == '\U{20B9}'
  }

  predicate StandsAt(s: string, i: nat, text: string) { i + |text| <= |s| && s[i..i + |text|] == text }

  predicate IsCode(ch: Chars, s: string, i: nat) {
    WholeWord(ch, s, i, i + 3) && 'A' <= s[i] <= 'Z' && 'A' <= s[i + 1] <= 'Z' && 'A' <= s[i + 2] <= 'Z'
  }

  predicate IsCurrencyName(text: string) {
    || text == "usd" || text == "eur" || text == "gbp" || text == "jpy" || text == "inr" || text == "cad"
    || text == "aud" || text == "chf" || text == "yen"
    || text == "dollar" || text == "euro" || text == "pound" || text == "rupee"
    || text == "dollars" || text == "euros" || text == "pounds" || text == "rupees"
  }

  predicate IsComparison(text: string) {
    text == "more" || text == "less" || text == "included" || text == "excluded"
  }

  predicate IsName(f: Facts, name: string) {
    name != "" && (name in f.known || name in f.merchants || name in f.categories || f.focus == Some(name))
  }

  /** A run of digits that is no part of a word. */
  predicate IsDigitRun(ch: Chars, s: string, i: nat, j: nat) {
    i < j <= |s| && Digits(ch, s[i..j]) && !WordAt(ch.word, s, i - 1) && !WordAt(ch.word, s, j)
  }

  /** At `p` there is a digit run, a currency marker, a comparison, or a name of the facts. */
  ghost predicate IsAnchor(ch: Chars, f: Facts, s: string, p: nat) {
    p < |s|
    && (|| (exists j :: IsDigitRun(ch, s, p, j))
        || IsSymbol(s[p]) || StandsAt(s, p, "A$") || StandsAt(s, p, "CA$") || IsCode(ch, s, p)
        || (exists text :: IsCurrencyName(text) && IsWord(ch, s, p, text))
        || (exists text :: IsComparison(text) && IsWord(ch, s, p, text))
        || (exists name :: IsName(f, name) && Agrees(ch.same, name, s, p)))
  }

  predicate Starts(ch: Chars, r: Regex, s: string, i: nat) { i < |s| && Ends(ch.word, r, s, i) != [] }

  lemma WordStarts(ch: Chars, options: Regex, s: string, i: nat, j: nat)
    requires WholeWord(ch, s, i, j) && Reaches(ch.word, options, s, i, j)
    ensures Starts(ch, Word(ch, options), s, i)
  {
    assert ch.word(s[i]) && ch.word(s[j - 1]);
    assert Reaches(ch.word, Edge, s, i, i) && Reaches(ch.word, Edge, s, j, j);
    Through(ch.word, options, Edge, s, i, j, j);
    Through(ch.word, Edge, Cat(options, Edge), s, i, i, j);
  }

  lemma SpelledReaches(ch: Chars, text: string, s: string, p: nat)
    requires p <= |s| && Agrees(ch.same, text, s, p)
    ensures Reaches(ch.word, Spelled(ch, text), s, p, p + |text|)
  {
    LiteralIff(ch.word, ch.same, text, s, p, p + |text|);
  }

  lemma SpellingStarts(ch: Chars, words: seq<string>, text: string, s: string, p: nat)
    requires text in words && IsWord(ch, s, p, text)
    ensures Starts(ch, Word(ch, Any(Spellings(ch, words))), s, p)
  {
    var k :| 0 <= k < |words| && words[k] == text;
    SpelledReaches(ch, text, s, p);
    ListedStarts(ch, Spellings(ch, words), k, s, p, p + |text|);
  }

  lemma ComparisonStarts(ch: Chars, text: string, s: string, p: nat)
    requires IsComparison(text) && IsWord(ch, s, p, text)
    ensures Starts(ch, Comparison(ch), s, p)
  {
    assert COMPARISONS[0] == "more" && COMPARISONS[1] == "less" && COMPARISONS[2] == "included"
           && COMPARISONS[3] == "excluded";
    SpellingStarts(ch, COMPARISONS, text, s, p);
  }

  lemma DigitsStart(ch: Chars, s: string, i: nat, j: nat)
    requires IsDigitRun(ch, s, i, j)
    ensures Starts(ch, Figure(ch), s, i)
  {
    assert Reaches(ch.word, Before, s, i, i);
    UnsignedStarts(ch, s, i, j);
    Taken(ch.word, Set(IsSign), s, i, i);
    Through(ch.word, Maybe(Set(IsSign)), Unsigned(ch), s, i, i, j);
    Through(ch.word, Before, Cat(Maybe(Set(IsSign)), Unsigned(ch)), s, i, i, j);
  }

  lemma UnsignedStarts(ch: Chars, s: string, i: nat, j: nat)
    requires i < j <= |s| && Digits(ch, s[i..j]) && !WordAt(ch.word, s, j)
    ensures Reaches(ch.word, Unsigned(ch), s, i, j)
  {
    assert Reaches(ch.word, After, s, j, j);
    Taken(ch.word, Char('%'), s, j, j);
    Through(ch.word, Maybe(Char('%')), After, s, j, j, j);
    Taken(ch.word, Fraction(ch), s, j, j);
    Through(ch.word, Maybe(Fraction(ch)), Ending(), s, j, j, j);
    StarIff(ch.word, Thousands(ch), s, j, j);
    Through(ch.word, Star(Thousands(ch)), Fractional(ch), s, j, j, j);
    PlusMatches(ch, s, i, j);
    Through(ch.word, Plus(Digit(ch)), Grouped(ch), s, i, j, j);
  }

  // ---------------------------------------------------------------- currencies

  lemma OptionStarts(ch: Chars, rs: seq<Regex>, k: nat, r: Regex, s: string, p: nat)
    requires k < |rs| && rs[k] == r && Starts(ch, r, s, p)
    ensures Starts(ch, Any(rs), s, p)
  {
    AnyReaches(ch.word, rs, k, s, p);
  }

  lemma CurrencyStarts(ch: Chars, k: nat, r: Regex, s: string, p: nat)
    requires k < 5 && Starts(ch, r, s, p)
    requires r == [Exactly("CA$"), Exactly("A$"), Symbol(), CurrencyCode(ch), Word(ch, Any(CurrencyNames(ch)))][k]
    ensures Starts(ch, Currency(ch), s, p)
  {
    OptionStarts(ch, [Exactly("CA$"), Exactly("A$"), Symbol(), CurrencyCode(ch), Word(ch, Any(CurrencyNames(ch)))], k,
                 r, s, p);
  }

  lemma SymbolStarts(ch: Chars, s: string, p: nat)
    requires p < |s| && IsSymbol(s[p])
    ensures Starts(ch, Symbol(), s, p)
  {
    var all := "$\U{20AC}\U{A3}\U{A5}\U{20B9}";
    assert all[0] == '$' && all[1] == '\U{20AC}' && all[2] == '\U{A3}' && all[3] == '\U{A5}' && all[4] == '\U{20B9}';
    assert Ends(ch.word, Symbol(), s, p) == [p + 1];
  }

  lemma ExactStarts(ch: Chars, text: string, s: string, p: nat)
    requires text != "" && StandsAt(s, p, text)
    ensures Starts(ch, Exactly(text), s, p)
  {
    forall i | 0 <= i < |text| ensures SameCharacter(text[i], s[p + i]) { assert s[p..p + |text|][i] == s[p + i]; }
    LiteralIff(ch.word, SameCharacter, text, s, p, p + |text|);
  }

  lemma CodeStarts(ch: Chars, s: string, p: nat)
    requires IsCode(ch, s, p)
    ensures Starts(ch, CurrencyCode(ch), s, p)
  {
    assert Reaches(ch.word, Capital(), s, p, p + 1) && Reaches(ch.word, Capital(), s, p + 1, p + 2)
           && Reaches(ch.word, Capital(), s, p + 2, p + 3);
    Through(ch.word, Capital(), Capital(), s, p + 1, p + 2, p + 3);
    Through(ch.word, Capital(), Cat(Capital(), Capital()), s, p, p + 1, p + 3);
    WordStarts(ch, Cat(Capital(), Cat(Capital(), Capital())), s, p, p + 3);
  }

  lemma SingularReaches(ch: Chars, stem: string, s: string, p: nat)
    requires p <= |s| && Agrees(ch.same, stem, s, p)
    ensures Reaches(ch.word, Plural(ch, stem), s, p, p + |stem|)
  {
    SpelledReaches(ch, stem, s, p);
    Taken(ch.word, Spelled(ch, "s"), s, p + |stem|, p + |stem|);
    Through(ch.word, Spelled(ch, stem), Maybe(Spelled(ch, "s")), s, p, p + |stem|, p + |stem|);
  }

  lemma PluralReaches(ch: Chars, stem: string, s: string, p: nat)
    requires p <= |s| && Agrees(ch.same, stem + "s", s, p)
    ensures Reaches(ch.word, Plural(ch, stem), s, p, p + |stem| + 1)
  {
    assert forall i | 0 <= i < |stem| :: stem[i] == (stem + "s")[i];
    assert (stem + "s")[|stem|] == 's';
    SpelledReaches(ch, stem, s, p);
    SpelledReaches(ch, "s", s, p + |stem|);
    Taken(ch.word, Spelled(ch, "s"), s, p + |stem|, p + |stem| + 1);
    Through(ch.word, Spelled(ch, stem), Maybe(Spelled(ch, "s")), s, p, p + |stem|, p + |stem| + 1);
  }

  /** Where a currency's abbreviation or name stands among the options. */
  lemma NameAt(ch: Chars, text: string) returns (k: nat, stem: string)
    requires IsCurrencyName(text)
    ensures k < |CurrencyNames(ch)|
    ensures || (CurrencyNames(ch)[k] == Spelled(ch, text) && stem == text)
            || (CurrencyNames(ch)[k] == Plural(ch, stem) && (text == stem || text == stem + "s"))
  {
    var short := ["usd", "eur", "gbp", "jpy", "inr", "cad", "aud", "chf", "yen"];
    var long := ["dollar", "euro", "pound", "rupee"];
    if text in short {
      k :| 0 <= k < |short| && short[k] == text;
      stem := text;
      assert CurrencyNames(ch)[k] == Spellings(ch, short)[k];
    } else {
      k, stem := LongName(text);
      assert CurrencyNames(ch)[|short| + k] == Plurals(ch, long)[k];
      k := |short| + k;
    }
  }

  lemma LongName(text: string) returns (k: nat, stem: string)
    requires IsCurrencyName(text) && text !in ["usd", "eur", "gbp", "jpy", "inr", "cad", "aud", "chf", "yen"]
    ensures k < 4 && stem == ["dollar", "euro", "pound", "rupee"][k] && (text == stem || text == stem + "s")
  {
    var short := ["usd", "eur", "gbp", "jpy", "inr", "cad", "aud", "chf", "yen"];
    assert short[0] == "usd" && short[1] == "eur" && short[2] == "gbp" && short[3] == "jpy" && short[4] == "inr";
    assert short[5] == "cad" && short[6] == "aud" && short[7] == "chf" && short[8] == "yen";
    if text == "dollar" || text == "dollars" { return 0, "dollar"; }
    if text == "euro" || text == "euros" { return 1, "euro"; }
    if text == "pound" || text == "pounds" { return 2, "pound"; }
    return 3, "rupee";
  }

  lemma NameReaches(ch: Chars, r: Regex, text: string, stem: string, s: string, p: nat)
    requires p <= |s| && Agrees(ch.same, text, s, p)
    requires r == Spelled(ch, text) || (r == Plural(ch, stem) && (text == stem || text == stem + "s"))
    ensures Reaches(ch.word, r, s, p, p + |text|)
  {
    if r == Spelled(ch, text) {
      SpelledReaches(ch, text, s, p);
    } else if text == stem {
      SingularReaches(ch, stem, s, p);
    } else {
      PluralReaches(ch, stem, s, p);
    }
  }

  lemma NameStarts(ch: Chars, text: string, s: string, p: nat)
    requires IsCurrencyName(text) && IsWord(ch, s, p, text)
    ensures Starts(ch, Word(ch, Any(CurrencyNames(ch))), s, p)
  {
    var k, stem := NameAt(ch, text);
    ListedNameStarts(ch, CurrencyNames(ch), k, text, stem, s, p);
  }

  lemma ListedNameStarts(ch: Chars, rs: seq<Regex>, k: nat, text: string, stem: string, s: string, p: nat)
    requires k < |rs| && IsWord(ch, s, p, text)
    requires rs[k] == Spelled(ch, text) || (rs[k] == Plural(ch, stem) && (text == stem || text == stem + "s"))
    ensures Starts(ch, Word(ch, Any(rs)), s, p)
  {
    NameReaches(ch, rs[k], text, stem, s, p);
    ListedStarts(ch, rs, k, s, p, p + |text|);
  }

  lemma ListedStarts(ch: Chars, rs: seq<Regex>, k: nat, s: string, i: nat, j: nat)
    requires k < |rs| && WholeWord(ch, s, i, j) && Reaches(ch.word, rs[k], s, i, j)
    ensures Starts(ch, Word(ch, Any(rs)), s, i)
  {
    AnyReachesTo(ch.word, rs, k, s, i, j);
    WordStarts(ch, Any(rs), s, i, j);
  }

  ghost predicate IsMarker(ch: Chars, s: string, p: nat) {
    p < |s|
    && (|| IsSymbol(s[p]) || StandsAt(s, p, "A$") || StandsAt(s, p, "CA$") || IsCode(ch, s, p)
        || (exists text :: IsCurrencyName(text) && IsWord(ch, s, p, text)))
  }

  lemma MarkerStarts(ch: Chars, s: string, p: nat)
    requires IsMarker(ch, s, p)
    ensures Starts(ch, Currency(ch), s, p)
  {
    if IsSymbol(s[p]) {
      SymbolStarts(ch, s, p);
      CurrencyStarts(ch, 2, Symbol(), s, p);
    } else if StandsAt(s, p, "CA$") {
      ExactStarts(ch, "CA$", s, p);
      CurrencyStarts(ch, 0, Exactly("CA$"), s, p);
    } else if StandsAt(s, p, "A$") {
      ExactStarts(ch, "A$", s, p);
      CurrencyStarts(ch, 1, Exactly("A$"), s, p);
    } else if IsCode(ch, s, p) {
      CodeStarts(ch, s, p);
      CurrencyStarts(ch, 3, CurrencyCode(ch), s, p);
    } else {
      var text :| IsCurrencyName(text) && IsWord(ch, s, p, text);
      NameStarts(ch, text, s, p);
      CurrencyStarts(ch, 4, Word(ch, Any(CurrencyNames(ch))), s, p);
    }
  }

  // ---------------------------------------------------------------- names of the facts

  lemma {:induction false} OrderedKeeps(names: seq<string>, n: string)
    requires n in names && n != ""
    ensures n in Ordered(names)
    decreases |names|
  {
    var init, last := names[..|names| - 1], names[|names| - 1];
    if n in init { OrderedKeeps(init, n); }
    if last != "" { InsertedSame(last, Ordered(init)); }
  }

  lemma NamesStart(ch: Chars, f: Facts, name: string, s: string, p: nat)
    requires IsName(f, name) && p < |s| && Agrees(ch.same, name, s, p)
    ensures Starts(ch, Pattern(ch, f), s, p)
  {
    OrderedKeeps(Names(f), name);
    var names := Ordered(Names(f));
    var c :| 0 <= c < |names| && names[c] == name;
    SpelledReaches(ch, name, s, p);
    assert Choices(ch, f)[c] == Spellings(ch, names)[c];
    OptionStarts(ch, Choices(ch, f), c, Spelled(ch, name), s, p);
  }

  /** Wherever there is an anchor, a token of the signature starts or one covers it. */
  lemma AnchorStarts(ch: Chars, f: Facts, s: string, p: nat)
    requires IsAnchor(ch, f, s, p)
    ensures Starts(ch, Pattern(ch, f), s, p)
  {
    var n := |Choices(ch, f)|;
    if IsMarker(ch, s, p) {
      MarkerStarts(ch, s, p);
      OptionStarts(ch, Choices(ch, f), n - 3, Currency(ch), s, p);
    } else if j :| IsDigitRun(ch, s, p, j) {
      DigitsStart(ch, s, p, j);
      OptionStarts(ch, Choices(ch, f), n - 2, Figure(ch), s, p);
    } else if text :| IsComparison(text) && IsWord(ch, s, p, text) {
      ComparisonStarts(ch, text, s, p);
      OptionStarts(ch, Choices(ch, f), n - 1, Comparison(ch), s, p);
    } else {
      var name :| IsName(f, name) && Agrees(ch.same, name, s, p);
      NamesStart(ch, f, name, s, p);
    }
  }

  // ---------------------------------------------------------------- no anchor escapes

  /** Position `p` of `s` lies in a token, and `t` has one in the same place that passes for it. */
  ghost predicate Compared(ch: Chars, f: Facts, s: string, t: string, p: nat) {
    |Tokens(ch, f, s)| == |Tokens(ch, f, t)|
    && exists k :: 0 <= k < |Tokens(ch, f, s)| && Tokens(ch, f, s)[k].from <= p < Tokens(ch, f, s)[k].upTo
         && PassesFor(ch, Token(ch, f, s, k), Token(ch, f, t, k))
  }

  lemma TokensPass(ch: Chars, f: Facts, s: string, t: string, k: nat)
    requires Sane(ch) && Signature(ch, f, s) == Signature(ch, f, t) && k < |Tokens(ch, f, s)|
    ensures |Tokens(ch, f, s)| == |Tokens(ch, f, t)|
    ensures PassesFor(ch, Token(ch, f, s, k), Token(ch, f, t, k))
  {
    assert |Signature(ch, f, s)| == |Tokens(ch, f, s)| && |Signature(ch, f, t)| == |Tokens(ch, f, t)|;
    assert Signature(ch, f, s)[k] == Entry(ch, Token(ch, f, s, k));
    assert Signature(ch, f, t)[k] == Entry(ch, Token(ch, f, t, k));
    EntriesAgreeIff(ch, Token(ch, f, s, k), Token(ch, f, t, k));
  }

  lemma AnchorCompared(ch: Chars, f: Facts, s: string, t: string, p: nat)
    requires Sane(ch) && Signature(ch, f, s) == Signature(ch, f, t) && IsAnchor(ch, f, s, p)
    ensures Compared(ch, f, s, t, p)
  {
    AnchorStarts(ch, f, s, p);
    PatternConsumes(ch, f);
    NothingEscapes(ch.word, Pattern(ch, f), s, p);
    var k :| 0 <= k < |Tokens(ch, f, s)| && Tokens(ch, f, s)[k].from <= p < Tokens(ch, f, s)[k].upTo;
    TokensPass(ch, f, s, t, k);
  }

  /** No anchor of an accepted text escapes the comparison, and none of the draft is dropped:
      every digit run, currency marker, comparison and name of either lies in a token that passes
      for the other's token in the same place. */
  lemma NoAnchorEscapes(ch: Chars, value: string, draft: string, f: Facts, p: nat)
    requires Sane(ch) && ValidRewrite(ch, Some(value), draft, f)
    ensures var text := Grounding.Strip(ch, value);
      && (IsAnchor(ch, f, text, p) ==> Compared(ch, f, text, draft, p))
      && (IsAnchor(ch, f, draft, p) ==> Compared(ch, f, draft, text, p))
  {
    var text := Grounding.Strip(ch, value);
    if IsAnchor(ch, f, text, p) { AnchorCompared(ch, f, text, draft, p); }
    if IsAnchor(ch, f, draft, p) { AnchorCompared(ch, f, draft, text, p); }
  }

  // ---------------------------------------------------------------- spelled-out numbers

  predicate IsNumber(text: string) {
    || text == "zero" || text == "one" || text == "two" || text == "three" || text == "four" || text == "five"
    || text == "six" || text == "seven" || text == "eight" || text == "nine" || text == "ten" || text == "hundred"
    || text == "thousand" || text == "million"
  }

  lemma NumberIn(text: string)
    requires IsNumber(text)
    ensures text in NUMBERS
  {
    assert NUMBERS[0] == "zero" && NUMBERS[1] == "one" && NUMBERS[2] == "two" && NUMBERS[3] == "three";
    assert NUMBERS[4] == "four" && NUMBERS[5] == "five" && NUMBERS[6] == "six" && NUMBERS[7] == "seven";
    assert NUMBERS[8] == "eight" && NUMBERS[9] == "nine" && NUMBERS[10] == "ten" && NUMBERS[11] == "hundred";
    assert NUMBERS[12] == "thousand" && NUMBERS[13] == "million";
  }

  function WordSpans(ch: Chars, s: string): (found: seq<Span>)
    ensures forall k | 0 <= k < |found| :: found[k].from < found[k].upTo <= |s|
  {
    FindAll(ch.word, NumberWord(ch), s)
  }

  /** Position `p` of `s` lies in a number word, and `t` has the very same one in its place. */
  ghost predicate SameWordAt(ch: Chars, s: string, t: string, p: nat) {
    |WordSpans(ch, s)| == |WordSpans(ch, t)|
    && exists k :: 0 <= k < |WordSpans(ch, s)| && WordSpans(ch, s)[k].from <= p < WordSpans(ch, s)[k].upTo
         && Slice(s, WordSpans(ch, s)[k]) == Slice(t, WordSpans(ch, t)[k])
  }

  lemma WordCompared(ch: Chars, s: string, t: string, p: nat, text: string)
    requires NumberWords(ch, s) == NumberWords(ch, t) && IsNumber(text) && IsWord(ch, s, p, text)
    ensures SameWordAt(ch, s, t, p)
  {
    NumberIn(text);
    SpellingStarts(ch, NUMBERS, text, s, p);
    AnySpellingConsumes(ch, NUMBERS);
    WordConsumes(ch, Any(Spellings(ch, NUMBERS)));
    NothingEscapes(ch.word, NumberWord(ch), s, p);
    SameWords(ch, s, t, p);
  }

  lemma SameWords(ch: Chars, s: string, t: string, p: nat)
    requires NumberWords(ch, s) == NumberWords(ch, t) && Covers(WordSpans(ch, s), p)
    ensures SameWordAt(ch, s, t, p)
  {
    var k :| 0 <= k < |WordSpans(ch, s)| && WordSpans(ch, s)[k].from <= p < WordSpans(ch, s)[k].upTo;
    assert |NumberWords(ch, s)| == |WordSpans(ch, s)| && |NumberWords(ch, t)| == |WordSpans(ch, t)|;
    assert NumberWords(ch, s)[k] == Slice(s, WordSpans(ch, s)[k]);
    assert NumberWords(ch, t)[k] == Slice(t, WordSpans(ch, t)[k]);
  }

  /** Every whole word of the lower-case text, or of the draft, that spells a number is matched by
      the same word of the other in the same place. */
  lemma NoNumberWordEscapes(ch: Chars, value: string, draft: string, f: Facts, p: nat, text: string)
    requires ValidRewrite(ch, Some(value), draft, f) && IsNumber(text)
    ensures var mine, drafted := ch.lower(Grounding.Strip(ch, value)), ch.lower(draft);
      && (IsWord(ch, mine, p, text) ==> SameWordAt(ch, mine, drafted, p))
      && (IsWord(ch, drafted, p, text) ==> SameWordAt(ch, drafted, mine, p))
  {
    var mine, drafted := ch.lower(Grounding.Strip(ch, value)), ch.lower(draft);
    if IsWord(ch, mine, p, text) { WordCompared(ch, mine, drafted, p, text); }
    if IsWord(ch, drafted, p, text) { WordCompared(ch, drafted, mine, p, text); }
  }

  // ---------------------------------------------------------------- the longest name wins

  predicate LongestFirst(names: seq<string>) { forall i, j | 0 <= i < j < |names| :: |names[i]| >= |names[j]| }

  lemma {:induction false} InsertKeepsOrder(name: string, sorted: seq<string>)
    requires LongestFirst(sorted)
    ensures LongestFirst(InsertByLength(name, sorted))
    decreases |sorted|
  {
    if sorted != [] && |name| <= |sorted[0]| {
      var rest := InsertByLength(name, sorted[1..]);
      InsertKeepsOrder(name, sorted[1..]);
      InsertedSame(name, sorted[1..]);
      assert forall j | 0 <= j < |rest| :: rest[j] in rest;
    }
  }

  lemma {:induction false} OrderedLongestFirst(names: seq<string>)
    ensures LongestFirst(Ordered(names))
    decreases |names|
  {
    if names != [] {
      OrderedLongestFirst(names[..|names| - 1]);
      InsertKeepsOrder(names[|names| - 1], Ordered(names[..|names| - 1]));
    }
  }

  /** The matcher's first end at `p` for a list of spellings is that of the first one that agrees. */
  lemma SpellingEnds(ch: Chars, text: string, s: string, p: nat)
    requires p <= |s|
    ensures var ends := Ends(ch.word, Spelled(ch, text), s, p);
      if Agrees(ch.same, text, s, p) then ends != [] && ends[0] == p + |text| else ends == []
  {
    var ends := Ends(ch.word, Spelled(ch, text), s, p);
    LiteralIff(ch.word, ch.same, text, s, p, p + |text|);
    if ends != [] { LiteralIff(ch.word, ch.same, text, s, p, ends[0]); }
  }

  /** The options from `k` on, with the names ahead of them. */
  ghost predicate NamesAhead(ch: Chars, names: seq<string>, rs: seq<Regex>) {
    |names| < |rs| && forall k | 0 <= k < |names| :: rs[k] == Spelled(ch, names[k])
  }

  lemma {:induction false} FirstSpelled(ch: Chars, names: seq<string>, rs: seq<Regex>, s: string, p: nat, name: string)
    requires NamesAhead(ch, names, rs) && LongestFirst(names) && p <= |s|
    requires name in names && Agrees(ch.same, name, s, p)
    ensures var ends := Ends(ch.word, Any(rs), s, p);
      ends != [] && ends[0] >= p + |name| && exists m :: m in names && Agrees(ch.same, m, s, p) && ends[0] == p + |m|
    decreases |names|
  {
    SpellingEnds(ch, names[0], s, p);
    assert Ends(ch.word, Any(rs), s, p) == Ends(ch.word, rs[0], s, p) + Ends(ch.word, Any(rs[1..]), s, p);
    if Agrees(ch.same, names[0], s, p) {
      assert names[0] in names;
    } else {
      assert forall k | 0 <= k < |names[1..]| :: rs[1..][k] == rs[k + 1] && names[1..][k] == names[k + 1];
      FirstSpelled(ch, names[1..], rs[1..], s, p, name);
    }
  }

  lemma {:induction false} OrderedAreNames(f: Facts, names: seq<string>, m: string)
    requires m in Ordered(names)
    ensures m in names && m != ""
    decreases |names|
  {
    if names != [] {
      var init, last := names[..|names| - 1], names[|names| - 1];
      if last != "" { InsertedSame(last, Ordered(init)); }
      if m in Ordered(init) { OrderedAreNames(f, init, m); }
    }
  }

  lemma PatternNames(ch: Chars, f: Facts)
    ensures NamesAhead(ch, Ordered(Names(f)), Choices(ch, f)) && LongestFirst(Ordered(Names(f)))
  {
    OrderedLongestFirst(Names(f));
  }

  lemma NameIsOrdered(f: Facts, name: string)
    ensures IsName(f, name) <==> name in Ordered(Names(f))
  {
    if IsName(f, name) { OrderedKeeps(Names(f), name); }
    if name in Ordered(Names(f)) { OrderedAreNames(f, Names(f), name); }
  }

  lemma FirstEndIsName(ch: Chars, f: Facts, s: string, p: nat, name: string) returns (m: string)
    requires p <= |s| && IsName(f, name) && Agrees(ch.same, name, s, p)
    ensures var ends := Ends(ch.word, Pattern(ch, f), s, p);
      ends != [] && ends[0] >= p + |name| && IsName(f, m) && Agrees(ch.same, m, s, p) && ends[0] == p + |m|
  {
    PatternNames(ch, f);
    NameIsOrdered(f, name);
    FirstSpelled(ch, Ordered(Names(f)), Choices(ch, f), s, p, name);
    m :| m in Ordered(Names(f)) && Agrees(ch.same, m, s, p) && Ends(ch.word, Pattern(ch, f), s, p)[0] == p + |m|;
    NameIsOrdered(f, m);
  }

  /** A token that starts where a name of the facts is spelled is such a name, and the longest one
      spelled there. */
  lemma LongestNameTaken(ch: Chars, f: Facts, s: string, k: nat, name: string)
    requires k < |Tokens(ch, f, s)| && IsName(f, name) && Agrees(ch.same, name, s, Tokens(ch, f, s)[k].from)
    ensures |Token(ch, f, s, k)| >= |name|
    ensures exists m :: IsName(f, m) && Agrees(ch.same, m, s, Tokens(ch, f, s)[k].from) && |m| == |Token(ch, f, s, k)|
  {
    FoundFirst(ch.word, Pattern(ch, f), s, 0, k);
    var m := FirstEndIsName(ch, f, s, Tokens(ch, f, s)[k].from, name);
  }
}
