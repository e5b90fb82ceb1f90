/** A backtracking matcher: for each position, the ends an expression can match to, best first. */
module Regex {

  /** `Set` is one character of a class; `Before`, `After` and `Edge` look around without
      consuming: no word character before, none after, and a word boundary. */
  datatype Regex =
    | Set(has: char -> bool)
    | Cat(first: Regex, second: Regex)
    | Alt(first: Regex, second: Regex)
    | Star(of: Regex)
    | Nothing
    | Before
    | After
    | Edge

  type Words = char -> bool

  predicate WordAt(word: Words, s: string, i: int) { 0 <= i < |s| && word(s[i]) }

  predicate InText(s: string, i: nat, ends: seq<nat>) { forall k | 0 <= k < |ends| :: i <= ends[k] <= |s| }

  /** The ends in the order a greedy, backtracking matcher tries them. An iteration that
      consumes nothing ends its loop. */
  function Ends(word: Words, r: Regex, s: string, i: nat): (ends: seq<nat>)
    requires i <= |s|
    ensures InText(s, i, ends)
    decreases r, |s| - i, 1, 0
  {
    match r
    case Set(has) => if i < |s| && has(s[i]) then [i + 1] else []
    case Cat(a, b) => Onward(word, b, s, i, Ends(word, a, s, i))
    case Alt(a, b) => Ends(word, a, s, i) + Ends(word, b, s, i)
    case Star(a) => Repeat(word, a, s, i, Ends(word, a, s, i)) + [i]
    case Nothing => [i]
    case Before => if WordAt(word, s, i - 1) then [] else [i]
    case After => if WordAt(word, s, i) then [] else [i]
    case Edge => if WordAt(word, s, i - 1) != WordAt(word, s, i) then [i] else []
  }

  /** Continues with `r` from each of the given ends in turn. */
  function Onward(word: Words, r: Regex, s: string, i: nat, from: seq<nat>): (ends: seq<nat>)
    requires i <= |s| && InText(s, i, from)
    ensures InText(s, i, ends)
    decreases r, |s| + 1, 0, |from|
  {
    if from == [] then [] else Ends(word, r, s, from[0]) + Onward(word, r, s, i, from[1..])
  }

  /** Continues a loop over `a` from each end that made progress. */
  function Repeat(word: Words, a: Regex, s: string, i: nat, from: seq<nat>): (ends: seq<nat>)
    requires i <= |s| && InText(s, i, from)
    ensures InText(s, i, ends)
    decreases Star(a), |s| - i, 0, |from|
  {
    if from == [] then []
    else (if from[0] > i then Ends(word, Star(a), s, from[0]) else []) + Repeat(word, a, s, i, from[1..])
  }

  // ---------------------------------------------------------------- what the ends mean

  predicate Reaches(word: Words, r: Regex, s: string, i: nat, j: nat) { i <= |s| && j in Ends(word, r, s, i) }

  lemma {:induction false} OnwardIff(word: Words, r: Regex, s: string, i: nat, from: seq<nat>, j: nat)
    requires i <= |s| && InText(s, i, from)
    ensures j in Onward(word, r, s, i, from) <==> exists k :: 0 <= k < |from| && Reaches(word, r, s, from[k], j)
    decreases |from|
  {
    if from != [] {
      OnwardIff(word, r, s, i, from[1..], j);
      if k :| 0 <= k < |from| && Reaches(word, r, s, from[k], j) {
        if k > 0 { assert from[1..][k - 1] == from[k]; }
      }
      if k :| 0 <= k < |from[1..]| && Reaches(word, r, s, from[1..][k], j) { assert from[k + 1] == from[1..][k]; }
    }
  }

  /** A sequence reaches `j` exactly through some middle. */
  lemma CatIff(word: Words, a: Regex, b: Regex, s: string, i: nat, j: nat)
    requires i <= |s|
    ensures Reaches(word, Cat(a, b), s, i, j) <==> exists k :: Reaches(word, a, s, i, k) && Reaches(word, b, s, k, j)
  {
    var from := Ends(word, a, s, i);
    OnwardIff(word, b, s, i, from, j);
    if k :| 0 <= k < |from| && Reaches(word, b, s, from[k], j) { assert Reaches(word, a, s, i, from[k]); }
    if m :| Reaches(word, a, s, i, m) && Reaches(word, b, s, m, j) {
      var k :| 0 <= k < |from| && from[k] == m;
      assert Reaches(word, b, s, from[k], j);
    }
  }

  lemma {:induction false} RepeatIff(word: Words, a: Regex, s: string, i: nat, from: seq<nat>, j: nat)
    requires i <= |s| && InText(s, i, from)
    ensures j in Repeat(word, a, s, i, from)
            <==> exists k :: 0 <= k < |from| && from[k] > i && Reaches(word, Star(a), s, from[k], j)
    decreases |from|
  {
    if from != [] {
      RepeatIff(word, a, s, i, from[1..], j);
      if k :| 0 <= k < |from| && from[k] > i && Reaches(word, Star(a), s, from[k], j) {
        if k > 0 { assert from[1..][k - 1] == from[k]; }
      }
      if k :| 0 <= k < |from[1..]| && from[1..][k] > i && Reaches(word, Star(a), s, from[1..][k], j) {
        assert from[k + 1] == from[1..][k];
      }
    }
  }

  /** A loop reaches `j` by stopping at once or by one more round that makes progress. */
  lemma StarIff(word: Words, a: Regex, s: string, i: nat, j: nat)
    requires i <= |s|
    ensures Reaches(word, Star(a), s, i, j)
            <==> j == i || exists k :: k > i && Reaches(word, a, s, i, k) && Reaches(word, Star(a), s, k, j)
  {
    var from := Ends(word, a, s, i);
    RepeatIff(word, a, s, i, from, j);
    if k :| 0 <= k < |from| && from[k] > i && Reaches(word, Star(a), s, from[k], j) {
      assert Reaches(word, a, s, i, from[k]);
    }
    if m :| m > i && Reaches(word, a, s, i, m) && Reaches(word, Star(a), s, m, j) {
      var k :| 0 <= k < |from| && from[k] == m;
      assert Reaches(word, Star(a), s, from[k], j);
    }
  }

  /** Matches that cannot be empty. */
  predicate Consumes(r: Regex) {
    match r
    case Set(_) => true
    case Cat(a, b) => Consumes(a) || Consumes(b)
    case Alt(a, b) => Consumes(a) && Consumes(b)
    case _ => false
  }

  lemma {:induction false} ConsumersAdvance(word: Words, r: Regex, s: string, i: nat, j: nat)
    requires Consumes(r) && Reaches(word, r, s, i, j)
    ensures i < j <= |s|
    decreases r
  {
    match r
    case Set(_) =>
    case Cat(a, b) =>
      CatIff(word, a, b, s, i, j);
      var k :| Reaches(word, a, s, i, k) && Reaches(word, b, s, k, j);
      Forward(word, a, s, i, k);
      Forward(word, b, s, k, j);
      if Consumes(a) { ConsumersAdvance(word, a, s, i, k); } else { ConsumersAdvance(word, b, s, k, j); }
    case Alt(a, b) =>
      if Reaches(word, a, s, i, j) { ConsumersAdvance(word, a, s, i, j); } else { ConsumersAdvance(word, b, s, i, j); }
  }

  lemma Forward(word: Words, r: Regex, s: string, i: nat, j: nat)
    requires Reaches(word, r, s, i, j)
    ensures i <= j <= |s|
  {
    var ends := Ends(word, r, s, i);
    var k :| 0 <= k < |ends| && ends[k] == j;
  }

  /** The middle a sequence went through. */
  lemma Middle(word: Words, a: Regex, b: Regex, s: string, i: nat, j: nat) returns (k: nat)
    requires Reaches(word, Cat(a, b), s, i, j)
    ensures i <= k <= j <= |s| && Reaches(word, a, s, i, k) && Reaches(word, b, s, k, j)
  {
    CatIff(word, a, b, s, i, j);
    k :| Reaches(word, a, s, i, k) && Reaches(word, b, s, k, j);
    Forward(word, a, s, i, k);
    Forward(word, b, s, k, j);
  }

  lemma Through(word: Words, a: Regex, b: Regex, s: string, i: nat, k: nat, j: nat)
    requires Reaches(word, a, s, i, k) && Reaches(word, b, s, k, j)
    ensures Reaches(word, Cat(a, b), s, i, j)
  {
    CatIff(word, a, b, s, i, j);
  }

  lemma Again(word: Words, a: Regex, s: string, i: nat, k: nat, j: nat)
    requires Reaches(word, a, s, i, k) && k > i && Reaches(word, Star(a), s, k, j)
    ensures Reaches(word, Star(a), s, i, j)
  {
    StarIff(word, a, s, i, j);
  }

  lemma Taken(word: Words, r: Regex, s: string, i: nat, j: nat)
    requires i <= |s| && (j == i || Reaches(word, r, s, i, j))
    ensures Reaches(word, Maybe(r), s, i, j)
  {
    assert Ends(word, Maybe(r), s, i) == Ends(word, r, s, i) + Ends(word, Nothing, s, i);
    assert Ends(word, Nothing, s, i) == [i];
  }

  lemma Optional(word: Words, r: Regex, s: string, i: nat, j: nat)
    requires Reaches(word, Maybe(r), s, i, j)
    ensures i <= j <= |s| && (j == i || Reaches(word, r, s, i, j))
  {
    Forward(word, Maybe(r), s, i, j);
    assert Ends(word, Maybe(r), s, i) == Ends(word, r, s, i) + Ends(word, Nothing, s, i);
    assert Ends(word, Nothing, s, i) == [i];
  }

  lemma OneCharacter(word: Words, has: char -> bool, s: string, i: nat, j: nat)
    requires Reaches(word, Set(has), s, i, j)
    ensures j == i + 1 <= |s| && has(s[i])
  {}

  /** A loop either stopped at once or went round through some middle. */
  lemma Round(word: Words, a: Regex, s: string, i: nat, j: nat) returns (k: nat)
    requires Reaches(word, Star(a), s, i, j)
    ensures i <= k <= j <= |s|
    ensures k == i ==> j == i
    ensures k > i ==> Reaches(word, a, s, i, k) && Reaches(word, Star(a), s, k, j)
  {
    Forward(word, Star(a), s, i, j);
    StarIff(word, a, s, i, j);
    if j == i {
      k := i;
    } else {
      k :| k > i && Reaches(word, a, s, i, k) && Reaches(word, Star(a), s, k, j);
      Forward(word, Star(a), s, k, j);
    }
  }

  // ---------------------------------------------------------------- all matches in a text

  datatype Span = Span(from: nat, upTo: nat)

  function Slice(s: string, m: Span): string
    requires m.from <= m.upTo <= |s|
  {
    s[m.from..m.upTo]
  }

  /** Left to right from `i`: the first end at the first position that has one, then on behind it. */
  function FindFrom(word: Words, r: Regex, s: string, i: nat): (found: seq<Span>)
    requires i <= |s|
    ensures forall k | 0 <= k < |found| :: i <= found[k].from < found[k].upTo <= |s|
    decreases |s| - i
  {
    if i == |s| then []
    else
      var ends := Ends(word, r, s, i);
      if ends == [] || ends[0] == i then FindFrom(word, r, s, i + 1)
      else [Span(i, ends[0])] + FindFrom(word, r, s, ends[0])
  }

  function FindAll(word: Words, r: Regex, s: string): (found: seq<Span>)
    ensures forall k | 0 <= k < |found| :: found[k].from < found[k].upTo <= |s|
  {
    FindFrom(word, r, s, 0)
  }

  predicate Covers(found: seq<Span>, p: nat) { exists k :: 0 <= k < |found| && found[k].from <= p < found[k].upTo }

  predicate Apart(found: seq<Span>) { forall j, k | 0 <= j < k < |found| :: found[j].upTo <= found[k].from }

  lemma {:induction false} FoundApart(word: Words, r: Regex, s: string, i: nat)
    requires i <= |s|
    ensures Apart(FindFrom(word, r, s, i))
    decreases |s| - i
  {
    if i < |s| {
      var ends := Ends(word, r, s, i);
      if ends == [] || ends[0] == i {
        FoundApart(word, r, s, i + 1);
      } else {
        var rest := FindFrom(word, r, s, ends[0]);
        FoundApart(word, r, s, ends[0]);
        ApartMore(Span(i, ends[0]), rest);
      }
    }
  }

  lemma ApartMore(first: Span, rest: seq<Span>)
    requires Apart(rest) && forall k | 0 <= k < |rest| :: first.upTo <= rest[k].from
    ensures Apart([first] + rest)
  {
    var all := [first] + rest;
    forall j, k | 0 <= j < k < |all| ensures all[j].upTo <= all[k].from {
      assert all[k] == rest[k - 1];
      if j > 0 { assert all[j] == rest[j - 1]; }
    }
  }

  /** A reported match is the first one the matcher tries at its position. */
  lemma {:induction false} FoundFirst(word: Words, r: Regex, s: string, i: nat, k: nat)
    requires i <= |s| && k < |FindFrom(word, r, s, i)|
    ensures var m := FindFrom(word, r, s, i)[k]; Ends(word, r, s, m.from) != [] && Ends(word, r, s, m.from)[0] == m.upTo
    decreases |s| - i
  {
    var ends := Ends(word, r, s, i);
    if ends == [] || ends[0] == i {
      FoundFirst(word, r, s, i + 1, k);
    } else if k > 0 {
      FoundFirst(word, r, s, ends[0], k - 1);
    }
  }

  lemma CoversMore(first: Span, rest: seq<Span>, p: nat)
    requires Covers(rest, p)
    ensures Covers([first] + rest, p)
  {
    var k :| 0 <= k < |rest| && rest[k].from <= p < rest[k].upTo;
    assert ([first] + rest)[k + 1] == rest[k];
  }

  lemma {:induction false} FoundCovers(word: Words, r: Regex, s: string, i: nat, p: nat)
    requires i <= p < |s| && Consumes(r) && Ends(word, r, s, p) != []
    ensures Covers(FindFrom(word, r, s, i), p)
    decreases |s| - i
  {
    var ends, found := Ends(word, r, s, i), FindFrom(word, r, s, i);
    if ends == [] {
      FoundCovers(word, r, s, i + 1, p);
    } else {
      ConsumersAdvance(word, r, s, i, ends[0]);
      if p < ends[0] {
        assert found[0].from <= p < found[0].upTo;
      } else {
        FoundCovers(word, r, s, ends[0], p);
        CoversMore(Span(i, ends[0]), FindFrom(word, r, s, ends[0]), p);
      }
    }
  }

  /** No match escapes: wherever the expression matches, the position lies inside a match that
      is reported; and reported matches do not overlap. */
  lemma NothingEscapes(word: Words, r: Regex, s: string, p: nat)
    requires p < |s| && Consumes(r)
    ensures Apart(FindAll(word, r, s))
    ensures Ends(word, r, s, p) != [] ==> Covers(FindAll(word, r, s), p)
  {
    FoundApart(word, r, s, 0);
    if Ends(word, r, s, p) != [] { FoundCovers(word, r, s, 0, p); }
  }

  predicate FullMatch(word: Words, r: Regex, s: string) { Reaches(word, r, s, 0, |s|) }

  // ---------------------------------------------------------------- building blocks

  function Maybe(r: Regex): Regex { Alt(r, Nothing) }

  function Plus(r: Regex): Regex { Cat(r, Star(r)) }

  function Any(rs: seq<Regex>): Regex
    requires rs != []
  {
    if |rs| == 1 then rs[0] else Alt(rs[0], Any(rs[1..]))
  }

  function Literal(same: (char, char) -> bool, text: string): Regex {
    if text == "" then Nothing else Cat(Set(c => same(text[0], c)), Literal(same, text[1..]))
  }

  lemma {:induction false} AnyConsumes(rs: seq<Regex>)
    requires rs != [] && forall k | 0 <= k < |rs| :: Consumes(rs[k])
    ensures Consumes(Any(rs))
    decreases |rs|
  {
    if |rs| > 1 { AnyConsumes(rs[1..]); }
  }

  /** A choice matches wherever one of its options does. */
  lemma {:induction false} AnyReaches(word: Words, rs: seq<Regex>, k: nat, s: string, i: nat)
    requires k < |rs| && i <= |s| && Ends(word, rs[k], s, i) != []
    ensures Ends(word, Any(rs), s, i) != []
    decreases |rs|
  {
    if |rs| > 1 {
      if k > 0 { AnyReaches(word, rs[1..], k - 1, s, i); }
      assert Ends(word, Any(rs), s, i) == Ends(word, rs[0], s, i) + Ends(word, Any(rs[1..]), s, i);
    }
  }

  /** A choice reaches what one of its options reaches. */
  lemma {:induction false} AnyReachesTo(word: Words, rs: seq<Regex>, k: nat, s: string, i: nat, j: nat)
    requires k < |rs| && Reaches(word, rs[k], s, i, j)
    ensures Reaches(word, Any(rs), s, i, j)
    decreases |rs|
  {
    if |rs| > 1 {
      if k > 0 { AnyReachesTo(word, rs[1..], k - 1, s, i, j); }
      assert Ends(word, Any(rs), s, i) == Ends(word, rs[0], s, i) + Ends(word, Any(rs[1..]), s, i);
    }
  }

  predicate Agrees(same: (char, char) -> bool, text: string, s: string, i: nat) {
    i + |text| <= |s| && forall k | 0 <= k < |text| :: same(text[k], s[i + k])
  }

  lemma AgreesStep(same: (char, char) -> bool, text: string, s: string, i: nat)
    requires text != ""
    ensures Agrees(same, text, s, i) <==> i < |s| && same(text[0], s[i]) && Agrees(same, text[1..], s, i + 1)
  {
    if i < |s| && same(text[0], s[i]) && Agrees(same, text[1..], s, i + 1) {
      forall k | 0 <= k < |text| ensures same(text[k], s[i + k]) {
        if k > 0 { assert same(text[1..][k - 1], s[i + 1 + (k - 1)]); }
      }
    }
  }

  /** A literal matches exactly the texts of its length that agree with it letter by letter. */
  lemma {:induction false} LiteralIff(word: Words, same: (char, char) -> bool, text: string, s: string, i: nat, j: nat)
    requires i <= |s|
    ensures Reaches(word, Literal(same, text), s, i, j) <==> Agrees(same, text, s, i) && j == i + |text|
    decreases |text|
  {
    if text != "" {
      CatIff(word, Set(c => same(text[0], c)), Literal(same, text[1..]), s, i, j);
      AgreesStep(same, text, s, i);
      if i < |s| { LiteralIff(word, same, text[1..], s, i + 1, j); }
    }
  }
}
