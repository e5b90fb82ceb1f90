/** The two places where model or cache text may replace a computed draft. */
module Rewriting {
  import opened Common
  import opened Figures
  import opened Grounding

  /** What a provider or a cache hands over: a failure, or an object whose text field is a
      string or something else. */
  datatype Response = Failed | Object(text: Option<string>)

  datatype Source = FromCache | FromModel | Fallback

  datatype Reason = RateLimited | ProviderUnavailable | InvalidResponse

  /** Nothing ungrounded is shown: the draft itself, or a text that passed the gate. */
  predicate Grounded(ch: Chars, shown: string, draft: string, f: Facts) {
    shown == draft || ValidRewrite(ch, Some(shown), draft, f)
  }

  function Stripped(ch: Chars, text: Option<string>): string { if text.Some? then Strip(ch, text.value) else "" }

  class SpendingSummarizer {
    const chars: Chars
    /** Cached objects by aggregate key; other writers may have put anything there. */
    var cache: map<string, Option<string>>

    constructor (chars: Chars, cache: map<string, Option<string>>)
      ensures this.chars == chars && this.cache == cache
    {
      this.chars, this.cache := chars, cache;
    }

    /** `readable` and `writable` say whether the cache answers. */
    method Summarize(f: Facts, key: string, draft: string, readable: bool, admitted: bool, reply: Response,
                     writable: bool)
      returns (shown: string, source: Source)
      modifies this
      ensures Grounded(chars, shown, draft, f)
      ensures var hit := readable && key in old(cache) && ValidRewrite(chars, old(cache)[key], draft, f);
        var usable := admitted && reply.Object? && ValidRewrite(chars, Some(Stripped(chars, reply.text)), draft, f);
        && (source.FromCache? <==> hit) && (source.FromModel? <==> !hit && usable)
        && (hit ==> Some(shown) == old(cache)[key])
        && (source.FromModel? ==> shown == Stripped(chars, reply.text))
        && (source.Fallback? ==> shown == draft)
        && cache == if source.FromModel? && writable then old(cache)[key := Some(shown)] else old(cache)
    {
      if readable && key in cache {
        var valid := CheckRewrite(chars, cache[key], draft, f);
        if valid { return cache[key].value, FromCache; }
      }
      if !admitted || reply.Failed? { return draft, Fallback; }
      var summary := Stripped(chars, reply.text);
      var valid := CheckRewrite(chars, Some(summary), draft, f);
      if !valid { return draft, Fallback; }
      if writable { cache := cache[key := Some(summary)]; }
      shown, source := summary, FromModel;
    }
  }

  method Respond(ch: Chars, f: Facts, draft: string, admitted: bool, reply: Response)
    returns (shown: string, source: Source, reason: Option<Reason>)
    ensures Grounded(ch, shown, draft, f)
    ensures var usable := admitted && reply.Object? && ValidRewrite(ch, Some(Stripped(ch, reply.text)), draft, f);
      && source == (if usable then FromModel else Fallback)
      && shown == (if usable then Stripped(ch, reply.text) else draft)
      && reason == if usable then None else if !admitted then Some(RateLimited)
                   else if reply.Failed? then Some(ProviderUnavailable) else Some(InvalidResponse)
  {
    if !admitted { return draft, Fallback, Some(RateLimited); }
    if reply.Failed? { return draft, Fallback, Some(ProviderUnavailable); }
    var text := Stripped(ch, reply.text);
    var valid := CheckRewrite(ch, Some(text), draft, f);
    if !valid { return draft, Fallback, Some(InvalidResponse); }
    return text, FromModel, None;
  }

  /** Whatever is shown instead of a stripped draft has the draft's signature. */
  lemma ShownHasTheSignature(ch: Chars, shown: string, draft: string, f: Facts)
    requires Grounded(ch, shown, draft, f) && Strip(ch, draft) == draft
    ensures Signature(ch, f, Strip(ch, shown)) == Signature(ch, f, draft)
  {}

  lemma {:induction false} LeftStripsAll(ch: Chars, s: string)
    ensures var t := StripLeft(ch, s); t == "" || !ch.space(t[0])
    ensures s != "" && !ch.space(s[0]) ==> StripLeft(ch, s) == s
    decreases |s|
  {
    if s != "" && ch.space(s[0]) { LeftStripsAll(ch, s[1..]); }
  }

  lemma {:induction false} RightStripsAll(ch: Chars, s: string)
    ensures var t := StripRight(ch, s); t == "" || (!ch.space(t[|t| - 1]) && t <= s)
    ensures StripRight(ch, StripRight(ch, s)) == StripRight(ch, s)
    decreases |s|
  {
    if s != "" && ch.space(s[|s| - 1]) { RightStripsAll(ch, s[..|s| - 1]); }
  }

  lemma StripTwice(ch: Chars, s: string)
    ensures Strip(ch, Strip(ch, s)) == Strip(ch, s)
  {
    var left := StripLeft(ch, s);
    LeftStripsAll(ch, s);
    RightStripsAll(ch, left);
    LeftStripsAll(ch, Strip(ch, s));
  }

  /** What the gate accepted from the model is stored stripped, with the draft's signature. */
  lemma CachedTextStaysValid(ch: Chars, text: Option<string>, draft: string, f: Facts)
    requires ValidRewrite(ch, Some(Stripped(ch, text)), draft, f)
    ensures Strip(ch, Stripped(ch, text)) == Stripped(ch, text)
    ensures Signature(ch, f, Stripped(ch, text)) == Signature(ch, f, draft)
  {
    if text.Some? { StripTwice(ch, text.value); }
  }

  predicate AllSpace(ch: Chars, s: string) { forall c | c in s :: ch.space(c) }

  lemma {:induction false} LeftDrops(ch: Chars, s: string) returns (a: string)
    ensures AllSpace(ch, a) && s == a + StripLeft(ch, s)
    decreases |s|
  {
    a := "";
    if s != "" && ch.space(s[0]) {
      var rest := LeftDrops(ch, s[1..]);
      a := [s[0]] + rest;
      assert s == [s[0]] + s[1..];
    }
  }

  lemma {:induction false} RightDrops(ch: Chars, s: string) returns (b: string)
    ensures AllSpace(ch, b) && s == StripRight(ch, s) + b
    decreases |s|
  {
    b := "";
    if s != "" && ch.space(s[|s| - 1]) {
      var rest := RightDrops(ch, s[..|s| - 1]);
      b := rest + [s[|s| - 1]];
      assert s == s[..|s| - 1] + [s[|s| - 1]];
    }
  }

  /** Stripping drops white space from both ends, all of it, and nothing else. */
  lemma StripIs(ch: Chars, s: string) returns (a: string, b: string)
    ensures AllSpace(ch, a) && AllSpace(ch, b) && s == a + Strip(ch, s) + b
    ensures var t := Strip(ch, s); t != "" ==> !ch.space(t[0]) && !ch.space(t[|t| - 1])
  {
    a := LeftDrops(ch, s);
    b := RightDrops(ch, StripLeft(ch, s));
    LeftStripsAll(ch, s);
    RightStripsAll(ch, StripLeft(ch, s));
  }
}
