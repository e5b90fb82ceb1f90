/** The model-backed categorizer: cache, breaker, limiter, provider, validation, cache. A call is
    two moves, up to the provider request and from its outcome on; calls may overlap. */
module Categorizer {
  import opened Common
  import opened Breaker

  datatype Classified = Classified(category: string, confidence: real)

  /** The confidence a payload carries, if it reads as a number. */
  datatype Payload = Payload(category: string, confidence: Option<real>)

  /** How the provider request ends. */
  datatype Outcome = Unreachable | Malformed | Cancelled | Replied(payload: Payload)

  datatype Error = BreakerOpen | RateLimited(retryAfter: int) | Unavailable | InvalidResponse | WasCancelled | BadEntry

  /** A cached object, whoever wrote it: its category and confidence may be missing, and the
      confidence may not read as a number. */
  datatype Confidence = Missing | Unreadable | Number(value: real)
  datatype Cached = Cached(category: Option<string>, confidence: Confidence)

  datatype Begun = FromCache(result: Classified) | Refused(error: Error) | Requesting

  datatype Result = Ok(value: Classified) | Err(error: Error)

  /** The reply is in the category taxonomy, with a confidence that is a probability. */
  predicate Sound(taxonomy: set<string>, c: Classified) { c.category in taxonomy && 0.0 <= c.confidence <= 1.0 }

  function Clamp(x: real): real { if x < 0.0 then 0.0 else if x > 1.0 then 1.0 else x }

  /** Validates a payload whose category is already stripped and in lower case. */
  function Parse(taxonomy: set<string>, p: Payload): (r: Option<Classified>)
    ensures r.Some? <==> p.category in taxonomy
    ensures r.Some? ==> Sound(taxonomy, r.value) && r.value.category == p.category
    ensures r.Some? && p.confidence.Some? && 0.0 <= p.confidence.value <= 1.0 ==>
      r.value.confidence == p.confidence.value
    ensures r.Some? && p.confidence.Some? && p.confidence.value > 1.0 ==> r.value.confidence == 1.0
    ensures r.Some? && (p.confidence.None? || p.confidence.value < 0.0) ==> r.value.confidence == 0.0
  {
    if p.category !in taxonomy then None
    else Some(Classified(p.category, if p.confidence.Some? then Clamp(p.confidence.value) else 0.0))
  }

  /** A cached object is used as it is, without looking at the taxonomy again. */
  function FromEntry(c: Cached): Option<Classified> {
    if c.category.None? || c.confidence.Unreadable? then None
    else Some(Classified(c.category.value, if c.confidence.Missing? then 0.0 else c.confidence.value))
  }

  function ToEntry(c: Classified): Cached { Cached(Some(c.category), Number(c.confidence)) }

  /** What was cached reads back as it was; an entry without a confidence reads as one of 0, and
      one without a category or with an unreadable confidence does not read. */
  lemma EntriesRead(c: Classified, category: Option<string>, confidence: Confidence)
    ensures FromEntry(ToEntry(c)) == Some(c)
    ensures FromEntry(Cached(category, confidence)).Some? <==> category.Some? && confidence != Unreadable
    ensures category.Some? && confidence == Missing ==>
      FromEntry(Cached(category, confidence)) == Some(Classified(category.value, 0.0))
    ensures category.Some? && confidence.Number? ==>
      FromEntry(Cached(category, confidence)) == Some(Classified(category.value, confidence.value))
  {}

  /** Every entry is one this client could have written under this taxonomy. */
  ghost predicate SoundCache(taxonomy: set<string>, cache: map<string, Cached>) {
    forall k | k in cache :: FromEntry(cache[k]).Some? && Sound(taxonomy, FromEntry(cache[k]).value)
  }

  class LLMCategorizer {
    const taxonomy: set<string>
    const breaker: CircuitBreaker
    const keyFor: string -> string
    /** Entries by merchant key; other writers and older taxonomies may have left anything. */
    var cache: map<string, Cached>

    constructor (taxonomy: set<string>, breaker: CircuitBreaker, keyFor: string -> string, cache: map<string, Cached>)
      requires breaker.Valid()
      ensures Valid() && this.taxonomy == taxonomy && this.breaker == breaker && this.keyFor == keyFor
              && this.cache == cache
    {
      this.taxonomy, this.breaker, this.keyFor, this.cache := taxonomy, breaker, keyFor, cache;
    }

    ghost predicate Valid()
      reads this, breaker
    {
      breaker.Valid()
    }

    /** From the cache lookup to the provider request. `cacheDown` is a failed read. A cached
        entry is not checked against the taxonomy: what comes out is what was put in. */
    method Begin(description: string, cacheDown: bool, now: real, admitted: bool, retryAfter: int) returns (r: Begun)
      requires Valid() && ReadsForward(breaker.history, now)
      modifies breaker`mode, breaker`history
      ensures Valid() && ReadsForward(breaker.history, now)
      ensures var hit := !cacheDown && keyFor(description) in cache;
        && breaker.history == old(breaker.history) + (if hit then [] else [Checked(now)])
        && if hit then
             var entry := FromEntry(cache[keyFor(description)]);
             r == if entry.None? then Refused(BadEntry) else FromCache(entry.value)
           else if !AllowedByHistory(breaker.cfg, old(breaker.history), now) then r == Refused(BreakerOpen)
           else r == if admitted then Requesting else Refused(RateLimited(retryAfter))
      ensures SoundCache(taxonomy, cache) ==>
        (r.FromCache? ==> Sound(taxonomy, r.result)) && r != Refused(BadEntry)
    {
      if !cacheDown && keyFor(description) in cache {
        var entry := FromEntry(cache[keyFor(description)]);
        return if entry.None? then Refused(BadEntry) else FromCache(entry.value);
      }
      var allows := breaker.AllowsRequest(now);
      if !allows { return Refused(BreakerOpen); }
      if !admitted { return Refused(RateLimited(retryAfter)); }
      r := Requesting;
    }

    /** From the provider's outcome to the result. Only an unreachable provider is a failure to
        the breaker, and any payload is a success, valid or not. */
    method Complete(description: string, outcome: Outcome, cacheDown: bool, now: real) returns (r: Result)
      requires Valid() && ReadsForward(breaker.history, now)
      modifies this`cache, breaker
      ensures Valid()
      ensures breaker.history == old(breaker.history) + Recorded(outcome, now)
      ensures r.Ok? <==> outcome.Replied? && outcome.payload.category in taxonomy
      ensures r.Ok? ==> Some(r.value) == Parse(taxonomy, outcome.payload) && Sound(taxonomy, r.value)
      ensures r.Err? ==>
        r.error == if outcome.Unreachable? then Unavailable
                   else if outcome.Cancelled? then WasCancelled else InvalidResponse
      ensures cache == if r.Ok? && !cacheDown then old(cache)[keyFor(description) := ToEntry(r.value)] else old(cache)
      ensures SoundCache(taxonomy, old(cache)) ==> SoundCache(taxonomy, cache)
    {
      match outcome
      case Unreachable =>
        breaker.RecordFailure(now);
        r := Err(Unavailable);
      case Malformed => r := Err(InvalidResponse);
      case Cancelled => r := Err(WasCancelled);
      case Replied(payload) =>
        breaker.RecordSuccess();
        var result := Parse(taxonomy, payload);
        if result.None? { return Err(InvalidResponse); }
        if !cacheDown { cache := cache[keyFor(description) := ToEntry(result.value)]; }
        r := Ok(result.value);
    }

    /** After a correction every description of the merchant asks the provider again, unless the
        cache could not be reached. */
    method Invalidate(description: string, cacheDown: bool)
      requires Valid()
      modifies this`cache
      ensures Valid() && cache == if cacheDown then old(cache) else old(cache) - {keyFor(description)}
      ensures !cacheDown ==> forall d | keyFor(d) == keyFor(description) :: keyFor(d) !in cache
      ensures SoundCache(taxonomy, old(cache)) ==> SoundCache(taxonomy, cache)
    {
      if !cacheDown { cache := cache - {keyFor(description)}; }
    }
  }

  /** What an outcome tells the breaker. */
  function Recorded(outcome: Outcome, now: real): seq<Event> {
    match outcome
    case Unreachable => [Failed(now)]
    case Replied(_) => [Succeeded]
    case _ => []
  }

  // ---------------------------------------------------------------- overlapping calls

  /** One move of one call: a cache hit, a question to the breaker, or an outcome. */
  datatype Move = Hit | Asked(at: real) | Ended(outcome: Outcome, at: real)

  function Told(moves: seq<Move>): seq<Event> {
    if moves == [] then []
    else
      var m := moves[|moves| - 1];
      Told(moves[..|moves| - 1])
      + match m case Hit => [] case Asked(t) => [Checked(t)] case Ended(o, t) => Recorded(o, t)
  }

  /** Outages since a provider last replied; malformed replies and cancellations do not count. */
  function Outages(moves: seq<Move>): nat {
    if moves == [] then 0
    else
      var m := moves[|moves| - 1];
      if m.Ended? && m.outcome.Replied? then 0
      else Outages(moves[..|moves| - 1]) + if m.Ended? && m.outcome.Unreachable? then 1 else 0
  }

  function LastOutage(moves: seq<Move>): real
    requires Outages(moves) > 0
  {
    var m := moves[|moves| - 1];
    if m.Ended? && m.outcome.Unreachable? then m.at else LastOutage(moves[..|moves| - 1])
  }

  lemma OneMoreEvent(h: seq<Event>, e: Event)
    ensures FailuresSince(h + [e]) == if e.Succeeded? then 0 else FailuresSince(h) + if e.Failed? then 1 else 0
    ensures FailuresSince(h + [e]) > 0 ==> LastFailure(h + [e]) == if e.Failed? then e.at else LastFailure(h)
  {
    assert (h + [e])[..|h|] == h;
  }

  lemma {:induction false} BreakerHearsOutages(moves: seq<Move>)
    ensures FailuresSince(Told(moves)) == Outages(moves)
    ensures Outages(moves) > 0 ==> LastFailure(Told(moves)) == LastOutage(moves)
    decreases |moves|
  {
    if moves != [] {
      var init, m := moves[..|moves| - 1], moves[|moves| - 1];
      BreakerHearsOutages(init);
      assert Told(init) + [] == Told(init);
      if m.Asked? { OneMoreEvent(Told(init), Checked(m.at)); }
      if m.Ended? && m.outcome.Unreachable? { OneMoreEvent(Told(init), Failed(m.at)); }
      if m.Ended? && m.outcome.Replied? { OneMoreEvent(Told(init), Succeeded); }
    }
  }

  /** However calls overlap, the provider is cut off exactly when it was unreachable at least
      threshold times with no reply in between, for the timeout after the latest time. */
  lemma CutOffIffOutages(cfg: Settings, moves: seq<Move>, now: real)
    requires ReadsForward(Told(moves), now)
    ensures !Allows(cfg, After(cfg, Told(moves)), now)
            <==> Outages(moves) >= Threshold(cfg) && now - LastOutage(moves) < cfg.reset
  {
    BreakerHearsOutages(moves);
    AllowsIffHistoryDoes(cfg, Told(moves), now);
  }
}
