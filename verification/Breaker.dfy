/** The circuit breaker: three fields updated by every call, against its history. */
module Breaker {
  import opened Common

  datatype Mode = Closed | Open | HalfOpen

  datatype Settings = Settings(threshold: int, reset: real)

  datatype Breaker = Breaker(failures: nat, openedAt: Option<real>, mode: Mode)

  /** What callers do to a breaker, with the clock they do it at. */
  datatype Event = Checked(at: real) | Succeeded | Failed(at: real)

  const FRESH: Breaker := Breaker(0, None, Closed)

  /** Reading the state may move it from open to half-open. */
  function Look(cfg: Settings, b: Breaker, now: real): Breaker {
    if b.mode.Open? && b.openedAt.Some? && now - b.openedAt.value >= cfg.reset then b.(mode := HalfOpen) else b
  }

  predicate Allows(cfg: Settings, b: Breaker, now: real) { !Look(cfg, b, now).mode.Open? }

  function React(cfg: Settings, b: Breaker, e: Event): Breaker {
    match e
    case Checked(t) => Look(cfg, b, t)
    case Succeeded => FRESH
    case Failed(t) => Fail(cfg, b, t)
  }

  function Fail(cfg: Settings, b: Breaker, t: real): Breaker {
    if b.mode.HalfOpen? || b.failures + 1 >= cfg.threshold
    then Breaker(b.failures + 1, Some(t), Open) else b.(failures := b.failures + 1)
  }

  function After(cfg: Settings, h: seq<Event>): Breaker {
    if h == [] then FRESH else React(cfg, After(cfg, h[..|h| - 1]), h[|h| - 1])
  }

  // ---------------------------------------------------------------- the history, on its own

  /** Failures recorded since the last success. */
  function FailuresSince(h: seq<Event>): nat {
    if h == [] || h[|h| - 1].Succeeded? then 0
    else FailuresSince(h[..|h| - 1]) + if h[|h| - 1].Failed? then 1 else 0
  }

  function LastFailure(h: seq<Event>): real
    requires FailuresSince(h) > 0
  {
    if h[|h| - 1].Failed? then h[|h| - 1].at else LastFailure(h[..|h| - 1])
  }

  /** Some check since the last failure already found the timeout over. */
  predicate WasReady(cfg: Settings, h: seq<Event>)
    requires FailuresSince(h) > 0
  {
    !h[|h| - 1].Failed?
    && ((h[|h| - 1].Checked? && h[|h| - 1].at - LastFailure(h) >= cfg.reset) || WasReady(cfg, h[..|h| - 1]))
  }

  /** At least one failure is needed to open the breaker, whatever the configured threshold. */
  function Threshold(cfg: Settings): nat { if cfg.threshold < 1 then 1 else cfg.threshold }

  predicate ReadsForward(h: seq<Event>, now: real) {
    h != [] ==>
      var e := h[|h| - 1];
      (e.Succeeded? || e.at <= now) && ReadsForward(h[..|h| - 1], if e.Succeeded? then now else e.at)
  }

  /** When a request is allowed, told from the history alone. */
  predicate AllowedByHistory(cfg: Settings, h: seq<Event>, now: real) {
    FailuresSince(h) < Threshold(cfg) || now - LastFailure(h) >= cfg.reset
  }

  /** The breaker's fields are a function of its history, on any clock. */
  lemma {:induction false} FieldsFollowHistory(cfg: Settings, h: seq<Event>)
    ensures var b := After(cfg, h);
      && b.failures == FailuresSince(h)
      && (FailuresSince(h) < Threshold(cfg) ==> b.mode.Closed?)
      && (FailuresSince(h) >= Threshold(cfg) ==>
            b.openedAt == Some(LastFailure(h)) && b.mode == if WasReady(cfg, h) then HalfOpen else Open)
    decreases |h|
  {
    if h != [] { FieldsFollowHistory(cfg, h[..|h| - 1]); }
  }

  lemma {:induction false} ForwardLater(h: seq<Event>, t: real, u: real)
    requires ReadsForward(h, t) && t <= u
    ensures ReadsForward(h, u)
    decreases |h|
  {
    if h != [] && h[|h| - 1].Succeeded? { ForwardLater(h[..|h| - 1], t, u); }
  }

  /** On a clock that never runs back, a timeout once over stays over. */
  lemma {:induction false} ReadyStaysReady(cfg: Settings, h: seq<Event>, now: real)
    requires FailuresSince(h) > 0 && ReadsForward(h, now) && WasReady(cfg, h)
    ensures now - LastFailure(h) >= cfg.reset
    decreases |h|
  {
    var e, rest := h[|h| - 1], h[..|h| - 1];
    if e.Checked? && e.at - LastFailure(h) < cfg.reset { ReadyStaysReady(cfg, rest, e.at); }
  }

  /** The breaker refines its history: a request is allowed exactly when fewer failures than
      the threshold were recorded since the last success, or the reset timeout has passed since
      the last of them - over every sequence of checks, successes and (late) failures. */
  lemma AllowsIffHistoryDoes(cfg: Settings, h: seq<Event>, now: real)
    requires ReadsForward(h, now)
    ensures Allows(cfg, After(cfg, h), now) <==> AllowedByHistory(cfg, h, now)
  {
    FieldsFollowHistory(cfg, h);
    if FailuresSince(h) >= Threshold(cfg) && WasReady(cfg, h) { ReadyStaysReady(cfg, h, now); }
  }

  /** If the clock may run back, exactly the half-open state outlives its reason. */
  lemma AllowsOnAnyClock(cfg: Settings, h: seq<Event>, now: real)
    ensures Allows(cfg, After(cfg, h), now)
            <==> AllowedByHistory(cfg, h, now) || WasReady(cfg, h)
  {
    FieldsFollowHistory(cfg, h);
  }

  lemma OneMore(cfg: Settings, h: seq<Event>, e: Event)
    ensures After(cfg, h + [e]) == React(cfg, After(cfg, h), e)
  {
    assert (h + [e])[..|h|] == h;
  }

  lemma StillForward(h: seq<Event>, e: Event, now: real)
    requires ReadsForward(h, now) && (e.Succeeded? || e.at == now)
    ensures ReadsForward(h + [e], now)
  {
    assert (h + [e])[..|h|] == h;
  }

  class CircuitBreaker {
    const cfg: Settings
    var failures: nat
    var openedAt: Option<real>
    var mode: Mode
    /** Every call made so far. */
    ghost var history: seq<Event>

    constructor (cfg: Settings)
      ensures Valid() && this.cfg == cfg && history == []
    {
      this.cfg, failures, openedAt, mode, history := cfg, 0, None, Closed, [];
    }

    function Fields(): Breaker
      reads this
    {
      Breaker(failures, openedAt, mode)
    }

    ghost predicate Valid()
      reads this
    {
      Fields() == After(cfg, history)
    }

    method State(now: real) returns (m: Mode)
      requires Valid() && ReadsForward(history, now)
      modifies this`mode, this`history
      ensures Valid() && history == old(history) + [Checked(now)] && ReadsForward(history, now)
      ensures m == mode && (m.Open? <==> !AllowedByHistory(cfg, old(history), now))
      ensures m.Closed? <==> FailuresSince(old(history)) < Threshold(cfg)
    {
      AllowsIffHistoryDoes(cfg, history, now);
      FieldsFollowHistory(cfg, history);
      if mode.Open? && openedAt.Some? && now - openedAt.value >= cfg.reset {
        mode := HalfOpen;
      }
      OneMore(cfg, history, Checked(now));
      StillForward(history, Checked(now), now);
      history := history + [Checked(now)];
      m := mode;
    }

    method AllowsRequest(now: real) returns (ok: bool)
      requires Valid() && ReadsForward(history, now)
      modifies this`mode, this`history
      ensures Valid() && history == old(history) + [Checked(now)] && ReadsForward(history, now)
      ensures ok <==> AllowedByHistory(cfg, old(history), now)
    {
      var m := State(now);
      ok := !m.Open?;
    }

    method RecordSuccess()
      requires Valid()
      modifies this
      ensures Valid() && history == old(history) + [Succeeded]
    {
      failures, openedAt, mode := 0, None, Closed;
      OneMore(cfg, history, Succeeded);
      history := history + [Succeeded];
    }

    /** The fields' part of recording a failure. */
    method CountFailure(now: real)
      modifies this`failures, this`openedAt, this`mode
      ensures Fields() == Fail(cfg, old(Fields()), now)
    {
      failures := failures + 1;
      if mode.HalfOpen? || failures >= cfg.threshold {
        mode := Open;
        openedAt := Some(now);
      }
    }

    method RecordFailure(now: real)
      requires Valid() && ReadsForward(history, now)
      modifies this
      ensures Valid() && history == old(history) + [Failed(now)] && ReadsForward(history, now)
    {
      OneMore(cfg, history, Failed(now));
      StillForward(history, Failed(now), now);
      history := history + [Failed(now)];
      CountFailure(now);
    }
  }
}
