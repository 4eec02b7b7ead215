/** How fast the activity rail can publish, for every pattern of reports, failures and re-pairings. */
module ActivityRate {
  import opened Wrappers
  import opened Activity

  const WINDOW_MS: int := 60_000

  predicate Spaced(starts: seq<int>) { forall i :: 0 < i < |starts| ==> starts[i] - starts[i - 1] >= FLUSH_MS }

  predicate Modest(attempts: seq<nat>) { forall i :: 0 <= i < |attempts| ==> attempts[i] <= FLUSH_BATCH }

  predicate PaceOk(r: Rail) {
    && |r.log.attempts| == |r.log.starts| && Modest(r.log.attempts) && Spaced(r.log.starts)
    && (r.log.starts != [] ==> r.log.starts[|r.log.starts| - 1] <= r.clock)
    && (r.log.starts != [] && r.timer.Some? ==> r.timer.value >= r.log.starts[|r.log.starts| - 1] + FLUSH_MS)
    && (r.flight.Some? ==>
        && r.flight.value.at < |r.flight.value.batch| <= FLUSH_BATCH && r.log.attempts != []
        && r.log.attempts[|r.log.attempts| - 1]
           <= r.flight.value.at + if r.flight.value.phase.Publishing? then 1 else 0)
  }

  lemma NextPaces(r: Rail, f: Flight)
    requires PaceOk(r.(flight := None)) && f.at <= |f.batch| <= FLUSH_BATCH
    requires r.log.attempts != [] && r.log.attempts[|r.log.attempts| - 1] <= f.at
    ensures PaceOk(Next(r, f))
  {
  }

  lemma StartPaces(r: Rail)
    requires PaceOk(r) && r.timer.None?
    requires r.log.starts != [] ==> r.clock >= r.log.starts[|r.log.starts| - 1] + FLUSH_MS
    ensures PaceOk(StartFlush(r))
  {
  }

  lemma WrappedPaces(r: Rail, ok: bool)
    requires PaceOk(r)
    ensures PaceOk(Wrapped(r, ok))
  {
  }

  lemma PublishedPaces(r: Rail, ok: bool)
    requires PaceOk(r)
    ensures PaceOk(Published(r, ok))
  {
    if r.flight.Some? && r.flight.value.phase.Publishing? && ok {
      NextPaces(r.(log := r.log.(acked := r.log.acked + [r.flight.value.batch[r.flight.value.at]])),
                r.flight.value.(at := r.flight.value.at + 1));
    }
  }

  lemma StepPaces(r: Rail, ev: Event)
    requires PaceOk(r) && Timely(r, ev)
    ensures PaceOk(Step(r, ev))
  {
    hide StartFlush, Wrapped, Published, Spaced;
    var r1 := r.(clock := ev.now);
    match ev {
      case Reports(e, _) =>
      case TimerFires(_) => StartPaces(r1.(timer := None));
      case WrapSettles(ok, _) => WrappedPaces(r1, ok);
      case PublishSettles(ok, _) => PublishedPaces(r1, ok);
      case Rekeys(pairing, _) =>
    }
  }

  lemma {:induction false} RunPaces(r: Rail, evs: seq<Event>)
    requires Init(r) && AllTimely(r, evs)
    ensures PaceOk(Run(r, evs))
  {
    if evs != [] {
      Earlier(r, evs);
      RunPaces(r, evs[..|evs| - 1]);
      hide PaceOk, Step;
      StepPaces(Run(r, evs[..|evs| - 1]), evs[|evs| - 1]);
    }
  }

  // ---- Counting in a window ----

  predicate Within(t: int, from: int) { from <= t < from + WINDOW_MS }

  function Count(starts: seq<int>, from: int): nat {
    if starts == [] then 0
    else Count(starts[..|starts| - 1], from) + if Within(starts[|starts| - 1], from) then 1 else 0
  }

  /** Publishes attempted by the flushes that started in the window. */
  function Load(starts: seq<int>, attempts: seq<nat>, from: int): nat
    requires |starts| == |attempts|
  {
    if starts == [] then 0
    else
      var n := |starts| - 1;
      Load(starts[..n], attempts[..n], from) + if Within(starts[n], from) then attempts[n] else 0
  }

  lemma {:induction false} SpacedCount(starts: seq<int>, from: int)
    requires Spaced(starts) && (starts != [] ==> starts[|starts| - 1] < from + WINDOW_MS)
    ensures FLUSH_MS * Count(starts, from) <=
            if starts == [] || starts[|starts| - 1] < from then 0 else starts[|starts| - 1] + FLUSH_MS - from
  {
    if starts != [] {
      var init := starts[..|starts| - 1];
      if init != [] { assert starts[|starts| - 1] - starts[|starts| - 2] >= FLUSH_MS; }
      SpacedCount(init, from);
    }
  }

  lemma {:induction false} AtMostTwelve(starts: seq<int>, from: int)
    requires Spaced(starts)
    ensures Count(starts, from) <= 12
  {
    if starts != [] && starts[|starts| - 1] >= from + WINDOW_MS {
      AtMostTwelve(starts[..|starts| - 1], from);
    } else {
      SpacedCount(starts, from);
    }
  }

  lemma {:induction false} LoadBound(starts: seq<int>, attempts: seq<nat>, from: int)
    requires |starts| == |attempts| && Modest(attempts)
    ensures Load(starts, attempts, from) <= FLUSH_BATCH * Count(starts, from)
  {
    if starts != [] {
      LoadBound(starts[..|starts| - 1], attempts[..|starts| - 1], from);
    }
  }

  /**
   * Throughput: for every pattern of reports, failures, slow publishes and
   * re-pairings, successive flushes start at least 5 s apart, so any half-open
   * minute holds at most 12 starts and those flushes attempt at most 120
   * publishes.
   */
  lemma {:induction false} AtMost120AMinute(r: Rail, evs: seq<Event>, from: int)
    requires Init(r) && AllTimely(r, evs)
    ensures var s := Run(r, evs);
      && (forall i :: 0 < i < |s.log.starts| ==> s.log.starts[i] - s.log.starts[i - 1] >= FLUSH_MS)
      && Count(s.log.starts, from) <= 12
      && |s.log.starts| == |s.log.attempts| && Load(s.log.starts, s.log.attempts, from) <= 120
  {
    RunPaces(r, evs);
    hide Run;
    var s := Run(r, evs);
    AtMostTwelve(s.log.starts, from);
    LoadBound(s.log.starts, s.log.attempts, from);
  }

  // ---- Blocked reports ----

  predicate IsBlocked(e: Entry, k: BlockKey) { e.outcome.BlockedOutcome? && KeyOf(e) == k }

  /** Per key: no report is later than the time kept, and any two are a minute apart. */
  ghost predicate Apart(accepted: seq<Entry>, times: seq<int>, last: map<BlockKey, int>, k: BlockKey) {
    && |times| == |accepted|
    && (forall i :: 0 <= i < |accepted| && IsBlocked(accepted[i], k) ==> k in last && times[i] <= last[k])
    && (forall i, j :: 0 <= i < j < |accepted| && IsBlocked(accepted[i], k) && IsBlocked(accepted[j], k) ==>
        times[j] - times[i] >= BLOCKED_EVERY_MS)
  }

  lemma ReportSpacesBlocked(r: Rail, e: Entry, k: BlockKey)
    requires Apart(r.log.accepted, r.log.times, r.lastBlocked, k)
    ensures var r' := Report(r, e); Apart(r'.log.accepted, r'.log.times, r'.lastBlocked, k)
  {
  }

  predicate SameReports(r: Rail, r': Rail) {
    r'.log.accepted == r.log.accepted && r'.log.times == r.log.times && r'.lastBlocked == r.lastBlocked
  }

  lemma NextKeepsTheLog(r: Rail, f: Flight)
    ensures SameReports(r, Next(r, f))
  {
  }

  lemma WrappedKeepsTheLog(r: Rail, ok: bool)
    ensures SameReports(r, Wrapped(r, ok))
  {
  }

  lemma PublishedKeepsTheLog(r: Rail, ok: bool)
    ensures SameReports(r, Published(r, ok))
  {
  }

  /** Only a report touches the log of accepted reports or the times kept per key. */
  lemma OthersKeepTheLog(r: Rail, ev: Event)
    requires !ev.Reports? && !ev.Rekeys?
    ensures SameReports(r, Step(r, ev))
  {
    hide Wrapped, Published, Next;
    var r1 := r.(clock := ev.now);
    if ev.WrapSettles? { WrappedKeepsTheLog(r1, ev.ok); }
    else if ev.PublishSettles? { PublishedKeepsTheLog(r1, ev.ok); }
    else if ev.TimerFires? {
      var n := if |r.queue| < FLUSH_BATCH then |r.queue| else FLUSH_BATCH;
      NextKeepsTheLog(r1.(timer := None, queue := r.queue[n..], log := Begun(r.log, ev.now)),
                      Flight(r.pairing, r.queue[..n], 0, Wrapping));
    }
  }

  lemma StepSpaces(r: Rail, ev: Event, k: BlockKey)
    requires Apart(r.log.accepted, r.log.times, r.lastBlocked, k) && !ev.Rekeys?
    ensures var r' := Step(r, ev); Apart(r'.log.accepted, r'.log.times, r'.lastBlocked, k)
  {
    hide Apart, Report, StartFlush, Wrapped, Published;
    if ev.Reports? { ReportSpacesBlocked(r.(clock := ev.now), ev.entry, k); } else { OthersKeepTheLog(r, ev); }
  }

  lemma {:induction false} RunSpacesBlocked(r: Rail, evs: seq<Event>, k: BlockKey)
    requires Init(r) && OnePairing(evs)
    ensures var s := Run(r, evs); Apart(s.log.accepted, s.log.times, s.lastBlocked, k)
  {
    if evs != [] {
      var s, ev := Run(r, evs[..|evs| - 1]), evs[|evs| - 1];
      RunSpacesBlocked(r, evs[..|evs| - 1], k);
      assert ev in evs;
      StepSpaces(s, ev, k);
    }
  }

  predicate SameBlocked(e: Entry, f: Entry) {
    e.outcome.BlockedOutcome? && f.outcome.BlockedOutcome? && KeyOf(e) == KeyOf(f)
  }

  /** Within one pairing two accepted `blocked` reports of one app, persona and kind are a minute apart. */
  lemma {:induction false} BlockedOnceAMinute(r: Rail, evs: seq<Event>, i: nat, j: nat)
    requires Init(r) && OnePairing(evs)
    ensures var log := Run(r, evs).log;
      && |log.times| == |log.accepted|
      && (i < j < |log.accepted| && SameBlocked(log.accepted[i], log.accepted[j]) ==>
          log.times[j] - log.times[i] >= BLOCKED_EVERY_MS)
  {
    var log := Run(r, evs).log;
    RunSpacesBlocked(r, evs, if i < |log.accepted| then KeyOf(log.accepted[i]) else ("", "", 0));
    hide Run;
  }
}
