/**
 * The child's activity rail (src/hooks/useChildActivityPublisher.ts): a bounded
 * queue, flushed in batches by one timer, with failed batches put back at its
 * head. A flush is cut at its awaits: `flight` says which entry it is wrapping
 * or publishing.
 */
module Activity {
  import opened Wrappers

  const FLUSH_MS: int := 5_000
  const FLUSH_BATCH: nat := 10
  const QUEUE_MAX: nat := 200
  const RETRY_MS: int := 30_000
  const BLOCKED_EVERY_MS: int := 60_000

  datatype Outcome = Allowed | Asked | BlockedOutcome

  datatype Entry = Entry(appId: string, persona: string, kind: int, outcome: Outcome, at: int)

  type BlockKey = (string, string, int)

  function KeyOf(e: Entry): BlockKey { (e.appId, e.persona, e.kind) }

  datatype Phase = Wrapping | Publishing

  /** The flush in progress: its pairing, its batch and the entry it is at. */
  datatype Flight = Flight(key: string, batch: seq<Entry>, at: nat, phase: Phase)

  /**
   * What happened: the `accepted` reports with their times, the `acked` entries,
   * what was lost to overflow and to failed wraps, and for each flush its start
   * and the publishes it attempted.
   */
  datatype Log = Log(
    accepted: seq<Entry>, times: seq<int>, acked: seq<Entry>, overflowed: multiset<Entry>, unwrapped: multiset<Entry>,
    starts: seq<int>, attempts: seq<nat>)

  /** `pairing` is "" when nothing is paired. */
  datatype Rail = Rail(
    pairing: string, queue: seq<Entry>, timer: Option<int>, flight: Option<Flight>, lastBlocked: map<BlockKey, int>,
    clock: int,
    log: Log)

  const NO_LOG: Log := Log([], [], [], multiset{}, multiset{}, [], [])

  datatype Event =
    | Reports(entry: Entry, now: int)
    | TimerFires(now: int)
    | WrapSettles(ok: bool, now: int)
    | PublishSettles(ok: bool, now: int)
    | Rekeys(pairing: string, now: int)

  /** Time does not run backwards and a timer fires no sooner than it is due. */
  predicate Timely(r: Rail, ev: Event) {
    ev.now >= r.clock && (ev.TimerFires? ==> r.timer.Some? && ev.now >= r.timer.value)
  }

  function Schedule(r: Rail, ms: int): Rail {
    if r.timer.Some? || r.pairing == "" then r else r.(timer := Some(r.clock + ms))
  }

  /** The `finally` of a flush. */
  function Finish(r: Rail, failed: bool): Rail {
    var done := r.(flight := None);
    if done.queue == [] then done else Schedule(done, if failed then RETRY_MS else FLUSH_MS)
  }

  /** The top of the batch loop. */
  function Next(r: Rail, f: Flight): Rail {
    if f.at >= |f.batch| || r.pairing != f.key then Finish(r, false) else r.(flight := Some(f.(phase := Wrapping)))
  }

  function StartFlush(r: Rail): Rail {
    if r.flight.Some? || r.pairing == "" || r.queue == [] then r
    else
      var n := if |r.queue| < FLUSH_BATCH then |r.queue| else FLUSH_BATCH;
      Next(r.(queue := r.queue[n..], log := Begun(r.log, r.clock)), Flight(r.pairing, r.queue[..n], 0, Wrapping))
  }

  function Begun(log: Log, now: int): Log { log.(starts := log.starts + [now], attempts := log.attempts + [0]) }

  /** One more publish by the newest flush. */
  function Attempted(log: Log): Log {
    var n := |log.attempts|;
    if n == 0 then log else log.(attempts := log.attempts[n - 1 := log.attempts[n - 1] + 1])
  }

  function Unwrappable(log: Log, e: Entry): Log { log.(unwrapped := log.unwrapped + multiset{e}) }

  function Overflowing(log: Log, es: seq<Entry>): Log { log.(overflowed := log.overflowed + multiset(es)) }

  function Accepting(log: Log, e: Entry, now: int): Log {
    log.(accepted := log.accepted + [e], times := log.times + [now])
  }

  function Report(r: Rail, e: Entry): Rail {
    if r.pairing == "" then r
    else if e.outcome.BlockedOutcome? && KeyOf(e) in r.lastBlocked
         && r.clock - r.lastBlocked[KeyOf(e)] < BLOCKED_EVERY_MS then r
    else
      var grown := r.queue + [e];
      var over := if |grown| > QUEUE_MAX then |grown| - QUEUE_MAX else 0;
      Schedule(r.(queue := grown[over..],
                  lastBlocked := if e.outcome.BlockedOutcome? then r.lastBlocked[KeyOf(e) := r.clock]
                                 else r.lastBlocked,
                  log := Overflowing(Accepting(r.log, e, r.clock), grown[..over])), FLUSH_MS)
  }

  function Wrapped(r: Rail, ok: bool): Rail {
    if r.flight.None? || !r.flight.value.phase.Wrapping? || r.flight.value.at >= |r.flight.value.batch| then r
    else
      var f := r.flight.value;
      if !ok then Next(r.(log := Unwrappable(r.log, f.batch[f.at])), f.(at := f.at + 1))
      else r.(flight := Some(f.(phase := Publishing)), log := Attempted(r.log))
  }

  function Published(r: Rail, ok: bool): Rail {
    if r.flight.None? || !r.flight.value.phase.Publishing? || r.flight.value.at >= |r.flight.value.batch| then r
    else
      var f := r.flight.value;
      if ok then Next(r.(log := r.log.(acked := r.log.acked + [f.batch[f.at]])), f.(at := f.at + 1))
      else
        var back := f.batch[f.at..] + r.queue;
        var kept := if |back| > QUEUE_MAX then QUEUE_MAX else |back|;
        Finish(r.(queue := back[..kept], log := Overflowing(r.log, back[kept..])), true)
  }

  /** A new pairing, or none: a fresh queue, no timer; a flush under way is left to notice. */
  function Rekey(r: Rail, pairing: string): Rail {
    if pairing == r.pairing then r
    else r.(pairing := pairing, queue := [], timer := None, lastBlocked := map[])
  }

  function Step(r0: Rail, ev: Event): Rail {
    var r := r0.(clock := ev.now);
    match ev
    case Reports(e, _) => Report(r, e)
    case TimerFires(_) => StartFlush(r.(timer := None))
    case WrapSettles(ok, _) => Wrapped(r, ok)
    case PublishSettles(ok, _) => Published(r, ok)
    case Rekeys(pairing, _) => Rekey(r, pairing)
  }

  function Run(r: Rail, evs: seq<Event>): Rail {
    if evs == [] then r else Step(Run(r, evs[..|evs| - 1]), evs[|evs| - 1])
  }

  ghost predicate AllTimely(r: Rail, evs: seq<Event>) {
    forall i :: 0 <= i < |evs| ==> Timely(Run(r, evs[..i]), evs[i])
  }

  predicate OnePairing(evs: seq<Event>) { forall ev <- evs :: !ev.Rekeys? }

  /** Just paired (or unpaired), at some time, nothing reported yet. */
  predicate Init(r: Rail) {
    && r.queue == [] && r.timer.None? && r.flight.None? && r.lastBlocked == map[]
    && r.log == NO_LOG
  }

  // ---- Order-preserving sub-lists ----

  predicate Subseq<T(==)>(a: seq<T>, b: seq<T>) {
    a == [] || (b != [] && (Subseq(a, b[1..]) || (a[0] == b[0] && Subseq(a[1..], b[1..]))))
  }

  lemma {:induction false} SubseqSnoc<T>(a: seq<T>, b: seq<T>, x: T)
    requires Subseq(a, b)
    ensures Subseq(a + [x], b + [x])
  {
    if b == [] {
      assert a + [x] == [x] && b + [x] == [x];
      assert Subseq<T>([], [x][1..]);
    } else {
      assert (b + [x])[1..] == b[1..] + [x];
      if Subseq(a, b[1..]) {
        SubseqSnoc(a, b[1..], x);
      } else if a != [] {
        SubseqSnoc(a[1..], b[1..], x);
        assert (a + [x])[1..] == a[1..] + [x];
      }
    }
  }

  lemma {:induction false} SubseqCut<T>(p: seq<T>, m: seq<T>, q: seq<T>, b: seq<T>)
    requires Subseq(p + m + q, b)
    ensures Subseq(p + q, b)
    decreases |b|
  {
    var a := p + m + q;
    if p + q == [] || b == [] {
    } else if Subseq(a, b[1..]) {
      SubseqCut(p, m, q, b[1..]);
    } else if p != [] {
      assert a[1..] == p[1..] + m + q && (p + q)[1..] == p[1..] + q;
      SubseqCut(p[1..], m, q, b[1..]);
    } else if m != [] {
      assert a[1..] == p + m[1..] + q;
      SubseqCut(p, m[1..], q, b[1..]);
    } else {
      assert a == p + q;
    }
  }

  /** `s` is what is left of `accepted`, in order, once `lost` is gone. */
  ghost predicate Left(s: seq<Entry>, accepted: seq<Entry>, lost: multiset<Entry>) {
    Subseq(s, accepted) && multiset(accepted) == multiset(s) + lost
  }

  lemma LeftSnoc(s: seq<Entry>, accepted: seq<Entry>, lost: multiset<Entry>, e: Entry)
    requires Left(s, accepted, lost)
    ensures Left(s + [e], accepted + [e], lost)
  {
    SubseqSnoc(s, accepted, e);
  }

  lemma LeftCut(p: seq<Entry>, m: seq<Entry>, q: seq<Entry>, accepted: seq<Entry>, lost: multiset<Entry>)
    requires Left(p + m + q, accepted, lost)
    ensures Left(p + q, accepted, lost + multiset(m))
  {
    SubseqCut(p, m, q, accepted);
  }

  // ---- Conservation and order ----

  /** What the flush in progress has still to publish. */
  function Remainder(r: Rail): seq<Entry> {
    if r.flight.Some? && r.flight.value.at <= |r.flight.value.batch| then r.flight.value.batch[r.flight.value.at..]
    else []
  }

  /** Everything accepted and not lost, in the order it was accepted. */
  function Surviving(r: Rail): seq<Entry> { r.log.acked + Remainder(r) + r.queue }

  ghost predicate FlightOk(r: Rail) {
    r.flight.Some? ==>
      && r.flight.value.at < |r.flight.value.batch| <= FLUSH_BATCH && r.log.attempts != []
      && r.log.attempts[|r.log.attempts| - 1] <= r.flight.value.at + if r.flight.value.phase.Publishing? then 1 else 0
  }

  function Lost(r: Rail): multiset<Entry> { r.log.overflowed + r.log.unwrapped }

  ghost predicate ConservesOk(r: Rail) {
    && |r.queue| <= QUEUE_MAX && FlightOk(r)
    && Left(Surviving(r), r.log.accepted, Lost(r))
    && (r.queue != [] && r.pairing != "" ==> r.timer.Some? || r.flight.Some?)
    && (r.flight.Some? ==> r.flight.value.key == r.pairing)
  }

  lemma Splits<T>(head: seq<T>, queue: seq<T>, e: T, n: nat)
    requires n <= |queue| + 1
    ensures var grown := queue + [e]; (head + queue) + [e] == head + grown[..n] + grown[n..]
  {
  }

  lemma Advances<T>(acked: seq<T>, batch: seq<T>, at: nat, queue: seq<T>)
    requires at < |batch|
    ensures var rest := batch[at + 1..];
      && acked + batch[at..] + queue == acked + [batch[at]] + (rest + queue)
      && acked + batch[at..] + queue == (acked + [batch[at]]) + rest + queue
      && acked + (rest + queue) == acked + rest + queue
  {
  }

  /** What a report changes: it may push the oldest entries out at the head of the queue. */
  lemma ReportShape(r: Rail, e: Entry)
    requires |r.queue| <= QUEUE_MAX
    ensures var r', grown := Report(r, e), r.queue + [e];
      var over := if |grown| > QUEUE_MAX then |grown| - QUEUE_MAX else 0;
      || r' == r
      || (r'.queue == grown[over..] && r'.log == Overflowing(Accepting(r.log, e, r.clock), grown[..over])
          && r'.flight == r.flight && r'.pairing == r.pairing && r'.timer.Some?)
  {
  }

  lemma ReportConserves(r: Rail, e: Entry)
    requires ConservesOk(r)
    ensures ConservesOk(Report(r, e))
  {
    hide Left, Report;
    var r' := Report(r, e);
    ReportShape(r, e);
    if r' != r {
      var head, grown := r.log.acked + Remainder(r), r.queue + [e];
      var over := if |grown| > QUEUE_MAX then |grown| - QUEUE_MAX else 0;
      LeftSnoc(Surviving(r), r.log.accepted, Lost(r), e);
      Splits(head, r.queue, e, over);
      LeftCut(head, grown[..over], grown[over..], r.log.accepted + [e], Lost(r));
      assert Lost(r') == Lost(r) + multiset(grown[..over]);
    }
  }

  /** Leaving an entry behind in a batch: published, or unwrappable. */
  lemma NextConserves(r: Rail, f: Flight)
    requires |r.queue| <= QUEUE_MAX && f.at <= |f.batch| <= FLUSH_BATCH && f.key == r.pairing
    requires r.log.attempts != [] && r.log.attempts[|r.log.attempts| - 1] <= f.at
    requires Left(r.log.acked + f.batch[f.at..] + r.queue, r.log.accepted, Lost(r))
    ensures ConservesOk(Next(r, f))
  {
    hide Left;
    if f.at == |f.batch| { assert f.batch[f.at..] == []; }
  }

  lemma StartConserves(r: Rail)
    requires ConservesOk(r.(timer := Some(0))) && r.timer.None?
    ensures ConservesOk(StartFlush(r))
  {
    hide Left, Next;
    if r.flight.None? && r.pairing != "" && r.queue != [] {
      var n := if |r.queue| < FLUSH_BATCH then |r.queue| else FLUSH_BATCH;
      assert Surviving(r) == r.log.acked + r.queue[..n][0..] + r.queue[n..];
      NextConserves(r.(queue := r.queue[n..], log := Begun(r.log, r.clock)),
                    Flight(r.pairing, r.queue[..n], 0, Wrapping));
    }
  }

  lemma WrappedConserves(r: Rail, ok: bool)
    requires ConservesOk(r)
    ensures ConservesOk(Wrapped(r, ok))
  {
    hide Left, Next;
    if r.flight.Some? && r.flight.value.phase.Wrapping? && !ok {
      var f := r.flight.value;
      var rest, r1 := f.batch[f.at + 1..], r.(log := Unwrappable(r.log, f.batch[f.at]));
      Advances(r.log.acked, f.batch, f.at, r.queue);
      LeftCut(r.log.acked, [f.batch[f.at]], rest + r.queue, r.log.accepted, Lost(r));
      assert Lost(r1) == Lost(r) + multiset([f.batch[f.at]]);
      NextConserves(r1, f.(at := f.at + 1));
    }
  }

  lemma PublishedConserves(r: Rail, ok: bool)
    requires ConservesOk(r)
    ensures ConservesOk(Published(r, ok))
  {
    hide Left, Next;
    if r.flight.Some? && r.flight.value.phase.Publishing? {
      var f := r.flight.value;
      if ok {
        Advances(r.log.acked, f.batch, f.at, r.queue);
        NextConserves(r.(log := r.log.(acked := r.log.acked + [f.batch[f.at]])), f.(at := f.at + 1));
      } else {
        RequeueConserves(r);
      }
    }
  }

  lemma RequeueConserves(r: Rail)
    requires ConservesOk(r) && r.flight.Some? && r.flight.value.phase.Publishing?
    ensures ConservesOk(Published(r, false))
  {
    hide Left;
    var r', back := Published(r, false), r.flight.value.batch[r.flight.value.at..] + r.queue;
    var kept := if |back| > QUEUE_MAX then QUEUE_MAX else |back|;
    assert Surviving(r) == (r.log.acked + back[..kept]) + back[kept..] + [];
    LeftCut(r.log.acked + back[..kept], back[kept..], [], r.log.accepted, Lost(r));
    assert Surviving(r') == r.log.acked + back[..kept] + [];
    assert Lost(r') == Lost(r) + multiset(back[kept..]);
  }

  lemma StepConserves(r: Rail, ev: Event)
    requires ConservesOk(r) && !ev.Rekeys? && Timely(r, ev)
    ensures ConservesOk(Step(r, ev))
  {
    hide Left, Report, StartFlush, Wrapped, Published;
    var r1 := r.(clock := ev.now);
    match ev {
      case Reports(e, _) => ReportConserves(r1, e);
      case TimerFires(_) => StartConserves(r1.(timer := None));
      case WrapSettles(ok, _) => WrappedConserves(r1, ok);
      case PublishSettles(ok, _) => PublishedConserves(r1, ok);
    }
  }

  lemma {:induction false} RunConserves(r: Rail, evs: seq<Event>)
    requires Init(r) && OnePairing(evs) && AllTimely(r, evs)
    ensures ConservesOk(Run(r, evs))
  {
    if evs != [] {
      var init := evs[..|evs| - 1];
      Earlier(r, evs);
      RunConserves(r, init);
      hide ConservesOk, Step;
      assert evs[|evs| - 1] in evs;
      StepConserves(Run(r, init), evs[|evs| - 1]);
    }
  }

  lemma {:induction false} Earlier(r: Rail, evs: seq<Event>)
    requires evs != [] && AllTimely(r, evs)
    ensures AllTimely(r, evs[..|evs| - 1]) && Timely(Run(r, evs[..|evs| - 1]), evs[|evs| - 1])
  {
    var init := evs[..|evs| - 1];
    forall i | 0 <= i < |init| ensures Timely(Run(r, init[..i]), init[i]) {
      assert init[..i] == evs[..i];
      assert Timely(Run(r, evs[..i]), evs[i]);
    }
    assert Timely(Run(r, evs[..|evs| - 1]), evs[|evs| - 1]);
  }

  /**
   * Order, conservation and no stall, for every run of one pairing: what was
   * acknowledged, what the flush still holds and what is queued are together a
   * sub-list of the accepted reports; every other accepted report was lost to
   * overflow or could not be wrapped; the queue never exceeds 200; and while it
   * is not empty a timer is armed or a flush is running.
   */
  lemma {:induction false} NothingIsReorderedOrStalls(r: Rail, evs: seq<Event>)
    requires Init(r) && OnePairing(evs) && AllTimely(r, evs)
    ensures var s := Run(r, evs);
      && Subseq(s.log.acked + Remainder(s) + s.queue, s.log.accepted)
      && multiset(s.log.accepted)
         == multiset(s.log.acked) + multiset(Remainder(s)) + multiset(s.queue) + s.log.overflowed + s.log.unwrapped
      && |s.queue| <= QUEUE_MAX
      && (s.queue != [] && s.pairing != "" ==> s.timer.Some? || s.flight.Some?)
  {
    RunConserves(r, evs);
    hide Run, Subseq;
    var s := Run(r, evs);
    assert multiset(Surviving(s)) == multiset(s.log.acked) + multiset(Remainder(s)) + multiset(s.queue);
  }

  /** A report overflows only a full queue, and then pushes out exactly the oldest one queued. */
  lemma ReportOverflowsOldest(r: Rail, e: Entry)
    requires |r.queue| <= QUEUE_MAX
    ensures var r' := Report(r, e);
      if |r.queue| < QUEUE_MAX then r'.log.overflowed == r.log.overflowed
      else r'.log.accepted != r.log.accepted ==>
        r'.log.overflowed == r.log.overflowed + multiset{r.queue[0]} && r'.queue == r.queue[1..] + [e]
  {
    var grown := r.queue + [e];
    if |r.queue| < QUEUE_MAX { assert grown[..0] == []; }
    else { assert grown[..1] == [r.queue[0]] && grown[1..] == r.queue[1..] + [e]; }
  }

  /**
   * A batch put back keeps its own entries in front. Past 200 it drops exactly
   * the newest queued entries, as many as do not fit; otherwise it drops none.
   */
  lemma RequeueOverflowsNewest(r: Rail)
    requires ConservesOk(r) && r.flight.Some? && r.flight.value.phase.Publishing?
    ensures var r' := Published(r, false); var rest := r.flight.value.batch[r.flight.value.at..];
      if |rest| + |r.queue| > QUEUE_MAX then
        && r'.queue == rest + r.queue[..QUEUE_MAX - |rest|]
        && r'.log.overflowed == r.log.overflowed + multiset(r.queue[QUEUE_MAX - |rest|..])
      else r'.queue == rest + r.queue && r'.log.overflowed == r.log.overflowed
  {
    hide Left;
    var rest := r.flight.value.batch[r.flight.value.at..];
    var back := rest + r.queue;
    if |back| > QUEUE_MAX {
      assert back[..QUEUE_MAX] == rest + r.queue[..QUEUE_MAX - |rest|];
      assert back[QUEUE_MAX..] == r.queue[QUEUE_MAX - |rest|..];
    } else {
      assert back[..|back|] == back && back[|back|..] == [];
    }
  }

  // ---- A run in which the newest entry is lost ----

  function Item(i: nat): Entry { Entry("app", "persona", i, Allowed, 0) }

  function Items(from: nat, to: nat): seq<Entry>
    requires from <= to
  {
    seq(to - from, i requires 0 <= i < to - from => Item(from + i))
  }

  function Paired(): Rail { Rail("k", [], None, None, map[], 0, NO_LOG) }

  /** One report is being published, and `n` more came in since. */
  function Backlogged(n: nat): Rail {
    Rail("k", Items(1, n + 1), if n == 0 then None else Some(10_000),
         Some(Flight("k", [Item(0)], 0, Wrapping)), map[], 5_000,
         Log(Items(0, n + 1), [0] + seq(n, i => 5_000), [], multiset{}, multiset{}, [5_000], [0]))
  }

  lemma Further(r: Rail, evs: seq<Event>, ev: Event)
    requires AllTimely(r, evs) && Timely(Run(r, evs), ev)
    ensures AllTimely(r, evs + [ev]) && Run(r, evs + [ev]) == Step(Run(r, evs), ev)
  {
    var all := evs + [ev];
    assert all[..|evs|] == evs;
    forall i | 0 <= i < |all| ensures Timely(Run(r, all[..i]), all[i]) {
      if i < |evs| { assert all[..i] == evs[..i]; }
    }
  }

  /** The first report is queued, with the timer armed. */
  function Queued(): Rail {
    Rail("k", [Item(0)], Some(5_000), None, map[], 0, NO_LOG.(accepted := [Item(0)], times := [0]))
  }

  lemma ReportIsQueued()
    ensures Step(Paired(), Reports(Item(0), 0)) == Queued()
  {
    assert [] + [Item(0)] == [Item(0)] && [Item(0)][0..] == [Item(0)] && [Item(0)][..0] == [] && [] + [0] == [0];
    assert Overflowing(Accepting(NO_LOG, Item(0), 0), []) == NO_LOG.(accepted := [Item(0)], times := [0]);
  }

  lemma TimerTakesIt()
    ensures Step(Queued(), TimerFires(5_000)) == Backlogged(0)
  {
    assert [Item(0)][..1] == [Item(0)] && [Item(0)][1..] == [] && [] + [5_000] == [5_000];
    assert Items(0, 1) == [Item(0)] && Items(1, 1) == [] && [0] + seq(0, i => 5_000) == [0];
    assert Begun(Queued().log, 5_000) == Backlogged(0).log;
  }

  lemma FirstReport() returns (evs: seq<Event>)
    ensures AllTimely(Paired(), evs) && OnePairing(evs) && Run(Paired(), evs) == Backlogged(0)
  {
    hide Step, Run, AllTimely;
    ReportIsQueued();
    TimerTakesIt();
    Starts(Paired());
    Further(Paired(), [], Reports(Item(0), 0));
    Further(Paired(), [] + [Reports(Item(0), 0)], TimerFires(5_000));
    evs := [] + [Reports(Item(0), 0)] + [TimerFires(5_000)];
  }

  lemma Starts(r: Rail)
    ensures AllTimely(r, []) && Run(r, []) == r
  {
  }

  lemma NextReport(n: nat)
    requires n < QUEUE_MAX
    ensures Step(Backlogged(n), Reports(Item(n + 1), 5_000)) == Backlogged(n + 1)
  {
    assert Items(1, n + 1) + [Item(n + 1)] == Items(1, n + 2) && Items(0, n + 1) + [Item(n + 1)] == Items(0, n + 2);
    assert Items(1, n + 2)[0..] == Items(1, n + 2) && Items(1, n + 2)[..0] == [];
    assert [0] + seq(n, i => 5_000) + [5_000] == [0] + seq(n + 1, i => 5_000);
  }

  lemma {:induction false} Backlog(n: nat) returns (evs: seq<Event>)
    requires n <= QUEUE_MAX
    ensures AllTimely(Paired(), evs) && OnePairing(evs) && Run(Paired(), evs) == Backlogged(n)
  {
    hide Step, Run, AllTimely;
    if n == 0 {
      evs := FirstReport();
    } else {
      evs := Backlog(n - 1);
      NextReport(n - 1);
      Further(Paired(), evs, Reports(Item(n), 5_000));
      evs := evs + [Reports(Item(n), 5_000)];
    }
  }

  /** What the failed publish leaves: the old entry first, and the last of the two hundred gone. */
  lemma TheNewestGoes()
    ensures var s := Step(Step(Backlogged(QUEUE_MAX), WrapSettles(true, 5_000)), PublishSettles(false, 5_000));
      && s.log.overflowed == multiset{Item(QUEUE_MAX)} && s.queue == Items(0, QUEUE_MAX)
      && s.log.accepted == Items(0, QUEUE_MAX + 1)
  {
    var q := Items(1, QUEUE_MAX + 1);
    var back := [Item(0)] + q;
    assert [Item(0)][0..] == [Item(0)];
    assert back[..QUEUE_MAX] == Items(0, QUEUE_MAX);
    assert back[QUEUE_MAX..] == [Item(QUEUE_MAX)];
  }

  /**
   * The newest report can be the one lost: with one report being published and
   * two hundred queued behind it, a failed publish drops the last accepted.
   */
  lemma ABatchPutBackCanDropTheNewest() returns (evs: seq<Event>)
    ensures Init(Paired()) && OnePairing(evs) && AllTimely(Paired(), evs)
    ensures var s := Run(Paired(), evs);
      && s.log.overflowed == multiset{Item(QUEUE_MAX)} && s.queue == Items(0, QUEUE_MAX)
      && s.log.accepted == Items(0, QUEUE_MAX) + [Item(QUEUE_MAX)]
  {
    hide Step, Run, AllTimely;
    evs := Backlog(QUEUE_MAX);
    WrapKeepsTime();
    TheNewestGoes();
    Further(Paired(), evs, WrapSettles(true, 5_000));
    evs := evs + [WrapSettles(true, 5_000)];
    Further(Paired(), evs, PublishSettles(false, 5_000));
    evs := evs + [PublishSettles(false, 5_000)];
    assert Items(0, QUEUE_MAX + 1) == Items(0, QUEUE_MAX) + [Item(QUEUE_MAX)];
  }

  lemma WrapKeepsTime()
    ensures Step(Backlogged(QUEUE_MAX), WrapSettles(true, 5_000)).clock == 5_000
  {
  }
}
