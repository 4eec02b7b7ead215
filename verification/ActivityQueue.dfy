/**
 * The activity publisher's refs as one object, its queue changed in place. Every
 * method makes its step of the machine in Activity.dfy and keeps the invariants
 * of its runs.
 */
module ActivityQueue {
  import opened Wrappers
  import opened Activity
  import opened ActivityRate

  class Publisher {
    var key: string
    var queue: seq<Entry>
    var timer: Option<int>
    var flushing: Option<Flight>
    var lastBlocked: map<BlockKey, int>
    var clock: int
    ghost var log: Log
    /** No pairing has replaced the first one. */
    ghost var steady: bool

    ghost function State(): Rail
      reads this
    {
      Rail(key, queue, timer, flushing, lastBlocked, clock, log)
    }

    /** The pace holds across pairings; order, conservation and the spacing of blocked reports within one. */
    ghost predicate Valid()
      reads this
    {
      PaceOk(State()) && (steady ==> ConservesOk(State()) && forall k :: Apart(log.accepted, log.times, lastBlocked, k))
    }

    constructor (pairing: string, now: int)
      ensures Valid() && steady && Init(State()) && State().pairing == pairing && State().clock == now
    {
      hide PaceOk, ConservesOk, Apart;
      key, queue, timer, flushing, lastBlocked, clock := pairing, [], None, None, map[], now;
      log, steady := NO_LOG, true;
      new;
      InitKeeps(State());
    }

    method Schedule(ms: int)
      modifies `timer
      ensures State() == Activity.Schedule(old(State()), ms)
    {
      if timer.Some? || key == "" { return; }
      timer := Some(clock + ms);
    }

    /** An accepted report is the newest queued and a timer will flush it; at most 200 are queued. */
    method Report(e: Entry, now: int)
      requires Valid() && Timely(State(), Reports(e, now))
      modifies this
      ensures Valid() && steady == old(steady) && State() == Step(old(State()), Reports(e, now))
      ensures log.accepted != old(log.accepted) ==>
                queue != [] && queue[|queue| - 1] == e && |queue| <= QUEUE_MAX && timer.Some?
    {
      hide PaceOk, ConservesOk, Apart, Overflowing, Accepting;
      KeepsInvariants(State(), steady, Reports(e, now));
      LogOf(log, e, now);
      clock := now;
      if key == "" { return; }
      if e.outcome.BlockedOutcome? {
        var k := KeyOf(e);
        if k in lastBlocked && now - lastBlocked[k] < BLOCKED_EVERY_MS { return; }
        lastBlocked := lastBlocked[k := now];
      }
      queue := queue + [e];
      var over := if |queue| > QUEUE_MAX then |queue| - QUEUE_MAX else 0;
      log := Overflowing(Accepting(log, e, now), queue[..over]);
      if over > 0 { queue := queue[over..]; }
      Schedule(FLUSH_MS);
    }

    /** The timer went off: a batch is being flushed, or there is nothing to flush. */
    method OnTimer(now: int)
      requires Valid() && Timely(State(), TimerFires(now))
      modifies this
      ensures Valid() && steady == old(steady) && State() == Step(old(State()), TimerFires(now))
      ensures key != "" && queue != [] ==> flushing.Some?
    {
      hide PaceOk, ConservesOk, Apart;
      KeepsInvariants(State(), steady, TimerFires(now));
      clock := now;
      timer := None;
      if flushing.Some? || key == "" || queue == [] { return; }
      var n := if |queue| < FLUSH_BATCH then |queue| else FLUSH_BATCH;
      var batch := queue[..n];
      queue := queue[n..];
      log := Begun(log, now);
      Continue(Flight(key, batch, 0, Wrapping));
    }

    /** The top of the batch loop: the next entry, or out. */
    method Continue(f: Flight)
      modifies `flushing, `timer
      ensures State() == Next(old(State()), f)
    {
      if f.at >= |f.batch| || key != f.key {
        EndFlush(false);
      } else {
        flushing := Some(f.(phase := Wrapping));
      }
    }

    method EndFlush(failed: bool)
      modifies `flushing, `timer
      ensures State() == Finish(old(State()), failed)
    {
      flushing := None;
      if |queue| > 0 { Schedule(if failed then RETRY_MS else FLUSH_MS); }
    }

    /** A wrapped entry goes on to be published; an unwrappable one is given up, and the flush goes on. */
    method OnWrapped(ok: bool, now: int)
      requires Valid() && Timely(State(), WrapSettles(ok, now)) && flushing.Some? && flushing.value.phase.Wrapping?
      modifies this
      ensures Valid() && steady == old(steady) && State() == Step(old(State()), WrapSettles(ok, now))
      ensures ok ==> flushing == Some(old(flushing.value).(phase := Publishing))
      ensures queue == old(queue) && log.acked == old(log.acked)
    {
      hide PaceOk, ConservesOk, Apart, Attempted, Unwrappable;
      FlightInBounds(State());
      KeepsInvariants(State(), steady, WrapSettles(ok, now));
      LogKeeps(log, flushing.value.batch[flushing.value.at]);
      clock := now;
      var f := flushing.value;
      if !ok {
        log := Unwrappable(log, f.batch[f.at]);
        Continue(f.(at := f.at + 1));
        return;
      }
      flushing := Some(f.(phase := Publishing));
      log := Attempted(log);
    }

    /** A refused entry and the rest of its batch go back to the head of the queue, and the flush ends. */
    method OnPublished(ok: bool, now: int)
      requires Valid() && Timely(State(), PublishSettles(ok, now)) && flushing.Some? && flushing.value.phase.Publishing?
      modifies this
      ensures Valid() && steady == old(steady) && State() == Step(old(State()), PublishSettles(ok, now))
      ensures var f := old(flushing.value);
        if ok then queue == old(queue) && log.acked == old(log.acked) + [f.batch[f.at]]
        else flushing.None? && log.acked == old(log.acked) && queue != [] && queue[0] == f.batch[f.at]
    {
      hide PaceOk, ConservesOk, Apart, Attempted, Unwrappable;
      FlightInBounds(State());
      KeepsInvariants(State(), steady, PublishSettles(ok, now));
      LogKeeps(log, flushing.value.batch[flushing.value.at]);
      clock := now;
      var f := flushing.value;
      if ok {
        log := log.(acked := log.acked + [f.batch[f.at]]);
        Continue(f.(at := f.at + 1));
        return;
      }
      queue := f.batch[f.at..] + queue;
      var kept := if |queue| > QUEUE_MAX then QUEUE_MAX else |queue|;
      log := Overflowing(log, queue[kept..]);
      queue := queue[..kept];
      EndFlush(true);
    }

    /** A new pairing starts with nothing queued and no timer, and the pace goes on. */
    method OnRekey(pairing: string, now: int)
      requires Valid() && Timely(State(), Rekeys(pairing, now))
      modifies this
      ensures Valid() && State() == Step(old(State()), Rekeys(pairing, now))
      ensures if pairing == old(key) then queue == old(queue) else queue == [] && timer.None? && lastBlocked == map[]
      ensures log == old(log)
    {
      hide PaceOk, ConservesOk, Apart;
      StepPaces(State(), Rekeys(pairing, now));
      steady := false;
      clock := now;
      if pairing == key { return; }
      key, queue, timer, lastBlocked := pairing, [], None, map[];
    }
  }

  /** What every step but a new pairing keeps. */
  lemma KeepsInvariants(r: Rail, steady: bool, ev: Event)
    requires PaceOk(r) && Timely(r, ev) && !ev.Rekeys?
    requires steady ==> ConservesOk(r) && forall k :: Apart(r.log.accepted, r.log.times, r.lastBlocked, k)
    ensures var r' := Step(r, ev);
      PaceOk(r') && (steady ==> ConservesOk(r') && forall k :: Apart(r'.log.accepted, r'.log.times, r'.lastBlocked, k))
  {
    hide PaceOk, ConservesOk, Apart, Step;
    StepPaces(r, ev);
    if steady {
      StepConserves(r, ev);
      forall k ensures var r' := Step(r, ev); Apart(r'.log.accepted, r'.log.times, r'.lastBlocked, k) {
        StepSpaces(r, ev, k);
      }
    }
  }

  lemma InitKeeps(r: Rail)
    requires Init(r)
    ensures PaceOk(r) && ConservesOk(r) && forall k :: Apart(r.log.accepted, r.log.times, r.lastBlocked, k)
  {
  }

  lemma FlightInBounds(r: Rail)
    requires PaceOk(r) && r.flight.Some?
    ensures r.flight.value.at < |r.flight.value.batch|
  {
  }

  lemma LogKeeps(log: Log, e: Entry)
    ensures Unwrappable(log, e).acked == log.acked && Attempted(log).acked == log.acked
  {
  }

  lemma LogOf(log: Log, e: Entry, now: int)
    ensures forall es :: Overflowing(Accepting(log, e, now), es).accepted == log.accepted + [e]
  {
  }
}
