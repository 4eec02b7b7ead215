/**
 * The approval queue at await granularity (`resolveApproval`): handles, the
 * active-request map, the serving generation and the replies that reach the
 * outbox, under any interleaving of requests, taps and teardowns.
 */
module BunkerApprovals {
  import opened Wrappers

  /** The call a tapped approval waits for. */
  datatype Phase = StoringDeny | Checking | Confirming | Signing | Building(reply: Reply, replyGeneration: nat)

  datatype Reply = Signature | UserDenied | SigningFailed | NotAllowed

  datatype Task = Task(phase: Phase, generation: nat)

  /** A reply as it entered the outbox: the generation of its tap and the generation then. */
  datatype Put = Put(handle: nat, reply: Reply, tapped: nat, generation: nat)

  /** `waiting` are the handles in the active-request map; `signs` the signer calls, by handle. */
  datatype Queue = Queue(
    counter: nat, waiting: set<nat>, tasks: map<nat, Task>, generation: nat, signs: seq<nat>, puts: seq<Put>)

  datatype Event =
    | Arrives
    | Taps(handle: nat, deny: bool)
    | DenyStored(handle: nat)
    | ClientRead(handle: nat, read: Try<bool>, ceremony: bool)
    | Confirms(handle: nat, ok: bool)
    | SignerAnswers(handle: nat, ok: bool)
    | ReplyBuilt(handle: nat, ok: bool, room: bool)
    | Teardown(reconnectOnly: bool)

  const EMPTY: Queue := Queue(0, {}, map[], 0, [], [])

  function To(q: Queue, h: nat, phase: Phase): Queue
    requires h in q.tasks
  {
    q.(tasks := q.tasks[h := q.tasks[h].(phase := phase)])
  }

  function Done(q: Queue, h: nat): Queue { q.(tasks := q.tasks - {h}) }

  /** A reply the code sends only while the generation of the tap lasts. */
  function Answer(q: Queue, h: nat, reply: Reply): Queue
    requires h in q.tasks
  {
    if q.tasks[h].generation != q.generation then Done(q, h) else To(q, h, Building(reply, q.generation))
  }

  function Sign(q: Queue, h: nat): Queue
    requires h in q.tasks
  {
    To(q, h, Signing).(signs := q.signs + [h])
  }

  function Step(q: Queue, ev: Event): Queue {
    match ev
    case Arrives => q.(counter := q.counter + 1, waiting := q.waiting + {q.counter + 1})
    case Taps(h, deny) =>
      if h !in q.waiting then q
      else q.(waiting := q.waiting - {h},
              tasks := q.tasks[h := Task(if deny then StoringDeny else Checking, q.generation)])
    case DenyStored(h) => if h in q.tasks && q.tasks[h].phase.StoringDeny? then Answer(q, h, UserDenied) else q
    case ClientRead(h, read, ceremony) =>
      if h !in q.tasks || !q.tasks[h].phase.Checking? then q
      else if read.Threw? then Done(q, h)
      else if !read.value then To(q, h, Building(NotAllowed, q.generation))
      else if ceremony then To(q, h, Confirming)
      else Sign(q, h)
    case Confirms(h, ok) =>
      if h !in q.tasks || !q.tasks[h].phase.Confirming? then q
      else if ok then Sign(q, h) else Answer(q, h, SigningFailed)
    case SignerAnswers(h, ok) =>
      if h !in q.tasks || !q.tasks[h].phase.Signing? then q
      else Answer(q, h, if ok then Signature else SigningFailed)
    case ReplyBuilt(h, ok, room) =>
      if h !in q.tasks || !q.tasks[h].phase.Building? then q
      else
        var b := q.tasks[h].phase;
        if !ok || b.replyGeneration != q.generation || !room then Done(q, h)
        else Done(q, h).(puts := q.puts + [Put(h, b.reply, q.tasks[h].generation, q.generation)])
    case Teardown(reconnectOnly) =>
      if reconnectOnly then q else q.(generation := q.generation + 1, waiting := {})
  }

  function Run(q: Queue, evs: seq<Event>): Queue
    decreases |evs|
  {
    if evs == [] then q else Run(Step(q, evs[0]), evs[1..])
  }

  // ---- The invariant ----

  predicate TaskOk(q: Queue, h: nat)
    requires h in q.tasks
  {
    var t := q.tasks[h];
    && h <= q.counter && h !in q.waiting && t.generation <= q.generation
    && (t.phase.StoringDeny? || t.phase.Checking? || t.phase.Confirming? ==> h !in q.signs)
    && (t.phase.Signing? ==> h in q.signs)
    && (t.phase.Building? && t.phase.reply != NotAllowed ==> t.phase.replyGeneration == t.generation)
    && (t.phase.Building? ==> t.phase.replyGeneration <= q.generation)
    && (t.phase.Building? && t.phase.reply == Signature ==> h in q.signs)
  }

  predicate QueueOk(q: Queue) {
    && (forall h <- q.waiting :: h <= q.counter && h !in q.signs)
    && (forall h <- q.tasks :: TaskOk(q, h))
    && (forall h <- q.signs :: h <= q.counter)
    && (forall i, j :: 0 <= i < j < |q.signs| ==> q.signs[i] != q.signs[j])
    && (forall p <- q.puts :: p.handle <= q.counter && (p.reply == Signature ==> p.handle in q.signs)
                              && (p.reply != NotAllowed ==> p.tapped == p.generation))
  }

  lemma ReplyKeeps(q: Queue, h: nat, reply: Reply)
    requires QueueOk(q) && h in q.tasks && (reply == Signature ==> q.tasks[h].phase.Signing? && h in q.signs)
    requires reply != NotAllowed
    ensures QueueOk(Answer(q, h, reply))
  {
  }

  lemma SignKeeps(q: Queue, h: nat)
    requires QueueOk(q) && h in q.tasks && (q.tasks[h].phase.Checking? || q.tasks[h].phase.Confirming?)
    ensures QueueOk(Sign(q, h))
  {
  }

  lemma StepKeeps(q: Queue, ev: Event)
    requires QueueOk(q)
    ensures QueueOk(Step(q, ev))
  {
    hide Answer, Sign;
    var q' := Step(q, ev);
    if ev.DenyStored? && ev.handle in q.tasks && q.tasks[ev.handle].phase.StoringDeny? {
      ReplyKeeps(q, ev.handle, UserDenied);
    } else if ev.ClientRead? && ev.handle in q.tasks && q.tasks[ev.handle].phase.Checking?
              && ev.read == Got(true) && !ev.ceremony {
      SignKeeps(q, ev.handle);
    } else if ev.Confirms? && ev.handle in q.tasks && q.tasks[ev.handle].phase.Confirming? {
      if ev.ok { SignKeeps(q, ev.handle); } else { ReplyKeeps(q, ev.handle, SigningFailed); }
    } else if ev.SignerAnswers? && ev.handle in q.tasks && q.tasks[ev.handle].phase.Signing? {
      assert TaskOk(q, ev.handle);
      ReplyKeeps(q, ev.handle, if ev.ok then Signature else SigningFailed);
    } else {
      forall x | x in q'.tasks ensures TaskOk(q', x) {
        if x in q.tasks { assert TaskOk(q, x); }
      }
      if ev.ReplyBuilt? && ev.handle in q.tasks { assert TaskOk(q, ev.handle); }
    }
  }

  lemma {:induction false} RunKeeps(q: Queue, evs: seq<Event>)
    requires QueueOk(q)
    ensures QueueOk(Run(q, evs))
    decreases |evs|
  {
    hide QueueOk, Step;
    if evs != [] {
      StepKeeps(q, evs[0]);
      RunKeeps(Step(q, evs[0]), evs[1..]);
    }
  }

  // ---- What follows for every run ----

  /** The signer is called at most once for a handle, under every interleaving. */
  lemma {:induction false} SignedAtMostOnce(evs: seq<Event>, i: nat, j: nat)
    requires i < j < |Run(EMPTY, evs).signs|
    ensures Run(EMPTY, evs).signs[i] != Run(EMPTY, evs).signs[j]
  {
    RunKeeps(EMPTY, evs);
  }

  lemma NextHandleIsNew(q: Queue)
    requires QueueOk(q)
    ensures var h := q.counter + 1;
      h !in q.waiting && h !in q.tasks && h !in q.signs && forall p <- q.puts :: p.handle != h
  {
    forall x | x in q.tasks ensures x <= q.counter { assert TaskOk(q, x); }
  }

  lemma NotYetSigned(q: Queue, h: nat)
    requires QueueOk(q) && h in q.tasks && (q.tasks[h].phase.Checking? || q.tasks[h].phase.Confirming?)
    ensures h !in q.signs
  {
    assert TaskOk(q, h);
  }

  /** A new request never gets a handle that was used before, so a stale tap cannot resolve it. */
  lemma {:induction false} HandlesAreNeverReused(evs: seq<Event>)
    ensures var q := Run(EMPTY, evs); var h := q.counter + 1;
      && Step(q, Arrives).waiting == q.waiting + {h}
      && h !in q.waiting && h !in q.tasks && h !in q.signs && forall p <- q.puts :: p.handle != h
  {
    RunKeeps(EMPTY, evs);
    NextHandleIsNew(Run(EMPTY, evs));
  }

  /** A signature enters the outbox only under the generation of its tap, and only when the signer was called for it. */
  lemma {:induction false} SignaturesKeepTheirGeneration(evs: seq<Event>, p: Put)
    requires p in Run(EMPTY, evs).puts
    ensures p.reply == Signature ==> p.handle in Run(EMPTY, evs).signs
    ensures p.reply != NotAllowed ==> p.tapped == p.generation
  {
    RunKeeps(EMPTY, evs);
  }

  /** A handle issued before the last teardown: it waits no more, and its task is of an older generation. */
  predicate CutOff(q: Queue, h: nat) {
    h <= q.counter && h !in q.waiting && (h in q.tasks ==> q.tasks[h].generation < q.generation)
  }

  lemma CutOffStep(q: Queue, ev: Event, h: nat)
    requires QueueOk(q) && CutOff(q, h)
    ensures CutOff(Step(q, ev), h)
    ensures var q' := Step(q, ev);
      q.puts <= q'.puts && |q'.puts| <= |q.puts| + 1
      && (|q'.puts| > |q.puts| && q'.puts[|q.puts|].handle == h ==> q'.puts[|q.puts|].reply == NotAllowed)
  {
  }

  lemma {:induction false} CutOffRun(q: Queue, evs: seq<Event>, h: nat)
    requires QueueOk(q) && CutOff(q, h)
    ensures var q' := Run(q, evs);
      && q.puts <= q'.puts
      && (forall i :: |q.puts| <= i < |q'.puts| && q'.puts[i].handle == h ==> q'.puts[i].reply == NotAllowed)
    decreases |evs|
  {
    hide QueueOk, Step, CutOff;
    if evs != [] {
      var q1 := Step(q, evs[0]);
      StepKeeps(q, evs[0]);
      CutOffStep(q, evs[0], h);
      CutOffRun(q1, evs[1..], h);
    }
  }

  lemma TeardownCuts(q: Queue)
    requires QueueOk(q)
    ensures forall h: nat :: h <= q.counter ==> CutOff(Step(q, Teardown(false)), h)
  {
    forall h | h in q.tasks ensures q.tasks[h].generation <= q.generation { assert TaskOk(q, h); }
  }

  /**
   * No approved signature crosses a teardown: for every handle issued before a
   * teardown that was not a mere reconnect, nothing the guardian taps and
   * nothing already under way puts a signature, a denial or a signing failure
   * into the outbox afterwards.
   */
  lemma {:induction false} TeardownCutsOff(before: seq<Event>, after: seq<Event>, h: nat)
    requires h <= Run(EMPTY, before).counter
    ensures var q := Step(Run(EMPTY, before), Teardown(false)); var q' := Run(q, after);
      && q.puts <= q'.puts
      && (forall i :: |q.puts| <= i < |q'.puts| && q'.puts[i].handle == h ==> q'.puts[i].reply == NotAllowed)
  {
    var q := Run(EMPTY, before);
    RunKeeps(EMPTY, before);
    StepKeeps(q, Teardown(false));
    TeardownCuts(q);
    CutOffRun(Step(q, Teardown(false)), after, h);
  }

  /** Cut off, and not about to read the ceiling again: it will never be answered. */
  predicate Silenced(q: Queue, h: nat) {
    && CutOff(q, h)
    && (h in q.tasks ==>
          && !q.tasks[h].phase.Checking?
          && (q.tasks[h].phase.Building? ==> q.tasks[h].phase.replyGeneration < q.generation))
  }

  /** Some reply for this handle entered the outbox between these states. */
  predicate Answered(q: Queue, q': Queue, h: nat) {
    exists i :: |q.puts| <= i < |q'.puts| && q'.puts[i].handle == h
  }

  lemma {:induction false} SilencedRun(q: Queue, evs: seq<Event>, h: nat)
    requires Silenced(q, h)
    ensures q.puts <= Run(q, evs).puts && !Answered(q, Run(q, evs), h)
    decreases |evs|
  {
    if evs != [] {
      var q1 := Step(q, evs[0]);
      assert Silenced(q1, h) && q.puts <= q1.puts && !Answered(q, q1, h);
      hide Step, Silenced;
      SilencedRun(q1, evs[1..], h);
      assert forall i :: |q.puts| <= i < |q1.puts| ==> Run(q1, evs[1..]).puts[i] == q1.puts[i];
    }
  }

  /** The reply that can cross: a ceiling that forbids the request, read after the teardown. */
  lemma ARefusalMayCross(q: Queue, h: nat) returns (after: seq<Event>)
    requires h in q.tasks && q.tasks[h].phase.Checking?
    ensures Answered(q, Run(q, after), h)
  {
    after := [ClientRead(h, Got(false), false), ReplyBuilt(h, true, true)];
    var q1 := Step(q, after[0]);
    var q2 := Step(q1, after[1]);
    assert after[1..] == [after[1]] && [after[1]][1..] == [];
    assert Run(q, after) == Run(q1, [after[1]]) == Run(q2, []) == q2;
    assert q2.puts[|q.puts|].handle == h;
  }

  /**
   * Exactly which handles can still be answered after a teardown that was not a
   * mere reconnect: those tapped whose ceiling had yet to be read again.
   */
  lemma {:induction false} WhatCrossesATeardown(before: seq<Event>, h: nat)
    requires h <= Run(EMPTY, before).counter
    ensures var q0 := Run(EMPTY, before); var q := Step(q0, Teardown(false));
      (exists after :: Answered(q, Run(q, after), h)) <==> h in q0.tasks && q0.tasks[h].phase.Checking?
  {
    var q0 := Run(EMPTY, before);
    var q := Step(q0, Teardown(false));
    RunKeeps(EMPTY, before);
    TeardownCuts(q0);
    hide QueueOk, CutOff, Answered, Run;
    if h in q0.tasks && q0.tasks[h].phase.Checking? {
      var after := ARefusalMayCross(q, h);
      assert Answered(q, Run(q, after), h);
    } else {
      if h in q0.tasks { assert TaskOk(q0, h); }
      assert CutOff(q, h) && Silenced(q, h);
      forall after ensures !Answered(q, Run(q, after), h) { SilencedRun(q, after, h); }
    }
  }

  // ---- Reconnects cut nothing off ----

  /**
   * What happens while an approval waits for its signer, or its reply to be built: anything but its own step or a
   * full teardown.
   */
  predicate Elsewhere(ev: Event, h: nat) {
    && ev != Teardown(false)
    && (ev.SignerAnswers? || ev.ReplyBuilt? ==> ev.handle != h)
  }

  /** A task of the current generation that waits for its signer or its reply. */
  predicate Current(q: Queue, h: nat, phase: Phase) {
    h in q.tasks && q.tasks[h] == Task(phase, q.generation) && (phase.Signing? || phase.Building?) && h !in q.waiting
  }

  lemma {:induction false} StaysCurrent(q: Queue, evs: seq<Event>, h: nat, phase: Phase)
    requires Current(q, h, phase) && h <= q.counter && forall ev <- evs :: Elsewhere(ev, h)
    ensures var q' := Run(q, evs);
      Current(q', h, phase) && q'.generation == q.generation && h <= q'.counter && q.puts <= q'.puts
    decreases |evs|
  {
    if evs != [] {
      assert Elsewhere(evs[0], h);
      assert forall ev <- evs[1..] :: ev in evs;
      StaysCurrent(Step(q, evs[0]), evs[1..], h, phase);
    }
  }

  lemma {:induction false} RunSplits(q: Queue, before: seq<Event>, after: seq<Event>)
    ensures Run(q, before + after) == Run(Run(q, before), after)
    decreases |before|
  {
    if before == [] {
      assert before + after == after;
    } else {
      assert (before + after)[1..] == before[1..] + after;
      RunSplits(Step(q, before[0]), before[1..], after);
    }
  }

  /** One event after a run. */
  lemma RunOne(q: Queue, evs: seq<Event>, ev: Event)
    ensures Run(q, evs + [ev]) == Step(Run(q, evs), ev)
  {
    RunSplits(q, evs, [ev]);
    assert Run(Step(Run(q, evs), ev), []) == Step(Run(q, evs), ev);
    assert [ev][1..] == [];
  }

  /**
   * A signature under way survives every run without a full teardown, whatever
   * reconnects and other requests come between: once the signer answers and its
   * reply is built, it enters the outbox in the generation of its tap.
   */
  lemma {:induction false} ReconnectsKeepTheSignature(q: Queue, first: seq<Event>, second: seq<Event>, h: nat)
    requires Current(q, h, Signing) && h <= q.counter
    requires (forall ev <- first :: Elsewhere(ev, h)) && (forall ev <- second :: Elsewhere(ev, h))
    ensures var g := q.generation;
      var q' := Run(q, ((first + [SignerAnswers(h, true)]) + second) + [ReplyBuilt(h, true, true)]);
      q.puts <= q'.puts && q'.puts != [] && q'.puts[|q'.puts| - 1] == Put(h, Signature, g, g) && q'.generation == g
  {
    hide Run;
    var q1 := Run(q, first);
    StaysCurrent(q, first, h, Signing);
    RunOne(q, first, SignerAnswers(h, true));
    var q2 := Step(q1, SignerAnswers(h, true));
    RunSplits(q, first + [SignerAnswers(h, true)], second);
    StaysCurrent(q2, second, h, Building(Signature, q.generation));
    RunOne(q, (first + [SignerAnswers(h, true)]) + second, ReplyBuilt(h, true, true));
  }
}
