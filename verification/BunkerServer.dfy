/**
 * The bunker server's refs as one object, updated in place by its handlers:
 * the handled-id set, the reply outbox with its socket, and the approval queue.
 * Each method makes the step of the machine it belongs to and keeps the
 * invariants of all three.
 */
module BunkerServer {
  import opened Wrappers
  import I = BunkerIntake
  import opened BunkerOutbox
  import A = BunkerApprovals

  /** The loop is at `i`: what it did so far, and a flush of the rest, make up the whole flush. */
  ghost predicate SoFar(whole: Flushed, s: seq<Reply>, i: nat, sent: seq<ReplyId>, ws: Option<Socket>, now: int,
                        throws: ReplyId -> bool) {
    && i <= |s|
    && var rest := Flush(s[i..], ws, now, throws);
       whole == Flushed(s[..i] + rest.held, sent + rest.sent, rest.threw)
  }

  lemma Starts(s: seq<Reply>, ws: Option<Socket>, now: int, throws: ReplyId -> bool)
    ensures SoFar(Flush(s, ws, now, throws), s, 0, [], ws, now, throws)
  {
  }

  lemma Ends(whole: Flushed, s: seq<Reply>, sent: seq<ReplyId>, ws: Option<Socket>, now: int, throws: ReplyId -> bool)
    requires SoFar(whole, s, |s|, sent, ws, now, throws)
    ensures whole == Flushed(s, sent, false)
  {
  }

  lemma DropsOne(whole: Flushed, s: seq<Reply>, i: nat, sent: seq<ReplyId>, ws: Option<Socket>, now: int,
                 throws: ReplyId -> bool)
    requires SoFar(whole, s, i, sent, ws, now, throws) && i < |s| && s[i].expiresAt <= now
    ensures SoFar(whole, s[..i] + s[i + 1..], i, sent, ws, now, throws)
  {
  }

  lemma KeepsOne(whole: Flushed, s: seq<Reply>, i: nat, sent: seq<ReplyId>, ws: Option<Socket>, now: int,
                 throws: ReplyId -> bool)
    requires SoFar(whole, s, i, sent, ws, now, throws) && i < |s| && s[i].expiresAt > now
    requires !Ready(ws) || s[i].sentOn == Some(ws.value.id)
    ensures SoFar(whole, s, i + 1, sent, ws, now, throws)
  {
  }

  lemma SendsOne(whole: Flushed, s: seq<Reply>, i: nat, sent: seq<ReplyId>, ws: Option<Socket>, now: int,
                 throws: ReplyId -> bool)
    requires SoFar(whole, s, i, sent, ws, now, throws) && i < |s| && s[i].expiresAt > now
    requires Ready(ws) && s[i].sentOn != Some(ws.value.id)
    ensures var t := s[i := s[i].(sentOn := Some(ws.value.id))];
      if throws(s[i].id) then whole == Flushed(t, sent, true)
      else SoFar(whole, t, i + 1, sent + [s[i].id], ws, now, throws)
  {
  }

  lemma BoxIsBounded(o: Outbox)
    requires OutboxOk(o)
    ensures |o.held| <= OUTBOX_CAP
  {
  }

  class Server {
    var handledEventIds: seq<I.EventId>
    ghost var handled: seq<I.EventId>

    var outbox: seq<Reply>
    var socket: Option<Socket>
    var dialled: nat
    ghost var wire: seq<Frame>
    ghost var known: set<ReplyId>

    var handleCounter: nat
    var activeRequests: set<nat>
    var generation: nat
    var resolving: map<nat, A.Task>
    ghost var signs: seq<nat>
    ghost var puts: seq<A.Put>

    ghost function Intake(): I.Intake
      reads this
    {
      I.Intake(handledEventIds, handled)
    }

    ghost function Box(): Outbox
      reads this
    {
      Outbox(outbox, socket, dialled, wire, known)
    }

    ghost function Queue(): A.Queue
      reads this
    {
      A.Queue(handleCounter, activeRequests, resolving, generation, signs, puts)
    }

    ghost predicate Valid()
      reads this
    {
      I.IntakeOk(Intake()) && OutboxOk(Box()) && A.QueueOk(Queue())
    }

    constructor ()
      ensures Valid() && Intake() == I.Intake([], []) && Box() == BunkerOutbox.EMPTY && Queue() == A.EMPTY
    {
      handledEventIds, handled := [], [];
      outbox, socket, dialled, wire, known := [], None, 0, [], {};
      handleCounter, activeRequests, generation, resolving, signs, puts := 0, {}, 0, map[], [], [];
    }

    /** True when this verified envelope is to be handled now; it will not be again while it is among the last 1000. */
    method FirstSeen(id: I.EventId) returns (first: bool)
      requires Valid()
      modifies `handledEventIds, `handled
      ensures Valid() && Intake() == I.Step(old(Intake()), I.Envelope(id))
      ensures (first <==> id !in old(handledEventIds)) && id in handledEventIds
      ensures |handledEventIds| <= I.HANDLED_EVENT_IDS_CAP
    {
      hide OutboxOk, A.QueueOk;
      I.StepKeeps(Intake(), I.Envelope(id));
      if id in handledEventIds { return false; }
      handledEventIds := handledEventIds + [id];
      assert handledEventIds[|handledEventIds| - 1] == id;
      if |handledEventIds| > I.HANDLED_EVENT_IDS_CAP {
        handledEventIds := handledEventIds[1..];
        assert handledEventIds[|handledEventIds| - 1] == id;
      }
      handled := handled + [id];
      first := true;
    }

    /** Walks the held replies: drops the expired, sends what this socket has not carried, stops at a failed send. */
    method FlushResponses(now: int, throws: ReplyId -> bool)
      modifies `outbox, `socket, `wire
      ensures Box() == Flushing(old(Box()), now, throws)
    {
      hide Flush, SoFar;
      ghost var whole := Flush(outbox, socket, now, throws);
      ghost var sent: seq<ReplyId> := [];
      Starts(outbox, socket, now, throws);
      var i := 0;
      while i < |outbox|
        invariant i <= |outbox| && socket == old(socket)
        invariant SoFar(whole, outbox, i, sent, socket, now, throws)
        invariant sent != [] ==> socket.Some?
        invariant wire == if socket.Some? then old(wire) + Frames(socket.value.id, sent) else old(wire)
        decreases |outbox| - i
      {
        var e := outbox[i];
        if e.expiresAt <= now {
          DropsOne(whole, outbox, i, sent, socket, now, throws);
          outbox := outbox[..i] + outbox[i + 1..];
        } else if !Ready(socket) || e.sentOn == Some(socket.value.id) {
          KeepsOne(whole, outbox, i, sent, socket, now, throws);
          i := i + 1;
        } else {
          SendsOne(whole, outbox, i, sent, socket, now, throws);
          outbox := outbox[i := e.(sentOn := Some(socket.value.id))];
          if throws(e.id) {
            socket := Some(socket.value.(open := false));
            return;
          }
          assert Frames(socket.value.id, sent) + [Frame(socket.value.id, e.id)]
              == Frames(socket.value.id, sent + [e.id]);
          wire := wire + [Frame(socket.value.id, e.id)];
          sent := sent + [e.id];
          i := i + 1;
        }
      }
      Ends(whole, outbox, sent, socket, now, throws);
    }

    method DropExpired(now: int)
      modifies `outbox
      ensures outbox == Unexpired(old(outbox), now)
    {
      var i := 0;
      assert outbox[..0] == [] && outbox[0..] == outbox;
      while i < |outbox|
        invariant 0 <= i <= |outbox|
        invariant outbox[..i] + Unexpired(outbox[i..], now) == Unexpired(old(outbox), now)
        decreases |outbox| - i
      {
        ghost var was := outbox;
        assert was[i..][1..] == was[i + 1..];
        if outbox[i].expiresAt <= now {
          outbox := outbox[..i] + outbox[i + 1..];
          assert outbox[i..] == was[i + 1..] && outbox[..i] == was[..i];
        } else {
          i := i + 1;
          assert was[..i] == was[..i - 1] + [was[i - 1]];
        }
      }
      assert outbox[..i] == outbox && outbox[i..] == [];
    }

    /** A built reply whose generation is still current goes into the outbox, if there is room, and out. */
    method PublishResponse(id: ReplyId, now: int, throws: ReplyId -> bool)
      requires Valid() && id !in known
      modifies `outbox, `socket, `wire, `known
      ensures Valid() && Box() == BunkerOutbox.Step(old(Box()), Publishes(id, now, throws))
      ensures id in known && |outbox| <= OUTBOX_CAP && old(wire) <= wire
    {
      hide Flush, Unexpired, OutboxOk, A.QueueOk, I.IntakeOk;
      BunkerOutbox.StepKeeps(Box(), Publishes(id, now, throws));
      BoxIsBounded(BunkerOutbox.Step(Box(), Publishes(id, now, throws)));
      known := known + {id};
      DropExpired(now);
      if |outbox| < OUTBOX_CAP {
        outbox := outbox + [Reply(id, now + REPLY_TTL_MS, None)];
        FlushResponses(now, throws);
      }
    }

    /** The relay answered for this reply: it is held no more, and every other one as before. */
    method OnRelayOk(id: ReplyId)
      requires Valid()
      modifies `outbox
      ensures Valid() && Box() == BunkerOutbox.Step(old(Box()), Oks(id))
      ensures forall x :: ById(outbox, x) == if x == id then None else old(ById(outbox, x))
    {
      hide A.QueueOk, I.IntakeOk, Without, Distinct, Once, ById;
      BunkerOutbox.StepKeeps(Box(), Oks(id));
      forall x ensures ById(Without(outbox, id), x) == if x == id then None else ById(outbox, x) {
        WithoutOne(outbox, id, x);
      }
      outbox := Without(outbox, id);
    }

    /** A fresh socket: it has carried nothing and marked nothing, and no reply is lost. */
    method OpenSocket()
      requires Valid()
      modifies `socket, `dialled
      ensures Valid() && Box() == BunkerOutbox.Step(old(Box()), Connecting) && Blank(Box())
    {
      hide A.QueueOk, I.IntakeOk, OutboxOk, Blank;
      BunkerOutbox.StepKeeps(Box(), Connecting);
      DialledIsBlank(Box());
      socket := Some(Socket(dialled, false));
      dialled := dialled + 1;
    }

    /** The socket opened: it carries the live replies, in order, up to the first whose send throws. */
    method OnOpen(now: int, throws: ReplyId -> bool)
      requires Valid()
      modifies `outbox, `socket, `wire
      ensures Valid() && Box() == BunkerOutbox.Step(old(Box()), Opens(now, throws))
      ensures old(Blank(Box())) ==>
                wire == old(wire) + Frames(old(socket.value.id), UntilThrow(Unexpired(old(outbox), now), throws))
    {
      hide A.QueueOk, I.IntakeOk, OutboxOk, Flush, Blank, Flushing;
      BunkerOutbox.StepKeeps(Box(), Opens(now, throws));
      if Blank(Box()) { OpensBlank(Box(), now, throws); }
      if socket.None? { return; }
      socket := Some(socket.value.(open := true));
      FlushResponses(now, throws);
    }

    /** Without a socket nothing goes out, and nothing is lost. */
    method OnClose()
      requires Valid()
      modifies `socket
      ensures Valid() && Box() == BunkerOutbox.Step(old(Box()), Closes) && !Ready(socket)
    {
      hide A.QueueOk, I.IntakeOk;
      BunkerOutbox.StepKeeps(Box(), Closes);
      socket := None;
    }

    // ---- The approval queue ----

    /** A request that needs a tap gets the next handle, one never used before. */
    method Enqueue() returns (handle: nat)
      requires Valid()
      modifies `handleCounter, `activeRequests
      ensures Valid() && Queue() == A.Step(old(Queue()), A.Arrives)
      ensures handle in activeRequests && handle !in old(activeRequests) && handle !in resolving && handle !in signs
    {
      hide OutboxOk, I.IntakeOk, A.QueueOk;
      A.StepKeeps(Queue(), A.Arrives);
      A.NextHandleIsNew(Queue());
      handleCounter := handleCounter + 1;
      handle := handleCounter;
      activeRequests := activeRequests + {handle};
    }

    /** A tap takes its request out of the map, so a second tap on the same handle finds nothing. */
    method Resolve(handle: nat, deny: bool)
      requires Valid()
      modifies `activeRequests, `resolving
      ensures Valid() && Queue() == A.Step(old(Queue()), A.Taps(handle, deny))
      ensures handle !in activeRequests && (handle !in old(activeRequests) ==> resolving == old(resolving))
    {
      hide OutboxOk, I.IntakeOk, A.QueueOk;
      A.StepKeeps(Queue(), A.Taps(handle, deny));
      if handle !in activeRequests { return; }
      activeRequests := activeRequests - {handle};
      resolving := resolving[handle := A.Task(if deny then A.StoringDeny else A.Checking, generation)];
    }

    /** The denial is remembered, or could not be: it is answered if the generation of its tap still lasts. */
    method OnDenyStored(handle: nat)
      requires Valid() && handle in resolving && resolving[handle].phase.StoringDeny?
      modifies `resolving
      ensures Valid() && Queue() == A.Step(old(Queue()), A.DenyStored(handle))
      ensures handle in resolving <==> old(resolving[handle].generation) == generation
    {
      hide OutboxOk, I.IntakeOk, A.QueueOk;
      A.StepKeeps(Queue(), A.DenyStored(handle));
      StartReply(handle, A.UserDenied);
    }

    /** Builds a reply only in the generation of the tap; later the task just ends. */
    method StartReply(handle: nat, reply: A.Reply)
      requires handle in resolving
      modifies `resolving
      ensures Queue() == A.Answer(old(Queue()), handle, reply)
    {
      if resolving[handle].generation != generation {
        resolving := resolving - {handle};
      } else {
        resolving := resolving[handle := resolving[handle].(phase := A.Building(reply, generation))];
      }
    }

    /** The client's ceiling was read again: the signer is called only when it allows the request. */
    method OnClientRead(handle: nat, read: Try<bool>, ceremony: bool)
      requires Valid() && handle in resolving && resolving[handle].phase.Checking?
      modifies `resolving, `signs
      ensures Valid() && Queue() == A.Step(old(Queue()), A.ClientRead(handle, read, ceremony))
      ensures signs == old(signs) + (if read == Got(true) && !ceremony then [handle] else [])
      ensures handle !in old(signs)
    {
      hide OutboxOk, I.IntakeOk, A.QueueOk;
      A.StepKeeps(Queue(), A.ClientRead(handle, read, ceremony));
      A.NotYetSigned(Queue(), handle);
      if read.Threw? {
        resolving := resolving - {handle};
      } else if !read.value {
        resolving := resolving[handle := resolving[handle].(phase := A.Building(A.NotAllowed, generation))];
      } else if ceremony {
        resolving := resolving[handle := resolving[handle].(phase := A.Confirming)];
      } else {
        CallSigner(handle);
      }
    }

    method CallSigner(handle: nat)
      requires handle in resolving
      modifies `resolving, `signs
      ensures Queue() == A.Sign(old(Queue()), handle) && signs == old(signs) + [handle]
    {
      resolving := resolving[handle := resolving[handle].(phase := A.Signing)];
      signs := signs + [handle];
    }

    /** The authority ceremony was confirmed, or not. */
    method OnConfirmed(handle: nat, ok: bool)
      requires Valid() && handle in resolving && resolving[handle].phase.Confirming?
      modifies `resolving, `signs
      ensures Valid() && Queue() == A.Step(old(Queue()), A.Confirms(handle, ok))
      ensures signs == old(signs) + (if ok then [handle] else []) && handle !in old(signs)
    {
      hide OutboxOk, I.IntakeOk, A.QueueOk;
      A.StepKeeps(Queue(), A.Confirms(handle, ok));
      A.NotYetSigned(Queue(), handle);
      if ok { CallSigner(handle); } else { StartReply(handle, A.SigningFailed); }
    }

    /** The signer answered: its signature is replied only in the generation of the tap. */
    method OnSigned(handle: nat, ok: bool)
      requires Valid() && handle in resolving && resolving[handle].phase.Signing?
      modifies `resolving
      ensures Valid() && Queue() == A.Step(old(Queue()), A.SignerAnswers(handle, ok))
      ensures handle in resolving <==> old(resolving[handle].generation) == generation
    {
      hide OutboxOk, I.IntakeOk, A.QueueOk;
      A.StepKeeps(Queue(), A.SignerAnswers(handle, ok));
      StartReply(handle, if ok then A.Signature else A.SigningFailed);
    }

    /**
     * The reply event was built (or not): it enters the outbox if no teardown
     * came between and there is room, and the task is over.
     */
    method OnReplyBuilt(handle: nat, built: Option<ReplyId>, now: int, throws: ReplyId -> bool)
      requires Valid() && handle in resolving && resolving[handle].phase.Building?
      requires built.Some? ==> built.value !in known
      modifies this
      ensures Valid() && handle !in resolving
      ensures var current := old(resolving[handle].phase.replyGeneration) == old(generation);
        && Queue() == A.Step(old(Queue()),
                             A.ReplyBuilt(handle, built.Some?, |Unexpired(old(outbox), now)| < OUTBOX_CAP))
        && Box() == if built.Some? && current then BunkerOutbox.Step(old(Box()), Publishes(built.value, now, throws))
                    else old(Box())
    {
      hide OutboxOk, I.IntakeOk, A.QueueOk, BunkerOutbox.Step;
      A.StepKeeps(Queue(), A.ReplyBuilt(handle, built.Some?, |Unexpired(outbox, now)| < OUTBOX_CAP));
      var t := resolving[handle];
      var room := |Unexpired(outbox, now)| < OUTBOX_CAP;
      resolving := resolving - {handle};
      if built.Some? && t.phase.replyGeneration == generation {
        if room { puts := puts + [A.Put(handle, t.phase.reply, t.generation, generation)]; }
        PublishResponse(built.value, now, throws);
      }
    }

    /** The cleanup of the subscription effect; a mere reconnect keeps the serving session. */
    method Teardown(reconnectOnly: bool, drains: bool)
      requires Valid()
      modifies `outbox, `socket, `activeRequests, `generation
      ensures Valid() && Box() == BunkerOutbox.Step(old(Box()), BunkerOutbox.Teardown(reconnectOnly, drains))
      ensures Queue() == A.Step(old(Queue()), A.Teardown(reconnectOnly))
      ensures if reconnectOnly then outbox == old(outbox) && activeRequests == old(activeRequests)
              else forall h: nat :: h <= handleCounter ==> A.CutOff(Queue(), h)
    {
      hide OutboxOk, I.IntakeOk, A.QueueOk;
      A.StepKeeps(Queue(), A.Teardown(reconnectOnly));
      BunkerOutbox.StepKeeps(Box(), BunkerOutbox.Teardown(reconnectOnly, drains));
      if !reconnectOnly {
        A.TeardownCuts(Queue());
        generation := generation + 1;
        outbox := [];
        activeRequests := {};
      }
      if !drains { socket := None; }
    }
  }
}
