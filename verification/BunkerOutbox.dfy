/**
 * The reply outbox of the bunker server: signed replies kept until the relay
 * confirms them, over every run of drops, reconnects and teardowns
 * (`publishResponse`, `flushResponses` and the subscription effect).
 */
module BunkerOutbox {
  import opened Wrappers

  const OUTBOX_CAP: nat := 256
  const REPLY_TTL_MS: nat := 300_000

  type ReplyId = string

  /** One held reply; the map is insertion-ordered, so the outbox is a sequence with distinct ids. */
  datatype Reply = Reply(id: ReplyId, expiresAt: int, sentOn: Option<nat>)

  datatype Socket = Socket(id: nat, open: bool)

  /** One frame that went out: on which socket, which reply. */
  datatype Frame = Frame(socket: nat, id: ReplyId)

  /**
   * `socket` is the one in `wsRef`; `dialled` numbers the sockets. `wire` and
   * `known` are history: every frame sent, and every reply id ever published.
   */
  datatype Outbox = Outbox(held: seq<Reply>, socket: Option<Socket>, dialled: nat, wire: seq<Frame>,
                           known: set<ReplyId>)

  function ById(held: seq<Reply>, id: ReplyId): Option<Reply> {
    if held == [] then None else if held[0].id == id then Some(held[0]) else ById(held[1..], id)
  }

  predicate Distinct(held: seq<Reply>) {
    held == [] || (ById(held[1..], held[0].id).None? && Distinct(held[1..]))
  }

  function Without(held: seq<Reply>, id: ReplyId): seq<Reply> {
    if held == [] then []
    else if held[0].id == id then Without(held[1..], id)
    else [held[0]] + Without(held[1..], id)
  }

  function Unexpired(held: seq<Reply>, now: int): seq<Reply> {
    if held == [] then []
    else if held[0].expiresAt <= now then Unexpired(held[1..], now)
    else [held[0]] + Unexpired(held[1..], now)
  }

  /** A flush: what is still held, what went out, and whether a send threw and ended it. */
  datatype Flushed = Flushed(held: seq<Reply>, sent: seq<ReplyId>, threw: bool)

  predicate Ready(ws: Option<Socket>) { ws.Some? && ws.value.open }

  /** The loop of `flushResponses`, entry by entry. */
  function Flush(held: seq<Reply>, ws: Option<Socket>, now: int, throws: ReplyId -> bool): Flushed {
    if held == [] then Flushed([], [], false)
    else
      var e := held[0];
      if e.expiresAt <= now then Flush(held[1..], ws, now, throws)
      else if !Ready(ws) || e.sentOn == Some(ws.value.id) then Keeping(e, Flush(held[1..], ws, now, throws))
      else
        var marked := e.(sentOn := Some(ws.value.id));
        if throws(e.id) then Flushed([marked] + held[1..], [], true)
        else var rest := Flush(held[1..], ws, now, throws); Keeping(marked, rest.(sent := [e.id] + rest.sent))
  }

  function Keeping(e: Reply, f: Flushed): Flushed { f.(held := [e] + f.held) }

  function Frames(socket: nat, ids: seq<ReplyId>): seq<Frame> {
    seq(|ids|, i requires 0 <= i < |ids| => Frame(socket, ids[i]))
  }

  function Flushing(o: Outbox, now: int, throws: ReplyId -> bool): Outbox {
    var f := Flush(o.held, o.socket, now, throws);
    o.(held := f.held,
       socket := if f.threw && o.socket.Some? then Some(o.socket.value.(open := false)) else o.socket,
       wire := if o.socket.Some? then o.wire + Frames(o.socket.value.id, f.sent) else o.wire)
  }

  datatype Event =
    | Connecting
    | Opens(now: int, throws: ReplyId -> bool)
    | Closes
    | Publishes(id: ReplyId, now: int, throws: ReplyId -> bool)
    | Oks(id: ReplyId)
    | Teardown(reconnectOnly: bool, drains: bool)

  function Step(o: Outbox, ev: Event): Outbox {
    match ev
    case Connecting => o.(socket := Some(Socket(o.dialled, false)), dialled := o.dialled + 1)
    case Opens(now, throws) =>
      if o.socket.None? then o else Flushing(o.(socket := Some(o.socket.value.(open := true))), now, throws)
    case Closes => o.(socket := None)
    case Publishes(id, now, throws) =>
      var o1 := o.(held := Unexpired(o.held, now), known := o.known + {id});
      if |o1.held| >= OUTBOX_CAP then o1
      else Flushing(o1.(held := o1.held + [Reply(id, now + REPLY_TTL_MS, None)]), now, throws)
    case Oks(id) => o.(held := Without(o.held, id))
    case Teardown(reconnectOnly, drains) =>
      o.(held := if reconnectOnly then o.held else [], socket := if drains then o.socket else None)
  }

  /** A published reply is a freshly signed event, so its id was never published before. */
  predicate Possible(o: Outbox, ev: Event) { ev.Publishes? ==> ev.id !in o.known }

  ghost predicate Possibles(o: Outbox, evs: seq<Event>)
    decreases |evs|
  {
    evs == [] || (Possible(o, evs[0]) && Possibles(Step(o, evs[0]), evs[1..]))
  }

  function Run(o: Outbox, evs: seq<Event>): Outbox
    decreases |evs|
  {
    if evs == [] then o else Run(Step(o, evs[0]), evs[1..])
  }

  const EMPTY: Outbox := Outbox([], None, 0, [], {})

  // ---- The invariant ----

  predicate Once<T(==)>(s: seq<T>) { forall i, j :: 0 <= i < j < |s| ==> s[i] != s[j] }

  /** A held reply is known, and marked if it went out on the current socket. */
  predicate HeldOk(o: Outbox, r: Reply) {
    && r.id in o.known && (r.sentOn.Some? ==> r.sentOn.value < o.dialled)
    && (o.socket.Some? && Frame(o.socket.value.id, r.id) in o.wire ==> r.sentOn == Some(o.socket.value.id))
  }

  ghost predicate OutboxOk(o: Outbox) {
    && |o.held| <= OUTBOX_CAP && Distinct(o.held) && Once(o.wire)
    && (forall id :: ById(o.held, id).Some? ==> ById(o.held, id).value.id == id && HeldOk(o, ById(o.held, id).value))
    && (forall f <- o.wire :: f.id in o.known && f.socket < o.dialled)
    && (o.socket.Some? ==> o.socket.value.id < o.dialled)
  }

  // ---- What a flush does ----

  lemma Cons(e: Reply, rest: seq<Reply>, id: ReplyId)
    ensures ById([e] + rest, id) == if e.id == id then Some(e) else ById(rest, id)
  {
  }

  lemma {:induction false} IdIs(held: seq<Reply>, id: ReplyId)
    ensures ById(held, id).Some? ==> ById(held, id).value.id == id
  {
    if held != [] { IdIs(held[1..], id); }
  }

  lemma DistinctTail(held: seq<Reply>)
    requires held != [] && Distinct(held)
    ensures ById(held[1..], held[0].id).None? && Distinct(held[1..])
  {
  }

  /** One id before and after a flush. */
  lemma {:induction false} FlushOne(held: seq<Reply>, ws: Option<Socket>, now: int, throws: ReplyId -> bool,
                                    id: ReplyId)
    requires Distinct(held)
    ensures var f := Flush(held, ws, now, throws); var b, r := ById(held, id), ById(f.held, id);
      && (r.Some? ==> b.Some? && r.value.id == id && r.value.expiresAt == b.value.expiresAt)
      && (r.Some? ==> r == b || (Ready(ws) && r.value.sentOn == Some(ws.value.id)))
      && (b.Some? && b.value.expiresAt > now ==> r.Some?)
      && (id in f.sent ==> Ready(ws) && b.Some? && b.value.expiresAt > now && b.value.sentOn != Some(ws.value.id))
      && (id in f.sent ==> r.Some? && r.value.sentOn == Some(ws.value.id) && !throws(id))
      && (f.threw ==> Ready(ws))
      && (!f.threw && r.Some? ==> r.value.expiresAt > now)
      && (!f.threw && Ready(ws) && r.Some? ==> id in f.sent || b.value.sentOn == Some(ws.value.id))
  {
    hide Distinct;
    if held != [] {
      DistinctTail(held);
      FlushOne(held[1..], ws, now, throws, id);
      IdIs(held[1..], id);
      var e := held[0];
      var rest := Flush(held[1..], ws, now, throws);
      Cons(e, rest.held, id);
      if Ready(ws) {
        var marked := e.(sentOn := Some(ws.value.id));
        Cons(marked, rest.held, id);
        Cons(marked, held[1..], id);
      }
    }
  }

  lemma {:induction false} FlushShape(held: seq<Reply>, ws: Option<Socket>, now: int, throws: ReplyId -> bool)
    requires Distinct(held)
    ensures var f := Flush(held, ws, now, throws);
      Distinct(f.held) && |f.held| <= |held| && Once(f.sent) && (f.threw ==> exists b <- held :: throws(b.id))
  {
    if held != [] {
      FlushShape(held[1..], ws, now, throws);
      FlushOne(held[1..], ws, now, throws, held[0].id);
      assert forall b <- held[1..] :: b in held;
    }
  }

  lemma FlushingKeeps(o: Outbox, now: int, throws: ReplyId -> bool)
    requires OutboxOk(o)
    ensures var o' := Flushing(o, now, throws); OutboxOk(o') && o.wire <= o'.wire
  {
    hide Flush, Distinct;
    var f, o' := Flush(o.held, o.socket, now, throws), Flushing(o, now, throws);
    FlushShape(o.held, o.socket, now, throws);
    forall id
      ensures ById(o'.held, id).Some? ==> ById(o'.held, id).value.id == id && HeldOk(o', ById(o'.held, id).value)
    {
      FlushOne(o.held, o.socket, now, throws, id);
    }
    if f.sent != [] { FlushOne(o.held, o.socket, now, throws, f.sent[0]); }
    forall i | 0 <= i < |f.sent| ensures Frame(o.socket.value.id, f.sent[i]) !in o.wire && f.sent[i] in o.known {
      FlushOne(o.held, o.socket, now, throws, f.sent[i]);
    }
  }

  lemma {:induction false} WithoutOne(held: seq<Reply>, id: ReplyId, x: ReplyId)
    requires Distinct(held)
    ensures ById(Without(held, id), x) == if x == id then None else ById(held, x)
    ensures Distinct(Without(held, id)) && |Without(held, id)| <= |held|
  {
    if held != [] {
      WithoutOne(held[1..], id, x);
      WithoutOne(held[1..], id, held[0].id);
    }
  }

  lemma {:induction false} UnexpiredOne(held: seq<Reply>, now: int, x: ReplyId)
    requires Distinct(held)
    ensures ById(Unexpired(held, now), x) ==
            if ById(held, x).Some? && ById(held, x).value.expiresAt > now then ById(held, x) else None
    ensures Distinct(Unexpired(held, now)) && |Unexpired(held, now)| <= |held|
  {
    if held != [] {
      UnexpiredOne(held[1..], now, x);
      UnexpiredOne(held[1..], now, held[0].id);
    }
  }

  lemma {:induction false} AppendOne(held: seq<Reply>, r: Reply, x: ReplyId)
    requires Distinct(held) && ById(held, r.id).None?
    ensures ById(held + [r], x) == if x == r.id then Some(r) else ById(held, x)
    ensures Distinct(held + [r])
  {
    if held != [] {
      assert (held + [r])[1..] == held[1..] + [r];
      AppendOne(held[1..], r, x);
      AppendOne(held[1..], r, held[0].id);
    } else {
      assert (held + [r])[1..] == [];
    }
  }

  /** The outbox as a published reply finds it, before it is flushed. */
  function Appended(o: Outbox, id: ReplyId, now: int): Outbox {
    var o1 := o.(held := Unexpired(o.held, now), known := o.known + {id});
    if |o1.held| >= OUTBOX_CAP then o1 else o1.(held := o1.held + [Reply(id, now + REPLY_TTL_MS, None)])
  }

  lemma AppendedOne(o: Outbox, id: ReplyId, now: int, x: ReplyId)
    requires OutboxOk(o) && id !in o.known
    ensures var o1 := Appended(o, id, now); var b, r := ById(o.held, x), ById(o1.held, x);
      && Distinct(o1.held) && |o1.held| <= OUTBOX_CAP
      && (x != id ==> r == if b.Some? && b.value.expiresAt > now then b else None)
      && (x == id ==> b.None? && (r.Some? ==> r.value == Reply(id, now + REPLY_TTL_MS, None)))
  {
    hide Once, Unexpired;
    UnexpiredOne(o.held, now, x);
    UnexpiredOne(o.held, now, id);
    AppendOneIf(Unexpired(o.held, now), Reply(id, now + REPLY_TTL_MS, None), x);
  }

  lemma AppendOneIf(held: seq<Reply>, r: Reply, x: ReplyId)
    requires Distinct(held)
    ensures ById(held, r.id).None? ==>
      ById(held + [r], x) == (if x == r.id then Some(r) else ById(held, x)) && Distinct(held + [r])
  {
    if ById(held, r.id).None? { AppendOne(held, r, x); }
  }

  lemma AppendedKeeps(o: Outbox, id: ReplyId, now: int)
    requires OutboxOk(o) && id !in o.known
    ensures OutboxOk(Appended(o, id, now))
  {
    hide Distinct, Unexpired, Once, Appended;
    var o1 := Appended(o, id, now);
    AppendedOne(o, id, now, id);
    AppendedFields(o, id, now);
    forall x ensures ById(o1.held, x).Some? ==> ById(o1.held, x).value.id == x && HeldOk(o1, ById(o1.held, x).value) {
      AppendedOne(o, id, now, x);
    }
  }

  lemma AppendedFields(o: Outbox, id: ReplyId, now: int)
    ensures var o1 := Appended(o, id, now);
      o1.socket == o.socket && o1.dialled == o.dialled && o1.wire == o.wire && o1.known == o.known + {id}
  {
  }

  lemma StepKeeps(o: Outbox, ev: Event)
    requires OutboxOk(o) && Possible(o, ev)
    ensures OutboxOk(Step(o, ev)) && o.wire <= Step(o, ev).wire
  {
    hide Flushing, Distinct, Once;
    match ev {
      case Connecting =>
      case Opens(now, throws) =>
        if o.socket.Some? {
          FlushingKeeps(o.(socket := Some(o.socket.value.(open := true))), now, throws);
        }
      case Closes =>
      case Publishes(id, now, throws) =>
        AppendedKeeps(o, id, now);
        FlushingKeeps(Appended(o, id, now), now, throws);
      case Oks(id) =>
        forall x ensures ById(Without(o.held, id), x) == if x == id then None else ById(o.held, x) {
          WithoutOne(o.held, id, x);
        }
        WithoutOne(o.held, id, id);
      case Teardown(reconnectOnly, drains) => Empty();
    }
  }

  lemma Empty()
    ensures Distinct([]) && forall x :: ById([], x).None?
  {
  }

  lemma {:induction false} RunKeeps(o: Outbox, evs: seq<Event>)
    requires OutboxOk(o) && Possibles(o, evs)
    ensures OutboxOk(Run(o, evs)) && o.wire <= Run(o, evs).wire
    decreases |evs|
  {
    hide OutboxOk, Step, Possible;
    if evs != [] {
      StepKeeps(o, evs[0]);
      RunKeeps(Step(o, evs[0]), evs[1..]);
    }
  }

  // ---- What follows for every run ----

  /** At most 256 replies are held, and no reply goes out twice on one socket. */
  lemma {:induction false} SentOncePerSocket(evs: seq<Event>, i: nat, j: nat)
    requires Possibles(EMPTY, evs) && i < j < |Run(EMPTY, evs).wire|
    ensures Run(EMPTY, evs).wire[i] != Run(EMPTY, evs).wire[j]
    ensures |Run(EMPTY, evs).held| <= OUTBOX_CAP
  {
    RunKeeps(EMPTY, evs);
  }

  /** Known, and no longer held. */
  predicate Gone(o: Outbox, id: ReplyId) { id in o.known && ById(o.held, id).None? }

  lemma GoneStep(o: Outbox, ev: Event, id: ReplyId)
    requires OutboxOk(o) && Possible(o, ev) && Gone(o, id)
    ensures var o' := Step(o, ev);
      Gone(o', id) && o.wire <= o'.wire && forall i :: |o.wire| <= i < |o'.wire| ==> o'.wire[i].id != id
  {
    hide Distinct, Once, Flush;
    StepKeeps(o, ev);
    match ev {
      case Connecting =>
      case Opens(now, throws) =>
        FlushOne(o.held, if o.socket.Some? then Some(o.socket.value.(open := true)) else None, now, throws, id);
      case Closes =>
      case Publishes(x, now, throws) =>
        AppendedKeeps(o, x, now);
        AppendedOne(o, x, now, id);
        FlushOne(Appended(o, x, now).held, o.socket, now, throws, id);
      case Oks(x) => WithoutOne(o.held, x, id);
      case Teardown(reconnectOnly, drains) => Empty();
    }
  }

  lemma {:induction false} GoneRun(o: Outbox, evs: seq<Event>, id: ReplyId)
    requires OutboxOk(o) && Possibles(o, evs) && Gone(o, id)
    ensures var o' := Run(o, evs);
      Gone(o', id) && o.wire <= o'.wire && forall i :: |o.wire| <= i < |o'.wire| ==> o'.wire[i].id != id
    decreases |evs|
  {
    hide OutboxOk, Step, Possible, Gone;
    if evs != [] {
      StepKeeps(o, evs[0]);
      GoneStep(o, evs[0], id);
      GoneRun(Step(o, evs[0]), evs[1..], id);
    }
  }

  /** After the relay's OK (accepting or rejecting) a reply is never sent or held again. */
  lemma {:induction false} NeverAfterOk(before: seq<Event>, after: seq<Event>, id: ReplyId)
    requires Possibles(EMPTY, before) && id in Run(EMPTY, before).known
    requires Possibles(Step(Run(EMPTY, before), Oks(id)), after)
    ensures var o := Step(Run(EMPTY, before), Oks(id)); var o' := Run(o, after);
      ById(o'.held, id).None? && o.wire <= o'.wire && forall i :: |o.wire| <= i < |o'.wire| ==> o'.wire[i].id != id
  {
    var o := Run(EMPTY, before);
    RunKeeps(EMPTY, before);
    StepKeeps(o, Oks(id));
    WithoutOne(o.held, id, id);
    GoneRun(Step(o, Oks(id)), after, id);
  }

  /** A held reply leaves the outbox only by its OK, its expiry or a teardown that is not a reconnect. */
  lemma LeavesOnlyBy(o: Outbox, ev: Event, id: ReplyId)
    requires OutboxOk(o) && Possible(o, ev) && ById(o.held, id).Some? && ById(Step(o, ev).held, id).None?
    ensures || ev == Oks(id)
            || (ev.Teardown? && !ev.reconnectOnly)
            || ((ev.Opens? || ev.Publishes?) && ById(o.held, id).value.expiresAt <= ev.now)
  {
    hide Distinct, Once, Flush, Flushing;
    match ev {
      case Connecting =>
      case Opens(now, throws) =>
        FlushOneIn(o.(socket := if o.socket.Some? then Some(o.socket.value.(open := true)) else None), now, throws, id);
      case Closes =>
      case Publishes(x, now, throws) =>
        AppendedKeeps(o, x, now);
        AppendedOne(o, x, now, id);
        FlushOneIn(Appended(o, x, now), now, throws, id);
      case Oks(x) => WithoutOne(o.held, x, id);
      case Teardown(reconnectOnly, drains) =>
    }
  }

  lemma FlushOneIn(o: Outbox, now: int, throws: ReplyId -> bool, id: ReplyId)
    requires OutboxOk(o)
    ensures var b, r := ById(o.held, id), ById(Flushing(o, now, throws).held, id);
      b.Some? && b.value.expiresAt > now ==> r.Some? && r.value.expiresAt == b.value.expiresAt
  {
    hide Flush;
    FlushOne(o.held, o.socket, now, throws, id);
  }

  // ---- A newly opened socket ----

  /** The current socket is not open yet: it has carried nothing and marked nothing. */
  ghost predicate Blank(o: Outbox) {
    && o.socket.Some? && !o.socket.value.open
    && (forall f <- o.wire :: f.socket != o.socket.value.id)
    && (forall x :: ById(o.held, x).Some? ==> ById(o.held, x).value.sentOn != Some(o.socket.value.id))
  }

  /** What may happen while a socket connects: replies are published and confirmed. */
  predicate WhileConnecting(ev: Event) { ev.Publishes? || ev.Oks? }

  lemma DialledIsBlank(o: Outbox)
    requires OutboxOk(o)
    ensures Blank(Step(o, Connecting))
  {
    forall x | ById(o.held, x).Some? ensures ById(o.held, x).value.sentOn != Some(o.dialled) {
      assert HeldOk(o, ById(o.held, x).value);
    }
  }

  lemma PublishedIsUnmarked(o: Outbox, id: ReplyId, now: int, throws: ReplyId -> bool, x: ReplyId)
    requires OutboxOk(o) && id !in o.known && Blank(o)
    ensures var r := ById(Step(o, Publishes(id, now, throws)).held, x);
      r.Some? ==> r.value.sentOn != Some(o.socket.value.id)
  {
    hide Distinct, Once, Flush, Unexpired;
    var o1 := Appended(o, id, now);
    AppendedKeeps(o, id, now);
    AppendedOne(o, id, now, x);
    FlushOne(o1.held, o1.socket, now, throws, x);
    assert o1.socket == o.socket;
  }

  lemma StaysBlank(o: Outbox, ev: Event)
    requires OutboxOk(o) && Possible(o, ev) && Blank(o) && WhileConnecting(ev)
    ensures Blank(Step(o, ev)) && Step(o, ev).socket == o.socket
  {
    hide Distinct, Once, Flush, Unexpired, Without;
    match ev {
      case Publishes(id, now, throws) =>
        forall x
          ensures var r := ById(Step(o, ev).held, x); r.Some? ==> r.value.sentOn != Some(o.socket.value.id)
        {
          PublishedIsUnmarked(o, id, now, throws, x);
        }
        AppendedKeeps(o, id, now);
        NothingIsSent(Appended(o, id, now), now, throws);
      case Oks(id) =>
        forall x ensures ById(Without(o.held, id), x) == if x == id then None else ById(o.held, x) {
          WithoutOne(o.held, id, x);
        }
    }
  }

  /** No frame leaves a socket that is not open. */
  lemma NothingIsSent(o: Outbox, now: int, throws: ReplyId -> bool)
    requires OutboxOk(o) && !Ready(o.socket)
    ensures var o' := Flushing(o, now, throws); o'.wire == o.wire && o'.socket == o.socket
  {
    hide Flush;
    var f := Flush(o.held, o.socket, now, throws);
    FlushShape(o.held, o.socket, now, throws);
    FlushOne(o.held, o.socket, now, throws, "");
    if f.sent != [] { FlushOne(o.held, o.socket, now, throws, f.sent[0]); }
  }

  lemma {:induction false} BlankRun(o: Outbox, mid: seq<Event>)
    requires OutboxOk(o) && Blank(o) && Possibles(o, mid) && forall ev <- mid :: WhileConnecting(ev)
    ensures OutboxOk(Run(o, mid)) && Blank(Run(o, mid))
    decreases |mid|
  {
    hide OutboxOk, Blank, Step, Possible;
    if mid != [] {
      StepKeeps(o, mid[0]);
      StaysBlank(o, mid[0]);
      BlankRun(Step(o, mid[0]), mid[1..]);
    }
  }

  /** The live replies in order, up to the first whose send throws. */
  function UntilThrow(live: seq<Reply>, throws: ReplyId -> bool): seq<ReplyId> {
    if live == [] || throws(live[0].id) then [] else [live[0].id] + UntilThrow(live[1..], throws)
  }

  lemma {:induction false} FlushOfBlank(held: seq<Reply>, ws: Option<Socket>, now: int, throws: ReplyId -> bool)
    requires Ready(ws) && forall r <- held :: r.sentOn != Some(ws.value.id)
    ensures Flush(held, ws, now, throws).sent == UntilThrow(Unexpired(held, now), throws)
  {
    if held != [] {
      FlushOfBlank(held[1..], ws, now, throws);
      assert ([held[0]] + Unexpired(held[1..], now))[1..] == Unexpired(held[1..], now);
    }
  }

  lemma {:induction false} InById(held: seq<Reply>, r: Reply)
    requires Distinct(held) && r in held
    ensures ById(held, r.id) == Some(r)
  {
    if held[0] != r {
      InById(held[1..], r);
    }
  }

  lemma {:induction false} RunSplits(o: Outbox, before: seq<Event>, after: seq<Event>)
    ensures Run(o, before + after) == Run(Run(o, before), after)
    ensures Possibles(o, before + after) <==> Possibles(o, before) && Possibles(Run(o, before), after)
    decreases |before|
  {
    if before == [] {
      assert before + after == after;
    } else {
      assert (before + after)[1..] == before[1..] + after;
      RunSplits(Step(o, before[0]), before[1..], after);
    }
  }

  /** The run up to the moment a socket opens: any history, the dial, and what happened while it connected. */
  function Dialled(before: seq<Event>, mid: seq<Event>): seq<Event> { before + ([Connecting] + mid) }

  lemma {:induction false} DialledOk(before: seq<Event>, mid: seq<Event>)
    requires Possibles(EMPTY, Dialled(before, mid)) && forall ev <- mid :: WhileConnecting(ev)
    ensures var o := Run(EMPTY, Dialled(before, mid)); OutboxOk(o) && Blank(o)
  {
    var b := Run(EMPTY, before);
    RunSplits(EMPTY, before, [Connecting] + mid);
    RunKeeps(EMPTY, before);
    StepKeeps(b, Connecting);
    DialledIsBlank(b);
    assert ([Connecting] + mid)[1..] == mid;
    BlankRun(Step(b, Connecting), mid);
  }

  /**
   * A newly opened socket, over every run and whatever was published or
   * confirmed while it connected: it is sent exactly the unexpired held
   * replies, in order, up to the first whose send throws.
   */
  lemma {:induction false} NewSocketGetsEverything(before: seq<Event>, mid: seq<Event>, now: int,
      throws: ReplyId -> bool)
    requires Possibles(EMPTY, Dialled(before, mid)) && forall ev <- mid :: WhileConnecting(ev)
    ensures var o := Run(EMPTY, Dialled(before, mid)); var o' := Step(o, Opens(now, throws));
      && o.socket.Some?
      && o'.wire == o.wire + Frames(o.socket.value.id, UntilThrow(Unexpired(o.held, now), throws))
  {
    hide Run, Possibles;
    DialledOk(before, mid);
    var o := Run(EMPTY, Dialled(before, mid));
    OpensBlank(o, now, throws);
  }

  lemma OpensBlank(o: Outbox, now: int, throws: ReplyId -> bool)
    requires OutboxOk(o) && Blank(o)
    ensures Step(o, Opens(now, throws)).wire
            == o.wire + Frames(o.socket.value.id, UntilThrow(Unexpired(o.held, now), throws))
  {
    hide Flush, Once;
    forall r | r in o.held ensures r.sentOn != Some(o.socket.value.id) { InById(o.held, r); }
    FlushOfBlank(o.held, Some(o.socket.value.(open := true)), now, throws);
  }

  /**
   * And when no send throws, it carries a reply exactly when that reply was held
   * and live, and exactly the live ones stay held.
   */
  lemma {:induction false} NewSocketCarriesTheLive(
    before: seq<Event>, mid: seq<Event>, now: int, throws: ReplyId -> bool, id: ReplyId)
    requires Possibles(EMPTY, Dialled(before, mid)) && forall ev <- mid :: WhileConnecting(ev)
    requires forall r <- Run(EMPTY, Dialled(before, mid)).held :: !throws(r.id)
    ensures var o := Run(EMPTY, Dialled(before, mid)); var o' := Step(o, Opens(now, throws));
      var live := ById(o.held, id).Some? && ById(o.held, id).value.expiresAt > now;
      && o.socket.Some?
      && (Frame(o.socket.value.id, id) in o'.wire <==> live)
      && (ById(o'.held, id).Some? <==> live)
  {
    hide Run, Possibles;
    DialledOk(before, mid);
    CarriesTheLive(Run(EMPTY, Dialled(before, mid)), now, throws, id);
  }

  lemma CarriesTheLive(o: Outbox, now: int, throws: ReplyId -> bool, id: ReplyId)
    requires OutboxOk(o) && Blank(o) && forall r <- o.held :: !throws(r.id)
    ensures var o' := Step(o, Opens(now, throws));
      var live := ById(o.held, id).Some? && ById(o.held, id).value.expiresAt > now;
      && (Frame(o.socket.value.id, id) in o'.wire <==> live)
      && (ById(o'.held, id).Some? <==> live)
  {
    hide Flush, Once;
    var ws := Some(o.socket.value.(open := true));
    FlushShape(o.held, ws, now, throws);
    FlushOne(o.held, ws, now, throws, id);
    var f, o' := Flush(o.held, ws, now, throws), Step(o, Opens(now, throws));
    assert !f.threw;
    if id in f.sent {
      var i :| 0 <= i < |f.sent| && f.sent[i] == id;
      assert Frames(o.socket.value.id, f.sent)[i] == Frame(o.socket.value.id, id);
      assert o'.wire[|o.wire| + i] == Frame(o.socket.value.id, id);
    }
  }
}
