/**
 * The way in to the bunker server: the checks an envelope passes before it is
 * decrypted, the window of handled event ids, and the comparison of pairing
 * secrets.
 */
module BunkerIntake {
  import opened Wrappers

  const HANDLED_EVENT_IDS_CAP: nat := 1000
  const REQUEST_KIND: int := 24133

  type EventId = string

  // ---- The window of handled ids ----

  predicate Distinct(ids: seq<EventId>) { forall i, j :: 0 <= i < j < |ids| ==> ids[i] != ids[j] }

  function Last(ids: seq<EventId>, n: nat): seq<EventId> { if |ids| <= n then ids else ids[|ids| - n..] }

  /** Adding to the insertion-ordered set, and dropping the oldest past the cap. */
  function Remember(window: seq<EventId>, id: EventId): seq<EventId> {
    if id in window then window
    else
      var grown := window + [id];
      if |grown| > HANDLED_EVENT_IDS_CAP then grown[1..] else grown
  }

  /** The window and the ids handled so far, in handling order. */
  datatype Intake = Intake(window: seq<EventId>, handled: seq<EventId>)

  /** One verified envelope, or a new subscription (which touches nothing). */
  datatype Event = Envelope(id: EventId) | Resubscribes

  function Step(s: Intake, ev: Event): Intake {
    if ev.Resubscribes? || ev.id in s.window then s
    else Intake(Remember(s.window, ev.id), s.handled + [ev.id])
  }

  function Run(s: Intake, evs: seq<Event>): Intake {
    if evs == [] then s else Step(Run(s, evs[..|evs| - 1]), evs[|evs| - 1])
  }

  /** The window is the last min(n, 1000) handled ids in handling order, all distinct. */
  predicate IntakeOk(s: Intake) { s.window == Last(s.handled, HANDLED_EVENT_IDS_CAP) && Distinct(s.window) }

  lemma StepKeeps(s: Intake, ev: Event)
    requires IntakeOk(s)
    ensures IntakeOk(Step(s, ev))
  {
    if ev.Envelope? && ev.id !in s.window { LastAppend(s.handled, ev.id); }
  }

  /**
   * Over every run and every re-subscription, the window is the last
   * min(n, 1000) handled ids in handling order, all distinct.
   */
  lemma {:induction false} WindowIsTheLastHandled(evs: seq<Event>)
    ensures IntakeOk(Run(Intake([], []), evs))
  {
    if evs != [] {
      WindowIsTheLastHandled(evs[..|evs| - 1]);
      StepKeeps(Run(Intake([], []), evs[..|evs| - 1]), evs[|evs| - 1]);
    }
  }

  lemma LastAppend(ids: seq<EventId>, id: EventId)
    requires Distinct(Last(ids, HANDLED_EVENT_IDS_CAP)) && id !in Last(ids, HANDLED_EVENT_IDS_CAP)
    ensures Remember(Last(ids, HANDLED_EVENT_IDS_CAP), id) == Last(ids + [id], HANDLED_EVENT_IDS_CAP)
    ensures Distinct(Last(ids + [id], HANDLED_EVENT_IDS_CAP))
  {
  }

  /** An id handled within the last thousand is not handled again. */
  lemma {:induction false} RecentIsDropped(evs: seq<Event>, i: nat)
    requires var s := Run(Intake([], []), evs); i < |s.handled| && |s.handled| - i <= HANDLED_EVENT_IDS_CAP
    ensures var s := Run(Intake([], []), evs); Step(s, Envelope(s.handled[i])) == s
  {
    WindowIsTheLastHandled(evs);
    var s := Run(Intake([], []), evs);
    if |s.handled| > HANDLED_EVENT_IDS_CAP {
      assert s.window[i - (|s.handled| - HANDLED_EVENT_IDS_CAP)] == s.handled[i];
    }
  }

  // ---- The gates before it ----

  /** An inbound event as it comes off the relay; `verified` is what the signature check would say. */
  datatype Inbound = Inbound(id: EventId, kind: int, author: string, createdAt: int, recipients: seq<string>,
                             verified: bool)

  datatype Served = Served(pubkey: string, transportClients: set<string>)

  /** The route an event is for, when it may be handled at all; None when it is dropped before the window. */
  function RouteFor(ev: Inbound, routes: seq<Served>, nowS: int): Option<string> {
    if ev.kind != REQUEST_KIND then None
    else if ev.createdAt < nowS - 300 || ev.createdAt > nowS + 60 then None
    else if |ev.recipients| != 1 then None
    else if !(exists r <- routes :: r.pubkey == ev.recipients[0]) then None
    else if exists r <- routes :: ev.author in r.transportClients then None
    else if !ev.verified then None
    else Some(ev.recipients[0])
  }

  function Receive(s: Intake, ev: Inbound, routes: seq<Served>, nowS: int): (Intake, Option<string>) {
    var route := RouteFor(ev, routes, nowS);
    if route.None? || ev.id in s.window then (s, None) else (Step(s, Envelope(ev.id)), route)
  }

  /** An envelope off the relay, with the routes then served and the time. */
  datatype Arrival = Arrival(ev: Inbound, routes: seq<Served>, nowS: int)

  /** A fresh, verified, singly-addressed request to a served key that is not this app's own. */
  predicate Genuine(a: Arrival) {
    && a.ev.kind == REQUEST_KIND && a.nowS - 300 <= a.ev.createdAt <= a.nowS + 60 && a.ev.verified
    && |a.ev.recipients| == 1 && (exists r <- a.routes :: r.pubkey == a.ev.recipients[0])
    && (forall r <- a.routes :: a.ev.author !in r.transportClients)
  }

  /** An arrival reaches decryption, and marks its id, exactly when it is genuine and not in the window. */
  lemma OnlyGenuineRequestsAreHandled(s: Intake, a: Arrival)
    requires Distinct(s.window)
    ensures var (s', route) := Receive(s, a.ev, a.routes, a.nowS);
      && (route.Some? <==> Genuine(a) && a.ev.id !in s.window)
      && s' == (if Genuine(a) then Step(s, Envelope(a.ev.id)) else s)
      && (route.Some? ==> route.value == a.ev.recipients[0] && a.ev.id in s'.window)
  {
    var (s', route) := Receive(s, a.ev, a.routes, a.nowS);
    if route.Some? { assert s'.window[|s'.window| - 1] == a.ev.id; }
  }

  function Receiving(arrivals: seq<Arrival>): Intake {
    if arrivals == [] then Intake([], [])
    else
      var a := arrivals[|arrivals| - 1];
      Receive(Receiving(arrivals[..|arrivals| - 1]), a.ev, a.routes, a.nowS).0
  }

  /**
   * Whatever a relay sends: the ids handled are exactly those of the genuine
   * envelopes among it, and the window is the last thousand of them.
   */
  lemma {:induction false} ExactlyTheGenuineAreHandled(arrivals: seq<Arrival>)
    ensures var s := Receiving(arrivals);
      && IntakeOk(s)
      && forall id :: id in s.handled <==> exists a <- arrivals :: Genuine(a) && a.ev.id == id
  {
    if arrivals != [] {
      var init, a := arrivals[..|arrivals| - 1], arrivals[|arrivals| - 1];
      hide Genuine, Receive;
      ExactlyTheGenuineAreHandled(init);
      OnlyGenuineRequestsAreHandled(Receiving(init), a);
      StepKeeps(Receiving(init), Envelope(a.ev.id));
      assert arrivals == init + [a];
    }
  }

  // ---- Comparing secrets ----

  function At(s: seq<bv8>, i: nat): bv8 { if i < |s| then s[i] else 0 }

  lemma OrIsZero(x: bv8, y: bv8)
    ensures x | y == 0 <==> x == 0 && y == 0
  {
  }

  lemma XorIsZero(x: bv8, y: bv8)
    ensures x ^ y == 0 <==> x == y
  {
  }

  /**
   * `constantTimeStringEqual` on the encoded bytes: equal exactly when the byte
   * strings are, after as many rounds as the longer one has bytes whatever they
   * are. The accumulator starts as the exclusive-or of the lengths, of which
   * only whether it is zero matters.
   */
  method ConstantTimeEqual(a: seq<bv8>, b: seq<bv8>) returns (equal: bool, rounds: nat)
    ensures equal <==> a == b
    ensures rounds == if |a| >= |b| then |a| else |b|
  {
    var len := if |a| >= |b| then |a| else |b|;
    var diff: bv8 := if |a| == |b| then 0 else 1;
    rounds := 0;
    while rounds < len
      invariant rounds <= len
      invariant diff == 0 <==> |a| == |b| && forall i :: 0 <= i < rounds ==> At(a, i) == At(b, i)
    {
      XorIsZero(At(a, rounds), At(b, rounds));
      OrIsZero(diff, At(a, rounds) ^ At(b, rounds));
      diff := diff | (At(a, rounds) ^ At(b, rounds));
      rounds := rounds + 1;
    }
    equal := diff == 0;
    if equal {
      assert forall i :: 0 <= i < |a| ==> a[i] == At(a, i) && b[i] == At(b, i);
    }
  }

  // ---- switch_relays ----

  /** The answer to `switch_relays`; `valid` and `normal` are the library's URL check and normalisation. */
  function RelaysToSwitchTo(valid: string -> bool, normal: string -> string, persistent: Option<string>,
                            arrived: Option<string>)
    : Option<seq<string>>
  {
    if persistent.None? || !valid(persistent.value) then None
    else if arrived.Some? && normal(arrived.value) == normal(persistent.value) then None
    else Some(if arrived.Some? && valid(arrived.value) then [persistent.value, arrived.value] else [persistent.value])
  }

  /**
   * A client that replaces its relays with the answer keeps the live one and
   * gains the lasting one, on valid relays only; and when it then asks again
   * over the first relay of the answer, it is told to change nothing.
   */
  lemma SwitchingSettles(valid: string -> bool, normal: string -> string, persistent: Option<string>,
                         arrived: Option<string>)
    ensures var r := RelaysToSwitchTo(valid, normal, persistent, arrived);
      && (r.None? <==> persistent.None? || !valid(persistent.value)
                       || (arrived.Some? && normal(arrived.value) == normal(persistent.value)))
      && (r.Some? ==>
            && r.value != [] && Some(r.value[0]) == persistent && (forall u <- r.value :: valid(u))
            && (arrived.Some? && valid(arrived.value) ==> arrived.value in r.value)
            && RelaysToSwitchTo(valid, normal, persistent, Some(r.value[0])).None?)
  {
  }
}
