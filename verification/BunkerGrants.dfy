/**
 * Remembered grants at await granularity: every write of a grant is a lookup
 * and, some awaits later, a save, and the handlers of different requests
 * interleave between the two.
 */
module BunkerGrants {
  import opened Wrappers
  import opened BunkerDispatch

  type Key = (Pubkey, Scope, string)

  /** Who looked the grant up: a request that may use it, a guardian's deny, or an "always". */
  datatype Purpose = Use | Denial | Promotion

  /** A handler between its lookup and its save. */
  datatype Pair = Pair(key: Key, purpose: Purpose)

  datatype State = State(store: map<Key, Decision>, pairs: map<nat, Pair>)

  datatype Event =
    | Looks(handler: nat, key: Key, purpose: Purpose, ok: bool)
    | Saves(handler: nat, ok: bool)
    | Leaves(handler: nat)

  function Stored(s: State, k: Key): Option<Decision> { if k in s.store then Some(s.store[k]) else None }

  /** Whether a handler that read this goes on to write: a use touches an allow, a promotion spares a deny. */
  predicate WillSave(purpose: Purpose, read: Option<Decision>) {
    match purpose
    case Use => read == Some(Allow)
    case Denial => true
    case Promotion => read != Some(Forbid)
  }

  function Written(purpose: Purpose): Decision { if purpose.Denial? then Forbid else Allow }

  function Step(s: State, ev: Event): State {
    match ev
    case Looks(h, k, purpose, ok) =>
      if h in s.pairs || !ok || !WillSave(purpose, Stored(s, k)) then s else s.(pairs := s.pairs[h := Pair(k, purpose)])
    case Saves(h, ok) =>
      if h !in s.pairs then s
      else State(if ok then s.store[s.pairs[h].key := Written(s.pairs[h].purpose)] else s.store, s.pairs - {h})
    case Leaves(h) => s.(pairs := s.pairs - {h})
  }

  function Run(s: State, evs: seq<Event>): State
    decreases |evs|
  {
    if evs == [] then s else Run(Step(s, evs[0]), evs[1..])
  }

  predicate Denied(s: State, k: Key) { Stored(s, k) == Some(Forbid) }

  /** Some handler read the grant before it was denied and has yet to write an allow. */
  predicate Threatened(s: State, k: Key) {
    exists h <- s.pairs :: s.pairs[h].key == k && !s.pairs[h].purpose.Denial?
  }

  /** Once denied, no later lookup opens such a pair: only handlers already under way threaten the deny. */
  lemma DenyEndsTheThreat(s: State, ev: Event, k: Key)
    requires Denied(s, k) && Threatened(Step(s, ev), k)
    ensures Threatened(s, k)
  {
  }

  lemma {:induction false} UnthreatenedStaysDenied(s: State, evs: seq<Event>, k: Key)
    requires Denied(s, k) && !Threatened(s, k)
    ensures Denied(Run(s, evs), k)
    decreases |evs|
  {
    if evs != [] {
      var s' := Step(s, evs[0]);
      if Threatened(s', k) { DenyEndsTheThreat(s, evs[0], k); }
      UnthreatenedStaysDenied(s', evs[1..], k);
    }
  }

  lemma ThreatenedCanFlip(s: State, k: Key) returns (evs: seq<Event>)
    requires Threatened(s, k)
    ensures !Denied(Run(s, evs), k)
  {
    var h :| h in s.pairs && s.pairs[h].key == k && !s.pairs[h].purpose.Denial?;
    evs := [Saves(h, true)];
    assert Run(s, evs) == Run(Step(s, evs[0]), []);
  }

  /**
   * A remembered deny is sticky over every continuation exactly when no
   * handler is between a lookup of that key and the allow it is about to save.
   */
  lemma DenyIsStickyIff(s: State, k: Key)
    requires Denied(s, k)
    ensures (forall evs :: Denied(Run(s, evs), k)) <==> !Threatened(s, k)
  {
    if Threatened(s, k) {
      var evs := ThreatenedCanFlip(s, k);
      assert !Denied(Run(s, evs), k);
    } else {
      forall evs ensures Denied(Run(s, evs), k) { UnthreatenedStaysDenied(s, evs, k); }
    }
  }

  // ---- A run in which a deny is lost ----

  lemma {:induction false} Then(s: State, evs: seq<Event>, ev: Event)
    ensures Run(s, evs + [ev]) == Step(Run(s, evs), ev)
    decreases |evs|
  {
    if evs != [] {
      assert (evs + [ev])[1..] == evs[1..] + [ev];
      Then(Step(s, evs[0]), evs[1..], ev);
    }
  }

  /**
   * From a remembered allow and nothing under way: a request reads the allow,
   * the guardian's deny is looked up and saved, and then the request saves what
   * it read. In between the key is denied and threatened; at the end it allows.
   */
  lemma AStaleAllowOverwritesADeny(k: Key)
    ensures var evs := [Looks(0, k, Use, true), Looks(1, k, Denial, true)] + [Saves(1, true)];
      var s := Run(State(map[k := Allow], map[]), evs);
      && Denied(s, k) && Threatened(s, k)
      && Stored(Run(State(map[k := Allow], map[]), evs + [Saves(0, true)]), k) == Some(Allow)
  {
    hide Step;
    var s0 := State(map[k := Allow], map[]);
    var s1 := Step(s0, Looks(0, k, Use, true));
    var s2 := Step(s1, Looks(1, k, Denial, true));
    var s3 := Step(s2, Saves(1, true));
    StaleSteps(k);
    Then(s0, [], Looks(0, k, Use, true));
    Then(s0, [Looks(0, k, Use, true)], Looks(1, k, Denial, true));
    assert [] + [Looks(0, k, Use, true)] == [Looks(0, k, Use, true)];
    assert [Looks(0, k, Use, true)] + [Looks(1, k, Denial, true)]
        == [Looks(0, k, Use, true), Looks(1, k, Denial, true)];
    Then(s0, [Looks(0, k, Use, true), Looks(1, k, Denial, true)], Saves(1, true));
    Then(s0, [Looks(0, k, Use, true), Looks(1, k, Denial, true)] + [Saves(1, true)], Saves(0, true));
    assert s3.pairs[0] == Pair(k, Use);
  }

  lemma StaleSteps(k: Key)
    ensures var s0 := State(map[k := Allow], map[]);
      var s2 := Step(Step(s0, Looks(0, k, Use, true)), Looks(1, k, Denial, true));
      var s3 := Step(s2, Saves(1, true));
      && s3.store == map[k := Forbid] && s3.pairs == map[0 := Pair(k, Use)]
      && Stored(Step(s3, Saves(0, true)), k) == Some(Allow)
  {
  }
}
