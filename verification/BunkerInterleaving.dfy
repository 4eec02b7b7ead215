/**
 * The handlers that write remembered grants, interleaved at their awaits: each
 * looks one grant up, and what it then decides to save lands some time later,
 * or never. Every such interleaving is a run of the grants machine.
 */
module BunkerInterleaving {
  import opened Wrappers
  import opened BunkerDispatch
  import opened BunkerPolicy
  import opened BunkerStore
  import opened BunkerCases
  import G = BunkerGrants

  type Persists = (Option<Scope>, Option<string>, Option<Stage>) -> bool

  /** A save a handler has decided on, and why. */
  datatype Pending = Pending(grant: Grant, purpose: G.Purpose)

  datatype World = World(grants: map<Key, Grant>, pending: map<nat, Pending>)

  /**
   * A handler at its lookup. The other calls it awaits may answer anything,
   * before or after; only the grant is what is stored at this moment.
   */
  datatype Event =
    | Requests(handler: nat, env: Env, route: Route, req: Request, answers: Answers)
    | Taps(handler: nat, tapRoute: Route, held: Held, tap: Tap, taps: ApprovalAnswers, nowS: nat)
    | Lands(handler: nat)
    | Quits(handler: nat)

  function Now(w: World): Store { Store(map[], w.grants) }

  function Looking(w: World, a: Answers): Answers {
    a.(grant := (d, s, o) => Answer(a.grant(d, s, o), GrantOf(Now(w), (d, s, o))))
  }

  function HeldAt(route: Route, held: Held): Key { (Dep(route), Text(held.scope), Text(held.origin)) }

  function LookingTap(w: World, route: Route, held: Held, a: ApprovalAnswers): ApprovalAnswers {
    a.(stored := Answer(a.stored, GrantOf(Now(w), HeldAt(route, held))))
  }

  function Decides(lib: Lib, persists: Persists, w: World, ev: Event): Option<Grant>
    requires ev.Requests? || ev.Taps?
  {
    match ev
    case Requests(_, env, route, req, a) => Dispatch(lib, env, route, req, Looking(w, a)).grantSave
    case Taps(_, route, held, tap, a, nowS) =>
      Approve(lib, persists, nowS, route, held, tap, LookingTap(w, route, held, a)).grantSave
  }

  function PurposeOf(ev: Event): G.Purpose {
    if !ev.Taps? then G.Use else if ev.tap.Deny? then G.Denial else G.Promotion
  }

  function Step(lib: Lib, persists: Persists, w: World, ev: Event): World {
    match ev
    case Lands(h) =>
      if h !in w.pending then w
      else World(w.grants[KeyOf(w.pending[h].grant) := w.pending[h].grant], w.pending - {h})
    case Quits(h) => w.(pending := w.pending - {h})
    case _ =>
      var save := Decides(lib, persists, w, ev);
      if ev.handler in w.pending || save.None? then w
      else w.(pending := w.pending[ev.handler := Pending(save.value, PurposeOf(ev))])
  }

  function Run(lib: Lib, persists: Persists, w: World, evs: seq<Event>): World
    decreases |evs|
  {
    if evs == [] then w else Run(lib, persists, Step(lib, persists, w, evs[0]), evs[1..])
  }

  // ---- The grants machine it is a run of ----

  function View(w: World): G.State {
    G.State(map k | k in w.grants :: w.grants[k].decision,
            map h | h in w.pending :: G.Pair(KeyOf(w.pending[h].grant), w.pending[h].purpose))
  }

  /** A handler that decides to save nothing has, for the grants, done nothing. */
  function Seen(lib: Lib, persists: Persists, w: World, ev: Event): G.Event {
    match ev
    case Lands(h) => G.Saves(h, true)
    case Quits(h) => G.Leaves(h)
    case _ =>
      var save := Decides(lib, persists, w, ev);
      if save.None? then G.Looks(ev.handler, ("", "", ""), PurposeOf(ev), false)
      else G.Looks(ev.handler, KeyOf(save.value), PurposeOf(ev), true)
  }

  function SeenRun(lib: Lib, persists: Persists, w: World, evs: seq<Event>): seq<G.Event>
    decreases |evs|
  {
    if evs == [] then []
    else [Seen(lib, persists, w, evs[0])] + SeenRun(lib, persists, Step(lib, persists, w, evs[0]), evs[1..])
  }

  /** Grants lie under their own keys, and a pending save writes what its purpose says. */
  ghost predicate WorldOk(w: World) {
    && (forall k <- w.grants :: KeyOf(w.grants[k]) == k)
    && (forall h <- w.pending :: w.pending[h].grant.decision == G.Written(w.pending[h].purpose))
  }

  lemma RequestSaves(lib: Lib, w: World, env: Env, route: Route, req: Request, a: Answers)
    requires WorldOk(w)
    ensures var save := Dispatch(lib, env, route, req, Looking(w, a)).grantSave;
      save.Some? ==>
        G.WillSave(G.Use, G.Stored(View(w), KeyOf(save.value))) && save.value.decision == G.Written(G.Use)
  {
    hide Dispatch, GrantKey;
    var a' := Looking(w, a);
    RequestsUse(lib, env, route, req, a');
    if Dispatch(lib, env, route, req, a').grantSave.Some? {
      var key := GrantKey(lib, lib.parseTemplate(req.params[0]).value).value;
      var k := (route.dependant.value, key.0, key.1);
      assert a'.grant(k.0, k.1, k.2) == Answer(a.grant(k.0, k.1, k.2), GrantOf(Now(w), k));
    }
  }

  lemma TapSaves(lib: Lib, persists: Persists, w: World, ev: Event)
    requires WorldOk(w) && ev.Taps?
    ensures var save := Decides(lib, persists, w, ev);
      save.Some? ==>
        && G.WillSave(PurposeOf(ev), G.Stored(View(w), KeyOf(save.value)))
        && save.value.decision == G.Written(PurposeOf(ev))
  {
    hide Approve;
    ApprovalsDenyOrPromote(lib, persists, ev.nowS, ev.tapRoute, ev.held, ev.tap,
                           LookingTap(w, ev.tapRoute, ev.held, ev.taps));
  }

  /** Every step of the handlers is a step of the grants machine. */
  lemma StepSimulates(lib: Lib, persists: Persists, w: World, ev: Event)
    requires WorldOk(w)
    ensures WorldOk(Step(lib, persists, w, ev))
    ensures View(Step(lib, persists, w, ev)) == G.Step(View(w), Seen(lib, persists, w, ev))
  {
    hide Decides, View, WorldOk, G.WillSave, G.Step;
    if ev.Lands? {
      if ev.handler in w.pending { LandView(w, ev.handler); }
      LandAtGrants(w, ev.handler);
    } else if ev.Quits? {
      QuitView(w, ev.handler);
    } else {
      HandlerSaves(lib, persists, w, ev);
      var save := Decides(lib, persists, w, ev);
      if save.Some? { LookView(w, ev.handler, Pending(save.value, PurposeOf(ev))); }
      else { NoLook(w, ev.handler, PurposeOf(ev)); }
    }
  }

  lemma HandlerSaves(lib: Lib, persists: Persists, w: World, ev: Event)
    requires WorldOk(w) && (ev.Requests? || ev.Taps?)
    ensures var save := Decides(lib, persists, w, ev);
      save.Some? ==>
        && G.WillSave(PurposeOf(ev), G.Stored(View(w), KeyOf(save.value)))
        && save.value.decision == G.Written(PurposeOf(ev))
  {
    hide Dispatch, Approve, View, WorldOk, G.WillSave;
    if ev.Requests? {
      RequestSaves(lib, w, ev.env, ev.route, ev.req, ev.answers);
    } else {
      TapSaves(lib, persists, w, ev);
    }
  }

  lemma NoLook(w: World, h: nat, purpose: G.Purpose)
    ensures G.Step(View(w), G.Looks(h, ("", "", ""), purpose, false)) == View(w)
  {
  }

  lemma LookView(w: World, h: nat, p: Pending)
    requires WorldOk(w) && p.grant.decision == G.Written(p.purpose)
    requires G.WillSave(p.purpose, G.Stored(View(w), KeyOf(p.grant)))
    ensures var w' := if h in w.pending then w else w.(pending := w.pending[h := p]);
      WorldOk(w') && View(w') == G.Step(View(w), G.Looks(h, KeyOf(p.grant), p.purpose, true))
  {
  }

  lemma LandView(w: World, h: nat)
    requires WorldOk(w) && h in w.pending
    ensures var g := w.pending[h].grant; var w' := World(w.grants[KeyOf(g) := g], w.pending - {h});
      WorldOk(w') && View(w') == G.Step(View(w), G.Saves(h, true))
  {
  }

  lemma LandAtGrants(w: World, h: nat)
    ensures h !in w.pending ==> G.Step(View(w), G.Saves(h, true)) == View(w)
  {
  }

  lemma QuitView(w: World, h: nat)
    requires WorldOk(w)
    ensures var w' := w.(pending := w.pending - {h}); WorldOk(w') && View(w') == G.Step(View(w), G.Leaves(h))
  {
  }

  /**
   * Every interleaving of requests and taps at their awaits, saves that land or
   * fail included, is a run of the grants machine.
   */
  lemma {:induction false} EveryInterleavingIsARun(lib: Lib, persists: Persists, w: World, evs: seq<Event>)
    requires WorldOk(w)
    ensures var w' := Run(lib, persists, w, evs);
      WorldOk(w') && View(w') == G.Run(View(w), SeenRun(lib, persists, w, evs))
    decreases |evs|
  {
    if evs != [] {
      hide Step, View, WorldOk, Seen;
      var w1 := Step(lib, persists, w, evs[0]);
      StepSimulates(lib, persists, w, evs[0]);
      EveryInterleavingIsARun(lib, persists, w1, evs[1..]);
      var seen := SeenRun(lib, persists, w, evs);
      assert seen[0] == Seen(lib, persists, w, evs[0]) && seen[1..] == SeenRun(lib, persists, w1, evs[1..]);
    }
  }

  predicate Forbidden(w: World, k: Key) { StoredDeny(GrantOf(Now(w), k)) }

  /** Some handler has decided to save an allow under this key. */
  predicate AllowPending(w: World, k: Key) {
    exists h <- w.pending :: KeyOf(w.pending[h].grant) == k && w.pending[h].grant.decision.Allow?
  }

  /**
   * The guardian's "deny" holds over every interleaving of the handlers exactly
   * when none of them has already decided to save an allow under its key.
   */
  lemma ADenyHoldsIff(lib: Lib, persists: Persists, w: World, k: Key)
    requires WorldOk(w) && Forbidden(w, k)
    ensures (forall evs :: Forbidden(Run(lib, persists, w, evs), k)) <==> !AllowPending(w, k)
  {
    hide View, WorldOk, Forbidden, G.Denied, G.Threatened;
    if AllowPending(w, k) {
      var evs := PendingLands(lib, persists, w, k);
      assert !Forbidden(Run(lib, persists, w, evs), k);
    } else {
      Unthreatened(w, k);
      forall evs ensures Forbidden(Run(lib, persists, w, evs), k) {
        EveryInterleavingIsARun(lib, persists, w, evs);
        G.UnthreatenedStaysDenied(View(w), SeenRun(lib, persists, w, evs), k);
        ForbiddenIsDenied(Run(lib, persists, w, evs), k);
      }
    }
  }

  lemma PendingLands(lib: Lib, persists: Persists, w: World, k: Key) returns (evs: seq<Event>)
    requires AllowPending(w, k)
    ensures !Forbidden(Run(lib, persists, w, evs), k)
  {
    hide Decides;
    var h :| h in w.pending && KeyOf(w.pending[h].grant) == k && w.pending[h].grant.decision.Allow?;
    evs := [Lands(h)];
    assert Run(lib, persists, w, evs) == Run(lib, persists, Step(lib, persists, w, evs[0]), []);
  }

  lemma ForbiddenIsDenied(w: World, k: Key)
    ensures Forbidden(w, k) <==> G.Denied(View(w), k)
  {
  }

  lemma Unthreatened(w: World, k: Key)
    requires WorldOk(w) && Forbidden(w, k) && !AllowPending(w, k)
    ensures G.Denied(View(w), k) && !G.Threatened(View(w), k)
  {
  }

  // ---- A run of handlers in which a deny is lost ----

  /** One site's sign-in is remembered as allowed, and nothing is under way. */
  function Remembering(): World { World(map[Site() := StoredGrant()], map[]) }

  function Site(): Key { ("child", "sign-in", "https://site.example") }

  /** A child's client asks for a signature and reads the remembered allow. */
  function Asks(): Event { Requests(0, Serving(), ChildRoute(), Sign("phone"), WritesFail().(saved := true)) }

  /** The guardian denies a request of the same site. */
  function Denies(): Event {
    Taps(1, ChildRoute(), Held("phone", Hello(), Some("sign-in"), Some("https://site.example")), Deny,
         ApprovalAnswers(Got(None), None, true, Got(None), Got(None), true), 1_000)
  }

  lemma LooksAtTheAllow()
    ensures Looking(Remembering(), Asks().answers).grant("child", "sign-in", "https://site.example")
            == Got(Some(StoredGrant()))
  {
    var a := Asks().answers;
    assert a.grant("child", "sign-in", "https://site.example").Got?;
    assert GrantOf(Now(Remembering()), Site()) == Some(StoredGrant());
  }

  lemma AsksIsConsidered(a: Answers)
    requires a.scoped == WritesFail().scoped && a.gate == WritesFail().gate
    ensures Considers(Permissive(), Serving(), ChildRoute(), Sign("phone"), a, Hello())
  {
  }

  lemma AsksClimbs()
    ensures GrantKey(Permissive(), Hello()) == Some(("sign-in", "https://site.example"))
    ensures Climb(Permissive(), Serving(), ChildRoute(), Hello(), Some(StoredGrant())) == GrantAllows(StoredGrant())
  {
  }

  lemma AsksUsesTheAllow(a: Answers)
    requires a.grant("child", "sign-in", "https://site.example") == Got(Some(StoredGrant()))
    requires a.signed && a.saved
    ensures SignDependant(Permissive(), Serving(), ChildRoute(), Sign("phone"), a, Hello()).grantSave
            == Some(StoredGrant().(lastUsedAt := 1_000))
  {
    hide GrantKey, Climb, Permissive;
    AsksClimbs();
  }

  lemma AsksDecides(persists: Persists)
    ensures Decides(Permissive(), persists, Remembering(), Asks()) == Some(StoredGrant().(lastUsedAt := 1_000))
  {
    hide Dispatch, Considers, SignDependant, SignOwner, SignGated, Permissive;
    var a := Looking(Remembering(), Asks().answers);
    LooksAtTheAllow();
    AsksIsConsidered(a);
    AsksUsesTheAllow(a);
    ConsideredIsDecided(Permissive(), Serving(), ChildRoute(), Sign("phone"), a, Hello());
  }

  lemma DeniesDecides(persists: Persists, w: World)
    ensures Decides(Permissive(), persists, w, Denies()) == Some(NewDeny())
  {
  }

  function Using(): Pending { Pending(StoredGrant().(lastUsedAt := 1_000), G.Use) }

  function NewDeny(): Grant { Grant("child", "sign-in", "https://site.example", Forbid, None, 1_000) }

  lemma StaleSteps(persists: Persists)
    ensures Step(Permissive(), persists, Remembering(), Asks()) == World(Remembering().grants, map[0 := Using()])
    ensures var w := World(Remembering().grants, map[0 := Using()]);
      Step(Permissive(), persists, w, Denies()) == World(w.grants, map[0 := Using(), 1 := Pending(NewDeny(), G.Denial)])
    ensures var w := World(Remembering().grants, map[0 := Using(), 1 := Pending(NewDeny(), G.Denial)]);
      Step(Permissive(), persists, w, Lands(1)) == World(map[Site() := NewDeny()], map[0 := Using()])
    ensures var w := World(map[Site() := NewDeny()], map[0 := Using()]);
      Step(Permissive(), persists, w, Lands(0)) == World(map[Site() := Using().grant], map[])
  {
    hide Decides, Permissive;
    AsksDecides(persists);
    DeniesDecides(persists, World(Remembering().grants, map[0 := Using()]));
  }

  /**
   * The guardian denies a site while a request that read its remembered allow
   * is still being answered: the deny is stored, an allow is pending on it, and
   * once that lands the site is allowed again.
   */
  lemma AStaleAllowOverwritesADeny(persists: Persists)
    ensures var w := Run(Permissive(), persists, Remembering(), [Asks(), Denies(), Lands(1)]);
      Forbidden(w, Site()) && AllowPending(w, Site())
    ensures var w := Run(Permissive(), persists, Remembering(), [Asks(), Denies(), Lands(1), Lands(0)]);
      GrantOf(Now(w), Site()) == Some(StoredGrant().(lastUsedAt := 1_000))
  {
    hide Step, Permissive;
    StaleSteps(persists);
    var w1 := Step(Permissive(), persists, Remembering(), Asks());
    var w2 := Step(Permissive(), persists, w1, Denies());
    var w3 := Step(Permissive(), persists, w2, Lands(1));
    var w4 := Step(Permissive(), persists, w3, Lands(0));
    RunSplits(Permissive(), persists, Remembering(), [], Asks());
    RunSplits(Permissive(), persists, Remembering(), [Asks()], Denies());
    RunSplits(Permissive(), persists, Remembering(), [Asks(), Denies()], Lands(1));
    RunSplits(Permissive(), persists, Remembering(), [Asks(), Denies(), Lands(1)], Lands(0));
    assert [] + [Asks()] == [Asks()] && [Asks()] + [Denies()] == [Asks(), Denies()];
    assert [Asks(), Denies()] + [Lands(1)] == [Asks(), Denies(), Lands(1)];
    assert [Asks(), Denies(), Lands(1)] + [Lands(0)] == [Asks(), Denies(), Lands(1), Lands(0)];
    assert w3.pending[0] == Using();
  }

  lemma {:induction false} RunSplits(lib: Lib, persists: Persists, w: World, evs: seq<Event>, ev: Event)
    ensures Run(lib, persists, w, evs + [ev]) == Step(lib, persists, Run(lib, persists, w, evs), ev)
    decreases |evs|
  {
    if evs == [] {
      assert Run(lib, persists, w, [ev]) == Run(lib, persists, Step(lib, persists, w, ev), [ev][1..]);
    } else {
      assert (evs + [ev])[1..] == evs[1..] + [ev];
      RunSplits(lib, persists, Step(lib, persists, w, evs[0]), evs[1..], ev);
    }
  }
}
