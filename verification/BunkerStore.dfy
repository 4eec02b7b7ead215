/**
 * What the bunker server writes to storage, one whole handler at a time:
 * requests (`Dispatch`) and decided approvals (`Approve`) against the client
 * rows and the remembered grants.
 */
module BunkerStore {
  import opened Wrappers
  import opened BunkerDispatch
  import opened BunkerPolicy
  import G = BunkerGrants

  // ---- A decided approval ----

  datatype Tap = ApproveOnce | ApproveAlways | Deny

  /** What the awaited calls of `resolveApproval` answer; `confirmed` is the authority ceremony's own template. */
  datatype ApprovalAnswers = ApprovalAnswers(
    client: Try<Option<Client>>, confirmed: Option<Template>, signed: bool, stored: Try<Option<Grant>>,
    again: Try<Option<Client>>, saved: bool)

  function NewGrant(dep: Pubkey, key: (Scope, string), d: Decision, nowS: nat): Grant {
    Grant(dep, key.0, key.1, d, None, nowS)
  }

  /** A grant is kept for the request's own scope and origin, if that scope has an origin. */
  function HeldKey(lib: Lib, held: Held): Option<(Scope, string)> {
    if held.scope.Some? && held.origin.Some? && held.origin.value != "" && lib.originScoped(held.scope.value)
    then Some((held.scope.value, held.origin.value)) else None
  }

  /**
   * `resolveApproval` for a request that is still waiting. `persists` is the library's
   * `dependantAllowAlwaysPersists`.
   */
  function Approve(lib: Lib, persists: (Option<Scope>, Option<string>, Option<Stage>) -> bool, nowS: nat,
                   route: Route, held: Held, tap: Tap, a: ApprovalAnswers): Outcome
  {
    if tap.Deny? then
      var key := HeldKey(lib, held);
      var denied := Fail("user denied");
      if route.dependant.Some? && key.Some? && a.stored.Got? && a.saved
      then denied.(grantSave := Some(NewGrant(route.dependant.value, key.value, Forbid, nowS))) else denied
    else if a.client.Threw? then NOTHING
    else if !lib.allows(PermissionsOf(a.client.value), SignEvent, Some(held.template.kind))
    then Fail("permission not granted")
    else if lib.isKinterest(held.template) then
      if a.confirmed.None? then Fail("signing failed")
      else SignAndSay(RouteKey, a.confirmed.value, a.signed)
    else
      var done := SignAndSay(RouteKey, held.template, a.signed);
      if !a.signed || !tap.ApproveAlways? then done
      else if route.dependant.Some? then
        if !persists(held.scope, held.origin, route.stage) || held.scope.None? || held.origin.None? then done
        else if a.stored.Threw? || StoredDeny(a.stored.value) || !a.saved then done
        else done.(grantSave := Some(NewGrant(route.dependant.value, (held.scope.value, held.origin.value), Allow,
                                              nowS)))
      else if a.again.Threw? || !a.saved then done
      else done.(rowSave := Some(Remembered(held.client, a.again.value, nowS)))
  }

  /** The row an owner's "Allow always" writes: its ceiling is the one already stored. */
  function Remembered(client: Pubkey, row: Option<Client>, nowS: nat): Client {
    if row.Some? then row.value.(pubkey := client, lastSeenAt := nowS, allowAlways := true)
    else Client(client, "Unknown app", nowS, nowS, true, None)
  }

  // ---- What a handler may write ----

  predicate TouchOf(save: Option<Client>, read: Try<Option<Client>>) {
    save.Some? ==> read.Got? && read.value.Some? && save.value == read.value.value.(lastSeenAt := save.value.lastSeenAt)
  }

  predicate UseOf(save: Option<Grant>, read: Try<Option<Grant>>) {
    save.Some? ==>
      && read.Got? && read.value.Some? && read.value.value.decision.Allow?
      && save.value == read.value.value.(lastUsedAt := save.value.lastUsedAt)
  }

  function Dep(route: Route): Pubkey { if route.dependant.Some? then route.dependant.value else "" }

  /** What the grant lookup of this request answers, whether or not it is made. */
  function RequestGrant(lib: Lib, route: Route, req: Request, a: Answers): Try<Option<Grant>> {
    if |req.params| > 0 && lib.parseTemplate(req.params[0]).Some? && route.dependant.Some?
    then GrantRead(lib, route, a, lib.parseTemplate(req.params[0]).value) else Got(None)
  }

  lemma CryptoWrites(lib: Lib, env: Env, route: Route, req: Request, a: Answers)
    ensures var o := Crypto(lib, env, route, req, a);
      o.grantSave.None? && !o.forgets && TouchOf(o.rowSave, a.afterCrypto)
  {
    hide Operate, Closed, TouchOf;
    OperateWrites(env, route, req, a);
  }

  lemma OperateWrites(env: Env, route: Route, req: Request, a: Answers)
    ensures var o := Operate(env, route, req, a);
      o.grantSave.None? && !o.forgets && TouchOf(o.rowSave, a.afterCrypto)
    ensures TouchOf(None, a.afterCrypto)
  {
  }

  lemma LadderWrites(lib: Lib, env: Env, route: Route, req: Request, a: Answers, t: Template, g: Option<Grant>)
    requires route.dependant.Some? && route.stage.Some?
    ensures var o := Ladder(lib, env, route, req, a, t, g); o.rowSave.None? && !o.forgets && UseOf(o.grantSave, Got(g))
  {
    hide ScopeOf, OriginOf, Closed, Climb, ScheduleOpen;
    ClimbRules(lib, env, route, t, g);
    AllowedGrant(lib, env, route, t, g);
  }

  lemma AllowedGrant(lib: Lib, env: Env, route: Route, t: Template, g: Option<Grant>)
    requires route.stage.Some?
    ensures Climb(lib, env, route, t, g).GrantAllows? ==>
      g == Some(Climb(lib, env, route, t, g).grant) && g.value.decision.Allow?
  {
    hide ScopeOf;
  }

  lemma SignWrites(lib: Lib, env: Env, route: Route, req: Request, a: Answers, t: Template)
    ensures var o := Decided(lib, env, route, req, a, t);
      && !o.forgets && TouchOf(o.rowSave, a.signClient)
      && (if route.dependant.Some? then UseOf(o.grantSave, GrantRead(lib, route, a, t)) else o.grantSave.None?)
  {
    hide Sensitive, Preauthorised, ScopeOf, OriginOf, GrantKey, Ladder;
    if route.dependant.Some? && route.stage.Some? && GrantRead(lib, route, a, t).Got? {
      LadderWrites(lib, env, route, req, a, t, GrantRead(lib, route, a, t).value);
    }
  }

  /**
   * A request writes a row only to move its `lastSeenAt`, and a grant only to move the `lastUsedAt` of an allow it
   * just read.
   */
  lemma DispatchWrites(lib: Lib, env: Env, route: Route, req: Request, a: Answers)
    ensures var o := Dispatch(lib, env, route, req, a);
      && (TouchOf(o.rowSave, a.signClient) || TouchOf(o.rowSave, a.afterCrypto))
      && UseOf(o.grantSave, RequestGrant(lib, route, req, a))
      && (o.forgets ==> req.via.Logout?)
  {
    hide Dispatch, FrontDoor, Crypto, SignEventRequest;
    if req.via.Connect? {
      ConnectDecides(lib, env, route, req, a);
    } else {
      FrontDoorDecides(lib, env, route, req, a);
      CryptoWrites(lib, env, route, req, a);
      SignEventWrites(lib, env, route, req, a);
    }
  }

  lemma SignEventWrites(lib: Lib, env: Env, route: Route, req: Request, a: Answers)
    ensures var o := SignEventRequest(lib, env, route, req, a);
      TouchOf(o.rowSave, a.signClient) && UseOf(o.grantSave, RequestGrant(lib, route, req, a)) && !o.forgets
  {
    hide SignEventRequest, Accepts, Decided, GrantRead;
    AcceptedParses(lib, env, route, req);
    if |req.params| > 0 && lib.parseTemplate(req.params[0]).Some? {
      var t := lib.parseTemplate(req.params[0]).value;
      AcceptedIsDecided(lib, env, route, req, a, t);
      SignWrites(lib, env, route, req, a, t);
    } else {
      AcceptedIsDecided(lib, env, route, req, a, Template(0, "", "", []));
    }
  }

  // ---- Runs against one store ----

  type Key = (Pubkey, Scope, string)

  datatype Store = Store(rows: map<Pubkey, Client>, grants: map<Key, Grant>)

  function RowOf(st: Store, c: Pubkey): Option<Client> { if c in st.rows then Some(st.rows[c]) else None }

  function KeyOf(g: Grant): Key { (g.dependant, g.scope, g.origin) }

  function GrantOf(st: Store, k: Key): Option<Grant> { if k in st.grants then Some(st.grants[k]) else None }

  /** A read either fails or answers what is stored. */
  function Answer<T>(read: Try<T>, stored: T): Try<T> { if read.Threw? then Threw else Got(stored) }

  function Reading(st: Store, req: Request, a: Answers): Answers {
    var row := RowOf(st, req.client);
    a.(scoped := Answer(a.scoped, row), cryptoClient := Answer(a.cryptoClient, row),
       afterCrypto := Answer(a.afterCrypto, row),
       signClient := Answer(a.signClient, row), promptClient := Answer(a.promptClient, row),
       grant := (d, s, o) => Answer(a.grant(d, s, o), GrantOf(st, (d, s, o))))
  }

  function ReadingTap(st: Store, route: Route, held: Held, a: ApprovalAnswers): ApprovalAnswers {
    var row := RowOf(st, held.client);
    a.(client := Answer(a.client, row), again := Answer(a.again, row),
       stored := Answer(a.stored, GrantOf(st, (Dep(route), Text(held.scope), Text(held.origin)))))
  }

  datatype Event =
    | Serves(env: Env, route: Route, req: Request, answers: Answers)
    | Decides(route: Route, held: Held, tap: Tap, taps: ApprovalAnswers, nowS: nat)

  function OutcomeOf(lib: Lib, persists: (Option<Scope>, Option<string>, Option<Stage>) -> bool, st: Store,
                     ev: Event): Outcome {
    match ev
    case Serves(env, route, req, a) => Dispatch(lib, env, route, req, Reading(st, req, a))
    case Decides(route, held, tap, a, nowS) =>
      Approve(lib, persists, nowS, route, held, tap, ReadingTap(st, route, held, a))
  }

  function Written(st: Store, o: Outcome, forgotten: set<Pubkey>): Store {
    var rows := if o.rowSave.Some? then st.rows[o.rowSave.value.pubkey := o.rowSave.value] else st.rows;
    Store(rows - forgotten,
          if o.grantSave.Some? then st.grants[KeyOf(o.grantSave.value) := o.grantSave.value] else st.grants)
  }

  function StepStore(lib: Lib, persists: (Option<Scope>, Option<string>, Option<Stage>) -> bool, st: Store,
                     ev: Event): Store {
    var o := OutcomeOf(lib, persists, st, ev);
    Written(st, o, if o.forgets && ev.Serves? then {ev.req.client} else {})
  }

  function RunStore(lib: Lib, persists: (Option<Scope>, Option<string>, Option<Stage>) -> bool, st: Store,
                    evs: seq<Event>): Store {
    if evs == [] then st else StepStore(lib, persists, RunStore(lib, persists, st, evs[..|evs| - 1]), evs[|evs| - 1])
  }

  /** Rows and grants are stored under their own keys. */
  ghost predicate StoreOk(st: Store) {
    && (forall c <- st.rows :: st.rows[c].pubkey == c)
    && (forall k <- st.grants :: KeyOf(st.grants[k]) == k)
  }

  predicate SameCeiling(before: Option<Client>, after: Option<Client>) {
    before.Some? ==> after.Some? && after.value.permissions == before.value.permissions
  }

  /** What a write has to be for ceilings and denials to survive it. */
  ghost predicate Mild(st: Store, o: Outcome) {
    && (o.rowSave.Some? ==> SameCeiling(RowOf(st, o.rowSave.value.pubkey), o.rowSave))
    && (o.grantSave.Some? && StoredDeny(GrantOf(st, KeyOf(o.grantSave.value))) ==> o.grantSave.value.decision.Forbid?)
  }

  lemma ServesIsMild(lib: Lib, st: Store, env: Env, route: Route, req: Request, a: Answers)
    requires StoreOk(st)
    ensures Mild(st, Dispatch(lib, env, route, req, Reading(st, req, a)))
  {
    hide Dispatch, GrantKey;
    var a' := Reading(st, req, a);
    var o := Dispatch(lib, env, route, req, a');
    DispatchWrites(lib, env, route, req, a');
    if o.grantSave.Some? {
      var key := GrantKey(lib, lib.parseTemplate(req.params[0]).value).value;
      var k := (route.dependant.value, key.0, key.1);
      assert a'.grant(k.0, k.1, k.2) == Answer(a.grant(k.0, k.1, k.2), GrantOf(st, k));
      assert KeyOf(o.grantSave.value) == k;
    }
  }

  lemma DecidesIsMild(lib: Lib, persists: (Option<Scope>, Option<string>, Option<Stage>) -> bool, st: Store,
                      route: Route, held: Held, tap: Tap, a: ApprovalAnswers, nowS: nat)
    requires StoreOk(st)
    ensures var o := Approve(lib, persists, nowS, route, held, tap, ReadingTap(st, route, held, a));
      Mild(st, o) && !o.forgets
  {
  }

  lemma StepKeeps(lib: Lib, persists: (Option<Scope>, Option<string>, Option<Stage>) -> bool, st: Store, ev: Event,
                  c: Pubkey, k: Key)
    requires StoreOk(st)
    ensures var st' := StepStore(lib, persists, st, ev);
      && StoreOk(st')
      && (!(ev.Serves? && ev.req.via.Logout? && ev.req.client == c) ==> SameCeiling(RowOf(st, c), RowOf(st', c)))
      && (StoredDeny(GrantOf(st, k)) ==> StoredDeny(GrantOf(st', k)))
  {
    hide Dispatch, Approve, Reading, ReadingTap, StoreOk, Mild;
    match ev {
      case Serves(env, route, req, a) =>
        ServesIsMild(lib, st, env, route, req, a);
        DispatchWrites(lib, env, route, req, Reading(st, req, a));
        var o := Dispatch(lib, env, route, req, Reading(st, req, a));
        MildWrites(st, o, if o.forgets then {req.client} else {}, c, k);
      case Decides(route, held, tap, a, nowS) =>
        DecidesIsMild(lib, persists, st, route, held, tap, a, nowS);
        MildWrites(st, Approve(lib, persists, nowS, route, held, tap, ReadingTap(st, route, held, a)), {}, c, k);
    }
  }

  lemma MildWrites(st: Store, o: Outcome, forgotten: set<Pubkey>, c: Pubkey, k: Key)
    requires StoreOk(st) && Mild(st, o)
    ensures var st' := Written(st, o, forgotten);
      && StoreOk(st')
      && (c !in forgotten ==> SameCeiling(RowOf(st, c), RowOf(st', c)))
      && (StoredDeny(GrantOf(st, k)) ==> StoredDeny(GrantOf(st', k)))
  {
  }

  /**
   * Over every run of requests and decided approvals: a client's saved ceiling
   * never changes while it does not log out, and a remembered deny is never
   * replaced by an allow.
   */
  lemma {:induction false} CeilingsAndDenialsLast(
    lib: Lib, persists: (Option<Scope>, Option<string>, Option<Stage>) -> bool, st: Store, evs: seq<Event>,
    c: Pubkey, k: Key)
    requires StoreOk(st)
    requires forall ev <- evs :: !(ev.Serves? && ev.req.via.Logout? && ev.req.client == c)
    ensures var st' := RunStore(lib, persists, st, evs);
      && StoreOk(st')
      && SameCeiling(RowOf(st, c), RowOf(st', c))
      && (StoredDeny(GrantOf(st, k)) ==> StoredDeny(GrantOf(st', k)))
  {
    hide StepStore, StoreOk;
    if evs != [] {
      var init := evs[..|evs| - 1];
      CeilingsAndDenialsLast(lib, persists, st, init, c, k);
      StepKeeps(lib, persists, RunStore(lib, persists, st, init), evs[|evs| - 1], c, k);
    }
  }

  /** Over a run, every owner signature made without a tap was within the ceiling stored at its start. */
  lemma {:induction false} SilentSignaturesStayInTheCeiling(
    lib: Lib, persists: (Option<Scope>, Option<string>, Option<Stage>) -> bool, st: Store, evs: seq<Event>, ev: Event,
    c: Pubkey, t: Template)
    requires StoreOk(st) && c in st.rows && forall e <- evs :: !(e.Serves? && e.req.via.Logout? && e.req.client == c)
    requires ev.Serves? && ev.req.client == c && IsOwner(ev.route)
    ensures var now := RunStore(lib, persists, st, evs);
      Considers(lib, ev.env, ev.route, ev.req, Reading(now, ev.req, ev.answers), t)
      && OutcomeOf(lib, persists, now, ev).signs != [] ==>
        && lib.allows(st.rows[c].permissions, SignEvent, Some(t.kind))
        && !Sensitive(lib, t, st.rows[c].permissions) && !lib.mismatch(ev.route.pubkey, t.pubkey)
  {
    hide Dispatch, RunStore, Sensitive, Considers;
    CeilingsAndDenialsLast(lib, persists, st, evs, c, ("", "", ""));
    var now := RunStore(lib, persists, st, evs);
    if Considers(lib, ev.env, ev.route, ev.req, Reading(now, ev.req, ev.answers), t) {
      OwnerSilentSignatures(lib, ev.env, ev.route, ev.req, Reading(now, ev.req, ev.answers), t);
    }
  }

  /** An approval signs only what the ceiling stored at that moment allows; a deny never signs. */
  lemma ApprovalsRecheckTheCeiling(
    lib: Lib, persists: (Option<Scope>, Option<string>, Option<Stage>) -> bool, st: Store, route: Route, held: Held,
    tap: Tap, a: ApprovalAnswers, nowS: nat)
    ensures var o := Approve(lib, persists, nowS, route, held, tap, ReadingTap(st, route, held, a));
      o.signs != [] <==>
        !tap.Deny? && a.client.Got?
        && lib.allows(PermissionsOf(RowOf(st, held.client)), SignEvent, Some(held.template.kind))
        && (lib.isKinterest(held.template) ==> a.confirmed.Some?)
  {
  }

  // ---- The grant writes are the pairs of BunkerGrants ----

  function DecisionOf(g: Option<Grant>): Option<Decision> { if g.Some? then Some(g.value.decision) else None }

  /** A request's grant write is the save of a `Use`: of the key it looked up, and only for an allow it read there. */
  lemma RequestsUse(lib: Lib, env: Env, route: Route, req: Request, a: Answers)
    ensures var save := Dispatch(lib, env, route, req, a).grantSave; var read := RequestGrant(lib, route, req, a);
      save.Some? ==>
        && read.Got? && G.WillSave(G.Use, DecisionOf(read.value))
        && KeyOf(save.value) == KeyOf(read.value.value) && save.value.decision == G.Written(G.Use)
  {
    hide Dispatch, RequestGrant;
    DispatchWrites(lib, env, route, req, a);
  }

  /**
   * A deny's write is the save of a `Denial` and an "always" of a dependant the save of a `Promotion`, exactly when
   * they are made.
   */
  lemma ApprovalsDenyOrPromote(
    lib: Lib, persists: (Option<Scope>, Option<string>, Option<Stage>) -> bool, nowS: nat, route: Route, held: Held,
    tap: Tap, a: ApprovalAnswers)
    ensures var save := Approve(lib, persists, nowS, route, held, tap, a).grantSave;
      && (tap.Deny? ==>
          (save.Some? <==> route.dependant.Some? && HeldKey(lib, held).Some? && a.stored.Got? && a.saved)
          && (save.Some? ==>
                G.WillSave(G.Denial, DecisionOf(a.stored.value)) && save.value.decision == G.Written(G.Denial)))
      && (!tap.Deny? && save.Some? ==>
          tap.ApproveAlways? && a.stored.Got? && G.WillSave(G.Promotion, DecisionOf(a.stored.value))
          && save.value.decision == G.Written(G.Promotion))
      && (save.Some? ==> KeyOf(save.value) == (Dep(route), Text(held.scope), Text(held.origin)))
  {
  }
}
