/** What holds of every dispatch: one answer, the owner ceiling and the dependant policy rule. */
module BunkerPolicy {
  import opened Wrappers
  import opened BunkerDispatch

  // ---- One answer per request ----

  /** Past every check that comes before the method. */
  predicate FrontDoor(lib: Lib, env: Env, route: Route, req: Request, a: Answers) {
    && (IsOwner(route) ==> env.serving) && a.scoped.Got?
    && lib.allows(PermissionsOf(a.scoped.value), req.via, RequestedKind(lib, req))
    && !AsksTooMuch(lib, req, PermissionsOf(a.scoped.value))
    && (route.dependant.Some? ==> IsPaired(env, route, req, a))
  }

  /** A `sign_event` whose template is accepted for a decision, on this route and now. */
  predicate Accepts(lib: Lib, env: Env, route: Route, req: Request, t: Template) {
    && (route.dependant.Some? ==> lib.withinRate(env.recent, env.now))
    && env.queued < PENDING_APPROVALS_CAP
    && |req.params| > 0 && lib.parseTemplate(req.params[0]) == Some(t)
    && (lib.isKinterest(t) ==>
        && route.dependant.None? && lib.parseKinterest(t).Some? && env.authority == Some(route.pubkey)
        && (lib.parseKinterest(t).value.child.Some? ==> lib.childNamed(lib.parseKinterest(t).value.child.value)))
  }

  predicate Considers(lib: Lib, env: Env, route: Route, req: Request, a: Answers, t: Template) {
    req.via.SignEvent? && FrontDoor(lib, env, route, req, a) && Accepts(lib, env, route, req, t)
  }

  /** A silent operation on an owner route whose client may do it. */
  predicate OwnerOperates(lib: Lib, req: Request, a: Answers) {
    var owner := if a.cryptoClient.Got? then a.cryptoClient.value else None;
    lib.allows(PermissionsOf(owner), req.via, None) && lib.cryptoAuthorised(owner)
  }

  predicate OwnerSignsSilently(lib: Lib, route: Route, a: Answers, t: Template) {
    && !lib.mismatch(route.pubkey, t.pubkey) && a.signClient.Got? && a.signClient.value.Some?
    && var row := a.signClient.value.value;
       row.allowAlways && lib.allows(row.permissions, SignEvent, Some(t.kind)) && !Sensitive(lib, t, row.permissions)
  }

  /** What the grant lookup of this request answered; no lookup reads as "nothing stored". */
  function GrantRead(lib: Lib, route: Route, a: Answers, t: Template): Try<Option<Grant>>
    requires route.dependant.Some?
  {
    var key := GrantKey(lib, t);
    if key.None? then Got(None) else a.grant(route.dependant.value, key.value.0, key.value.1)
  }

  predicate ScheduleOpen(lib: Lib, env: Env, route: Route, grant: Option<Grant>) {
    var effective := lib.intersect(if grant.Some? then grant.value.schedule else None, route.schedule);
    effective.None? || lib.isWithin(effective.value, env.now)
  }

  predicate StoredAllow(grant: Option<Grant>, stage: Stage) {
    grant.Some? && grant.value.decision.Allow? && stage != FullControl
  }

  predicate StoredDeny(grant: Option<Grant>) { grant.Some? && grant.value.decision.Forbid? }

  /** A read that no `catch` guards, on the path this request takes, was rejected. */
  predicate Unanswered(lib: Lib, env: Env, route: Route, req: Request, a: Answers) {
    || ((IsOwner(route) ==> env.serving) && a.scoped.Threw?)
    || (FrontDoor(lib, env, route, req, a) && route.gated && a.gate.Threw?
        && (req.via.Nip44Encrypt? || req.via.Nip44Decrypt?) && |req.params| > 1 && lib.isHexKey(req.params[0]))
    || (req.via.SignEvent? && |req.params| > 0 && lib.parseTemplate(req.params[0]).Some?
        && var t := lib.parseTemplate(req.params[0]).value;
           Considers(lib, env, route, req, a, t) && UnansweredSign(lib, route, req, a, t))
  }

  predicate UnansweredSign(lib: Lib, route: Route, req: Request, a: Answers, t: Template) {
    if route.gated then !lib.mismatch(route.signingPubkey, t.pubkey) && a.gate.Threw?
    else if route.dependant.Some? then
      route.stage.Some? && !Preauthorised(route, req, a, t) && GrantRead(lib, route, a, t).Threw?
    else !lib.mismatch(route.pubkey, t.pubkey)
         && (a.signClient.Threw?
             || (lib.allows(PermissionsOf(a.signClient.value), SignEvent, Some(t.kind))
                 && !OwnerSignsSilently(lib, route, a, t) && a.promptClient.Threw?))
  }

  /** The reply went out and the write after it, inside the same `try`, was rejected. */
  predicate AnsweredTwice(lib: Lib, env: Env, route: Route, req: Request, a: Answers) {
    || (IsCrypto(req.via) && FrontDoor(lib, env, route, req, a) && IsOwner(route)
        && |req.params| > 1 && lib.isHexKey(req.params[0]) && OwnerOperates(lib, req, a)
        && (req.via.Nip04Encrypt? || req.via.Nip04Decrypt? ==> route.hasNip04) && a.crypted
        && (a.afterCrypto.Threw? || (a.afterCrypto.value.Some? && !a.saved)))
    || (req.via.SignEvent? && |req.params| > 0 && lib.parseTemplate(req.params[0]).Some?
        && var t := lib.parseTemplate(req.params[0]).value;
           Considers(lib, env, route, req, a, t) && AnsweredTwiceSign(lib, env, route, req, a, t))
  }

  predicate AnsweredTwiceSign(lib: Lib, env: Env, route: Route, req: Request, a: Answers, t: Template) {
    && a.signed && !a.saved && !route.gated
    && if route.dependant.None? then OwnerSignsSilently(lib, route, a, t)
       else route.stage.Some? && !Preauthorised(route, req, a, t) && GrantRead(lib, route, a, t).Got?
            && var g := GrantRead(lib, route, a, t).value;
               StoredAllow(g, route.stage.value) && ScheduleOpen(lib, env, route, g)
  }

  predicate OnlyReplies(o: Outcome) {
    |o.replies| == 1 && !o.shown && o.held.None? && o.signs == [] && o.grantSave.None? && o.rowSave.None?
  }

  lemma AcceptedIsDecided(lib: Lib, env: Env, route: Route, req: Request, a: Answers, t: Template)
    ensures Accepts(lib, env, route, req, t) ==>
      SignEventRequest(lib, env, route, req, a) == Decided(lib, env, route, req, a, t)
    ensures (forall u :: !Accepts(lib, env, route, req, u)) ==>
              OnlyReplies(SignEventRequest(lib, env, route, req, a))
              && !SignEventRequest(lib, env, route, req, a).forgets
  {
    hide Decided;
    if Objection(lib, env, route, req).None? {
      assert Accepts(lib, env, route, req, lib.parseTemplate(req.params[0]).value);
    }
  }

  /** What the front door does: the method's own handler, one refusal, or silence when its one read was rejected. */
  lemma FrontDoorDecides(lib: Lib, env: Env, route: Route, req: Request, a: Answers)
    requires !req.via.Connect?
    ensures var o := Dispatch(lib, env, route, req, a);
      if FrontDoor(lib, env, route, req, a) then
        && (req.via.SignEvent? ==> o == SignEventRequest(lib, env, route, req, a))
        && (IsCrypto(req.via) ==> o == Crypto(lib, env, route, req, a))
        && (!req.via.SignEvent? && !IsCrypto(req.via) ==> OnlyReplies(o) && (o.forgets ==> req.via.Logout?))
      else if (IsOwner(route) ==> env.serving) && a.scoped.Threw? then o == NOTHING
      else OnlyReplies(o) && !o.forgets
  {
  }

  lemma ConnectReplies(lib: Lib, env: Env, route: Route, req: Request, a: Answers)
    ensures var o := ConnectOwner(lib, env, route, req, a); OnlyReplies(o) && !o.forgets
    ensures route.dependant.Some? ==> var o := ConnectDependant(lib, env, route, req, a); OnlyReplies(o) && !o.forgets
  {
  }

  lemma ConnectDecides(lib: Lib, env: Env, route: Route, req: Request, a: Answers)
    requires req.via.Connect?
    ensures var o := Dispatch(lib, env, route, req, a);
      if (IsOwner(route) ==> env.serving) && a.scoped.Threw? then o == NOTHING else OnlyReplies(o) && !o.forgets
  {
    hide IsPaired, AsksTooMuch, ConnectOwner, ConnectDependant;
    ConnectReplies(lib, env, route, req, a);
  }

  lemma ScopedRead(lib: Lib, env: Env, route: Route, req: Request, a: Answers)
    ensures FrontDoor(lib, env, route, req, a) ==> a.scoped.Got? && (IsOwner(route) ==> env.serving)
  {
  }

  lemma OperateAnswers(env: Env, route: Route, req: Request, a: Answers)
    ensures var o := Operate(env, route, req, a);
      && !o.shown && o.held.None? && o.signs == [] && o.grantSave.None?
      && |o.replies| == if route.dependant.None? && (req.via.Nip04Encrypt? || req.via.Nip04Decrypt? ==> route.hasNip04)
                           && a.crypted && (a.afterCrypto.Threw? || (a.afterCrypto.value.Some? && !a.saved))
                        then 2 else 1
  {
  }

  lemma CryptoAnswers(lib: Lib, env: Env, route: Route, req: Request, a: Answers)
    requires IsCrypto(req.via) && FrontDoor(lib, env, route, req, a)
    ensures var o := Crypto(lib, env, route, req, a); !o.shown && o.held.None? && o.signs == [] && o.grantSave.None?
    ensures Terminals(Crypto(lib, env, route, req, a)) ==
            if Unanswered(lib, env, route, req, a) then 0 else if AnsweredTwice(lib, env, route, req, a) then 2 else 1
  {
    hide FrontDoor, Considers, UnansweredSign, Operate, Closed;
    ScopedRead(lib, env, route, req, a);
    OperateAnswers(env, route, req, a);
  }

  predicate AnswersOnce(lib: Lib, env: Env, route: Route, req: Request, a: Answers, t: Template, o: Outcome) {
    && Terminals(o) == (if UnansweredSign(lib, route, req, a, t) then 0
                        else if AnsweredTwiceSign(lib, env, route, req, a, t) then 2 else 1)
    && (o.shown ==> o.replies == [] && o.held.Some?) && |o.signs| <= 1
  }

  lemma GatedAnswers(lib: Lib, env: Env, route: Route, req: Request, a: Answers, t: Template)
    requires route.gated
    ensures AnswersOnce(lib, env, route, req, a, t, SignGated(lib, route, req, a, t))
  {
  }

  lemma OwnerAnswers(lib: Lib, env: Env, route: Route, req: Request, a: Answers, t: Template)
    requires IsOwner(route)
    ensures AnswersOnce(lib, env, route, req, a, t, SignOwner(lib, env, route, req, a, t))
  {
  }

  /** Which rung a stored grant, the schedules and the stage lead to, whatever order they are looked at in. */
  lemma ClimbRules(lib: Lib, env: Env, route: Route, t: Template, g: Option<Grant>)
    requires route.stage.Some?
    ensures var rung := Climb(lib, env, route, t, g);
      && (rung.Shut? <==> !StoredDeny(g) && !ScheduleOpen(lib, env, route, g))
      && (rung.GrantForbids? <==> StoredDeny(g))
      && (rung.GrantAllows? <==> ScheduleOpen(lib, env, route, g) && StoredAllow(g, route.stage.value))
      && (rung.ByStage? <==> ScheduleOpen(lib, env, route, g) && !StoredAllow(g, route.stage.value) && !StoredDeny(g))
      && (rung.ByStage? ==> rung.policy == lib.policy(route.stage.value, ScopeOf(lib, t)))
  {
  }

  lemma LadderAnswers(lib: Lib, env: Env, route: Route, req: Request, a: Answers, t: Template, g: Option<Grant>)
    requires route.dependant.Some? && route.stage.Some?
    ensures var o := Ladder(lib, env, route, req, a, t, g);
      && Terminals(o)
         == (if a.signed && !a.saved && StoredAllow(g, route.stage.value) && ScheduleOpen(lib, env, route, g)
             then 2 else 1)
      && (o.shown ==> o.replies == [] && o.held.Some?) && |o.signs| <= 1
  {
    hide ScopeOf, OriginOf, Closed, Climb, ScheduleOpen, StoredAllow, StoredDeny;
    ClimbRules(lib, env, route, t, g);
    StoredAllowIsNoDeny(g, route.stage.value);
  }

  lemma StoredAllowIsNoDeny(g: Option<Grant>, stage: Stage)
    ensures StoredAllow(g, stage) ==> !StoredDeny(g)
  {
  }

  lemma DependantAnswers(lib: Lib, env: Env, route: Route, req: Request, a: Answers, t: Template)
    requires route.dependant.Some? && !route.gated
    ensures AnswersOnce(lib, env, route, req, a, t, SignDependant(lib, env, route, req, a, t))
  {
    hide GrantKey, Preauthorised, Ladder, ScopeOf, OriginOf, StoredAllow, ScheduleOpen;
    if route.stage.Some? && GrantRead(lib, route, a, t).Got? {
      LadderAnswers(lib, env, route, req, a, t, GrantRead(lib, route, a, t).value);
    }
  }

  lemma DecidedAnswers(lib: Lib, env: Env, route: Route, req: Request, a: Answers, t: Template)
    ensures AnswersOnce(lib, env, route, req, a, t, Decided(lib, env, route, req, a, t))
  {
    hide AnswersOnce, SignGated, SignOwner, SignDependant;
    if route.gated { GatedAnswers(lib, env, route, req, a, t); }
    else if route.dependant.None? { OwnerAnswers(lib, env, route, req, a, t); }
    else { DependantAnswers(lib, env, route, req, a, t); }
  }

  /**
   * Total dispatch. Every request on a human route gets exactly one answer, a
   * reply or a place in the approval queue and never both; it gets none exactly
   * when an unguarded read on its path was rejected, and a second reply exactly
   * when the write after its reply was.
   */
  lemma TotalDispatch(lib: Lib, env: Env, route: Route, req: Request, a: Answers)
    ensures var o := Dispatch(lib, env, route, req, a);
      && Terminals(o)
         == (if Unanswered(lib, env, route, req, a) then 0 else if AnsweredTwice(lib, env, route, req, a) then 2 else 1)
      && (o.shown ==> o.replies == [] && o.held.Some?)
      && |o.signs| <= 1
  {
    hide Dispatch, FrontDoor, Crypto, SignEventRequest, Accepts, Decided, UnansweredSign, AnsweredTwiceSign;
    ScopedRead(lib, env, route, req, a);
    if req.via.Connect? {
      ConnectDecides(lib, env, route, req, a);
    } else {
      FrontDoorDecides(lib, env, route, req, a);
      if FrontDoor(lib, env, route, req, a) {
        if req.via.SignEvent? { SignEventAnswers(lib, env, route, req, a); }
        else if IsCrypto(req.via) { CryptoAnswers(lib, env, route, req, a); }
      }
    }
  }

  lemma SignEventAnswers(lib: Lib, env: Env, route: Route, req: Request, a: Answers)
    requires req.via.SignEvent? && FrontDoor(lib, env, route, req, a)
    ensures var o := SignEventRequest(lib, env, route, req, a);
      && Terminals(o)
         == (if Unanswered(lib, env, route, req, a) then 0 else if AnsweredTwice(lib, env, route, req, a) then 2 else 1)
      && (o.shown ==> o.replies == [] && o.held.Some?) && |o.signs| <= 1
  {
    hide FrontDoor, SignEventRequest, Accepts, Decided, UnansweredSign, AnsweredTwiceSign;
    ScopedRead(lib, env, route, req, a);
    AcceptedParses(lib, env, route, req);
    if |req.params| > 0 && lib.parseTemplate(req.params[0]).Some? {
      var t := lib.parseTemplate(req.params[0]).value;
      AcceptedIsDecided(lib, env, route, req, a, t);
      DecidedAnswers(lib, env, route, req, a, t);
    } else {
      AcceptedIsDecided(lib, env, route, req, a, Template(0, "", "", []));
    }
  }

  lemma AcceptedParses(lib: Lib, env: Env, route: Route, req: Request)
    ensures forall t ::
      Accepts(lib, env, route, req, t) ==> |req.params| > 0 && lib.parseTemplate(req.params[0]) == Some(t)
  {
  }

  /** When no awaited call is rejected: exactly one answer. */
  lemma OneAnswerWhenNothingThrows(lib: Lib, env: Env, route: Route, req: Request, a: Answers)
    requires a.scoped.Got? && a.gate.Got? && a.afterCrypto.Got? && a.signClient.Got? && a.promptClient.Got? && a.saved
    requires forall d, s, o :: a.grant(d, s, o).Got?
    ensures var o := Dispatch(lib, env, route, req, a); if o.shown then o.replies == [] else |o.replies| == 1
  {
    TotalDispatch(lib, env, route, req, a);
    hide Dispatch, FrontDoor, Considers, Preauthorised, GrantKey;
  }

  // ---- The dependant policy ladder ----

  /** What a dependant's stage lets happen without a tap. */
  predicate AutoFamily(p: Policy) { p.Auto? || p.AutoAlert? || p.AutoLog? }

  predicate AskFamily(p: Policy) { p.AskOrigin? || p.AskEvery? }

  /** The rule, with no order of checks in it. */
  predicate MaySignSilently(lib: Lib, env: Env, route: Route, req: Request, a: Answers, t: Template)
    requires route.dependant.Some?
  {
    && route.stage.Some?
    && (|| Preauthorised(route, req, a, t)
        || (GrantRead(lib, route, a, t).Got?
            && var g := GrantRead(lib, route, a, t).value;
               ScheduleOpen(lib, env, route, g) && !StoredDeny(g)
               && (StoredAllow(g, route.stage.value) || AutoFamily(lib.policy(route.stage.value, ScopeOf(lib, t))))))
  }

  predicate MustAsk(lib: Lib, env: Env, route: Route, req: Request, a: Answers, t: Template)
    requires route.dependant.Some?
  {
    || route.stage.None?
    || (!Preauthorised(route, req, a, t) && GrantRead(lib, route, a, t).Got?
        && var g := GrantRead(lib, route, a, t).value;
           ScheduleOpen(lib, env, route, g) && !StoredDeny(g) && !StoredAllow(g, route.stage.value)
           && AskFamily(lib.policy(route.stage.value, ScopeOf(lib, t))))
  }

  lemma ConsideredIsDecided(lib: Lib, env: Env, route: Route, req: Request, a: Answers, t: Template)
    requires Considers(lib, env, route, req, a, t)
    ensures Dispatch(lib, env, route, req, a) == Decided(lib, env, route, req, a, t)
  {
  }

  /**
   * The policy ladder refines the declarative rule, in both directions and for
   * each of the three things that can happen to a dependant's event.
   */
  lemma LadderRefinesTheRule(lib: Lib, env: Env, route: Route, req: Request, a: Answers, t: Template)
    requires route.dependant.Some? && !route.gated && Considers(lib, env, route, req, a, t)
    ensures var o := Dispatch(lib, env, route, req, a);
      && (o.signs != [] <==> MaySignSilently(lib, env, route, req, a, t))
      && (o.held.Some? <==> MustAsk(lib, env, route, req, a, t))
      && (o.held.Some? ==> o.shown)
      && (o.signs != [] ==> o.signs[0].template == t && (a.signed ==> o.replies[0] == Signed(t)))
      && (o.signs == [] ==> forall b <- o.replies :: b.Error?)
  {
    hide Considers, Dispatch, Preauthorised, GrantKey, Ladder, ScheduleOpen, StoredAllow, StoredDeny, ScopeOf, OriginOf;
    ConsideredIsDecided(lib, env, route, req, a, t);
    if route.stage.Some? && GrantRead(lib, route, a, t).Got? {
      LadderRules(lib, env, route, req, a, t, GrantRead(lib, route, a, t).value);
    }
  }

  lemma LadderRules(lib: Lib, env: Env, route: Route, req: Request, a: Answers, t: Template, g: Option<Grant>)
    requires route.dependant.Some? && route.stage.Some?
    ensures var o, p := Ladder(lib, env, route, req, a, t, g), lib.policy(route.stage.value, ScopeOf(lib, t));
      && (o.signs != [] <==>
            ScheduleOpen(lib, env, route, g) && !StoredDeny(g) && (StoredAllow(g, route.stage.value) || AutoFamily(p)))
      && (o.held.Some? <==>
            ScheduleOpen(lib, env, route, g) && !StoredDeny(g) && !StoredAllow(g, route.stage.value) && AskFamily(p))
      && (o.held.Some? ==> o.shown)
      && (o.signs != [] ==> o.signs[0].template == t && (a.signed ==> o.replies[0] == Signed(t)))
      && (o.signs == [] ==> forall b <- o.replies :: b.Error?)
      && (o.signs != [] && a.signed && a.saved ==>
          o.audits == if StoredAllow(g, route.stage.value) || !p.Auto? then [AutoApproved] else [])
  {
    hide ScopeOf, OriginOf, Closed, Climb, ScheduleOpen, StoredAllow, StoredDeny;
    ClimbRules(lib, env, route, t, g);
    StoredAllowIsNoDeny(g, route.stage.value);
  }

  /** Nothing reaches a signature or the queue except a considered template. */
  lemma OnlyConsideredIsSigned(lib: Lib, env: Env, route: Route, req: Request, a: Answers)
    ensures var o := Dispatch(lib, env, route, req, a);
      o.signs != [] || o.held.Some? ==> exists t :: Considers(lib, env, route, req, a, t)
  {
    hide Dispatch, FrontDoor, Accepts, SignEventRequest, Crypto;
    var o := Dispatch(lib, env, route, req, a);
    if req.via.Connect? {
      ConnectDecides(lib, env, route, req, a);
    } else {
      FrontDoorDecides(lib, env, route, req, a);
      if IsCrypto(req.via) && FrontDoor(lib, env, route, req, a) { CryptoAnswers(lib, env, route, req, a); }
      AcceptedIsDecided(lib, env, route, req, a, Template(0, "", "", []));
      if o.signs != [] || o.held.Some? {
        var t :| Accepts(lib, env, route, req, t);
        assert Considers(lib, env, route, req, a, t);
      }
    }
  }

  // ---- Pairing and silent encryption ----

  /** A `connect` that may be acknowledged on a dependant route. */
  predicate MayConnect(lib: Lib, env: Env, route: Route, req: Request, a: Answers)
    requires route.dependant.Some?
  {
    || (route.isApp && IsPaired(env, route, req, a))
    || (!route.isApp && route.pairingSecret.None? && route.boundClient == Some(req.client))
    || (&& route.pairingSecret.Some? && SameSecret(lib, Text(Param(req, 1)), route.pairingSecret.value)
        && (if route.isApp then "app:" + route.dependant.value else route.dependant.value) !in env.binding
        && (a.bind.Bound? || (route.isApp && a.bind.message == "")))
  }

  /**
   * A dependant route acknowledges a `connect` exactly for a client already
   * paired (no pairing secret open, on a device route) or one that knows the
   * open secret, while no other pairing is under way and once it is stored - or
   * an app pairing failed with an empty message, which the code takes for success.
   */
  lemma ConnectAcksExactlyThePaired(lib: Lib, env: Env, route: Route, req: Request, a: Answers)
    requires route.dependant.Some? && !route.gated && req.via.Connect? && a.scoped.Got?
    requires lib.allows(PermissionsOf(a.scoped.value), Connect, None)
    requires !AsksTooMuch(lib, req, PermissionsOf(a.scoped.value))
    ensures Dispatch(lib, env, route, req, a).replies == [Ack] <==> MayConnect(lib, env, route, req, a)
  {
    hide IsPaired, AsksTooMuch, SameSecret;
  }

  /** A dependant's keys may encrypt or decrypt with nobody asked. */
  predicate MayOperate(lib: Lib, env: Env, route: Route) {
    route.stage.Some? ==>
      && lib.withinRate(env.recent, env.now)
      && (route.schedule.Some? ==> lib.isWithin(route.schedule.value, env.now))
      && AutoFamily(lib.policy(route.stage.value, None))
  }

  /**
   * Silent encryption and decryption are answered exactly when the client and the route's policy allow them and the
   * key does it.
   */
  lemma SilentCryptoExactly(lib: Lib, env: Env, route: Route, req: Request, a: Answers)
    requires IsCrypto(req.via) && FrontDoor(lib, env, route, req, a) && !route.gated
    ensures var o := Dispatch(lib, env, route, req, a);
      (exists b <- o.replies :: b.Crypted?) <==>
        && |req.params| > 1 && lib.isHexKey(req.params[0]) && a.crypted
        && (req.via.Nip04Encrypt? || req.via.Nip04Decrypt? ==> route.hasNip04)
        && (if route.dependant.Some? then MayOperate(lib, env, route) else OwnerOperates(lib, req, a))
  {
    hide FrontDoor, Operate, OwnerOperates, Dispatch, Crypto, MayOperate;
    FrontDoorDecides(lib, env, route, req, a);
    OperateReplies(env, route, req, a);
    CryptoIsOperate(lib, env, route, req, a);
    var o := Crypto(lib, env, route, req, a);
    if |o.replies| > 0 { assert o.replies[0] in o.replies; }
  }

  /** What goes out is what the operation says, or one refusal. */
  lemma CryptoIsOperate(lib: Lib, env: Env, route: Route, req: Request, a: Answers)
    requires !route.gated
    ensures var o := Crypto(lib, env, route, req, a);
      if |req.params| > 1 && lib.isHexKey(req.params[0])
         && (if route.dependant.Some? then MayOperate(lib, env, route) else OwnerOperates(lib, req, a))
      then o.replies == Operate(env, route, req, a).replies
      else |o.replies| == 1 && o.replies[0].Error?
  {
    hide Operate, OwnerOperates, Closed;
    OwnerOperatesIs(lib, req, a);
  }

  lemma OperateReplies(env: Env, route: Route, req: Request, a: Answers)
    ensures var o := Operate(env, route, req, a);
      |o.replies| > 0
      && (o.replies[0].Crypted? <==>
            a.crypted && (req.via.Nip04Encrypt? || req.via.Nip04Decrypt? ==> route.hasNip04))
      && (forall i :: 0 < i < |o.replies| ==> !o.replies[i].Crypted?)
  {
  }

  lemma OwnerOperatesIs(lib: Lib, req: Request, a: Answers)
    ensures var owner := if a.cryptoClient.Got? then a.cryptoClient.value else None;
      OwnerOperates(lib, req, a) <==> lib.allows(PermissionsOf(owner), req.via, None) && lib.cryptoAuthorised(owner)
  {
  }

  /** A client that is not past the front door, on a route that serves it, gets nothing but an error. */
  lemma OutsidersGetErrors(lib: Lib, env: Env, route: Route, req: Request, a: Answers)
    requires !req.via.Connect? && !FrontDoor(lib, env, route, req, a)
    ensures var o := Dispatch(lib, env, route, req, a);
      o.signs == [] && o.held.None? && forall b <- o.replies :: b.Error?
  {
    hide SignEventRequest, Crypto, IsPaired, AsksTooMuch;
  }

  /** Every silent signature for a dependant is in the audit log, except at the stage that opted out of one. */
  lemma SilentSignaturesAreAudited(lib: Lib, env: Env, route: Route, req: Request, a: Answers, t: Template)
    requires route.dependant.Some? && !route.gated && Considers(lib, env, route, req, a, t) && a.signed && a.saved
    requires Dispatch(lib, env, route, req, a).signs != []
    ensures Dispatch(lib, env, route, req, a).audits ==
            if !Preauthorised(route, req, a, t) && !StoredAllow(GrantRead(lib, route, a, t).value, route.stage.value)
               && lib.policy(route.stage.value, ScopeOf(lib, t)).Auto? then [] else [AutoApproved]
  {
    hide Considers, Dispatch, Preauthorised, GrantKey, Ladder, ScheduleOpen, StoredAllow, StoredDeny, ScopeOf, OriginOf;
    ConsideredIsDecided(lib, env, route, req, a, t);
    if route.stage.Some? && GrantRead(lib, route, a, t).Got? {
      LadderRules(lib, env, route, req, a, t, GrantRead(lib, route, a, t).value);
    }
  }

  // ---- The owner ceiling ----

  /** A silent owner signature: exactly for a remembered client, within its permissions, for nothing sensitive. */
  lemma OwnerSilentSignatures(lib: Lib, env: Env, route: Route, req: Request, a: Answers, t: Template)
    requires IsOwner(route) && Considers(lib, env, route, req, a, t)
    ensures Dispatch(lib, env, route, req, a).signs != [] <==> OwnerSignsSilently(lib, route, a, t)
    ensures Dispatch(lib, env, route, req, a).held.Some? <==>
            !lib.mismatch(route.pubkey, t.pubkey) && a.signClient.Got? && !OwnerSignsSilently(lib, route, a, t)
            && lib.allows(PermissionsOf(a.signClient.value), SignEvent, Some(t.kind))
  {
  }
}
