/**
 * What the NIP-46 bunker server does with one verified, parsed request on a
 * human route (src/hooks/useBunkerServer.ts, `handleInboundEvent` from the
 * owner-serving check on).
 *
 * `Dispatch` maps the route, the request and the answers of every call it
 * awaits to an `Outcome`: the replies it sent, the signer calls it made and the
 * rows it wrote. Library functions are the function fields of `Lib`.
 */
module BunkerDispatch {
  import opened Wrappers
  import opened BunkerIntake

  type Pubkey = string
  type Scope = string

  const PENDING_APPROVALS_CAP: nat := 20

  // ---- Requests and routes ----

  datatype Method =
    | Connect | Ping | SwitchRelays | Logout | GetPublicKey
    | Nip04Encrypt | Nip04Decrypt | Nip44Encrypt | Nip44Decrypt | SignEvent | Unknown(name: string)

  predicate IsCrypto(m: Method) { m.Nip04Encrypt? || m.Nip04Decrypt? || m.Nip44Encrypt? || m.Nip44Decrypt? }

  datatype Request = Request(client: Pubkey, via: Method, params: seq<string>)

  datatype Template = Template(kind: int, pubkey: Pubkey, content: string, tags: seq<seq<string>>)

  datatype Schedule = Schedule(paused: bool, windows: string)

  /**
   * A human route. An empty `pairingSecret`, `dependant` or `boundClient` of
   * the source is None; public keys are lower-case hex.
   */
  datatype Route = Route(
    pubkey: Pubkey, signingPubkey: Pubkey, dependant: Option<Pubkey>, stage: Option<Stage>, schedule: Option<Schedule>,
    pairingSecret: Option<string>, boundClient: Option<Pubkey>, isApp: bool, gated: bool,
    hasNip04: bool, personas: set<Pubkey>)

  predicate IsOwner(route: Route) { route.dependant.None? && !route.gated }

  // ---- Stored rows and the answers of awaited calls ----

  type Permissions = Option<seq<string>>

  datatype Client = Client(
    pubkey: Pubkey, appName: string, connectedAt: int, lastSeenAt: int, allowAlways: bool, permissions: Permissions)

  function PermissionsOf(c: Option<Client>): Permissions { if c.Some? then c.value.permissions else None }

  datatype Decision = Allow | Forbid

  datatype Grant = Grant(
    dependant: Pubkey, scope: Scope, origin: string, decision: Decision, schedule: Option<Schedule>, lastUsedAt: int)

  datatype Bind = Bound | BindFailed(message: string)

  datatype Gate = Opened(template: Option<Template>) | Refused(error: string)

  /**
   * The answer of every call the dispatcher may await, in source order. The
   * same row may be read more than once, and read differently each time.
   */
  datatype Answers = Answers(
    scoped: Try<Option<Client>>, pairings: Try<seq<Pubkey>>, bind: Bind, gate: Try<Gate>,
    cryptoClient: Try<Option<Client>>, crypted: bool, afterCrypto: Try<Option<Client>>,
    signClient: Try<Option<Client>>, preauth: (Pubkey, Pubkey, Pubkey, int) -> Try<bool>,
    grant: (Pubkey, Scope, string) -> Try<Option<Grant>>, signed: bool, saved: bool, promptClient: Try<Option<Client>>)

  datatype AuthPairing = AuthPairing(secret: string, expiresAt: int, signingPubkey: Pubkey)

  /** What the handler reads without waiting. */
  datatype Env = Env(
    now: nat, serving: bool, queued: nat, recent: seq<int>, binding: set<string>, unlocked: bool,
    register: seq<AuthPairing>, authority: Option<Pubkey>, persistentRelay: Option<string>, liveRelay: Option<string>)

  datatype Policy = Blocked | AskOrigin | AskEvery | Auto | AutoAlert | AutoLog

  datatype Kinterest = Kinterest(child: Option<Pubkey>)

  /** Library functions whose bodies are not part of this model. */
  datatype Lib = Lib(
    parseTemplate: string -> Option<Template>,
    allows: (Permissions, Method, Option<int>) -> bool,
    parsePermissions: string -> Option<seq<string>>,
    splitPermission: string -> (Method, Option<int>),
    isMetadata: string -> bool,
    bytes: string -> seq<bv8>,
    isHexKey: string -> bool,
    cryptoAuthorised: Option<Client> -> bool,
    withinRate: (seq<int>, int) -> bool,
    isWithin: (Schedule, int) -> bool,
    intersect: (Option<Schedule>, Option<Schedule>) -> Option<Schedule>,
    isKinterest: Template -> bool,
    parseKinterest: Template -> Option<Kinterest>,
    childNamed: Pubkey -> bool,
    inferScope: Template -> Option<Scope>,
    inferOrigin: (Template, Scope) -> Option<string>,
    originScoped: Scope -> bool,
    mismatch: (Pubkey, Pubkey) -> bool,
    policy: (Stage, Option<Scope>) -> Policy,
    validRelay: string -> bool,
    normalRelay: string -> string)

  // ---- What a request leads to ----

  datatype Body =
    | Ack | Pong | Relays(relays: Option<seq<string>>) | PublicKey(pubkey: Pubkey)
    | Crypted(operation: Method) | Signed(template: Template) | Error(message: string)

  datatype Signer = RouteKey | PersonaKey(pubkey: Pubkey)

  datatype SignerCall = SignerCall(signer: Signer, template: Template)

  datatype Audit = AutoApproved | AutoDenied | ClauseBlocked

  datatype Held = Held(client: Pubkey, template: Template, scope: Option<Scope>, origin: Option<string>)

  /**
   * `held` is the entry put in the active-request map, `shown` whether the
   * approval queue came to list it, `forgets` whether the client's row is
   * deleted.
   */
  datatype Outcome = Outcome(
    replies: seq<Body>, signs: seq<SignerCall>, held: Option<Held>, shown: bool,
    rowSave: Option<Client>, grantSave: Option<Grant>, audits: seq<Audit>, forgets: bool)

  const NOTHING: Outcome := Outcome([], [], None, false, None, None, [], false)

  function Say(body: Body): Outcome { NOTHING.(replies := [body]) }

  function Fail(message: string): Outcome { Say(Error(message)) }

  /** What a client gets back for its request: replies, and at most one place in the queue. */
  function Terminals(o: Outcome): nat { |o.replies| + if o.shown then 1 else 0 }

  // ---- Before the method is looked at ----

  function Param(req: Request, i: nat): Option<string> { if i < |req.params| then Some(req.params[i]) else None }

  function Text(p: Option<string>): string { if p.Some? then p.value else "" }

  function RequestedKind(lib: Lib, req: Request): Option<int> {
    if !req.via.SignEvent? then None
    else var t := lib.parseTemplate(Text(Param(req, 0))); if t.Some? then Some(t.value.kind) else None
  }

  /** A `connect` that asks for permissions its stored ceiling does not cover. */
  predicate AsksTooMuch(lib: Lib, req: Request, stored: Permissions) {
    && req.via.Connect? && Text(Param(req, 2)) != "" && !lib.isMetadata(Text(Param(req, 2)))
    && var asked := lib.parsePermissions(Text(Param(req, 2)));
       || asked.None? || stored.None?
       || exists p <- asked.value ::
            p !in stored.value && !lib.allows(stored, lib.splitPermission(p).0, lib.splitPermission(p).1)
  }

  predicate IsPaired(env: Env, route: Route, req: Request, a: Answers) {
    if route.isApp then env.unlocked && a.pairings.Got? && req.client in a.pairings.value
    else route.boundClient == Some(req.client)
  }

  // ---- connect ----

  predicate SameSecret(lib: Lib, a: string, b: string) { lib.bytes(a) == lib.bytes(b) }

  /** The live auth-flow pairing this secret was minted for, on this route's key. */
  function AuthPair(lib: Lib, register: seq<AuthPairing>, env: Env, route: Route, secret: string): Option<AuthPairing> {
    if register == [] then None
    else
      var e := register[0];
      if e.expiresAt >= env.now && e.signingPubkey == route.pubkey && SameSecret(lib, e.secret, secret) then Some(e)
      else AuthPair(lib, register[1..], env, route, secret)
  }

  function ConnectOwner(lib: Lib, env: Env, route: Route, req: Request, a: Answers): Outcome {
    var secret := Text(Param(req, 1));
    if |secret| >= 8 && AuthPair(lib, env.register, env, route, secret).Some? && a.bind.BindFailed?
    then Fail("pairing failed \U{2014} try again") else Say(Ack)
  }

  function ConnectDependant(lib: Lib, env: Env, route: Route, req: Request, a: Answers): Outcome
    requires route.dependant.Some?
  {
    var secret := Text(Param(req, 1));
    var flight := if route.isApp then "app:" + route.dependant.value else route.dependant.value;
    if route.isApp && IsPaired(env, route, req, a) then Say(Ack)
    else if route.pairingSecret.None? then
      if route.isApp || route.boundClient.None? then Fail("pairing not active")
      else if route.boundClient.value != req.client then Fail("not paired")
      else Say(Ack)
    else if !SameSecret(lib, secret, route.pairingSecret.value) then Fail("invalid secret")
    else if flight in env.binding then Fail("pairing in progress")
    else if a.bind.Bound? then Say(Ack)
    else if route.isApp then (if a.bind.message == "" then Say(Ack) else Fail(a.bind.message))
    else Fail("bind failed \U{2014} try again")
  }

  // ---- Silent encryption and decryption ----

  function Operate(env: Env, route: Route, req: Request, a: Answers): Outcome {
    var failed := if req.via.Nip04Encrypt? || req.via.Nip44Encrypt? then Error("encryption failed")
                  else Error("decryption failed");
    if (req.via.Nip04Encrypt? || req.via.Nip04Decrypt?) && !route.hasNip04 then Fail("NIP-04 not supported")
    else if !a.crypted then Say(failed)
    else
      var done := Say(Crypted(req.via));
      if route.dependant.Some? then done
      else if a.afterCrypto.Threw? then done.(replies := done.replies + [failed])
      else if a.afterCrypto.value.None? then done
      else
        var row := a.afterCrypto.value.value.(lastSeenAt := env.now / 1000);
        if a.saved then done.(rowSave := Some(row)) else done.(replies := done.replies + [failed])
  }

  function Crypto(lib: Lib, env: Env, route: Route, req: Request, a: Answers): Outcome {
    if Param(req, 1).None? || !lib.isHexKey(req.params[0]) then Fail("invalid params")
    else if route.gated then
      if req.via.Nip04Encrypt? || req.via.Nip04Decrypt? then Fail("method not supported")
      else if a.gate.Threw? then NOTHING
      else if a.gate.value.Refused? then Fail(a.gate.value.error)
      else if a.crypted then Say(Crypted(req.via))
      else Fail(if req.via.Nip44Encrypt? then "encryption failed" else "decryption failed")
    else if route.dependant.None? then
      var owner := if a.cryptoClient.Got? then a.cryptoClient.value else None;
      if !lib.allows(PermissionsOf(owner), req.via, None) then Fail("permission not granted")
      else if !lib.cryptoAuthorised(owner) then Fail("not connected")
      else Operate(env, route, req, a)
    else if route.stage.Some? then
      if !lib.withinRate(env.recent, env.now) then Fail("rate limited")
      else if route.schedule.Some? && !lib.isWithin(route.schedule.value, env.now) then
        Fail(Closed(route.schedule.value)).(audits := [ClauseBlocked])
      else
        match lib.policy(route.stage.value, None)
        case Auto => Operate(env, route, req, a)
        case AutoAlert => Operate(env, route, req, a).(audits := [AutoApproved])
        case AutoLog => Operate(env, route, req, a).(audits := [AutoApproved])
        case _ => Fail("ask your guardian \U{2014} this account cannot do that").(audits := [AutoDenied])
    else Operate(env, route, req, a)
  }

  function Closed(s: Schedule): string {
    if s.paused then "charter:clause_blocked:schedule:paused"
    else "charter:clause_blocked:schedule:outside_allowed_hours"
  }

  // ---- sign_event ----

  function ScopeOf(lib: Lib, t: Template): Option<Scope> { lib.inferScope(t) }

  function OriginOf(lib: Lib, t: Template): Option<string> {
    var s := lib.inferScope(t); if s.Some? then lib.inferOrigin(t, s.value) else None
  }

  /** The key a remembered grant would have; None when the scope has no origin to key it on. */
  function GrantKey(lib: Lib, t: Template): Option<(Scope, string)> {
    var s, o := ScopeOf(lib, t), OriginOf(lib, t);
    if s.Some? && o.Some? && o.value != "" && lib.originScoped(s.value) then Some((s.value, o.value)) else None
  }

  /** Never covered by a remembered "allow always". */
  predicate Sensitive(lib: Lib, t: Template, stored: Permissions) {
    || lib.isKinterest(t)
    || ScopeOf(lib, t) == Some("pair-device") || ScopeOf(lib, t) == Some("mutate-identity")
    || ScopeOf(lib, t) == Some("app-permission")
    || (stored.Some? && t.kind == 5)
  }

  /** The signer is called and its signature, or its failure, is the reply. */
  function SignAndSay(signer: Signer, t: Template, signed: bool): Outcome {
    Say(if signed then Signed(t) else Error("signing failed")).(signs := [SignerCall(signer, t)])
  }

  /** What a failed write after the reply leads to: the source's catch replies again. */
  function AfterReply(o: Outcome, saved: bool): Outcome {
    if saved then o
    else o.(replies := o.replies + [Error("signing failed")], rowSave := None, grantSave := None, audits := [])
  }

  function Prompt(lib: Lib, route: Route, req: Request, a: Answers, t: Template): Outcome {
    var held := NOTHING.(held := Some(Held(req.client, t, ScopeOf(lib, t), OriginOf(lib, t))));
    if route.dependant.None? && a.promptClient.Threw? then held else held.(shown := true)
  }

  function SignGated(lib: Lib, route: Route, req: Request, a: Answers, t: Template): Outcome {
    if lib.mismatch(route.signingPubkey, t.pubkey) then Fail("pubkey mismatch")
    else if a.gate.Threw? then NOTHING
    else if a.gate.value.Refused? then Fail(a.gate.value.error)
    else SignAndSay(RouteKey, if a.gate.value.template.Some? then a.gate.value.template.value else t, a.signed)
  }

  function SignOwner(lib: Lib, env: Env, route: Route, req: Request, a: Answers, t: Template): Outcome {
    if lib.mismatch(route.pubkey, t.pubkey) then Fail("pubkey mismatch")
    else if a.signClient.Threw? then NOTHING
    else
      var row := a.signClient.value;
      if !lib.allows(PermissionsOf(row), SignEvent, Some(t.kind)) then Fail("permission not granted")
      else if row.Some? && row.value.allowAlways && !Sensitive(lib, t, row.value.permissions) then
        var done := SignAndSay(RouteKey, t, a.signed);
        if !a.signed then done
        else AfterReply(done.(rowSave := Some(row.value.(lastSeenAt := env.now / 1000))), a.saved)
      else Prompt(lib, route, req, a, t)
  }

  /** The key a pre-authorised profile event is signed as. */
  function EffectiveKey(route: Route, t: Template): Pubkey { if t.pubkey != "" then t.pubkey else route.signingPubkey }

  predicate Preauthorised(route: Route, req: Request, a: Answers, t: Template) {
    && route.dependant.Some? && (t.kind == 0 || t.kind == 5)
    && a.preauth(route.dependant.value, EffectiveKey(route, t), req.client, t.kind) == Got(true)
  }

  function SignPreauthorised(route: Route, a: Answers, t: Template): Outcome {
    var key := EffectiveKey(route, t);
    var done := SignAndSay(if key in route.personas then PersonaKey(key) else RouteKey, t, a.signed);
    if a.signed then done.(audits := [AutoApproved]) else done
  }

  /** Where the dependant policy ladder comes to rest. */
  datatype Rung = Shut(schedule: Schedule) | GrantAllows(grant: Grant) | GrantForbids | ByStage(policy: Policy)

  function Climb(lib: Lib, env: Env, route: Route, t: Template, grant: Option<Grant>): Rung
    requires route.stage.Some?
  {
    var effective := lib.intersect(if grant.Some? then grant.value.schedule else None, route.schedule);
    if !(grant.Some? && grant.value.decision.Forbid?) && effective.Some? && !lib.isWithin(effective.value, env.now) then
      Shut(effective.value)
    else if grant.Some? && grant.value.decision.Allow? && route.stage.value != FullControl then GrantAllows(grant.value)
    else if grant.Some? && grant.value.decision.Forbid? then GrantForbids
    else ByStage(lib.policy(route.stage.value, ScopeOf(lib, t)))
  }

  /** The dependant policy ladder, once the grant for this request (if any) has been read. */
  function Ladder(lib: Lib, env: Env, route: Route, req: Request, a: Answers, t: Template,
                  grant: Option<Grant>): Outcome
    requires route.stage.Some?
  {
    match Climb(lib, env, route, t, grant)
    case Shut(schedule) => Fail(Closed(schedule)).(audits := [ClauseBlocked])
    case GrantAllows(g) =>
      var done := SignAndSay(RouteKey, t, a.signed);
      if !a.signed then done
      else AfterReply(done.(grantSave := Some(g.(lastUsedAt := env.now / 1000)), audits := [AutoApproved]), a.saved)
    case GrantForbids => Fail("user denied").(audits := [AutoDenied])
    case ByStage(p) =>
      match p
      case Blocked => Fail("ask your guardian \U{2014} this account cannot sign this").(audits := [AutoDenied])
      case Auto => SignAndSay(RouteKey, t, a.signed)
      case AutoAlert => SignAndSay(RouteKey, t, a.signed).(audits := if a.signed then [AutoApproved] else [])
      case AutoLog => SignAndSay(RouteKey, t, a.signed).(audits := if a.signed then [AutoApproved] else [])
      case AskOrigin => Prompt(lib, route, req, a, t)
      case AskEvery => Prompt(lib, route, req, a, t)
  }

  function SignDependant(lib: Lib, env: Env, route: Route, req: Request, a: Answers, t: Template): Outcome
    requires route.dependant.Some?
  {
    if route.stage.None? then Prompt(lib, route, req, a, t)
    else if Preauthorised(route, req, a, t) then SignPreauthorised(route, a, t)
    else
      var key := GrantKey(lib, t);
      if key.None? then Ladder(lib, env, route, req, a, t, None)
      else
        var read := a.grant(route.dependant.value, key.value.0, key.value.1);
        if read.Threw? then NOTHING else Ladder(lib, env, route, req, a, t, read.value)
  }

  /** Why a `sign_event` is refused before anything about it is decided. */
  function Objection(lib: Lib, env: Env, route: Route, req: Request): Option<string> {
    if route.dependant.Some? && !lib.withinRate(env.recent, env.now) then Some("rate limited")
    else if env.queued >= PENDING_APPROVALS_CAP then Some("busy")
    else if Param(req, 0).None? then Some("missing template")
    else
      var parsed := lib.parseTemplate(req.params[0]);
      if parsed.None? then Some("invalid template")
      else
        var t := parsed.value;
        var ceremony := lib.parseKinterest(t);
        if lib.isKinterest(t) && (route.dependant.Some? || ceremony.None?)
        then Some("invalid Kinterest authority request")
        else if lib.isKinterest(t) && env.authority != Some(route.pubkey) then
          Some("Kinterest authority needs your real identity")
        else if lib.isKinterest(t) && ceremony.value.child.Some? && !lib.childNamed(ceremony.value.child.value) then
          Some("Activate your real identity and select an existing named dependant")
        else None
  }

  /** The decision of a template that was accepted for one. */
  function Decided(lib: Lib, env: Env, route: Route, req: Request, a: Answers, t: Template): Outcome {
    if route.gated then SignGated(lib, route, req, a, t)
    else if route.dependant.None? then SignOwner(lib, env, route, req, a, t)
    else SignDependant(lib, env, route, req, a, t)
  }

  function SignEventRequest(lib: Lib, env: Env, route: Route, req: Request, a: Answers): Outcome {
    var refusal := Objection(lib, env, route, req);
    if refusal.Some? then Fail(refusal.value)
    else Decided(lib, env, route, req, a, lib.parseTemplate(req.params[0]).value)
  }

  // ---- The whole dispatch ----

  function Dispatch(lib: Lib, env: Env, route: Route, req: Request, a: Answers): Outcome {
    if IsOwner(route) && !env.serving then Fail("serving paused")
    else if a.scoped.Threw? then NOTHING
    else if !lib.allows(PermissionsOf(a.scoped.value), req.via, RequestedKind(lib, req))
    then Fail("permission not granted")
    else if AsksTooMuch(lib, req, PermissionsOf(a.scoped.value)) then
      Fail("approve requested permissions with nostrconnect")
    else if req.via.Connect? then
      if route.gated then Say(Ack)
      else if route.dependant.Some? then ConnectDependant(lib, env, route, req, a)
      else ConnectOwner(lib, env, route, req, a)
    else if route.dependant.Some? && !IsPaired(env, route, req, a) then Fail("not paired")
    else
      match req.via
      case Ping => Say(Pong)
      case SwitchRelays =>
        Say(Relays(RelaysToSwitchTo(lib.validRelay, lib.normalRelay, env.persistentRelay, env.liveRelay)))
      case Logout => Say(Ack).(forgets := route.dependant.None?)
      case GetPublicKey => Say(PublicKey(route.signingPubkey))
      case SignEvent => SignEventRequest(lib, env, route, req, a)
      case Unknown(_) => Fail("method not supported")
      case _ => Crypto(lib, env, route, req, a)
  }
}
