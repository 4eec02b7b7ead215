/**
 * The guardian's ask inbox (src/hooks/useChildAsks.ts).
 *
 * `Refs` is everything the hook keeps in memory: its refs, plus the answers in
 * progress. An answer in progress is an `Attempt`, cut at the source's awaits:
 * its `pc` names the call it is waiting for. Every handler below runs from one
 * await to the next and is a function from `Refs` to `Refs`; the class in
 * ChildAskInbox.dfy performs the same handlers on fields.
 */
module ChildAsks {
  import opened Wrappers

  type AskId = string
  type DepId = string

  const HISTORY_MAX: nat := 200
  const LIVE_LIMIT: nat := 32
  const ONCE_WINDOW_S: nat := 600
  const SEAL_KIND: int := 13
  const APP_PERMISSION: string := "app-permission"

  // ---- What travels between the child and the guardian ----

  datatype Choice = Once | Always | Deny

  datatype Method = SignEvent | Nip44Encrypt | Nip44Decrypt

  datatype Permission = Permission(appId: string, installKey: string, validFrom: int, validUntil: int)

  /** What the library's two card predicates answer about a live ask's event body. */
  datatype Template = Template(permission: Option<Permission>, signIn: bool)

  datatype Ask = Ask(
    id: AskId, persona: string, scope: Option<string>, kind: int, via: Method,
    target: string, expiresAt: int, template: Option<Template>)

  datatype WireReason = Unreachable

  datatype Verdict = Verdict(
    id: AskId, choice: Choice, decidedAt: int, alwaysDeny: bool,
    ruleId: Option<string>, reason: Option<WireReason>, alsoOpened: Option<seq<int>>)

  datatype Reason =
    | DeviceUnreachable | CeilingFull | Paused | Expired | AlwaysUnavailable
    | AlwaysAppPermission | AlreadyDecided | NotFound | Locked

  datatype Entry = Entry(
    ask: Ask, verdict: Verdict, chosen: Option<Choice>, sent: Option<bool>, reason: Option<Reason>)

  datatype Pending = Pending(ask: Ask, dep: DepId, unsent: Option<Choice>)

  predicate IsSent(e: Entry) { e.sent != Some(false) }

  /** The guardian's choice; a row without one means what it sent. */
  function ChoiceOf(e: Entry): Choice {
    if e.chosen.Some? then e.chosen.value else e.verdict.choice
  }

  function Slim(ask: Ask): Ask { ask.(template := None) }

  function AppPermissionDetails(ask: Ask): Option<Permission> {
    if ask.template.Some? then ask.template.value.permission else None
  }

  predicate SealsOwnAnswer(ask: Ask) {
    && ask.via == SignEvent
    && if ask.scope == Some(APP_PERMISSION) then AppPermissionDetails(ask).Some?
       else ask.template.Some? && ask.template.value.signIn
  }

  // ---- The device ceiling ----

  datatype Dependant = Dependant(stage: Stage, paused: bool)

  datatype OnceEntry = OnceEntry(kind: int, until: int)

  datatype RuleScope = Named(name: string) | KindScope(kind: int)

  datatype Rule = Rule(
    id: string, dep: DepId, persona: string, scope: RuleScope, target: string,
    allow: bool, createdAt: int, permission: Option<Permission>)

  /** Library functions whose bodies are not part of this model. */
  datatype Lib = Lib(
    ruleId: (DepId, string, RuleScope, string) -> string,
    compile: (Dependant, seq<Rule>, seq<OnceEntry>, int) -> seq<int>)

  datatype Ceiling = All | Kinds(kinds: seq<int>)

  function CeilingFor(lib: Lib, dep: Dependant, rules: seq<Rule>, once: seq<OnceEntry>, nowS: int): Ceiling {
    if !dep.paused && dep.stage == FullAutonomy then All else Kinds(lib.compile(dep, rules, once, nowS))
  }

  predicate Lists(c: Ceiling, kind: int) { c.All? || kind in c.kinds }

  /** The widened ceiling lists every new kind and keeps every kind listed now. */
  predicate Fits(current: Ceiling, widened: Ceiling, kinds: seq<int>) {
    widened.All? || ((forall k <- kinds :: k in widened.kinds)
                     && (current.All? || forall k <- current.kinds :: k in widened.kinds))
  }

  /** One widening of a dependant's ceiling: what was compiled and what is pushed. */
  datatype Widening = Widening(
    dep: Dependant, before: seq<Rule>, after: seq<Rule>, once: seq<OnceEntry>,
    extra: seq<OnceEntry>, nowS: int, kinds: seq<int>)

  predicate WideningFits(lib: Lib, w: Widening) {
    Fits(CeilingFor(lib, w.dep, w.before, w.once, w.nowS),
         CeilingFor(lib, w.dep, w.after, w.once + w.extra, w.nowS), w.kinds)
  }

  function WithoutRule(rules: seq<Rule>, id: string): seq<Rule> {
    if rules == [] then []
    else if rules[0].id == id then WithoutRule(rules[1..], id)
    else [rules[0]] + WithoutRule(rules[1..], id)
  }

  // ---- Rows and lists ----

  function Lookup(row: seq<Entry>, id: AskId): Option<Entry> {
    if row == [] then None
    else if row[0].ask.id == id then Some(row[0])
    else Lookup(row[1..], id)
  }

  function Without(row: seq<Entry>, id: AskId): seq<Entry> {
    if row == [] then []
    else if row[0].ask.id == id then Without(row[1..], id)
    else [row[0]] + Without(row[1..], id)
  }

  function Cap(row: seq<Entry>): seq<Entry> {
    if |row| <= HISTORY_MAX then row else row[..HISTORY_MAX]
  }

  /** The row `recordHistory` writes: the new entry first, the rest kept, 200 at most. */
  function Recorded(row: seq<Entry>, e: Entry): seq<Entry> {
    Cap([e] + Without(row, e.ask.id))
  }

  function Listed(asks: seq<Pending>, id: AskId): Option<Pending> {
    if asks == [] then None
    else if asks[0].ask.id == id then Some(asks[0])
    else Listed(asks[1..], id)
  }

  function Unlist(asks: seq<Pending>, id: AskId): seq<Pending> {
    if asks == [] then []
    else if asks[0].ask.id == id then Unlist(asks[1..], id)
    else [asks[0]] + Unlist(asks[1..], id)
  }

  function MarkUnsent(asks: seq<Pending>, id: AskId, c: Choice): seq<Pending> {
    if asks == [] then []
    else [if asks[0].ask.id == id then asks[0].(unsent := Some(c)) else asks[0]] + MarkUnsent(asks[1..], id, c)
  }

  function Unexpired(asks: seq<Pending>, nowS: int): seq<Pending> {
    if asks == [] then []
    else if asks[0].ask.expiresAt > nowS then [asks[0]] + Unexpired(asks[1..], nowS)
    else Unexpired(asks[1..], nowS)
  }

  function CountFor(asks: seq<Pending>, dep: DepId): nat {
    if asks == [] then 0
    else (if asks[0].dep == dep then 1 else 0) + CountFor(asks[1..], dep)
  }

  // ---- In-memory state ----

  /** The call an attempt is waiting for. */
  datatype Pc =
    | SavingChoice
    | SavingDenyRule(denyRule: Rule)
    | ListingRules
    | SavingAllowRule(allowRule: Rule, widening: Widening)
    | Pushing(pushed: Widening)
    | SavingOutcome
    | Building
    | Publishing
    | GivingBack(answered: Option<Verdict>)
    | SavingSent

  datatype Attempt = Attempt(
    serial: nat, pc: Pc, ask: Ask, dep: DepId, child: Dependant, once: seq<OnceEntry>, canDrop: bool,
    nowMs: nat, grant: Option<Permission>, resend: bool,
    entry: Entry, out: Verdict, reason: Option<Reason>, added: seq<OnceEntry>)

  datatype Save = Save(row: seq<Entry>, waiter: Option<AskId>)

  datatype Refs = Refs(
    loaded: bool, asks: seq<Pending>, history: seq<Entry>, seen: set<AskId>,
    unsent: map<AskId, Entry>, replied: map<AskId, Verdict>,
    attempts: map<AskId, Attempt>, saves: seq<Save>, serial: nat)

  /** What the caller's options hold when the guardian taps. */
  datatype Options = Options(
    unlocked: bool, children: map<DepId, Dependant>, once: seq<OnceEntry>, canDrop: bool)

  function Record(r: Refs, e: Entry, waiter: Option<AskId>): Refs {
    var row := Recorded(r.history, e);
    r.(history := row, saves := r.saves + [Save(row, waiter)])
  }

  function MarkAnswered(r: Refs, id: AskId, v: Verdict): Refs {
    var pending := Listed(r.asks, id);
    var known := Lookup(r.history, id);
    var r1 := r.(seen := r.seen + {id}, unsent := r.unsent - {id}, asks := Unlist(r.asks, id));
    if pending.Some? then
      Record(r1, Entry(Slim(pending.value.ask), v, Some(v.choice), Some(true), None), None)
    else if known.Some? then
      Record(r1, Entry(known.value.ask, v, Some(v.choice), Some(true), None), None)
    else r1
  }

  // ---- Events from outside ----

  function OnReply(r: Refs, v: Verdict): Refs {
    var known := Lookup(r.history, v.id);
    if known.Some? && IsSent(known.value) then r
    else
      var r1 := r.(replied := r.replied[v.id := v]);
      if v.id in r.attempts then r1 else MarkAnswered(r1, v.id, v)
  }

  function OnAsk(r: Refs, dep: DepId, ask: Ask): Refs {
    if ask.id in r.seen then r
    else if ask.id in r.replied then
      var v := r.replied[ask.id];
      Record(r.(seen := r.seen + {ask.id}, unsent := r.unsent - {ask.id}),
             Entry(Slim(ask), v, Some(v.choice), Some(true), None), None)
    else if CountFor(r.asks, dep) >= LIVE_LIMIT then r
    else
      var marker := if ask.id in r.unsent then Some(ChoiceOf(r.unsent[ask.id])) else None;
      r.(seen := r.seen + {ask.id}, asks := r.asks + [Pending(ask, dep, marker)])
  }

  function OnExpiry(r: Refs, nowS: int): Refs {
    r.(asks := Unexpired(r.asks, nowS))
  }

  function Emptied(serial: nat): Refs {
    Refs(false, [], [], {}, map[], map[], map[], [], serial)
  }

  function UnsentRows(row: seq<Entry>, nowS: int): map<AskId, Entry> {
    if row == [] then map[]
    else
      var rest := UnsentRows(row[..|row| - 1], nowS);
      var e := row[|row| - 1];
      if !IsSent(e) && e.ask.expiresAt > nowS then rest[e.ask.id := e] else rest
  }

  function SeenRows(row: seq<Entry>, nowS: int): set<AskId> {
    if row == [] then {}
    else
      var e := row[|row| - 1];
      SeenRows(row[..|row| - 1], nowS) + if !IsSent(e) && e.ask.expiresAt > nowS then {} else {e.ask.id}
  }

  /** The history row as loaded once per unlock; None when the read failed. */
  function OnLoad(r: Refs, stored: Option<seq<Entry>>, nowS: int): Refs {
    if stored.None? then r.(loaded := true)
    else
      var row := Cap(stored.value);
      r.(loaded := true, history := row, seen := SeenRows(row, nowS), unsent := UnsentRows(row, nowS))
  }

  // ---- decide() ----

  function Seconds(nowMs: nat): nat { nowMs / 1000 }

  function PermissionGrant(ask: Ask, nowS: int): Option<Permission> {
    var d := if ask.scope == Some(APP_PERMISSION) then AppPermissionDetails(ask) else None;
    if d.Some? && -300 <= d.value.validFrom - nowS <= 300 && d.value.validUntil > nowS then d else None
  }

  /** Why a tap starts no attempt, in the order the code checks; None when it starts one. */
  function Refusal(r: Refs, id: AskId, choice: Choice, nowMs: nat, o: Options): Option<Reason> {
    if id in r.attempts then Some(AlreadyDecided)
    else
      var pending := Listed(r.asks, id);
      if pending.None? then
        var known := Lookup(r.history, id);
        Some(if known.Some? && IsSent(known.value) then AlreadyDecided else NotFound)
      else
        var ask := pending.value.ask;
        if ask.expiresAt <= Seconds(nowMs) then Some(Expired)
        else if id in r.replied then Some(AlreadyDecided)
        else if !o.unlocked then Some(Locked)
        else if pending.value.dep !in o.children then Some(NotFound)
        else
          var stage := o.children[pending.value.dep].stage;
          if id in r.unsent && ChoiceOf(r.unsent[id]) != choice then Some(AlreadyDecided)
          else if id !in r.unsent && choice == Always && stage == FullControl then Some(AlwaysUnavailable)
          else if choice == Always && ask.scope == Some(APP_PERMISSION)
                  && (stage != FullAutonomy || PermissionGrant(ask, Seconds(nowMs)).None?)
             then Some(AlwaysAppPermission)
          else None
  }

  /** What a refused tap still changes: an expired ask leaves, an answered one is marked. */
  function Refused(r: Refs, id: AskId, nowMs: nat): Refs {
    var pending := Listed(r.asks, id);
    if id in r.attempts || pending.None? then r
    else if pending.value.ask.expiresAt <= Seconds(nowMs) then r.(asks := Unlist(r.asks, id))
    else if id in r.replied then MarkAnswered(r, id, r.replied[id])
    else r
  }

  function PlainVerdict(id: AskId, choice: Choice, decidedAt: int): Verdict {
    Verdict(id, choice, decidedAt, false, None, None, None)
  }

  function NewAttempt(r: Refs, id: AskId, choice: Choice, alwaysDeny: bool, nowMs: nat, o: Options): Attempt
    requires Refusal(r, id, choice, nowMs, o).None?
  {
    var p := Listed(r.asks, id).value;
    var nowS := Seconds(nowMs);
    var resend := id in r.unsent;
    var verdict := PlainVerdict(id, choice, nowS).(alwaysDeny := choice == Deny && alwaysDeny);
    var entry := if resend then r.unsent[id] else Entry(Slim(p.ask), verdict, Some(choice), Some(false), None);
    Attempt(r.serial, SavingChoice, p.ask, p.dep, o.children[p.dep], o.once, o.canDrop, nowMs,
            PermissionGrant(p.ask, nowS), resend, entry, entry.verdict, None, [])
  }

  function Put(r: Refs, a: Attempt): Refs { r.(attempts := r.attempts[a.ask.id := a]) }

  function End(r: Refs, id: AskId): Refs { r.(attempts := r.attempts - {id}) }

  function Tap(lib: Lib, r: Refs, id: AskId, choice: Choice, alwaysDeny: bool, nowMs: nat, o: Options): Refs {
    if Refusal(r, id, choice, nowMs, o).Some? then Refused(r, id, nowMs)
    else
      var a := NewAttempt(r, id, choice, alwaysDeny, nowMs, o);
      var r1 := r.(serial := r.serial + 1);
      if a.resend then Work(lib, r1, a)
      else Record(Put(r1, a), a.entry, Some(id))
  }

  function ScopeOf(ask: Ask): RuleScope {
    if ask.scope.Some? then Named(ask.scope.value) else KindScope(ask.kind)
  }

  function RuleFor(lib: Lib, a: Attempt, allow: bool): Rule {
    var scope := ScopeOf(a.ask);
    Rule(lib.ruleId(a.dep, a.ask.persona, scope, a.ask.target), a.dep, a.ask.persona, scope, a.ask.target,
         allow, a.nowMs, if allow then a.grant else None)
  }

  /** "Send again" of an approval that was converted to deny tries the approval again. */
  predicate Reconsiders(a: Attempt) {
    a.resend && ChoiceOf(a.entry) != Deny && a.entry.verdict.choice == Deny
  }

  /** The choice is durable: start on its side effects. */
  function Work(lib: Lib, r: Refs, a0: Attempt): Refs {
    var again := Reconsiders(a0);
    var out := if again then PlainVerdict(a0.ask.id, ChoiceOf(a0.entry), a0.entry.verdict.decidedAt)
               else a0.entry.verdict.(alsoOpened := None);
    var a := a0.(out := out, reason := if again then None else a0.entry.reason);
    if out.choice == Deny then
      if out.alwaysDeny && out.ruleId.None? then Put(r, a.(pc := SavingDenyRule(RuleFor(lib, a, false))))
      else SaveOutcome(r, a)
    else Put(r, a.(pc := ListingRules))
  }

  /** The verdict to send is settled: write it to the row before it is published. */
  function SaveOutcome(r: Refs, a: Attempt): Refs {
    var e := a.entry.(verdict := a.out, sent := Some(false),
                      reason := if a.reason.Some? then a.reason else a.entry.reason);
    Record(Put(r.(unsent := r.unsent[a.ask.id := e]), a.(entry := e, pc := SavingOutcome)), e, Some(a.ask.id))
  }

  function Refuse(a: Attempt, why: Reason, wire: Option<WireReason>): Attempt {
    a.(reason := Some(why), out := PlainVerdict(a.ask.id, Deny, a.entry.verdict.decidedAt).(reason := wire))
  }

  function ChoiceSaved(lib: Lib, r: Refs, a: Attempt, ok: bool): Refs {
    var id := a.ask.id;
    if !ok then End(r.(history := Without(r.history, id)), id)
    else Work(lib, r.(unsent := r.unsent[id := a.entry], asks := MarkUnsent(r.asks, id, ChoiceOf(a.entry))), a)
  }

  function DenyRuleSaved(r: Refs, a: Attempt, ok: bool): Refs
    requires a.pc.SavingDenyRule?
  {
    SaveOutcome(r, a.(out := if ok then a.out.(ruleId := Some(a.pc.denyRule.id)) else a.out.(alwaysDeny := false)))
  }

  function SealEntry(a: Attempt): seq<OnceEntry> {
    if SealsOwnAnswer(a.ask) then [OnceEntry(SEAL_KIND, Seconds(a.nowMs) + ONCE_WINDOW_S)] else []
  }

  function KindsOf(es: seq<OnceEntry>): seq<int> { seq(|es|, i requires 0 <= i < |es| => es[i].kind) }

  function AlwaysWidening(lib: Lib, a: Attempt, rules: seq<Rule>): Widening {
    var rule := RuleFor(lib, a, true);
    var seal := SealEntry(a);
    Widening(a.child, rules, WithoutRule(rules, rule.id) + [rule], a.once, seal, Seconds(a.nowMs),
             [a.ask.kind] + KindsOf(seal))
  }

  function OnceWidening(a: Attempt, rules: seq<Rule>): Widening {
    var own := [OnceEntry(a.ask.kind, Seconds(a.nowMs) + ONCE_WINDOW_S)] + SealEntry(a);
    Widening(a.child, rules, rules, a.once, own, Seconds(a.nowMs), KindsOf(own))
  }

  /** The dependant's rules were read (None: the read threw). */
  function RulesListed(lib: Lib, r: Refs, a: Attempt, rules: Option<seq<Rule>>): Refs {
    if rules.None? then End(r, a.ask.id)
    else
      var signs := a.ask.via == SignEvent;
      if signs && a.child.paused then SaveOutcome(r, Refuse(a, Paused, None))
      else if a.out.choice == Always then
        var w := AlwaysWidening(lib, a, rules.value);
        if signs && !WideningFits(lib, w) then SaveOutcome(r, Refuse(a, CeilingFull, None))
        else Put(r, a.(pc := SavingAllowRule(RuleFor(lib, a, true), w)))
      else if signs then
        var w := OnceWidening(a, rules.value);
        if !WideningFits(lib, w) then SaveOutcome(r, Refuse(a, CeilingFull, None))
        else Put(r, a.(pc := Pushing(w)))
      else SaveOutcome(r, a)
  }

  function AllowRuleSaved(r: Refs, a: Attempt, ok: bool): Refs
    requires a.pc.SavingAllowRule?
  {
    if !ok then End(r, a.ask.id)
    else
      var a1 := a.(out := a.out.(ruleId := Some(a.pc.allowRule.id)));
      if a.ask.via == SignEvent then Put(r, a1.(pc := Pushing(a.pc.widening))) else SaveOutcome(r, a1)
  }

  /** The kinds a successful push reports beyond the ask's own. */
  function AlsoOpened(a: Attempt, w: Widening): Option<seq<int>> {
    if a.out.choice == Always then if w.extra != [] then Some([SEAL_KIND]) else None
    else if |w.extra| > 1 && a.ask.kind != SEAL_KIND then Some([SEAL_KIND]) else None
  }

  function PushSettled(r: Refs, a: Attempt, ok: bool): Refs
    requires a.pc.Pushing?
  {
    if !ok then SaveOutcome(r, Refuse(a, DeviceUnreachable, Some(Unreachable)))
    else
      var w := a.pc.pushed;
      SaveOutcome(r, a.(added := w.extra, out := a.out.(alsoOpened := AlsoOpened(a, w))))
  }

  /** Another guardian device answered meanwhile: never a second answer. */
  function OutcomeSaved(r: Refs, a: Attempt): Refs {
    var id := a.ask.id;
    if id !in r.replied then Put(r, a.(pc := Building))
    else if a.added != [] && a.canDrop then Put(r, a.(pc := GivingBack(Some(r.replied[id]))))
    else End(MarkAnswered(r, id, r.replied[id]), id)
  }

  function NotSent(r: Refs, a: Attempt): Refs {
    if a.added != [] && a.canDrop then Put(r, a.(pc := GivingBack(None))) else End(r, a.ask.id)
  }

  function VerdictBuilt(r: Refs, a: Attempt, ok: bool): Refs {
    if ok then Put(r, a.(pc := Publishing)) else NotSent(r, a)
  }

  function PublishSettled(r: Refs, a: Attempt, ok: bool): Refs {
    if !ok then NotSent(r, a)
    else
      var id := a.ask.id;
      Record(Put(r.(unsent := r.unsent - {id}, asks := Unlist(r.asks, id)), a.(pc := SavingSent)),
             a.entry.(sent := Some(true)), Some(id))
  }

  function GaveBack(r: Refs, a: Attempt): Refs
    requires a.pc.GivingBack?
  {
    End(if a.pc.answered.Some? then MarkAnswered(r, a.ask.id, a.pc.answered.value) else r, a.ask.id)
  }

  /** The oldest history save settles and resumes whoever awaited it. */
  function SaveSettled(lib: Lib, r: Refs, ok: bool): Refs {
    if r.saves == [] then r
    else
      var r1 := r.(saves := r.saves[1..]);
      var waiter := r.saves[0].waiter;
      if waiter.None? || waiter.value !in r.attempts then r1
      else
        var a := r.attempts[waiter.value];
        match a.pc
        case SavingChoice => ChoiceSaved(lib, r1, a, ok)
        case SavingOutcome => OutcomeSaved(r1, a)
        case SavingSent => End(r1, a.ask.id)
        case _ => r1
  }
}
