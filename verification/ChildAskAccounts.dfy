/**
 * What one attempt did to the device and the approved-once ledger: an approval
 * on the wire is backed by a push that succeeded in that attempt, and an
 * attempt that ends leaves behind exactly the entries its acknowledged verdict
 * needs.
 */
module ChildAskAccounts {
  import opened Wrappers
  import opened ChildAsks
  import opened ChildAskRows
  import opened ChildAskRefs
  import opened ChildAskRun

  function EntriesOf(pushed: Option<Widening>): multiset<OnceEntry> {
    if pushed.Some? then multiset(pushed.value.extra) else multiset{}
  }

  predicate OpensSeal(w: Widening) { exists e <- w.extra :: e.kind == SEAL_KIND }

  /** The device lists the ask's kind and every new one, dropped none, and the child was not paused. */
  predicate Backs(lib: Lib, ask: Ask, w: Widening) {
    && WideningFits(lib, w) && !w.dep.paused && ask.kind in w.kinds
    && (forall e <- w.extra :: e.kind in w.kinds)
  }

  /** `alsoOpened` names the seal exactly when this attempt's push opened it beyond the ask's own kind. */
  predicate Reports(ask: Ask, v: Verdict, pushed: Option<Widening>) {
    v.alsoOpened == (if pushed.Some? && OpensSeal(pushed.value) && (v.choice == Always || ask.kind != SEAL_KIND)
                     then Some([SEAL_KIND]) else None)
  }

  predicate Ready(lib: Lib, a: Attempt, w: Widening) {
    && Backs(lib, a.ask, w) && a.out.choice != Deny
    && AlsoOpened(a, w)
       == (if OpensSeal(w) && (a.out.choice == Always || a.ask.kind != SEAL_KIND) then Some([SEAL_KIND]) else None)
  }

  predicate BeforePush(pc: Pc) {
    pc.SavingChoice? || pc.SavingDenyRule? || pc.ListingRules? || pc.SavingAllowRule? || pc.Pushing?
  }

  /** A verdict as it goes out, against what the attempt pushed. */
  predicate Honest(lib: Lib, ask: Ask, v: Verdict, pushed: Option<Widening>) {
    && (v.choice != Deny && ask.via == SignEvent ==> pushed.Some? && Backs(lib, ask, pushed.value))
    && Reports(ask, v, pushed)
  }

  /** The account of an attempt still in progress. */
  ghost predicate InFlight(lib: Lib, acc: Account, a: Attempt) {
    && acc.ask == a.ask && acc.canDrop == a.canDrop && !acc.cut && acc.acked == a.pc.SavingSent?
    && acc.held == multiset(a.added)
    && (BeforePush(a.pc) ==> acc.pushed.None? && acc.sent.None? && a.added == [])
    && (a.pc.SavingDenyRule? || a.pc.ListingRules? || a.pc.SavingAllowRule? || a.pc.Pushing? ==> a.out.alsoOpened.None?)
    && (a.pc.ListingRules? ==> a.out.choice != Deny)
    && (a.pc.SavingDenyRule? ==> a.out.choice == Deny && a.pc.denyRule == RuleFor(lib, a, false))
    && (a.pc.SavingAllowRule? ==> a.out.choice == Always && a.pc.allowRule == RuleFor(lib, a, true))
    && (a.pc.SavingAllowRule? && a.ask.via == SignEvent ==> Ready(lib, a, a.pc.widening))
    && (a.pc.Pushing? ==> Ready(lib, a, a.pc.pushed))
    && (!BeforePush(a.pc) ==> multiset(a.added) == EntriesOf(acc.pushed) && Honest(lib, a.ask, a.out, acc.pushed))
    && (a.pc.SavingOutcome? || a.pc.Building? ==> acc.sent.None?)
    && (a.pc.Publishing? || a.pc.SavingSent? ==> acc.sent == Some(a.out))
    && (a.pc.GivingBack? ==> a.canDrop && (acc.sent.Some? ==> acc.sent == Some(a.out)))
  }

  /**
   * What an attempt that is over left in the ledger: its entries if the relay
   * took its verdict, or if they could not be given back; nothing otherwise.
   */
  predicate Balanced(acc: Account) {
    acc.held == if acc.acked || acc.cut || !acc.canDrop then EntriesOf(acc.pushed) else multiset{}
  }

  predicate SentOk(lib: Lib, acc: Account) {
    && (acc.sent.Some? ==> Honest(lib, acc.ask, acc.sent.value, acc.pushed))
    && (acc.acked ==> acc.sent.Some?)
  }

  predicate Running(r: Refs, n: nat) { exists id <- r.attempts :: r.attempts[id].serial == n }

  ghost predicate AccountsOk(lib: Lib, r: Refs, accounts: map<nat, Account>) {
    && (forall n <- accounts :: n < r.serial && SentOk(lib, accounts[n]) && (!Running(r, n) ==> Balanced(accounts[n])))
    && (forall id <- r.attempts ::
        r.attempts[id].serial in accounts && InFlight(lib, accounts[r.attempts[id].serial], r.attempts[id]))
  }

  // ---- The attempt each handler leaves ----

  lemma {:induction false} KindsOfHas(es: seq<OnceEntry>)
    ensures forall e <- es :: e.kind in KindsOf(es)
  {
    forall e | e in es ensures e.kind in KindsOf(es) {
      var i :| 0 <= i < |es| && es[i] == e;
      assert KindsOf(es)[i] == e.kind;
    }
  }

  lemma AlwaysReady(lib: Lib, a: Attempt, rules: seq<Rule>)
    requires a.out.choice == Always && !a.child.paused && WideningFits(lib, AlwaysWidening(lib, a, rules))
    ensures Ready(lib, a, AlwaysWidening(lib, a, rules))
  {
    var w := AlwaysWidening(lib, a, rules);
    KindsOfHas(w.extra);
    assert w.kinds[0] == a.ask.kind;
    hide WideningFits, AlwaysWidening;
    if w.extra != [] { assert w.extra[0] in w.extra; }
  }

  lemma OnceReady(lib: Lib, a: Attempt, rules: seq<Rule>)
    requires a.out.choice == Once && !a.child.paused && WideningFits(lib, OnceWidening(a, rules))
    ensures Ready(lib, a, OnceWidening(a, rules))
  {
    var w := OnceWidening(a, rules);
    KindsOfHas(w.extra);
    assert w.extra[0].kind == a.ask.kind && w.kinds[0] == a.ask.kind;
    if |w.extra| > 1 { assert w.extra[1] in w.extra; }
  }

  /** The attempt a handler leaves in place of `a`, if any; the others are untouched. */
  ghost predicate Leaves(r: Refs, r': Refs, id: AskId, left: Option<Attempt>) {
    && r'.serial == r.serial
    && r'.attempts == if left.Some? then r.attempts[id := left.value] else r.attempts - {id}
  }

  function Outcome(a: Attempt): Attempt {
    a.(pc := SavingOutcome, entry := a.entry.(verdict := a.out, sent := Some(false),
                                              reason := if a.reason.Some? then a.reason else a.entry.reason))
  }

  lemma SaveOutcomeLeaves(r: Refs, a: Attempt)
    ensures Leaves(r, SaveOutcome(r, a), a.ask.id, Some(Outcome(a)))
  {
  }

  lemma MarkAnsweredLeaves(r: Refs, id: AskId, v: Verdict)
    ensures MarkAnswered(r, id, v).attempts == r.attempts && MarkAnswered(r, id, v).serial == r.serial
  {
  }

  /** What `Work` leaves. */
  function WorkOn(lib: Lib, a0: Attempt): Attempt {
    var out := if Reconsiders(a0) then PlainVerdict(a0.ask.id, ChoiceOf(a0.entry), a0.entry.verdict.decidedAt)
               else a0.entry.verdict.(alsoOpened := None);
    var a := a0.(out := out, reason := if Reconsiders(a0) then None else a0.entry.reason);
    if out.choice != Deny then a.(pc := ListingRules)
    else if out.alwaysDeny && out.ruleId.None? then a.(pc := SavingDenyRule(RuleFor(lib, a, false)))
    else Outcome(a)
  }

  lemma WorkLeaves(lib: Lib, r: Refs, a: Attempt)
    ensures Leaves(r, Work(lib, r, a), a.ask.id, Some(WorkOn(lib, a)))
  {
    hide Recorded, RuleFor;
  }

  lemma WorkInFlight(lib: Lib, acc: Account, a: Attempt)
    requires acc.ask == a.ask && acc.canDrop == a.canDrop && !acc.cut && !acc.acked && acc.held == multiset{}
    requires acc.pushed.None? && acc.sent.None? && a.added == []
    ensures InFlight(lib, acc, WorkOn(lib, a)) && WorkOn(lib, a).serial == a.serial && WorkOn(lib, a).ask == a.ask
    ensures WorkOn(lib, a).out.choice == (if Reconsiders(a) then ChoiceOf(a.entry) else a.entry.verdict.choice)
    ensures Reconsiders(a) ==> WorkOn(lib, a).pc.ListingRules? && WorkOn(lib, a).reason.None?
  {
  }

  /** What a settled call of an answer in progress leaves. */
  function Left(lib: Lib, a: Attempt, ev: Event): Option<Attempt> {
    match ev
    case RuleSettles(_, ok) =>
      if a.pc.SavingDenyRule? || a.pc.SavingAllowRule? then RuleLeft(a, ok) else Some(a)
    case RulesRead(_, rules) => if a.pc.ListingRules? then RulesLeft(lib, a, rules) else Some(a)
    case PushSettles(_, ok) =>
      if a.pc.Pushing? then PushLeft(a, ok) else Some(a)
    case BuildSettles(_, ok) =>
      if !a.pc.Building? then Some(a) else if ok then Some(a.(pc := Publishing)) else NotSentLeft(a)
    case PublishSettles(_, ok) =>
      if !a.pc.Publishing? then Some(a) else if ok then Some(a.(pc := SavingSent)) else NotSentLeft(a)
    case DropSettles(_, _) => if a.pc.GivingBack? then None else Some(a)
    case _ => Some(a)
  }

  function RuleLeft(a: Attempt, ok: bool): Option<Attempt> {
    if a.pc.SavingDenyRule? then
      Some(Outcome(a.(out := if ok then a.out.(ruleId := Some(a.pc.denyRule.id)) else a.out.(alwaysDeny := false))))
    else if !a.pc.SavingAllowRule? || !ok then None
    else
      var a1 := a.(out := a.out.(ruleId := Some(a.pc.allowRule.id)));
      Some(if a.ask.via == SignEvent then a1.(pc := Pushing(a.pc.widening)) else Outcome(a1))
  }

  function PushLeft(a: Attempt, ok: bool): Option<Attempt>
    requires a.pc.Pushing?
  {
    if ok then Some(Outcome(a.(added := a.pc.pushed.extra, out := a.out.(alsoOpened := AlsoOpened(a, a.pc.pushed)))))
    else Some(Outcome(Refuse(a, DeviceUnreachable, Some(Unreachable))))
  }

  function NotSentLeft(a: Attempt): Option<Attempt> {
    if a.added != [] && a.canDrop then Some(a.(pc := GivingBack(None))) else None
  }

  function RulesLeft(lib: Lib, a: Attempt, rules: Option<seq<Rule>>): Option<Attempt> {
    var signs := a.ask.via == SignEvent;
    if rules.None? then None
    else if signs && a.child.paused then Some(Outcome(Refuse(a, Paused, None)))
    else if a.out.choice == Always then
      var w := AlwaysWidening(lib, a, rules.value);
      if signs && !WideningFits(lib, w) then Some(Outcome(Refuse(a, CeilingFull, None)))
      else Some(a.(pc := SavingAllowRule(RuleFor(lib, a, true), w)))
    else if signs then
      var w := OnceWidening(a, rules.value);
      if !WideningFits(lib, w) then Some(Outcome(Refuse(a, CeilingFull, None))) else Some(a.(pc := Pushing(w)))
    else Some(Outcome(a))
  }

  predicate SettlesCall(ev: Event) {
    ev.RuleSettles? || ev.RulesRead? || ev.PushSettles? || ev.BuildSettles? || ev.PublishSettles? || ev.DropSettles?
  }

  lemma RulesLeaves(lib: Lib, r: Refs, a: Attempt, rules: Option<seq<Rule>>)
    ensures Leaves(r, RulesListed(lib, r, a, rules), a.ask.id, RulesLeft(lib, a, rules))
  {
    hide WideningFits, AlwaysWidening, OnceWidening, RuleFor, SaveOutcome, Outcome;
    SaveOutcomeLeaves(r, a);
    SaveOutcomeLeaves(r, Refuse(a, Paused, None));
    SaveOutcomeLeaves(r, Refuse(a, CeilingFull, None));
  }

  lemma EndsLeave(r: Refs, a: Attempt, ok: bool)
    requires a.ask.id in r.attempts && r.attempts[a.ask.id] == a
    ensures Leaves(r, NotSent(r, a), a.ask.id, NotSentLeft(a))
    ensures Leaves(r, PublishSettled(r, a, ok), a.ask.id, if ok then Some(a.(pc := SavingSent)) else NotSentLeft(a))
    ensures a.pc.GivingBack? ==> Leaves(r, GaveBack(r, a), a.ask.id, None)
  {
  }

  lemma RuleSettlesLeaves(r: Refs, a: Attempt, ok: bool)
    ensures a.pc.SavingDenyRule? ==> Leaves(r, DenyRuleSaved(r, a, ok), a.ask.id, RuleLeft(a, ok))
    ensures a.pc.SavingAllowRule? ==> Leaves(r, AllowRuleSaved(r, a, ok), a.ask.id, RuleLeft(a, ok))
  {
    hide SaveOutcome, Outcome;
    if a.pc.SavingDenyRule? {
      SaveOutcomeLeaves(r, a.(out := if ok then a.out.(ruleId := Some(a.pc.denyRule.id))
                                     else a.out.(alwaysDeny := false)));
    } else if a.pc.SavingAllowRule? {
      SaveOutcomeLeaves(r, a.(out := a.out.(ruleId := Some(a.pc.allowRule.id))));
    }
  }

  lemma PushLeaves(r: Refs, a: Attempt, ok: bool)
    requires a.pc.Pushing?
    ensures Leaves(r, PushSettled(r, a, ok), a.ask.id, PushLeft(a, ok))
  {
  }

  lemma CallLeaves(lib: Lib, w: World, ev: Event, id: AskId)
    requires SettlesCall(ev) && Subject(w.refs, ev) == Some(id) && id in w.refs.attempts
    requires w.refs.attempts[id].ask.id == id
    ensures Leaves(w.refs, RefsAfter(lib, w, ev), id, Left(lib, w.refs.attempts[id], ev))
  {
    hide DenyRuleSaved, AllowRuleSaved, RuleLeft, PushSettled, PushLeft, RulesListed, RulesLeft, NotSent, NotSentLeft,
      PublishSettled, GaveBack;
    var r, a := w.refs, w.refs.attempts[id];
    if ev.RulesRead? {
      RulesLeaves(lib, r, a, ev.rules);
    } else if ev.RuleSettles? {
      RuleSettlesLeaves(r, a, ev.ok);
    } else if ev.PushSettles? {
      if a.pc.Pushing? { PushLeaves(r, a, ev.ok); }
    } else {
      EndsLeave(r, a, ev.ok);
    }
  }

  lemma RuleAccount(lib: Lib, acc: Account, a: Attempt, ok: bool)
    requires InFlight(lib, acc, a) && (a.pc.SavingDenyRule? || a.pc.SavingAllowRule?)
    ensures var left := RuleLeft(a, ok);
      && (left.Some? ==> InFlight(lib, acc, left.value) && left.value.serial == a.serial && left.value.ask == a.ask)
      && (left.None? ==> Balanced(acc))
  {
  }

  lemma PushAccount(lib: Lib, acc: Account, a: Attempt, ok: bool)
    requires InFlight(lib, acc, a) && a.pc.Pushing? && SentOk(lib, acc)
    ensures var acc', left := Credited(acc, a, PushSettles(a.ask.id, ok)), PushLeft(a, ok);
      && SentOk(lib, acc')
      && left.Some? && InFlight(lib, acc', left.value) && left.value.serial == a.serial && left.value.ask == a.ask
  {
  }

  /** A rule depends on the ask, the child, the moment of the tap and the grant, not on where the attempt stands. */
  lemma RuleForStays(lib: Lib, a: Attempt, pc: Pc, allow: bool)
    ensures RuleFor(lib, a.(pc := pc), allow) == RuleFor(lib, a, allow)
  {
  }

  lemma RulesAccount(lib: Lib, acc: Account, a: Attempt, rules: Option<seq<Rule>>)
    requires InFlight(lib, acc, a) && a.pc.ListingRules?
    ensures var left := RulesLeft(lib, a, rules);
      && (left.Some? ==> InFlight(lib, acc, left.value) && left.value.serial == a.serial && left.value.ask == a.ask)
      && (left.None? ==> Balanced(acc))
  {
    hide WideningFits, AlwaysWidening, OnceWidening, RuleFor, OpensSeal, Backs;
    if rules.Some? {
      RuleForStays(lib, a, SavingAllowRule(RuleFor(lib, a, true), AlwaysWidening(lib, a, rules.value)), true);
    }
    if rules.Some? && a.ask.via == SignEvent && !a.child.paused {
      if a.out.choice == Always {
        if WideningFits(lib, AlwaysWidening(lib, a, rules.value)) { AlwaysReady(lib, a, rules.value); }
      } else if WideningFits(lib, OnceWidening(a, rules.value)) {
        OnceReady(lib, a, rules.value);
      }
    }
  }

  lemma BuildAccount(lib: Lib, acc: Account, a: Attempt, ok: bool)
    requires InFlight(lib, acc, a) && a.pc.Building? && SentOk(lib, acc)
    ensures var acc', left := Credited(acc, a, BuildSettles(a.ask.id, ok)), Left(lib, a, BuildSettles(a.ask.id, ok));
      && SentOk(lib, acc')
      && (left.Some? ==> InFlight(lib, acc', left.value) && left.value.serial == a.serial && left.value.ask == a.ask)
      && (left.None? ==> Balanced(acc'))
  {
    hide Backs, OpensSeal;
  }

  lemma PublishAccount(lib: Lib, acc: Account, a: Attempt, ok: bool)
    requires InFlight(lib, acc, a) && a.pc.Publishing? && SentOk(lib, acc)
    ensures var acc' := Credited(acc, a, PublishSettles(a.ask.id, ok));
      var left := Left(lib, a, PublishSettles(a.ask.id, ok));
      && SentOk(lib, acc')
      && (left.Some? ==> InFlight(lib, acc', left.value) && left.value.serial == a.serial && left.value.ask == a.ask)
      && (left.None? ==> Balanced(acc'))
  {
    hide Backs, OpensSeal;
  }

  lemma DropAccount(lib: Lib, acc: Account, a: Attempt, ok: bool)
    requires InFlight(lib, acc, a) && a.pc.GivingBack? && SentOk(lib, acc)
    ensures var acc' := Credited(acc, a, DropSettles(a.ask.id, ok)); SentOk(lib, acc') && Balanced(acc')
  {
  }

  lemma CallAccount(lib: Lib, acc: Account, a: Attempt, ev: Event)
    requires SettlesCall(ev) && InFlight(lib, acc, a) && SentOk(lib, acc) && !a.pc.SavingChoice?
    requires Subject(Emptied(0), ev) == Some(a.ask.id)
    ensures var acc', left := Credited(acc, a, ev), Left(lib, a, ev);
      && SentOk(lib, acc')
      && (left.Some? ==> InFlight(lib, acc', left.value) && left.value.serial == a.serial && left.value.ask == a.ask)
      && (left.None? ==> Balanced(acc'))
  {
    hide InFlight, SentOk, Balanced, RulesLeft, RuleLeft, PushLeft, NotSentLeft;
    if ev.RulesRead? {
      if a.pc.ListingRules? { RulesAccount(lib, acc, a, ev.rules); }
    } else if ev.RuleSettles? {
      if a.pc.SavingDenyRule? || a.pc.SavingAllowRule? { RuleAccount(lib, acc, a, ev.ok); }
    } else if ev.PushSettles? {
      if a.pc.Pushing? { PushAccount(lib, acc, a, ev.ok); }
    } else if ev.BuildSettles? {
      if a.pc.Building? { BuildAccount(lib, acc, a, ev.ok); }
    } else if ev.PublishSettles? {
      if a.pc.Publishing? { PublishAccount(lib, acc, a, ev.ok); }
    } else if a.pc.GivingBack? {
      DropAccount(lib, acc, a, ev.ok);
    }
  }

  // ---- Saves ----

  /** What a settled save leaves of the attempt that waited for it. */
  function SavedLeft(lib: Lib, a: Attempt, ok: bool, replied: map<AskId, Verdict>): Option<Attempt> {
    match a.pc
    case SavingChoice => if ok then Some(WorkOn(lib, a)) else None
    case SavingOutcome =>
      if a.ask.id !in replied then Some(a.(pc := Building))
      else if a.added != [] && a.canDrop then Some(a.(pc := GivingBack(Some(replied[a.ask.id])))) else None
    case SavingSent => None
    case _ => Some(a)
  }

  lemma SaveLeaves(lib: Lib, r: Refs, id: AskId, ok: bool)
    requires r.saves != [] && r.saves[0].waiter == Some(id) && id in r.attempts && r.attempts[id].ask.id == id
    ensures Leaves(r, SaveSettled(lib, r, ok), id, SavedLeft(lib, r.attempts[id], ok, r.replied))
  {
    hide Work, WorkOn, MarkAnswered, Without, MarkUnsent;
    var a := r.attempts[id];
    var r1 := r.(saves := r.saves[1..]);
    WorkLeaves(lib, r1.(unsent := r1.unsent[id := a.entry], asks := MarkUnsent(r1.asks, id, ChoiceOf(a.entry))), a);
    if id in r.replied { MarkAnsweredLeaves(r1, id, r.replied[id]); }
  }

  lemma ChoiceAccount(lib: Lib, acc: Account, a: Attempt)
    requires InFlight(lib, acc, a) && a.pc.SavingChoice?
    ensures Balanced(acc) && acc.ask == a.ask && acc.canDrop == a.canDrop && !acc.cut && !acc.acked
    ensures acc.held == multiset{} && acc.pushed.None? && acc.sent.None? && a.added == []
  {
    hide Ready, Honest;
  }

  lemma OutcomeAccount(lib: Lib, acc: Account, a: Attempt, replied: map<AskId, Verdict>)
    requires InFlight(lib, acc, a) && a.pc.SavingOutcome?
    ensures InFlight(lib, acc, a.(pc := Building))
    ensures a.ask.id in replied && a.added != [] && a.canDrop ==>
      InFlight(lib, acc, a.(pc := GivingBack(Some(replied[a.ask.id]))))
    ensures a.added == [] || !a.canDrop ==> Balanced(acc)
  {
    hide Ready, Honest;
  }

  lemma SentAccount(lib: Lib, acc: Account, a: Attempt)
    requires InFlight(lib, acc, a) && a.pc.SavingSent?
    ensures Balanced(acc)
  {
    hide Ready, Honest;
  }

  lemma SaveAccount(lib: Lib, acc: Account, a: Attempt, ok: bool, replied: map<AskId, Verdict>)
    requires InFlight(lib, acc, a) && SentOk(lib, acc)
    ensures var left := SavedLeft(lib, a, ok, replied);
      && (left.Some? ==> InFlight(lib, acc, left.value) && left.value.serial == a.serial && left.value.ask == a.ask)
      && (left.None? ==> Balanced(acc))
  {
    hide InFlight, SentOk, Balanced, WorkOn;
    if a.pc.SavingChoice? {
      ChoiceAccount(lib, acc, a);
      if ok { WorkInFlight(lib, acc, a); }
    } else if a.pc.SavingOutcome? {
      OutcomeAccount(lib, acc, a, replied);
    } else if a.pc.SavingSent? {
      SentAccount(lib, acc, a);
    }
  }

  // ---- Every event ----

  lemma Assemble(lib: Lib, r: Refs, r': Refs, accounts: map<nat, Account>, id: AskId, acc': Account,
                 left: Option<Attempt>)
    requires AccountsOk(lib, r, accounts) && RefsOk(r) && id in r.attempts && Leaves(r, r', id, left)
    requires SentOk(lib, acc')
    requires left.Some? ==> InFlight(lib, acc', left.value) && left.value.serial == r.attempts[id].serial
    requires left.None? ==> Balanced(acc')
    ensures AccountsOk(lib, r', accounts[r.attempts[id].serial := acc'])
  {
    hide RefsOk, InFlight, SentOk, Balanced;
    OwnSerials(lib, r, accounts);
    var n := r.attempts[id].serial;
    forall k | k != n && Running(r, k) ensures Running(r', k) {
      var x :| x in r.attempts && r.attempts[x].serial == k;
      assert r'.attempts[x].serial == k;
    }
    if left.Some? { assert r'.attempts[id].serial == n; }
  }

  /** An account belongs to one ask, so no two answers in progress share one. */
  lemma OwnSerials(lib: Lib, r: Refs, accounts: map<nat, Account>)
    requires AccountsOk(lib, r, accounts) && RefsOk(r)
    ensures forall x <- r.attempts, y <- r.attempts :: r.attempts[x].serial == r.attempts[y].serial ==> x == y
  {
  }

  lemma Open(lib: Lib, r: Refs, r': Refs, accounts: map<nat, Account>, left: Attempt)
    requires AccountsOk(lib, r, accounts) && left.ask.id !in r.attempts && left.serial == r.serial
    requires r'.serial == r.serial + 1 && r'.attempts == r.attempts[left.ask.id := left]
    requires InFlight(lib, Opened(left), left)
    ensures AccountsOk(lib, r', accounts[left.serial := Opened(left)])
  {
    hide InFlight, Balanced;
    var accounts' := accounts[left.serial := Opened(left)];
    assert r'.attempts[left.ask.id].serial == left.serial;
    forall k | Running(r, k) ensures Running(r', k) {
      var x :| x in r.attempts && r.attempts[x].serial == k;
      assert r'.attempts[x].serial == k;
    }
  }

  lemma RefusedLeaves(r: Refs, id: AskId, nowMs: nat)
    ensures Refused(r, id, nowMs).attempts == r.attempts && Refused(r, id, nowMs).serial == r.serial
  {
    hide MarkAnswered, Unlist;
    if id in r.replied { MarkAnsweredLeaves(r, id, r.replied[id]); }
  }

  /** The attempt a tap opens, at its first await. */
  lemma OpenedLeaves(lib: Lib, r: Refs, a: Attempt)
    requires a.pc.SavingChoice? && a.added == []
    ensures var r1 := r.(serial := r.serial + 1); var b := if a.resend then WorkOn(lib, a) else a;
      var r' := if a.resend then Work(lib, r1, a) else Record(Put(r1, a), a.entry, Some(a.ask.id));
      && r'.attempts == r.attempts[a.ask.id := b] && r'.serial == r.serial + 1
      && b.ask == a.ask && b.serial == a.serial && InFlight(lib, Opened(b), b)
  {
    hide Recorded, Work, WorkOn;
    WorkLeaves(lib, r.(serial := r.serial + 1), a);
    WorkInFlight(lib, Opened(a), a);
    WorkKeepsDrop(lib, a);
  }

  lemma TapOpens(lib: Lib, r: Refs, id: AskId, choice: Choice, alwaysDeny: bool, nowMs: nat, o: Options)
    requires RefsOk(r)
    ensures var r' := Tap(lib, r, id, choice, alwaysDeny, nowMs, o);
      || (r'.attempts == r.attempts && r'.serial == r.serial)
      || (id !in r.attempts && id in r'.attempts && r'.attempts[id].ask.id == id && r'.attempts[id].serial == r.serial
          && r'.serial == r.serial + 1
          && r'.attempts == r.attempts[id := r'.attempts[id]]
          && InFlight(lib, Opened(r'.attempts[id]), r'.attempts[id]))
  {
    hide Record, Work, WorkOn, Refused, RefsOk, InFlight;
    InProgress(r);
    if !r.loaded {
      assert Listed(r.asks, id).None?;
      RefusedLeaves(r, id, nowMs);
    } else if Refusal(r, id, choice, nowMs, o).Some? {
      RefusedLeaves(r, id, nowMs);
    } else {
      NewAttemptFacts(r, id, choice, alwaysDeny, nowMs, o);
      OpenedLeaves(lib, r, NewAttempt(r, id, choice, alwaysDeny, nowMs, o));
    }
  }

  lemma WorkKeepsDrop(lib: Lib, a: Attempt)
    ensures WorkOn(lib, a).canDrop == a.canDrop && WorkOn(lib, a).ask == a.ask
  {
  }

  /** The answers in progress are untouched by asks, replies, expiry and loads. */
  lemma Untouched(lib: Lib, w: World, ev: Event)
    requires RefsOk(w.refs)
    requires ev.AskArrives? || ev.ReplyArrives? || ev.ExpiryFires? || ev.HistoryLoads?
    ensures RefsAfter(lib, w, ev).attempts == w.refs.attempts && RefsAfter(lib, w, ev).serial == w.refs.serial
  {
    hide Recorded, Listed, Lookup, Unlist, Unexpired, UnsentRows, SeenRows, ListOk, HistoryOk, AttemptsOk, UnsentOk,
         WaitersOk;
  }

  lemma SameAccounts(lib: Lib, r: Refs, r': Refs, accounts: map<nat, Account>)
    requires AccountsOk(lib, r, accounts) && r'.attempts == r.attempts && r'.serial == r.serial
    ensures AccountsOk(lib, r', accounts)
  {
  }

  /** Every event keeps the accounts. */
  lemma StepAccounts(lib: Lib, w: World, ev: Event)
    requires RefsOk(w.refs) && AccountsOk(lib, w.refs, w.accounts)
    ensures var w' := Step(lib, w, ev); AccountsOk(lib, w'.refs, w'.accounts)
  {
    hide RefsOk, AccountsOk, InFlight, SentOk, Balanced, RefsAfter, Left, Tap;
    var r, r' := w.refs, RefsAfter(lib, w, ev);
    InProgress(r);
    AccountsGive(lib, r, w.accounts);
    if ev.Reload? {
      ReloadAccounts(lib, w);
    } else if ev.SaveSettles? {
      SaveStepAccounts(lib, w, ev.ok);
    } else if ev.Taps? {
      TapStepAccounts(lib, w, ev);
    } else if SettlesCall(ev) {
      CallStepAccounts(lib, w, ev);
    } else {
      Untouched(lib, w, ev);
      SameAccounts(lib, r, r', w.accounts);
    }
  }

  lemma AccountsGive(lib: Lib, r: Refs, accounts: map<nat, Account>)
    requires AccountsOk(lib, r, accounts)
    ensures forall id <- r.attempts :: r.attempts[id].serial in accounts && SentOk(lib, accounts[r.attempts[id].serial])
                                       && InFlight(lib, accounts[r.attempts[id].serial], r.attempts[id])
  {
  }

  lemma ReloadAccounts(lib: Lib, w: World)
    requires AccountsOk(lib, w.refs, w.accounts)
    ensures var w' := Step(lib, w, Reload); AccountsOk(lib, w'.refs, w'.accounts)
  {
  }

  lemma SaveStepAccounts(lib: Lib, w: World, ok: bool)
    requires RefsOk(w.refs) && AccountsOk(lib, w.refs, w.accounts)
    ensures var w' := Step(lib, w, SaveSettles(ok)); AccountsOk(lib, w'.refs, w'.accounts)
  {
    hide RefsOk, AccountsOk, InFlight, SentOk, Balanced, SavedLeft;
    var r, r' := w.refs, SaveSettled(lib, w.refs, ok);
    InProgress(r);
    AccountsGive(lib, r, w.accounts);
    if r.saves == [] || r.saves[0].waiter.None? {
      SameAccounts(lib, r, r', w.accounts);
    } else {
      PoppedWaiter(r);
      var id := r.saves[0].waiter.value;
      var a := r.attempts[id];
      var acc := w.accounts[a.serial];
      SaveLeaves(lib, r, id, ok);
      SaveAccount(lib, acc, a, ok, r.replied);
      Assemble(lib, r, r', w.accounts, id, acc, SavedLeft(lib, a, ok, r.replied));
    }
  }

  lemma PoppedWaiter(r: Refs)
    requires RefsOk(r) && r.saves != [] && r.saves[0].waiter.Some?
    ensures r.saves[0].waiter.value in r.attempts
  {
  }

  lemma TapStepAccounts(lib: Lib, w: World, ev: Event)
    requires RefsOk(w.refs) && AccountsOk(lib, w.refs, w.accounts) && ev.Taps?
    ensures var w' := Step(lib, w, ev); AccountsOk(lib, w'.refs, w'.accounts)
  {
    hide RefsOk, AccountsOk, InFlight, SentOk, Balanced, Tap;
    var r, r' := w.refs, RefsAfter(lib, w, ev);
    AccountsGive(lib, r, w.accounts);
    TapOpens(lib, r, ev.id, ev.choice, ev.alwaysDeny, ev.nowMs, ev.options);
    if r'.attempts == r.attempts && r'.serial == r.serial {
      SameAccounts(lib, r, r', w.accounts);
      if ev.id in r.attempts {
        var n := r.attempts[ev.id].serial;
        assert w.accounts[n := w.accounts[n]] == w.accounts;
      }
    } else {
      Open(lib, r, r', w.accounts, r'.attempts[ev.id]);
    }
  }

  lemma CallStepAccounts(lib: Lib, w: World, ev: Event)
    requires RefsOk(w.refs) && AccountsOk(lib, w.refs, w.accounts) && SettlesCall(ev)
    ensures var w' := Step(lib, w, ev); AccountsOk(lib, w'.refs, w'.accounts)
  {
    hide RefsOk, AccountsOk, InFlight, SentOk, Balanced, Left, Work, Tap, RulesListed, SaveOutcome, PublishSettled,
         GaveBack;
    var r, r' := w.refs, RefsAfter(lib, w, ev);
    var id := Subject(r, ev).value;
    InProgress(r);
    AccountsGive(lib, r, w.accounts);
    if id !in r.attempts {
      assert r' == r;
    } else {
      var a := r.attempts[id];
      var acc := w.accounts[a.serial];
      CallLeaves(lib, w, ev, id);
      if a.pc.SavingChoice? {
        StaysPut(lib, acc, a, ev);
        Assemble(lib, r, r', w.accounts, id, acc, Some(a));
      } else {
        CallAccount(lib, acc, a, ev);
        Assemble(lib, r, r', w.accounts, id, Credited(acc, a, ev), Left(lib, a, ev));
      }
    }
  }

  lemma StaysPut(lib: Lib, acc: Account, a: Attempt, ev: Event)
    requires a.pc.SavingChoice? && SettlesCall(ev)
    ensures Credited(acc, a, ev) == acc && Left(lib, a, ev) == Some(a)
  {
  }
}
