/**
 * Runs of the inbox against its environment: the stored history row, the
 * ceiling pusher, the rule store and the relay. A step is one event; between
 * two events the hook waits. `Reload` may come at any moment: it drops the
 * memory, the answers in progress and the saves that have not landed.
 */
module ChildAskRun {
  import opened Wrappers
  import opened ChildAsks
  import opened ChildAskRows
  import opened ChildAskRefs

  datatype Event =
    | AskArrives(dep: DepId, ask: Ask)
    | ReplyArrives(verdict: Verdict)
    | ExpiryFires(nowS: int)
    | Taps(id: AskId, choice: Choice, alwaysDeny: bool, nowMs: nat, options: Options)
    | SaveSettles(ok: bool)
    | RuleSettles(id: AskId, ok: bool)
    | RulesRead(id: AskId, rules: Option<seq<Rule>>)
    | PushSettles(id: AskId, ok: bool)
    | BuildSettles(id: AskId, ok: bool)
    | PublishSettles(id: AskId, ok: bool)
    | DropSettles(id: AskId, ok: bool)
    | Reload
    | HistoryLoads(nowS: int, ok: bool)

  /** A call with a side effect, as the hook issues it. */
  datatype Call = SaveRule(rule: Rule) | PushCeiling(widening: Widening) | Publish(verdict: Verdict)

  /** An issued call, with the choice the stored row held for its ask at that moment. */
  datatype Effect = Effect(serial: nat, id: AskId, call: Call, durable: Option<Choice>)

  /**
   * What the outside saw of one attempt: the push it got through, the
   * approved-once entries it has placed and not taken back, what it published,
   * whether the relay took it, and whether giving the entries back was cut
   * short (a failed drop or a reload).
   */
  datatype Account = Account(
    ask: Ask, canDrop: bool, pushed: Option<Widening>, held: multiset<OnceEntry>,
    sent: Option<Verdict>, acked: bool, cut: bool)

  /**
   * `committed` remembers the first choice that became durable for an ask and
   * `lost` the asks whose row fell out of the 200 or was missed by a failed
   * load; `acks` are the asks acknowledged in this unlock.
   */
  datatype World = World(
    refs: Refs, disk: seq<Entry>, effects: seq<Effect>, accounts: map<nat, Account>,
    committed: map<AskId, Choice>, lost: set<AskId>, acks: seq<AskId>)

  function RefsAfter(lib: Lib, w: World, ev: Event): Refs {
    var r := w.refs;
    match ev
    case AskArrives(dep, ask) => if r.loaded then OnAsk(r, dep, ask) else r
    case ReplyArrives(v) => if r.loaded then OnReply(r, v) else r
    case ExpiryFires(nowS) => OnExpiry(r, nowS)
    case Taps(id, choice, alwaysDeny, nowMs, o) => Tap(lib, r, id, choice, alwaysDeny, nowMs, o)
    case SaveSettles(ok) => SaveSettled(lib, r, ok)
    case RuleSettles(id, ok) =>
      if id !in r.attempts then r
      else if r.attempts[id].pc.SavingDenyRule? then DenyRuleSaved(r, r.attempts[id], ok)
      else if r.attempts[id].pc.SavingAllowRule? then AllowRuleSaved(r, r.attempts[id], ok)
      else r
    case RulesRead(id, rules) =>
      if id in r.attempts && r.attempts[id].pc.ListingRules? then RulesListed(lib, r, r.attempts[id], rules) else r
    case PushSettles(id, ok) =>
      if id in r.attempts && r.attempts[id].pc.Pushing? then PushSettled(r, r.attempts[id], ok) else r
    case BuildSettles(id, ok) =>
      if id in r.attempts && r.attempts[id].pc.Building? then VerdictBuilt(r, r.attempts[id], ok) else r
    case PublishSettles(id, ok) =>
      if id in r.attempts && r.attempts[id].pc.Publishing? then PublishSettled(r, r.attempts[id], ok) else r
    case DropSettles(id, ok) =>
      if id in r.attempts && r.attempts[id].pc.GivingBack? then GaveBack(r, r.attempts[id]) else r
    case Reload => Emptied(r.serial)
    case HistoryLoads(nowS, ok) => if r.loaded then r else OnLoad(r, if ok then Some(w.disk) else None, nowS)
  }

  function DiskAfter(w: World, ev: Event): seq<Entry> {
    if ev.SaveSettles? && ev.ok && w.refs.saves != [] then w.refs.saves[0].row else w.disk
  }

  /** The ask whose answer in progress this event moves, if any. */
  function Subject(r: Refs, ev: Event): Option<AskId> {
    match ev
    case Taps(id, _, _, _, _) => Some(id)
    case SaveSettles(_) => if r.saves == [] then None else r.saves[0].waiter
    case RuleSettles(id, _) => Some(id)
    case RulesRead(id, _) => Some(id)
    case PushSettles(id, _) => Some(id)
    case BuildSettles(id, _) => Some(id)
    case PublishSettles(id, _) => Some(id)
    case DropSettles(id, _) => Some(id)
    case _ => None
  }

  /** The answer in progress as this event leaves it, when the event moved it. */
  function Moved(r: Refs, r': Refs, ev: Event): Option<Attempt> {
    var s := Subject(r, ev);
    if s.Some? && s.value in r'.attempts && (s.value in r.attempts ==> r.attempts[s.value] != r'.attempts[s.value])
    then Some(r'.attempts[s.value]) else None
  }

  function DiskChoice(disk: seq<Entry>, id: AskId): Option<Choice> {
    var e := Lookup(disk, id);
    if e.Some? then Some(ChoiceOf(e.value)) else None
  }

  function Issued(a: Attempt): Option<Call> {
    match a.pc
    case SavingDenyRule(rule) => Some(SaveRule(rule))
    case SavingAllowRule(rule, _) => Some(SaveRule(rule))
    case Pushing(w) => Some(PushCeiling(w))
    case Publishing => Some(Publish(a.out))
    case _ => None
  }

  function NewEffects(disk: seq<Entry>, m: Option<Attempt>): seq<Effect> {
    if m.None? || Issued(m.value).None? then []
    else [Effect(m.value.serial, m.value.ask.id, Issued(m.value).value, DiskChoice(disk, m.value.ask.id))]
  }

  function Opened(a: Attempt): Account { Account(a.ask, a.canDrop, None, multiset{}, None, false, false) }

  /** What the event does to the account of the answer it settles a call for. */
  function Credited(acc: Account, a: Attempt, ev: Event): Account {
    match ev
    case PushSettles(_, ok) =>
      if ok && a.pc.Pushing? then acc.(pushed := Some(a.pc.pushed), held := acc.held + multiset(a.pc.pushed.extra))
      else acc
    case BuildSettles(_, ok) => if ok && a.pc.Building? then acc.(sent := Some(a.out)) else acc
    case PublishSettles(_, ok) => if ok && a.pc.Publishing? then acc.(acked := true) else acc
    case DropSettles(_, ok) =>
      if !a.pc.GivingBack? then acc
      else if ok then acc.(held := acc.held - multiset(a.added)) else acc.(cut := true)
    case _ => acc
  }

  function AccountsAfter(w: World, r': Refs, ev: Event): map<nat, Account> {
    var r := w.refs;
    var s := Subject(r, ev);
    if ev.Reload? then
      map n | n in w.accounts ::
        if exists id <- r.attempts :: r.attempts[id].serial == n then w.accounts[n].(cut := true) else w.accounts[n]
    else if s.None? then w.accounts
    else if s.value in r.attempts then
      var a := r.attempts[s.value];
      if a.serial in w.accounts then w.accounts[a.serial := Credited(w.accounts[a.serial], a, ev)] else w.accounts
    else if s.value in r'.attempts then w.accounts[r'.attempts[s.value].serial := Opened(r'.attempts[s.value])]
    else w.accounts
  }

  /** Ids whose entry this event pushed out of the row. */
  function Forgotten(w: World, r': Refs, ev: Event): set<AskId> {
    var r := w.refs;
    if ev.Reload? then {}
    else if ev.HistoryLoads? then
      if r.loaded then {} else set e | e in w.disk && Lookup(r'.history, e.ask.id).None? :: e.ask.id
    else
      var dropped := set e | e in r.history && Lookup(r'.history, e.ask.id).None? :: e.ask.id;
      if ev.SaveSettles? && !ev.ok && ChoiceWaits(r) then dropped - {r.saves[0].waiter.value} else dropped
  }

  /** The oldest save is the one a choice waits for. */
  predicate ChoiceWaits(r: Refs) {
    && r.saves != [] && r.saves[0].waiter.Some? && r.saves[0].waiter.value in r.attempts
    && r.attempts[r.saves[0].waiter.value].pc.SavingChoice?
  }

  /** A choice is committed when its own save lands, or when it is found unsent in a loaded row. */
  function CommittedAfter(w: World, r': Refs, ev: Event): map<AskId, Choice> {
    var m := Moved(w.refs, r', ev);
    if ev.HistoryLoads? && !w.refs.loaded then
      (map id | id in r'.unsent :: ChoiceOf(r'.unsent[id])) + w.committed
    else if m.Some? && !m.value.pc.SavingChoice? && m.value.ask.id !in w.committed then
      w.committed[m.value.ask.id := ChoiceOf(m.value.entry)]
    else w.committed
  }

  function AcksAfter(w: World, ev: Event): seq<AskId> {
    if ev.Reload? then []
    else if ev.PublishSettles? && ev.ok && ev.id in w.refs.attempts && w.refs.attempts[ev.id].pc.Publishing?
    then w.acks + [ev.id] else w.acks
  }

  function Step(lib: Lib, w: World, ev: Event): World {
    var r' := RefsAfter(lib, w, ev);
    var disk' := DiskAfter(w, ev);
    World(r', disk', w.effects + NewEffects(disk', Moved(w.refs, r', ev)), AccountsAfter(w, r', ev),
          CommittedAfter(w, r', ev), w.lost + Forgotten(w, r', ev), AcksAfter(w, ev))
  }

  function Run(lib: Lib, w: World, evs: seq<Event>): World {
    if evs == [] then w else Step(lib, Run(lib, w, evs[..|evs| - 1]), evs[|evs| - 1])
  }

  /** Before the first unlock: any stored row, nothing in memory, nothing done. */
  predicate Init(w: World) {
    && RowOk(w.disk) && w.refs == Emptied(0) && w.effects == [] && w.accounts == map[]
    && w.committed == map[] && w.lost == {} && w.acks == []
  }

  // ---- The memory is kept by every event ----

  /** An answer in progress about to start its side effects. */
  predicate Startable(r: Refs, a: Attempt) {
    && r.loaded && a.ask.id in r.attempts && a.serial == r.attempts[a.ask.id].serial
    && Working(r.attempts[a.ask.id].pc) && a.entry == r.attempts[a.ask.id].entry
    && NobodyWaits(r.saves, a.ask.id)
  }

  lemma WorkKeeps(lib: Lib, r: Refs, a: Attempt)
    requires RefsOk(r) && Startable(r, a)
    ensures RefsOk(Work(lib, r, a))
  {
    var id := a.ask.id;
    assert AttemptOk(r, id);
    var out := if Reconsiders(a) then PlainVerdict(id, ChoiceOf(a.entry), a.entry.verdict.decidedAt)
               else a.entry.verdict.(alsoOpened := None);
    var b := a.(out := out, reason := if Reconsiders(a) then None else a.entry.reason);
    if out.choice == Deny && !(out.alwaysDeny && out.ruleId.None?) {
      SaveOutcomeKeeps(r, b);
    } else if out.choice == Deny {
      PutKeeps(r, b.(pc := SavingDenyRule(RuleFor(lib, b, false))));
    } else {
      PutKeeps(r, b.(pc := ListingRules));
    }
  }

  lemma RefusedKeeps(r: Refs, id: AskId, nowMs: nat)
    requires RefsOk(r) && r.loaded
    ensures RefsOk(Refused(r, id, nowMs))
  {
    if id !in r.attempts && Listed(r.asks, id).Some? {
      if Listed(r.asks, id).value.ask.expiresAt <= Seconds(nowMs) {
        UnlistFacts(r.asks, id);
        FewerListed(r, Unlist(r.asks, id));
      } else if id in r.replied {
        MarkAnsweredKeeps(r, id, r.replied[id]);
      }
    }
  }

  lemma NextSerialKeeps(r: Refs)
    requires RefsOk(r) && r.loaded
    ensures RefsOk(r.(serial := r.serial + 1))
  {
  }

  lemma NewAttemptFacts(r: Refs, id: AskId, choice: Choice, alwaysDeny: bool, nowMs: nat, o: Options)
    requires RefsOk(r) && r.loaded && Refusal(r, id, choice, nowMs, o).None?
    ensures var a := NewAttempt(r, id, choice, alwaysDeny, nowMs, o);
      && a.ask.id == id && id !in r.attempts && id !in r.replied && Listed(r.asks, id) == Some(Listed(r.asks, id).value)
      && a.serial == r.serial && a.pc.SavingChoice? && a.added == [] && a.out == a.entry.verdict
      && a.entry.ask.id == id && !IsSent(a.entry) && EntryOk(a.entry) && ChoiceOf(a.entry) == choice
      && a.resend == (id in r.unsent) && (a.resend ==> a.entry == r.unsent[id])
  {
    ListedFound(r.asks, id);
  }

  lemma TapKeeps(lib: Lib, r: Refs, id: AskId, choice: Choice, alwaysDeny: bool, nowMs: nat, o: Options)
    requires RefsOk(r)
    ensures RefsOk(Tap(lib, r, id, choice, alwaysDeny, nowMs, o))
  {
    hide RefsOk, EntryOk;
    InProgress(r);
    if !r.loaded {
      assert Listed(r.asks, id).None?;
    } else if Refusal(r, id, choice, nowMs, o).Some? {
      RefusedKeeps(r, id, nowMs);
    } else {
      NextSerialKeeps(r);
      NewAttemptFacts(r, id, choice, alwaysDeny, nowMs, o);
      BeginKeeps(lib, r.(serial := r.serial + 1), NewAttempt(r, id, choice, alwaysDeny, nowMs, o));
    }
  }

  /** The tap's first step, once the answer in progress is made. */
  lemma BeginKeeps(lib: Lib, r: Refs, a: Attempt)
    requires RefsOk(r) && r.loaded && a.ask.id !in r.attempts && Listed(r.asks, a.ask.id).Some?
    requires a.serial < r.serial
    requires a.pc.SavingChoice? && a.added == [] && a.out == a.entry.verdict
    requires a.entry.ask.id == a.ask.id && !IsSent(a.entry) && EntryOk(a.entry)
    requires a.resend == (a.ask.id in r.unsent) && (a.resend ==> a.entry == r.unsent[a.ask.id])
    ensures RefsOk(if a.resend then Work(lib, r, a) else Record(Put(r, a), a.entry, Some(a.ask.id)))
  {
    if a.resend {
      var b := a.(pc := ListingRules);
      AddAttemptKeeps(r, b);
      WorkKeeps(lib, Put(r, b), a);
      WorkOverwrites(lib, r, b, a);
    } else {
      AddAttemptKeeps(r, a);
      RecordKeeps(Put(r, a), a.entry, Some(a.ask.id));
    }
  }

  /** A new answer in progress for a listed ask. */
  lemma AddAttemptKeeps(r: Refs, a: Attempt)
    requires RefsOk(r) && r.loaded && a.ask.id !in r.attempts && Listed(r.asks, a.ask.id).Some?
    requires a.serial < r.serial
    requires a.entry.ask.id == a.ask.id && a.out == a.entry.verdict && !IsSent(a.entry) && EntryOk(a.entry)
    requires a.added == []
    requires if a.ask.id in r.unsent then a.pc.ListingRules? && a.entry == r.unsent[a.ask.id]
             else a.pc.SavingChoice? && !a.resend
    ensures RefsOk(Put(r, a))
  {
    hide Lookup, Listed, CountFor, RowOk, UniqueList, DistinctWaiters, RowsOk, HistoryOk;
    var r' := Put(r, a);
    AddAttemptHistory(r, a);
    forall x | x in r'.attempts ensures AttemptOk(r', x) { if x != a.ask.id { assert AttemptOk(r, x); } }
  }

  lemma AddAttemptHistory(r: Refs, a: Attempt)
    requires HistoryOk(r) && a.ask.id !in r.attempts && Listed(r.asks, a.ask.id).Some?
    ensures HistoryOk(Put(r, a))
  {
  }

  lemma WorkOverwrites(lib: Lib, r: Refs, b: Attempt, a: Attempt)
    requires b.ask.id == a.ask.id
    ensures Work(lib, Put(r, b), a) == Work(lib, r, a)
  {
    hide SaveOutcome, RuleFor, Put;
    var again := Reconsiders(a);
    var out := if again then PlainVerdict(a.ask.id, ChoiceOf(a.entry), a.entry.verdict.decidedAt)
               else a.entry.verdict.(alsoOpened := None);
    var a1 := a.(out := out, reason := if again then None else a.entry.reason);
    SaveOutcomeOverwrites(r, b, a1);
    PutOverwrites(r, b, a1.(pc := SavingDenyRule(RuleFor(lib, a1, false))));
    PutOverwrites(r, b, a1.(pc := ListingRules));
  }

  lemma PutOverwrites(r: Refs, b: Attempt, c: Attempt)
    requires b.ask.id == c.ask.id
    ensures Put(Put(r, b), c) == Put(r, c)
  {
    assert r.attempts[b.ask.id := b][c.ask.id := c] == r.attempts[c.ask.id := c];
  }

  lemma SaveOutcomeOverwrites(r: Refs, b: Attempt, a: Attempt)
    requires b.ask.id == a.ask.id
    ensures SaveOutcome(Put(r, b), a) == SaveOutcome(r, a)
  {
    hide Recorded;
    forall c: Attempt | c.ask.id == a.ask.id
      ensures r.attempts[b.ask.id := b][c.ask.id := c] == r.attempts[c.ask.id := c]
    {
    }
  }

  /** The answer in progress as its saved choice starts to work. */
  function Started(r: Refs, id: AskId): Refs
    requires id in r.attempts
  {
    var a := r.attempts[id];
    Put(r.(unsent := r.unsent[id := a.entry], asks := MarkUnsent(r.asks, id, ChoiceOf(a.entry))),
        a.(pc := ListingRules, out := a.entry.verdict))
  }

  lemma StartedList(r: Refs, id: AskId)
    requires RefsOk(r) && r.loaded && id in r.attempts && r.attempts[id].pc.SavingChoice?
    ensures var s := Started(r, id);
      ListOk(s) && UnsentOk(s) && forall x :: Listed(s.asks, x).None? <==> Listed(r.asks, x).None?
  {
    hide MarkUnsent, Unlist, RowOk, Lookup, HistoryOk, WaitersOk;
    assert AttemptOk(r, id);
    MarkUnsentFacts(r.asks, id, ChoiceOf(r.attempts[id].entry));
  }

  lemma StartedRows(r: Refs, id: AskId)
    requires RefsOk(r) && r.loaded && id in r.attempts && r.attempts[id].pc.SavingChoice?
    ensures var s := Started(r, id);
      forall x :: Lookup(s.history, x).Some? ==> EntryHolds(s, x, Lookup(s.history, x).value)
  {
    hide Lookup, Listed, CountFor, RowOk, UniqueList, DistinctWaiters, RowsOk, MarkUnsent, ListOk, UnsentOk;
    StartedList(r, id);
    var s := Started(r, id);
    forall x | Lookup(s.history, x).Some? ensures EntryHolds(s, x, Lookup(s.history, x).value) {
      assert EntryHolds(r, x, Lookup(s.history, x).value);
    }
  }

  lemma StartKeeps(r: Refs, id: AskId)
    requires RefsOk(r) && r.loaded && id in r.attempts && r.attempts[id].pc.SavingChoice?
    requires NobodyWaits(r.saves, id)
    ensures RefsOk(Started(r, id))
  {
    hide Lookup, Listed, CountFor, RowOk, UniqueList, DistinctWaiters, RowsOk, MarkUnsent, ListOk, UnsentOk, EntryHolds;
    StartedList(r, id);
    StartedRows(r, id);
    assert AttemptOk(r, id);
    var s := Started(r, id);
    forall x | x in s.attempts ensures AttemptOk(s, x) { assert AttemptOk(r, x); }
  }

  lemma ChoiceSavedKeeps(lib: Lib, r: Refs, a: Attempt, ok: bool)
    requires RefsOk(r) && r.loaded && a.ask.id in r.attempts && r.attempts[a.ask.id] == a && a.pc.SavingChoice?
    requires NobodyWaits(r.saves, a.ask.id)
    ensures RefsOk(ChoiceSaved(lib, r, a, ok))
  {
    var id := a.ask.id;
    if ok {
      StartKeeps(r, id);
      WorkKeeps(lib, Started(r, id), a);
      WorkOverwrites(lib, r.(unsent := r.unsent[id := a.entry], asks := MarkUnsent(r.asks, id, ChoiceOf(a.entry))),
                     a.(pc := ListingRules, out := a.entry.verdict), a);
    } else {
      ChoiceDropped(r, id);
    }
  }

  lemma ChoiceDropped(r: Refs, id: AskId)
    requires RefsOk(r) && r.loaded && id in r.attempts && r.attempts[id].pc.SavingChoice?
    requires NobodyWaits(r.saves, id)
    ensures RefsOk(End(r.(history := Without(r.history, id)), id))
  {
    WithoutFacts(r.history, id);
    RowDropped(r, id, Without(r.history, id));
  }

  lemma RowDropped(r: Refs, id: AskId, row: seq<Entry>)
    requires RefsOk(r) && r.loaded && id in r.attempts && r.attempts[id].pc.SavingChoice?
    requires NobodyWaits(r.saves, id)
    requires RowOk(row) && forall x :: Lookup(row, x) == if x == id then None else Lookup(r.history, x)
    ensures RefsOk(End(r.(history := row), id))
  {
    hide Lookup, Listed, CountFor, RowOk, UniqueList, DistinctWaiters, RowsOk, IsSent, EntryOk;
    var r' := End(r.(history := row), id);
    assert ListOk(r') && UnsentOk(r') && WaitersOk(r');
    assert AttemptsOk(r') by {
      forall x | x in r'.attempts ensures AttemptOk(r', x) { assert AttemptOk(r, x); }
    }
    forall x | Lookup(r'.history, x).Some? ensures EntryHolds(r', x, Lookup(r'.history, x).value) {
      assert EntryHolds(r, x, Lookup(r.history, x).value);
    }
  }

  lemma AnsweredEnds(r: Refs, id: AskId, v: Verdict)
    requires RefsOk(r) && r.loaded && id in r.attempts && Working(r.attempts[id].pc) && v.id == id
    requires NobodyWaits(r.saves, id)
    ensures RefsOk(End(MarkAnswered(r, id, v), id))
  {
    EndKeeps(r, id);
    MarkAnsweredKeeps(End(r, id), id, v);
    assert End(MarkAnswered(r, id, v), id) == MarkAnswered(End(r, id), id, v);
  }

  lemma PublishSettledKeeps(r: Refs, a: Attempt, ok: bool)
    requires RefsOk(r) && r.loaded && a.ask.id in r.attempts && r.attempts[a.ask.id] == a && a.pc.Publishing?
    ensures RefsOk(PublishSettled(r, a, ok))
  {
    var id := a.ask.id;
    assert AttemptOk(r, id);
    if ok {
      SentKeeps(r, id);
      RecordKeeps(Acknowledged(r, id), a.entry.(sent := Some(true)), Some(id));
    } else {
      NotSentKeeps(r, a);
    }
  }

  /** The answer in progress as the relay takes its verdict, before the row says so. */
  function Acknowledged(r: Refs, id: AskId): Refs
    requires id in r.attempts
  {
    Put(r.(unsent := r.unsent - {id}, asks := Unlist(r.asks, id)), r.attempts[id].(pc := SavingSent))
  }

  lemma AcknowledgedList(r: Refs, id: AskId)
    requires RefsOk(r) && r.loaded && id in r.attempts && r.attempts[id].pc.Publishing?
    ensures var s := Acknowledged(r, id);
      ListOk(s) && UnsentOk(s) && Done(s, id) && forall x :: Listed(r.asks, x).None? ==> Listed(s.asks, x).None?
  {
    hide MarkUnsent, Unlist, RowOk, Lookup, HistoryOk, WaitersOk;
    assert AttemptOk(r, id);
    UnlistFacts(r.asks, id);
  }

  lemma SentKeeps(r: Refs, id: AskId)
    requires RefsOk(r) && r.loaded && id in r.attempts && r.attempts[id].pc.Publishing?
    ensures var s := Acknowledged(r, id);
      && ListOk(s) && UnsentOk(s) && AttemptsOk(s) && WaitersOk(s) && Done(s, id)
      && (forall x :: x != id && Lookup(s.history, x).Some? ==> EntryHolds(s, x, Lookup(s.history, x).value))
      && NobodyWaits(s.saves, id)
  {
    hide Lookup, Listed, CountFor, RowOk, UniqueList, DistinctWaiters, RowsOk, IsSent, EntryOk, Unlist, ListOk,
         UnsentOk;
    AcknowledgedList(r, id);
    assert AttemptOk(r, id);
    var s := Acknowledged(r, id);
    forall x | x in s.attempts ensures AttemptOk(s, x) { assert AttemptOk(r, x); }
    forall x | x != id && Lookup(s.history, x).Some? ensures EntryHolds(s, x, Lookup(s.history, x).value) {
      assert EntryHolds(r, x, Lookup(s.history, x).value);
    }
  }

  lemma NotSentKeeps(r: Refs, a: Attempt)
    requires RefsOk(r) && r.loaded && a.ask.id in r.attempts && r.attempts[a.ask.id] == a
    requires Working(a.pc) && !AwaitsSave(a.pc)
    ensures RefsOk(NotSent(r, a))
  {
    assert AttemptOk(r, a.ask.id);
    if a.added != [] && a.canDrop { PutKeeps(r, a.(pc := GivingBack(None))); } else { EndKeeps(r, a.ask.id); }
  }

  lemma RulesListedKeeps(lib: Lib, r: Refs, a: Attempt, rules: Option<seq<Rule>>)
    requires RefsOk(r) && r.loaded && a.ask.id in r.attempts && r.attempts[a.ask.id] == a && a.pc.ListingRules?
    ensures RefsOk(RulesListed(lib, r, a, rules))
  {
    hide RefsOk, WideningFits, AlwaysWidening, OnceWidening;
    InProgress(r);
    if rules.None? {
      EndKeeps(r, a.ask.id);
    } else if a.ask.via == SignEvent && a.child.paused {
      SaveOutcomeKeeps(r, Refuse(a, Paused, None));
    } else if a.out.choice == Always {
      var w := AlwaysWidening(lib, a, rules.value);
      if a.ask.via == SignEvent && !WideningFits(lib, w) { SaveOutcomeKeeps(r, Refuse(a, CeilingFull, None)); }
      else { PutKeeps(r, a.(pc := SavingAllowRule(RuleFor(lib, a, true), w))); }
    } else if a.ask.via == SignEvent {
      var w := OnceWidening(a, rules.value);
      if !WideningFits(lib, w) { SaveOutcomeKeeps(r, Refuse(a, CeilingFull, None)); }
      else { PutKeeps(r, a.(pc := Pushing(w))); }
    } else {
      SaveOutcomeKeeps(r, a);
    }
  }

  function Popped(r: Refs): Refs
    requires r.saves != []
  {
    r.(saves := r.saves[1..])
  }

  lemma PoppedKeeps(r: Refs)
    requires RefsOk(r) && r.saves != []
    ensures RefsOk(Popped(r))
    ensures r.saves[0].waiter.Some? ==> NobodyWaits(Popped(r).saves, r.saves[0].waiter.value)
    ensures r.saves[0].waiter.Some? ==>
      r.saves[0].waiter.value in r.attempts && AwaitsSave(r.attempts[r.saves[0].waiter.value].pc)
  {
  }

  /** The verdict to send is in the row: an answer in progress goes on, gives its entries back, or is overtaken. */
  lemma OutcomeSavedKeeps(r: Refs, a: Attempt)
    requires RefsOk(r) && r.loaded && a.ask.id in r.attempts && r.attempts[a.ask.id] == a && a.pc.SavingOutcome?
    requires NobodyWaits(r.saves, a.ask.id)
    ensures RefsOk(OutcomeSaved(r, a))
  {
    hide RefsOk, AttemptOk, MarkAnswered;
    RepliesAreOwn(r);
    Held(r, a.ask.id);
    var id := a.ask.id;
    if id !in r.replied { PutKeeps(r, a.(pc := Building)); }
    else if a.added != [] && a.canDrop { PutKeeps(r, a.(pc := GivingBack(Some(r.replied[id])))); }
    else { AnsweredEnds(r, id, r.replied[id]); }
  }

  lemma RepliesAreOwn(r: Refs)
    requires RefsOk(r)
    ensures forall id <- r.replied :: r.replied[id].id == id
  {
  }

  lemma Held(r: Refs, id: AskId)
    requires RefsOk(r) && id in r.attempts
    ensures AttemptOk(r, id) && r.loaded
  {
  }

  lemma SaveSettledKeeps(lib: Lib, r: Refs, ok: bool)
    requires RefsOk(r)
    ensures RefsOk(SaveSettled(lib, r, ok))
  {
    hide RefsOk, AttemptOk, ChoiceSaved, OutcomeSaved, NobodyWaits;
    InProgress(r);
    if r.saves != [] {
      var r1 := Popped(r);
      PoppedKeeps(r);
      if r.saves[0].waiter.Some? {
        var a := r.attempts[r.saves[0].waiter.value];
        Held(r, a.ask.id);
        if a.pc.SavingChoice? { ChoiceSavedKeeps(lib, r1, a, ok); }
        else if a.pc.SavingOutcome? { OutcomeSavedKeeps(r1, a); }
        else { EndKeeps(r1, a.ask.id); }
      }
    }
  }

  lemma RuleSettlesKeeps(r: Refs, a: Attempt, ok: bool)
    requires RefsOk(r) && r.loaded && a.ask.id in r.attempts && r.attempts[a.ask.id] == a
    ensures a.pc.SavingDenyRule? ==> RefsOk(DenyRuleSaved(r, a, ok))
    ensures a.pc.SavingAllowRule? ==> RefsOk(AllowRuleSaved(r, a, ok))
  {
    hide RefsOk, SaveOutcome, NobodyWaits, EntryOk, ChoiceOf;
    InProgress(r);
    Held(r, a.ask.id);
    if a.pc.SavingDenyRule? {
      SaveOutcomeKeeps(r, a.(out := if ok then a.out.(ruleId := Some(a.pc.denyRule.id))
                                    else a.out.(alwaysDeny := false)));
    } else if a.pc.SavingAllowRule? && !ok {
      EndKeeps(r, a.ask.id);
    } else if a.pc.SavingAllowRule? {
      var a1 := a.(out := a.out.(ruleId := Some(a.pc.allowRule.id)));
      if a.ask.via == SignEvent { PutKeeps(r, a1.(pc := Pushing(a.pc.widening))); } else { SaveOutcomeKeeps(r, a1); }
    }
  }

  lemma PushSettledKeeps(r: Refs, a: Attempt, ok: bool)
    requires RefsOk(r) && r.loaded && a.ask.id in r.attempts && r.attempts[a.ask.id] == a && a.pc.Pushing?
    ensures RefsOk(PushSettled(r, a, ok))
  {
    hide RefsOk, SaveOutcome, NobodyWaits, EntryOk, ChoiceOf;
    InProgress(r);
    Held(r, a.ask.id);
    if ok {
      SaveOutcomeKeeps(r, a.(added := a.pc.pushed.extra, out := a.out.(alsoOpened := AlsoOpened(a, a.pc.pushed))));
    }
    else { SaveOutcomeKeeps(r, Refuse(a, DeviceUnreachable, Some(Unreachable))); }
  }

  lemma VerdictBuiltKeeps(r: Refs, a: Attempt, ok: bool)
    requires RefsOk(r) && r.loaded && a.ask.id in r.attempts && r.attempts[a.ask.id] == a && a.pc.Building?
    ensures RefsOk(VerdictBuilt(r, a, ok))
  {
    hide RefsOk, NobodyWaits, EntryOk, ChoiceOf;
    InProgress(r);
    Held(r, a.ask.id);
    if ok { PutKeeps(r, a.(pc := Publishing)); } else { NotSentKeeps(r, a); }
  }

  lemma GaveBackKeeps(r: Refs, a: Attempt)
    requires RefsOk(r) && r.loaded && a.ask.id in r.attempts && r.attempts[a.ask.id] == a && a.pc.GivingBack?
    ensures RefsOk(GaveBack(r, a))
  {
    assert AttemptOk(r, a.ask.id);
    if a.pc.answered.Some? { AnsweredEnds(r, a.ask.id, a.pc.answered.value); } else { EndKeeps(r, a.ask.id); }
  }

  lemma EmptiedOk(serial: nat)
    ensures RefsOk(Emptied(serial))
  {
  }

  lemma InProgress(r: Refs)
    requires RefsOk(r)
    ensures forall id <- r.attempts :: AttemptOk(r, id) && r.attempts[id].ask.id == id && r.loaded
    ensures r.loaded || (r.saves == [] && r.asks == [])
    ensures forall i :: 0 <= i < |r.saves| ==> RowOk(r.saves[i].row)
    ensures forall id <- r.attempts :: !AwaitsSave(r.attempts[id].pc) ==> NobodyWaits(r.saves, id)
  {
  }

  /** Every event keeps the memory consistent. */
  lemma StepKeepsRefs(lib: Lib, w: World, ev: Event)
    requires RefsOk(w.refs) && RowOk(w.disk)
    ensures RefsOk(RefsAfter(lib, w, ev)) && RowOk(DiskAfter(w, ev))
  {
    hide RefsOk, AttemptOk, RowOk, OnAsk, OnReply, OnExpiry, Tap, SaveSettled, RulesListed, DenyRuleSaved,
         AllowRuleSaved, PushSettled, VerdictBuilt, PublishSettled, GaveBack, OnLoad;
    var r := w.refs;
    InProgress(r);
    match ev {
      case AskArrives(dep, ask) => if r.loaded { OnAskKeeps(r, dep, ask); }
      case ReplyArrives(v) => if r.loaded { OnReplyKeeps(r, v); }
      case ExpiryFires(nowS) => OnExpiryKeeps(r, nowS);
      case Taps(id, choice, alwaysDeny, nowMs, o) => TapKeeps(lib, r, id, choice, alwaysDeny, nowMs, o);
      case SaveSettles(ok) => SaveSettledKeeps(lib, r, ok);
      case RuleSettles(id, ok) => if id in r.attempts { RuleSettlesKeeps(r, r.attempts[id], ok); }
      case RulesRead(id, rules) =>
        if id in r.attempts && r.attempts[id].pc.ListingRules? { RulesListedKeeps(lib, r, r.attempts[id], rules); }
      case PushSettles(id, ok) =>
        if id in r.attempts && r.attempts[id].pc.Pushing? {
          PushSettledKeeps(r, r.attempts[id], ok);
        }
      case BuildSettles(id, ok) =>
        if id in r.attempts && r.attempts[id].pc.Building? {
          VerdictBuiltKeeps(r, r.attempts[id], ok);
        }
      case PublishSettles(id, ok) =>
        if id in r.attempts && r.attempts[id].pc.Publishing? { PublishSettledKeeps(r, r.attempts[id], ok); }
      case DropSettles(id, ok) =>
        if id in r.attempts && r.attempts[id].pc.GivingBack? {
          GaveBackKeeps(r, r.attempts[id]);
        }
      case Reload => EmptiedOk(r.serial);
      case HistoryLoads(nowS, ok) => if !r.loaded { OnLoadKeeps(r, if ok then Some(w.disk) else None, nowS); }
    }
  }
}
