/**
 * Write-ahead and stable choice: no side effect of an answer is issued before
 * its choice is in the stored row, and every verdict published for one ask is
 * that choice or a deny, over every run with reloads at any point.
 */
module ChildAskStable {
  import opened Wrappers
  import opened ChildAsks
  import opened ChildAskRows
  import opened ChildAskRefs
  import opened ChildAskRun

  /** What a row must say about an ask: a sent entry only once it is done, a committed choice unchanged. */
  ghost predicate Says(r: Refs, e: Option<Entry>, committed: map<AskId, Choice>, id: AskId) {
    && (r.loaded && e.Some? && IsSent(e.value) ==> Done(r, id))
    && (id in committed ==> e.Some? && (IsSent(e.value) || ChoiceOf(e.value) == committed[id]))
  }

  ghost predicate RowSays(r: Refs, row: seq<Entry>, committed: map<AskId, Choice>, lost: set<AskId>) {
    forall id :: id !in lost ==> Says(r, Lookup(row, id), committed, id)
  }

  ghost predicate SavesSay(r: Refs, saves: seq<Save>, committed: map<AskId, Choice>, lost: set<AskId>) {
    forall i :: 0 <= i < |saves| ==> RowSays(r, saves[i].row, committed, lost)
  }

  ghost predicate HeldIsCommitted(r: Refs, committed: map<AskId, Choice>, lost: set<AskId>) {
    forall id <- r.unsent :: id !in lost ==> id in committed && committed[id] == ChoiceOf(r.unsent[id])
  }

  predicate Offers(row: seq<Entry>, id: AskId, c: Choice) {
    var e := Lookup(row, id);
    e.Some? && !IsSent(e.value) && ChoiceOf(e.value) == c
  }

  /** The save a choice waits for, and every later one, carry that choice. */
  ghost predicate ChoosingOk(r: Refs, id: AskId, committed: map<AskId, Choice>)
    requires id in r.attempts
  {
    var c := ChoiceOf(r.attempts[id].entry);
    && id !in committed && Offers(r.history, id, c)
    && forall k, j :: 0 <= k <= j < |r.saves| && r.saves[k].waiter == Some(id) ==> Offers(r.saves[j].row, id, c)
  }

  ghost predicate Choosing(r: Refs, committed: map<AskId, Choice>, lost: set<AskId>) {
    forall id <- r.attempts :: r.attempts[id].pc.SavingChoice? && id !in lost ==> ChoosingOk(r, id, committed)
  }

  ghost predicate Stable(r: Refs, disk: seq<Entry>, committed: map<AskId, Choice>, lost: set<AskId>) {
    && RowSays(r, disk, committed, lost)
    && SavesSay(r, r.saves, committed, lost)
    && (r.loaded ==> RowSays(r, r.history, committed, lost))
    && HeldIsCommitted(r, committed, lost)
    && Choosing(r, committed, lost)
  }

  // ---- The ways a handler can change the memory ----

  /** Nothing done is undone, nothing is newly held or newly being chosen. */
  ghost predicate Relaxes(r: Refs, r1: Refs, committed: map<AskId, Choice>, lost: set<AskId>) {
    && r1.loaded == r.loaded && r1.history == r.history && r1.saves == r.saves
    && (forall id :: Done(r, id) ==> Done(r1, id))
    && HeldIsCommitted(r1, committed, lost)
    && (forall id <- r1.attempts :: r1.attempts[id].pc.SavingChoice? ==>
        id in r.attempts && r.attempts[id].pc.SavingChoice?
        && ChoiceOf(r.attempts[id].entry) == ChoiceOf(r1.attempts[id].entry))
  }

  lemma RelaxRows(r: Refs, r1: Refs, committed: map<AskId, Choice>, lost: set<AskId>)
    requires r1.loaded == r.loaded && forall id :: Done(r, id) ==> Done(r1, id)
    ensures forall row: seq<Entry> :: RowSays(r, row, committed, lost) ==> RowSays(r1, row, committed, lost)
  {
  }

  lemma RelaxStable(r: Refs, r1: Refs, disk: seq<Entry>, committed: map<AskId, Choice>, lost: set<AskId>)
    requires Stable(r, disk, committed, lost) && Relaxes(r, r1, committed, lost)
    ensures Stable(r1, disk, committed, lost)
  {
  }

  /** Losing sight of more asks asks for less. */
  lemma MoreLost(r: Refs, disk: seq<Entry>, committed: map<AskId, Choice>, lost: set<AskId>, more: set<AskId>)
    requires Stable(r, disk, committed, lost)
    ensures Stable(r, disk, committed, lost + more)
  {
  }

  /** The ids whose entry the new row no longer has. */
  function Dropped(before: seq<Entry>, after: seq<Entry>): set<AskId> {
    set e | e in before && Lookup(after, e.ask.id).None? :: e.ask.id
  }

  lemma RecordRows(r: Refs, e: Entry, waiter: Option<AskId>, disk: seq<Entry>, committed: map<AskId, Choice>,
                   lost: set<AskId>)
    requires r.loaded && RowOk(r.history) && EntryOk(e)
    requires RowSays(r, disk, committed, lost) && SavesSay(r, r.saves, committed, lost)
    requires RowSays(r, r.history, committed, lost) && HeldIsCommitted(r, committed, lost)
    requires e.ask.id !in lost ==> Says(r, Some(e), committed, e.ask.id)
    ensures var r', lost' := Record(r, e, waiter), lost + Dropped(r.history, Recorded(r.history, e));
      && RowSays(r', disk, committed, lost') && SavesSay(r', r'.saves, committed, lost')
      && RowSays(r', r'.history, committed, lost') && HeldIsCommitted(r', committed, lost')
  {
    var row := Recorded(r.history, e);
    var r', lost' := Record(r, e, waiter), lost + Dropped(r.history, row);
    RecordedLookup(r.history, e);
    hide Lookup, Recorded, IsSent, ChoiceOf, RowOk, EntryOk;
    assert RowSays(r', row, committed, lost') by {
      forall id | id !in lost' ensures Says(r', Lookup(row, id), committed, id) {
        assert Says(r, Lookup(r.history, id), committed, id);
      }
    }
  }

  /** The choices still being saved, after one more entry is recorded. */
  lemma RecordChoosing(r: Refs, e: Entry, waiter: Option<AskId>, committed: map<AskId, Choice>, lost: set<AskId>)
    requires RowOk(r.history) && EntryOk(e)
    requires forall id <- r.attempts :: r.attempts[id].pc.SavingChoice? && id !in lost ==>
      if id == e.ask.id then e == r.attempts[id].entry && !IsSent(e) && id !in committed && NobodyWaits(r.saves, id)
      else waiter != Some(id) && ChoosingOk(r, id, committed)
    ensures Choosing(Record(r, e, waiter), committed, lost + Dropped(r.history, Recorded(r.history, e)))
  {
    var row := Recorded(r.history, e);
    var r', lost' := Record(r, e, waiter), lost + Dropped(r.history, row);
    RecordedLookup(r.history, e);
    hide Lookup, Recorded, IsSent, ChoiceOf, RowOk, EntryOk;
    forall id | id in r'.attempts && r'.attempts[id].pc.SavingChoice? && id !in lost'
      ensures ChoosingOk(r', id, committed)
    {
      if id != e.ask.id { assert ChoosingOk(r, id, committed); }
    }
  }

  lemma RecordStable(r: Refs, e: Entry, waiter: Option<AskId>, disk: seq<Entry>, committed: map<AskId, Choice>,
                     lost: set<AskId>)
    requires r.loaded && RowOk(r.history) && EntryOk(e)
    requires RowSays(r, disk, committed, lost) && SavesSay(r, r.saves, committed, lost)
    requires RowSays(r, r.history, committed, lost) && HeldIsCommitted(r, committed, lost)
    requires e.ask.id !in lost ==> Says(r, Some(e), committed, e.ask.id)
    requires forall id <- r.attempts :: r.attempts[id].pc.SavingChoice? && id !in lost ==>
      if id == e.ask.id then e == r.attempts[id].entry && !IsSent(e) && id !in committed && NobodyWaits(r.saves, id)
      else waiter != Some(id) && ChoosingOk(r, id, committed)
    ensures Stable(Record(r, e, waiter), disk, committed, lost + Dropped(r.history, Recorded(r.history, e)))
  {
    hide RowSays, SavesSay, HeldIsCommitted, Choosing, RowOk, EntryOk, Says, Record;
    RecordRows(r, e, waiter, disk, committed, lost);
    RecordChoosing(r, e, waiter, committed, lost);
  }

  /** The usual case: the entry recorded is not of an ask whose choice is still being saved. */
  lemma RecordKeepsStable(r: Refs, e: Entry, waiter: Option<AskId>, disk: seq<Entry>, committed: map<AskId, Choice>,
                          lost: set<AskId>)
    requires r.loaded && RowOk(r.history) && EntryOk(e) && Stable(r, disk, committed, lost)
    requires e.ask.id in r.attempts ==> !r.attempts[e.ask.id].pc.SavingChoice?
    requires waiter.Some? ==> waiter.value == e.ask.id
    requires if IsSent(e) then Done(r, e.ask.id) else e.ask.id in r.unsent && r.unsent[e.ask.id] == e
    ensures Stable(Record(r, e, waiter), disk, committed, lost + Dropped(r.history, Recorded(r.history, e)))
  {
    hide Lookup, Recorded, RowOk, EntryOk, RowSays, SavesSay, Done, ChoosingOk;
    RecordStable(r, e, waiter, disk, committed, lost);
  }

  lemma RecordedLookup(row: seq<Entry>, e: Entry)
    requires RowOk(row) && EntryOk(e)
    ensures Lookup(Recorded(row, e), e.ask.id) == Some(e)
    ensures forall x ::
      x != e.ask.id && x !in Dropped(row, Recorded(row, e)) ==> Lookup(Recorded(row, e), x) == Lookup(row, x)
  {
    RecordedFacts(row, e);
    forall x | x != e.ask.id && x !in Dropped(row, Recorded(row, e))
      ensures Lookup(Recorded(row, e), x) == Lookup(row, x)
    {
      LookupFound(row, x);
    }
  }

  // ---- Every handler ----

  lemma MarkAnsweredStable(r: Refs, id: AskId, v: Verdict, disk: seq<Entry>, committed: map<AskId, Choice>,
                           lost: set<AskId>)
    requires RefsOk(r) && r.loaded && id !in r.attempts && v.id == id && Stable(r, disk, committed, lost)
    ensures var r' := MarkAnswered(r, id, v); Stable(r', disk, committed, lost + Dropped(r.history, r'.history))
  {
    SettledKeeps(r, id);
    var s := Settled(r, id);
    SettledRelaxes(r, id, committed, lost);
    RelaxStable(r, s, disk, committed, lost);
    ListedFound(r.asks, id);
    LookupFound(r.history, id);
    var pending, known := Listed(r.asks, id), Lookup(r.history, id);
    if pending.Some? || known.Some? {
      var ask := if pending.Some? then Slim(pending.value.ask) else known.value.ask;
      RecordKeepsStable(s, Entry(ask, v, Some(v.choice), Some(true), None), None, disk, committed, lost);
    } else {
      MoreLost(s, disk, committed, lost, Dropped(r.history, r.history));
    }
  }

  lemma SettledRelaxes(r: Refs, id: AskId, committed: map<AskId, Choice>, lost: set<AskId>)
    requires RefsOk(r) && HeldIsCommitted(r, committed, lost)
    ensures Relaxes(r, Settled(r, id), committed, lost)
  {
    UnlistFacts(r.asks, id);
  }

  lemma OnReplyStable(r: Refs, v: Verdict, disk: seq<Entry>, committed: map<AskId, Choice>, lost: set<AskId>)
    requires RefsOk(r) && r.loaded && Stable(r, disk, committed, lost)
    ensures var r' := OnReply(r, v); Stable(r', disk, committed, lost + Dropped(r.history, r'.history))
  {
    hide RowSays, SavesSay, Choosing, Lookup, Listed, MarkAnswered, RowOk, EntryHolds, ListOk;
    var r1 := r.(replied := r.replied[v.id := v]);
    MoreLost(r, disk, committed, lost, Dropped(r.history, r.history));
    RelaxStable(r, r1, disk, committed, lost);
    MoreLost(r1, disk, committed, lost, Dropped(r.history, r.history));
    if v.id !in r.attempts {
      RepliedOk(r, v);
      MarkAnsweredStable(r1, v.id, v, disk, committed, lost);
    }
  }

  lemma RepliedOk(r: Refs, v: Verdict)
    requires RefsOk(r) && r.loaded
    ensures RefsOk(r.(replied := r.replied[v.id := v]))
  {
  }

  lemma OnAskStable(r: Refs, dep: DepId, ask: Ask, disk: seq<Entry>, committed: map<AskId, Choice>, lost: set<AskId>)
    requires RefsOk(r) && r.loaded && Stable(r, disk, committed, lost)
    ensures var r' := OnAsk(r, dep, ask); Stable(r', disk, committed, lost + Dropped(r.history, r'.history))
  {
    hide Stable, RefsOk;
    MoreLost(r, disk, committed, lost, Dropped(r.history, r.history));
    if ask.id in r.seen {
    } else if ask.id in r.replied {
      AnsweredBeforeShown(r, ask, disk, committed, lost);
    } else if CountFor(r.asks, dep) < LIVE_LIMIT {
      NewlyListed(r, Pending(ask, dep, Marker(r, ask.id)), disk, committed, lost);
    }
  }

  lemma AnsweredBeforeShown(r: Refs, ask: Ask, disk: seq<Entry>, committed: map<AskId, Choice>, lost: set<AskId>)
    requires RefsOk(r) && r.loaded && Stable(r, disk, committed, lost) && ask.id !in r.seen && ask.id in r.replied
    ensures var r' := OnAsk(r, "", ask); Stable(r', disk, committed, lost + Dropped(r.history, r'.history))
  {
    hide Stable, Recorded;
    var v := r.replied[ask.id];
    assert Listed(r.asks, ask.id).None?;
    assert ask.id !in r.attempts;
    SettledKeeps(r, ask.id);
    StableHolds(r, disk, committed, lost);
    SettledRelaxes(r, ask.id, committed, lost);
    UnlistAbsent(r.asks, ask.id);
    var s := Settled(r, ask.id);
    RelaxStable(r, s, disk, committed, lost);
    RecordKeepsStable(s, Entry(Slim(ask), v, Some(v.choice), Some(true), None), None, disk, committed, lost);
  }

  lemma StableHolds(r: Refs, disk: seq<Entry>, committed: map<AskId, Choice>, lost: set<AskId>)
    requires Stable(r, disk, committed, lost)
    ensures HeldIsCommitted(r, committed, lost)
  {
  }

  lemma NewlyListed(r: Refs, p: Pending, disk: seq<Entry>, committed: map<AskId, Choice>, lost: set<AskId>)
    requires RefsOk(r) && Stable(r, disk, committed, lost) && p.ask.id !in r.seen
    ensures Stable(r.(seen := r.seen + {p.ask.id}, asks := r.asks + [p]), disk, committed,
                   lost + Dropped(r.history, r.history))
  {
    hide RowSays, SavesSay, Choosing, Lookup, EntryHolds, RowOk;
    assert Listed(r.asks, p.ask.id).None?;
    AppendFacts(r.asks, p);
    var r1 := r.(seen := r.seen + {p.ask.id}, asks := r.asks + [p]);
    RelaxStable(r, r1, disk, committed, lost);
    MoreLost(r1, disk, committed, lost, Dropped(r.history, r.history));
  }

  /** Fewer asks listed, the rest as before. */
  lemma UnlistedStable(r: Refs, asks: seq<Pending>, disk: seq<Entry>, committed: map<AskId, Choice>, lost: set<AskId>)
    requires Stable(r, disk, committed, lost)
    requires forall x :: Listed(r.asks, x).None? ==> Listed(asks, x).None?
    ensures Stable(r.(asks := asks), disk, committed, lost + Dropped(r.history, r.history))
  {
  }

  /** An answer in progress moves to a call that is not a save. */
  lemma PutStable(r: Refs, a: Attempt, disk: seq<Entry>, committed: map<AskId, Choice>, lost: set<AskId>)
    requires Stable(r, disk, committed, lost) && a.ask.id in r.attempts
    requires !r.attempts[a.ask.id].pc.SavingSent? && !a.pc.SavingChoice?
    ensures Stable(Put(r, a), disk, committed, lost)
    ensures Stable(Put(r, a), disk, committed, lost + Dropped(r.history, r.history))
  {
    hide Lookup, Listed, IsSent, ChoiceOf;
    var r1 := Put(r, a);
    RelaxStable(r, r1, disk, committed, lost);
    MoreLost(r1, disk, committed, lost, Dropped(r.history, r.history));
  }

  lemma EndStable(r: Refs, id: AskId, disk: seq<Entry>, committed: map<AskId, Choice>, lost: set<AskId>)
    requires Stable(r, disk, committed, lost)
    ensures Stable(End(r, id), disk, committed, lost)
    ensures Stable(End(r, id), disk, committed, lost + Dropped(r.history, r.history))
  {
  }

  /** Holding a newer entry for the same choice. */
  lemma HoldStable(r: Refs, id: AskId, e: Entry, disk: seq<Entry>, committed: map<AskId, Choice>, lost: set<AskId>)
    requires Stable(r, disk, committed, lost) && id in r.unsent && ChoiceOf(e) == ChoiceOf(r.unsent[id])
    ensures Stable(r.(unsent := r.unsent[id := e]), disk, committed, lost)
  {
  }

  lemma SaveOutcomeStable(r: Refs, a: Attempt, disk: seq<Entry>, committed: map<AskId, Choice>, lost: set<AskId>)
    requires RefsOk(r) && r.loaded && Stable(r, disk, committed, lost)
    requires a.ask.id in r.attempts && Working(r.attempts[a.ask.id].pc) && a.entry == r.attempts[a.ask.id].entry
    requires a.out.id == a.ask.id && (a.out.choice == ChoiceOf(a.entry) || a.out.choice == Deny)
    ensures var r' := SaveOutcome(r, a); Stable(r', disk, committed, lost + Dropped(r.history, r'.history))
  {
    hide Stable, RefsOk, Recorded, RowOk;
    var id := a.ask.id;
    AttemptFacts(r, id);
    var e := a.entry.(verdict := a.out, sent := Some(false),
                      reason := if a.reason.Some? then a.reason else a.entry.reason);
    HoldStable(r, id, e, disk, committed, lost);
    var r1 := r.(unsent := r.unsent[id := e]);
    PutStable(r1, a.(entry := e, pc := SavingOutcome), disk, committed, lost);
    RecordKeepsStable(Put(r1, a.(entry := e, pc := SavingOutcome)), e, Some(id), disk, committed, lost);
  }

  lemma AttemptFacts(r: Refs, id: AskId)
    requires RefsOk(r) && id in r.attempts
    ensures AttemptOk(r, id) && RowOk(r.history)
  {
  }

  lemma WorkStable(lib: Lib, r: Refs, a: Attempt, disk: seq<Entry>, committed: map<AskId, Choice>, lost: set<AskId>)
    requires RefsOk(r) && Startable(r, a) && Stable(r, disk, committed, lost)
    ensures var r' := Work(lib, r, a); Stable(r', disk, committed, lost + Dropped(r.history, r'.history))
  {
    hide Stable, RuleFor;
    var id := a.ask.id;
    assert AttemptOk(r, id);
    var out := if Reconsiders(a) then PlainVerdict(id, ChoiceOf(a.entry), a.entry.verdict.decidedAt)
               else a.entry.verdict.(alsoOpened := None);
    var b := a.(out := out, reason := if Reconsiders(a) then None else a.entry.reason);
    if out.choice == Deny && !(out.alwaysDeny && out.ruleId.None?) {
      SaveOutcomeStable(r, b, disk, committed, lost);
    } else if out.choice == Deny {
      PutStable(r, b.(pc := SavingDenyRule(RuleFor(lib, b, false))), disk, committed, lost);
    } else {
      PutStable(r, b.(pc := ListingRules), disk, committed, lost);
    }
  }

  /** Starting to save a choice. */
  lemma ChooseStable(r: Refs, a: Attempt, disk: seq<Entry>, committed: map<AskId, Choice>, lost: set<AskId>)
    requires RefsOk(r) && r.loaded && Stable(r, disk, committed, lost)
    requires a.ask.id !in r.attempts && Listed(r.asks, a.ask.id).Some? && a.ask.id !in r.unsent
    requires a.pc.SavingChoice? && a.entry.ask.id == a.ask.id && !IsSent(a.entry) && EntryOk(a.entry)
    ensures var r' := Record(Put(r, a), a.entry, Some(a.ask.id));
      Stable(r', disk, committed, lost + Dropped(r.history, r'.history))
  {
    hide RowSays, Lookup, Listed, EntryOk, IsSent, Recorded, UniqueRow, CountFor;
    var id := a.ask.id;
    FreshIsUncommitted(r, id, disk, committed, lost);
    FreshHasNoWaiter(r, id);
    RelaxRows(r, Put(r, a), committed, lost);
    forall x | x in r.attempts && r.attempts[x].pc.SavingChoice? && x !in lost
      ensures ChoosingOk(Put(r, a), x, committed)
    {
      assert ChoosingOk(r, x, committed);
    }
    RecordStable(Put(r, a), a.entry, Some(id), disk, committed, lost);
  }

  lemma FreshHasNoWaiter(r: Refs, id: AskId)
    requires RefsOk(r) && id !in r.attempts
    ensures NobodyWaits(r.saves, id)
  {
  }

  lemma FreshIsUncommitted(r: Refs, id: AskId, disk: seq<Entry>, committed: map<AskId, Choice>, lost: set<AskId>)
    requires RefsOk(r) && r.loaded && Stable(r, disk, committed, lost)
    requires id !in r.attempts && Listed(r.asks, id).Some? && id !in r.unsent
    ensures id !in lost ==> id !in committed
  {
  }

  lemma TapStable(lib: Lib, r: Refs, id: AskId, choice: Choice, alwaysDeny: bool, nowMs: nat, o: Options,
                  disk: seq<Entry>, committed: map<AskId, Choice>, lost: set<AskId>)
    requires RefsOk(r) && r.loaded && Stable(r, disk, committed, lost)
    ensures var r' := Tap(lib, r, id, choice, alwaysDeny, nowMs, o);
      Stable(r', disk, committed, lost + Dropped(r.history, r'.history))
  {
    hide RefsOk, Stable, Dropped, EntryOk;
    MoreLost(r, disk, committed, lost, Dropped(r.history, r.history));
    if Refusal(r, id, choice, nowMs, o).Some? {
      RefusedStable(r, id, nowMs, disk, committed, lost);
    } else {
      NewAttemptFacts(r, id, choice, alwaysDeny, nowMs, o);
      var a := NewAttempt(r, id, choice, alwaysDeny, nowMs, o);
      var r1 := r.(serial := r.serial + 1);
      NextSerialKeeps(r);
      NextSerialStable(r, disk, committed, lost);
      if a.resend {
        var b := a.(pc := ListingRules);
        AddAttemptKeeps(r1, b);
        ResendStable(r1, b, disk, committed, lost);
        FreshHasNoWaiter(r1, id);
        WorkStable(lib, Put(r1, b), a, disk, committed, lost);
        WorkOverwrites(lib, r1, b, a);
      } else {
        ChooseStable(r1, a, disk, committed, lost);
      }
    }
  }

  lemma NextSerialStable(r: Refs, disk: seq<Entry>, committed: map<AskId, Choice>, lost: set<AskId>)
    requires Stable(r, disk, committed, lost)
    ensures Stable(r.(serial := r.serial + 1), disk, committed, lost)
  {
  }

  lemma ResendStable(r: Refs, b: Attempt, disk: seq<Entry>, committed: map<AskId, Choice>, lost: set<AskId>)
    requires Stable(r, disk, committed, lost) && b.ask.id in r.unsent && b.pc.ListingRules?
    ensures Stable(Put(r, b), disk, committed, lost)
  {
  }

  lemma RefusedStable(r: Refs, id: AskId, nowMs: nat, disk: seq<Entry>, committed: map<AskId, Choice>, lost: set<AskId>)
    requires RefsOk(r) && r.loaded && Stable(r, disk, committed, lost)
    ensures var r' := Refused(r, id, nowMs); Stable(r', disk, committed, lost + Dropped(r.history, r'.history))
  {
    hide Stable, MarkAnswered, EntryHolds, Lookup;
    MoreLost(r, disk, committed, lost, Dropped(r.history, r.history));
    if id !in r.attempts && Listed(r.asks, id).Some? {
      if Listed(r.asks, id).value.ask.expiresAt <= Seconds(nowMs) {
        UnlistFacts(r.asks, id);
        UnlistedStable(r, Unlist(r.asks, id), disk, committed, lost);
      } else if id in r.replied {
        MarkAnsweredStable(r, id, r.replied[id], disk, committed, lost);
      }
    }
  }

  // ---- A save settles ----

  lemma PoppedStable(r: Refs, disk: seq<Entry>, committed: map<AskId, Choice>, lost: set<AskId>, ok: bool)
    requires Stable(r, disk, committed, lost) && r.saves != []
    ensures Stable(Popped(r), if ok then r.saves[0].row else disk, committed, lost)
  {
  }

  /** A choice whose save has landed in every row that matters is committed. */
  lemma CommitStable(r: Refs, id: AskId, disk: seq<Entry>, committed: map<AskId, Choice>, lost: set<AskId>, c: Choice)
    requires Stable(r, disk, committed, lost)
    requires id !in lost ==> id !in committed && Offers(disk, id, c) && Offers(r.history, id, c)
    requires id !in lost ==> forall j :: 0 <= j < |r.saves| ==> Offers(r.saves[j].row, id, c)
    requires id in r.attempts && r.attempts[id].ask.id == id && r.attempts[id].pc.SavingChoice?
    requires ChoiceOf(r.attempts[id].entry) == c
    ensures var committed' := if id in committed then committed else committed[id := c];
      Stable(Started(r, id), disk, committed', lost)
  {
    hide Lookup, IsSent, ChoiceOf, MarkUnsent;
    var committed' := if id in committed then committed else committed[id := c];
    var s := Started(r, id);
    StartedDone(r, id);
    forall row: seq<Entry> | RowSays(r, row, committed, lost) && (id !in lost ==> Offers(row, id, c))
      ensures RowSays(s, row, committed', lost)
    {
      forall x | x !in lost ensures Says(s, Lookup(row, x), committed', x) {
        assert Says(r, Lookup(row, x), committed, x);
      }
    }
    forall x | x in s.attempts && s.attempts[x].pc.SavingChoice? && x !in lost ensures ChoosingOk(s, x, committed') {
      assert ChoosingOk(r, x, committed);
    }
  }

  lemma StartedDone(r: Refs, id: AskId)
    requires id in r.attempts && r.attempts[id].ask.id == id && r.attempts[id].pc.SavingChoice?
    ensures forall x :: Done(r, x) ==> Done(Started(r, id), x)
  {
    MarkUnsentListed(r.asks, id, ChoiceOf(r.attempts[id].entry));
  }

  lemma {:induction false} MarkUnsentListed(asks: seq<Pending>, id: AskId, c: Choice)
    ensures forall x :: Listed(asks, x).None? ==> Listed(MarkUnsent(asks, id, c), x).None?
  {
    if asks != [] { MarkUnsentListed(asks[1..], id, c); }
  }

  /** A choice whose save failed was never committed, so forgetting it loses nothing. */
  lemma DropChoiceStable(r: Refs, id: AskId, disk: seq<Entry>, committed: map<AskId, Choice>, lost: set<AskId>)
    requires r.loaded && UniqueRow(r.history) && Stable(r, disk, committed, lost) && (id !in lost ==> id !in committed)
    ensures Stable(End(r.(history := Without(r.history, id)), id), disk, committed, lost)
  {
    hide IsSent, ChoiceOf, UniqueRow, Listed;
    var r' := End(r.(history := Without(r.history, id)), id);
    WithoutFacts(r.history, id);
    RelaxRows(r, r', committed, lost);
    assert RowSays(r', r'.history, committed, lost) by {
      forall x | x !in lost ensures Says(r', Lookup(r'.history, x), committed, x) {
        assert Says(r, Lookup(r.history, x), committed, x);
      }
    }
    forall x | x in r'.attempts && r'.attempts[x].pc.SavingChoice? && x !in lost ensures ChoosingOk(r', x, committed) {
      assert ChoosingOk(r, x, committed);
    }
  }

  /** Starting to work keeps the attempt, its ask and its choice. */
  lemma WorkMoves(lib: Lib, r: Refs, a: Attempt)
    requires EntryOk(a.entry) && !IsSent(a.entry)
    ensures var r' := Work(lib, r, a);
      && a.ask.id in r'.attempts && r'.attempts[a.ask.id].ask == a.ask && !r'.attempts[a.ask.id].pc.SavingChoice?
      && ChoiceOf(r'.attempts[a.ask.id].entry) == ChoiceOf(a.entry)
  {
    hide RuleFor, SaveOutcome;
    var again := Reconsiders(a);
    var out := if again then PlainVerdict(a.ask.id, ChoiceOf(a.entry), a.entry.verdict.decidedAt)
               else a.entry.verdict.(alsoOpened := None);
    SaveOutcomeMoves(r, a.(out := out, reason := if again then None else a.entry.reason));
  }

  lemma SaveOutcomeMoves(r: Refs, a: Attempt)
    requires EntryOk(a.entry) && !IsSent(a.entry)
    ensures var r' := SaveOutcome(r, a);
      && a.ask.id in r'.attempts && r'.attempts[a.ask.id].ask == a.ask && !r'.attempts[a.ask.id].pc.SavingChoice?
      && ChoiceOf(r'.attempts[a.ask.id].entry) == ChoiceOf(a.entry)
  {
    hide Recorded;
  }

  lemma AnsweredEndStable(r: Refs, id: AskId, v: Verdict, disk: seq<Entry>, committed: map<AskId, Choice>,
                          lost: set<AskId>)
    requires RefsOk(r) && r.loaded && Stable(r, disk, committed, lost)
    requires id in r.attempts && Working(r.attempts[id].pc) && v.id == id && NobodyWaits(r.saves, id)
    ensures var r' := End(MarkAnswered(r, id, v), id);
      Stable(r', disk, committed, lost + Dropped(r.history, r'.history))
  {
    hide RefsOk, Stable;
    EndKeeps(r, id);
    EndStable(r, id, disk, committed, lost);
    MarkAnsweredStable(End(r, id), id, v, disk, committed, lost);
    assert End(MarkAnswered(r, id, v), id) == MarkAnswered(End(r, id), id, v);
  }

  ghost predicate WorldOk(w: World) {
    RefsOk(w.refs) && RowOk(w.disk) && Stable(w.refs, w.disk, w.committed, w.lost)
  }

  lemma ChoosingFacts(r: Refs, id: AskId, disk: seq<Entry>, committed: map<AskId, Choice>, lost: set<AskId>)
    requires RefsOk(r) && r.saves != [] && r.saves[0].waiter == Some(id) && id in r.attempts
    requires r.attempts[id].pc.SavingChoice?
    requires Stable(r, disk, committed, lost)
    ensures var c := ChoiceOf(r.attempts[id].entry);
      id !in lost ==>
        id !in committed && Offers(r.history, id, c)
        && forall j :: 0 <= j < |r.saves| ==> Offers(r.saves[j].row, id, c)
    ensures UniqueRow(r.history) && EntryOk(r.attempts[id].entry) && !IsSent(r.attempts[id].entry)
    ensures Startable(Started(Popped(r), id), r.attempts[id])
  {
  }

  function WithChoice(committed: map<AskId, Choice>, id: AskId, c: Choice): map<AskId, Choice> {
    if id in committed then committed else committed[id := c]
  }

  predicate WaitsFor(r: Refs, id: AskId) {
    r.saves != [] && r.saves[0].waiter == Some(id) && id in r.attempts
  }

  lemma ChoiceLandedStable(lib: Lib, r: Refs, id: AskId, disk: seq<Entry>, committed: map<AskId, Choice>,
                           lost: set<AskId>)
    requires RefsOk(r) && Stable(r, disk, committed, lost) && WaitsFor(r, id) && r.attempts[id].pc.SavingChoice?
    ensures var r', c := SaveSettled(lib, r, true), ChoiceOf(r.attempts[id].entry);
      && Stable(r', r.saves[0].row, WithChoice(committed, id, c), lost + Dropped(r.history, r'.history))
      && id in r'.attempts && !r'.attempts[id].pc.SavingChoice? && r'.attempts[id].ask.id == id
      && ChoiceOf(r'.attempts[id].entry) == c
  {
    hide RefsOk, Stable, RowOk, Work, Lookup, EntryOk, IsSent, Startable, NobodyWaits;
    var a, r1 := r.attempts[id], Popped(r);
    var c := ChoiceOf(a.entry);
    PoppedKeeps(r);
    InProgress(r);
    PoppedStable(r, disk, committed, lost, true);
    ChoosingFacts(r, id, disk, committed, lost);
    CommitStable(r1, id, r.saves[0].row, committed, lost, c);
    StartKeeps(r1, id);
    WorkStable(lib, Started(r1, id), a, r.saves[0].row, WithChoice(committed, id, c), lost);
    WorkOverwrites(lib, r1.(unsent := r1.unsent[id := a.entry], asks := MarkUnsent(r1.asks, id, c)),
                   a.(pc := ListingRules, out := a.entry.verdict), a);
    WorkMoves(lib, Started(r1, id), a);
  }

  lemma ChoiceFailedStable(lib: Lib, r: Refs, id: AskId, disk: seq<Entry>, committed: map<AskId, Choice>,
                           lost: set<AskId>)
    requires RefsOk(r) && Stable(r, disk, committed, lost) && WaitsFor(r, id) && r.attempts[id].pc.SavingChoice?
    ensures var r' := SaveSettled(lib, r, false); Stable(r', disk, committed, lost) && id !in r'.attempts
  {
    hide RefsOk, Stable, RowOk, Lookup, EntryOk, IsSent, Startable, NobodyWaits;
    PoppedKeeps(r);
    InProgress(r);
    PoppedStable(r, disk, committed, lost, false);
    ChoosingFacts(r, id, disk, committed, lost);
    DropChoiceStable(Popped(r), id, disk, committed, lost);
  }

  /** Any other save: the outcome's, the final one's, or one nobody awaits. */
  lemma OtherSaveStable(lib: Lib, r: Refs, disk: seq<Entry>, committed: map<AskId, Choice>, lost: set<AskId>, ok: bool)
    requires RefsOk(r) && r.saves != [] && Stable(r, disk, committed, lost)
    requires r.saves[0].waiter.Some? && r.saves[0].waiter.value in r.attempts ==>
      !r.attempts[r.saves[0].waiter.value].pc.SavingChoice?
    ensures var r' := SaveSettled(lib, r, ok);
      Stable(r', if ok then r.saves[0].row else disk, committed, lost + Dropped(r.history, r'.history))
  {
    hide RefsOk, Stable, RowOk, Lookup, EntryOk, NobodyWaits, Dropped, MarkAnswered;
    var r1, disk' := Popped(r), if ok then r.saves[0].row else disk;
    PoppedKeeps(r);
    InProgress(r);
    PoppedStable(r, disk, committed, lost, ok);
    MoreLost(r1, disk', committed, lost, Dropped(r.history, r.history));
    if r.saves[0].waiter.Some? {
      var id := r.saves[0].waiter.value;
      var a := r.attempts[id];
      if a.pc.SavingSent? {
        EndStable(r1, id, disk', committed, lost);
      } else if id !in r1.replied {
        PutStable(r1, a.(pc := Building), disk', committed, lost);
      } else if a.added != [] && a.canDrop {
        PutStable(r1, a.(pc := GivingBack(Some(r1.replied[id]))), disk', committed, lost);
      } else {
        RepliedIds(r1);
        AnsweredEndStable(r1, id, r1.replied[id], disk', committed, lost);
      }
    }
  }

  lemma RepliedIds(r: Refs)
    requires RefsOk(r)
    ensures forall id <- r.replied :: r.replied[id].id == id
  {
  }

  // ---- Reload and load ----

  lemma LoadStable(r: Refs, nowS: int, disk: seq<Entry>, committed: map<AskId, Choice>, lost: set<AskId>)
    requires r == Emptied(r.serial) && RowOk(disk) && Stable(r, disk, committed, lost)
    ensures var r' := OnLoad(r, Some(disk), nowS);
      Stable(r', disk, (map id | id in r'.unsent :: ChoiceOf(r'.unsent[id])) + committed, lost)
  {
    hide IsSent, ChoiceOf, Lookup, EntryOk, UniqueRow, UnsentRows, SeenRows;
    assert Cap(disk) == disk;
    LoadedIs(disk, nowS);
    var r' := OnLoad(r, Some(disk), nowS);
    var committed' := (map id | id in r'.unsent :: ChoiceOf(r'.unsent[id])) + committed;
    forall id | id !in lost ensures Says(r', Lookup(disk, id), committed', id) {
      assert Says(r, Lookup(disk, id), committed, id);
    }
    forall id | id in r'.unsent && id !in lost ensures id in committed' && committed'[id] == ChoiceOf(r'.unsent[id]) {
      assert Says(r, Lookup(disk, id), committed, id);
    }
  }

  lemma LoadedIs(disk: seq<Entry>, nowS: int)
    requires RowOk(disk)
    ensures forall x :: x in UnsentRows(disk, nowS) ==>
      Lookup(disk, x).Some? && !IsSent(Lookup(disk, x).value) && UnsentRows(disk, nowS)[x] == Lookup(disk, x).value
    ensures forall x :: Lookup(disk, x).Some? && IsSent(Lookup(disk, x).value) ==>
      x in SeenRows(disk, nowS) && x !in UnsentRows(disk, nowS)
  {
    LoadedFacts(disk, nowS);
  }

  /** A load that fails loses sight of every ask in the stored row. */
  lemma FailedLoadStable(r: Refs, disk: seq<Entry>, committed: map<AskId, Choice>, lost: set<AskId>, nowS: int)
    requires r == Emptied(r.serial) && Stable(r, disk, committed, lost)
    ensures Stable(OnLoad(r, None, nowS), disk, committed, lost + Dropped(disk, []))
  {
    hide IsSent, ChoiceOf;
    var r', lost' := OnLoad(r, None, nowS), lost + Dropped(disk, []);
    forall id | id !in lost' ensures Lookup(disk, id).None? { LookupFound(disk, id); }
    forall id | id !in lost' ensures id !in committed { assert Says(r, Lookup(disk, id), committed, id); }
  }
}
