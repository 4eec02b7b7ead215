/**
 * What every handler of the inbox keeps of its own memory: the list, its
 * "Send again" markers, the live limit, the answers in progress and the row.
 */
module ChildAskRefs {
  import opened Wrappers
  import opened ChildAsks
  import opened ChildAskRows

  function Marker(r: Refs, id: AskId): Option<Choice> {
    if id in r.unsent then Some(ChoiceOf(r.unsent[id])) else None
  }

  /** Listed once, seen, and marked with exactly the held answer; 32 a dependant at most. */
  ghost predicate ListOk(r: Refs) {
    && UniqueList(r.asks)
    && (forall id :: Listed(r.asks, id).Some? ==>
        id in r.seen && Listed(r.asks, id).value.unsent == Marker(r, id))
    && (forall d :: CountFor(r.asks, d) <= LIVE_LIMIT)
  }

  ghost predicate UnsentOk(r: Refs) {
    && (forall id <- r.unsent :: r.unsent[id].ask.id == id && !IsSent(r.unsent[id]) && EntryOk(r.unsent[id]))
    && (forall id <- r.replied :: r.replied[id].id == id)
  }

  predicate AwaitsSave(pc: Pc) { pc.SavingChoice? || pc.SavingOutcome? || pc.SavingSent? }

  /** Past the first save and not yet sent. */
  predicate Working(pc: Pc) { !pc.SavingChoice? && !pc.SavingSent? }

  ghost predicate AttemptOk(r: Refs, id: AskId)
    requires id in r.attempts
  {
    var a := r.attempts[id];
    && a.ask.id == id && a.entry.ask.id == id && a.out.id == id && a.serial < r.serial
    && !IsSent(a.entry) && EntryOk(a.entry) && id in r.seen
    && (a.pc.SavingChoice? ==> id !in r.unsent && !a.resend && a.added == [])
    && (a.pc.GivingBack? && a.pc.answered.Some? ==> a.pc.answered.value.id == id)
    && (Working(a.pc) ==> id in r.unsent && ChoiceOf(r.unsent[id]) == ChoiceOf(a.entry))
    && (!a.pc.SavingChoice? ==> a.out.choice == ChoiceOf(a.entry) || a.out.choice == Deny)
  }

  ghost predicate AttemptsOk(r: Refs) {
    forall id <- r.attempts :: AttemptOk(r, id)
  }

  predicate DistinctWaiters(saves: seq<Save>) {
    forall i, j :: 0 <= i < j < |saves| && saves[i].waiter.Some? ==> saves[i].waiter != saves[j].waiter
  }

  predicate NobodyWaits(saves: seq<Save>, id: AskId) {
    forall i :: 0 <= i < |saves| ==> saves[i].waiter != Some(id)
  }

  predicate RowsOk(saves: seq<Save>) { forall i :: 0 <= i < |saves| ==> RowOk(saves[i].row) }

  /** Nobody waits for two saves, and only an answer that is saving waits for one. */
  ghost predicate WaitersOk(r: Refs) {
    && DistinctWaiters(r.saves)
    && (forall i :: 0 <= i < |r.saves| && r.saves[i].waiter.Some? ==>
        r.saves[i].waiter.value in r.attempts && AwaitsSave(r.attempts[r.saves[i].waiter.value].pc))
  }

  /** Answered and off the list, never to be answered again in this unlock. */
  ghost predicate Done(r: Refs, id: AskId) {
    && id in r.seen && Listed(r.asks, id).None? && id !in r.unsent
    && (id in r.attempts ==> r.attempts[id].pc.SavingSent?)
  }

  ghost predicate Retired(r: Refs, id: AskId) {
    id in r.seen && Listed(r.asks, id).None? && id !in r.unsent && id !in r.attempts
  }

  /** What a history entry says about its ask: answered, held, being chosen, or given up on. */
  ghost predicate EntryHolds(r: Refs, id: AskId, e: Entry) {
    if IsSent(e) then Done(r, id)
    else || (id in r.unsent && ChoiceOf(r.unsent[id]) == ChoiceOf(e))
         || (id in r.attempts && r.attempts[id].pc.SavingChoice? && ChoiceOf(e) == ChoiceOf(r.attempts[id].entry))
         || Retired(r, id)
  }

  ghost predicate HistoryOk(r: Refs) {
    && RowOk(r.history)
    && (forall id :: Lookup(r.history, id).Some? ==> EntryHolds(r, id, Lookup(r.history, id).value))
    && RowsOk(r.saves)
  }

  ghost predicate RefsOk(r: Refs) {
    && ListOk(r) && UnsentOk(r) && AttemptsOk(r) && WaitersOk(r) && HistoryOk(r)
    && (!r.loaded ==> r == Emptied(r.serial))
  }

  /** Writing one entry, once the rest of the memory agrees with it. */
  lemma RecordKeeps(r: Refs, e: Entry, waiter: Option<AskId>)
    requires r.loaded && ListOk(r) && UnsentOk(r) && AttemptsOk(r) && WaitersOk(r)
    requires RowOk(r.history) && RowsOk(r.saves)
    requires forall id ::
      id != e.ask.id && Lookup(r.history, id).Some? ==> EntryHolds(r, id, Lookup(r.history, id).value)
    requires EntryOk(e) && EntryHolds(r, e.ask.id, e)
    requires waiter.Some? ==> waiter.value in r.attempts && AwaitsSave(r.attempts[waiter.value].pc)
    requires waiter.Some? ==> NobodyWaits(r.saves, waiter.value)
    ensures RefsOk(Record(r, e, waiter))
  {
    var r' := Record(r, e, waiter);
    RecordedFacts(r.history, e);
    assert ListOk(r') && UnsentOk(r');
    assert AttemptsOk(r') by {
      forall id | id in r'.attempts ensures AttemptOk(r', id) { assert AttemptOk(r, id); }
    }
    forall id | Lookup(r'.history, id).Some? ensures EntryHolds(r', id, Lookup(r'.history, id).value) {
      assert EntryHolds(r, id, Lookup(r'.history, id).value);
    }
  }

  /** The part of `MarkAnswered` before the row is written. */
  function Settled(r: Refs, id: AskId): Refs {
    r.(seen := r.seen + {id}, unsent := r.unsent - {id}, asks := Unlist(r.asks, id))
  }

  lemma SettledKeeps(r: Refs, id: AskId)
    requires RefsOk(r) && r.loaded && id !in r.attempts
    ensures var s := Settled(r, id);
      && ListOk(s) && UnsentOk(s) && AttemptsOk(s) && WaitersOk(s) && Done(s, id)
      && (forall x :: x != id && Lookup(r.history, x).Some? ==> EntryHolds(s, x, Lookup(r.history, x).value))
  {
    UnlistFacts(r.asks, id);
    var s := Settled(r, id);
    forall x | x in s.attempts ensures AttemptOk(s, x) { assert AttemptOk(r, x); }
    forall x | x != id && Lookup(r.history, x).Some? ensures EntryHolds(s, x, Lookup(r.history, x).value) {
      assert EntryHolds(r, x, Lookup(r.history, x).value);
    }
  }

  lemma MarkAnsweredKeeps(r: Refs, id: AskId, v: Verdict)
    requires RefsOk(r) && r.loaded && id !in r.attempts && v.id == id
    ensures RefsOk(MarkAnswered(r, id, v))
  {
    SettledKeeps(r, id);
    ListedFound(r.asks, id);
    LookupFound(r.history, id);
    var pending, known := Listed(r.asks, id), Lookup(r.history, id);
    if pending.Some? || known.Some? {
      var ask := if pending.Some? then Slim(pending.value.ask) else known.value.ask;
      RecordKeeps(Settled(r, id), Entry(ask, v, Some(v.choice), Some(true), None), None);
    }
  }

  lemma OnReplyKeeps(r: Refs, v: Verdict)
    requires RefsOk(r) && r.loaded
    ensures RefsOk(OnReply(r, v))
  {
    var r1 := r.(replied := r.replied[v.id := v]);
    assert RefsOk(r1);
    if v.id !in r.attempts { MarkAnsweredKeeps(r1, v.id, v); }
  }

  lemma OnAskKeeps(r: Refs, dep: DepId, ask: Ask)
    requires RefsOk(r) && r.loaded
    ensures RefsOk(OnAsk(r, dep, ask))
  {
    ListedFound(r.asks, ask.id);
    if ask.id in r.seen {
    } else if ask.id in r.replied {
      var v := r.replied[ask.id];
      assert Listed(r.asks, ask.id).None?;
      assert ask.id !in r.attempts;
      SettledKeeps(r, ask.id);
      UnlistAbsent(r.asks, ask.id);
      RecordKeeps(Settled(r, ask.id), Entry(Slim(ask), v, Some(v.choice), Some(true), None), None);
    } else if CountFor(r.asks, dep) < LIVE_LIMIT {
      ListKeeps(r, dep, ask);
    }
  }

  lemma {:induction false} UnlistAbsent(asks: seq<Pending>, id: AskId)
    requires Listed(asks, id).None?
    ensures Unlist(asks, id) == asks
  {
    if asks != [] { UnlistAbsent(asks[1..], id); }
  }

  lemma ListKeeps(r: Refs, dep: DepId, ask: Ask)
    requires RefsOk(r) && r.loaded && ask.id !in r.seen && CountFor(r.asks, dep) < LIVE_LIMIT
    ensures RefsOk(r.(seen := r.seen + {ask.id}, asks := r.asks + [Pending(ask, dep, Marker(r, ask.id))]))
  {
    var p := Pending(ask, dep, Marker(r, ask.id));
    var r' := r.(seen := r.seen + {ask.id}, asks := r.asks + [p]);
    assert Listed(r.asks, ask.id).None?;
    AppendFacts(r.asks, p);
    forall id | id in r'.attempts ensures AttemptOk(r', id) { assert AttemptOk(r, id); }
    forall id | Lookup(r'.history, id).Some? ensures EntryHolds(r', id, Lookup(r'.history, id).value) {
      assert EntryHolds(r, id, Lookup(r'.history, id).value);
      if id in r.attempts { assert AttemptOk(r, id); }
    }
  }

  lemma OnExpiryKeeps(r: Refs, nowS: int)
    requires RefsOk(r)
    ensures RefsOk(OnExpiry(r, nowS))
  {
    UnexpiredFacts(r.asks, nowS);
    FewerListed(r, Unexpired(r.asks, nowS));
  }

  /** Asks may leave the list at any time. */
  lemma FewerListed(r: Refs, asks: seq<Pending>)
    requires RefsOk(r) && UniqueList(asks)
    requires forall x :: Listed(asks, x).Some? ==> Listed(asks, x) == Listed(r.asks, x)
    requires forall d :: CountFor(asks, d) <= CountFor(r.asks, d)
    requires r.asks == [] ==> asks == []
    ensures RefsOk(r.(asks := asks))
  {
    var r' := r.(asks := asks);
    forall id | id in r'.attempts ensures AttemptOk(r', id) { assert AttemptOk(r, id); }
    forall id | Lookup(r'.history, id).Some? ensures EntryHolds(r', id, Lookup(r'.history, id).value) {
      assert EntryHolds(r, id, Lookup(r'.history, id).value);
    }
  }

  lemma OnLoadKeeps(r: Refs, stored: Option<seq<Entry>>, nowS: int)
    requires RefsOk(r) && !r.loaded && (stored.Some? ==> RowOk(stored.value))
    ensures RefsOk(OnLoad(r, stored, nowS))
  {
    if stored.Some? {
      var row := stored.value;
      assert Cap(row) == row;
      LoadedFacts(row, nowS);
      forall id | id in UnsentRows(row, nowS)
        ensures UnsentRows(row, nowS)[id].ask.id == id && EntryOk(UnsentRows(row, nowS)[id])
      {
        LookupFound(row, id);
      }
    }
  }

  /** One answer in progress moves on; nothing else changes. */
  lemma PutKeeps(r: Refs, a: Attempt)
    requires RefsOk(r) && r.loaded && a.ask.id in r.attempts && a.serial == r.attempts[a.ask.id].serial
    requires Working(r.attempts[a.ask.id].pc) && Working(a.pc)
    requires NobodyWaits(r.saves, a.ask.id)
    requires a.entry.ask.id == a.ask.id && !IsSent(a.entry) && EntryOk(a.entry)
    requires ChoiceOf(a.entry) == ChoiceOf(r.attempts[a.ask.id].entry)
    requires a.out.id == a.ask.id && (a.out.choice == ChoiceOf(a.entry) || a.out.choice == Deny)
    requires a.pc.GivingBack? && a.pc.answered.Some? ==> a.pc.answered.value.id == a.ask.id
    ensures RefsOk(Put(r, a))
  {
  }

  /** Holding a newer entry for the same choice. */
  lemma HoldKeeps(r: Refs, id: AskId, e: Entry)
    requires RefsOk(r) && r.loaded && id in r.unsent
    requires e.ask.id == id && !IsSent(e) && EntryOk(e) && ChoiceOf(e) == ChoiceOf(r.unsent[id])
    ensures RefsOk(r.(unsent := r.unsent[id := e]))
  {
  }

  lemma SaveOutcomeKeeps(r: Refs, a: Attempt)
    requires RefsOk(r) && r.loaded && a.ask.id in r.attempts && a.serial == r.attempts[a.ask.id].serial
    requires Working(r.attempts[a.ask.id].pc) && a.entry == r.attempts[a.ask.id].entry
    requires NobodyWaits(r.saves, a.ask.id)
    requires a.out.id == a.ask.id && (a.out.choice == ChoiceOf(a.entry) || a.out.choice == Deny)
    ensures RefsOk(SaveOutcome(r, a))
  {
    var id := a.ask.id;
    assert AttemptOk(r, id);
    var e := a.entry.(verdict := a.out, sent := Some(false),
                      reason := if a.reason.Some? then a.reason else a.entry.reason);
    HoldKeeps(r, id, e);
    var r1 := r.(unsent := r.unsent[id := e]);
    PutKeeps(r1, a.(entry := e, pc := SavingOutcome));
    RecordKeeps(Put(r1, a.(entry := e, pc := SavingOutcome)), e, Some(id));
  }

  lemma EndKeeps(r: Refs, id: AskId)
    requires RefsOk(r) && r.loaded && id in r.attempts && !r.attempts[id].pc.SavingChoice?
    requires NobodyWaits(r.saves, id)
    ensures RefsOk(End(r, id))
  {
    hide Lookup, Listed, CountFor, RowOk, UniqueList, DistinctWaiters, RowsOk, IsSent, EntryOk, ChoiceOf;
    var r' := End(r, id);
    forall x | x in r'.attempts ensures AttemptOk(r', x) { assert AttemptOk(r, x); }
    forall x | Lookup(r'.history, x).Some? ensures EntryHolds(r', x, Lookup(r'.history, x).value) {
      assert EntryHolds(r, x, Lookup(r'.history, x).value);
    }
  }
}
