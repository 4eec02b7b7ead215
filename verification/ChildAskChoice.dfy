/** The run theorems about one ask's choice: write-ahead, stability, and where stability ends. */
module ChildAskChoice {
  import opened Wrappers
  import opened ChildAsks
  import opened ChildAskRows
  import opened ChildAskRefs
  import opened ChildAskRun
  import opened ChildAskStable

  /** Only its save moves an answer that is saving. */
  lemma SavingStays(lib: Lib, w: World, ev: Event, id: AskId)
    requires Subject(w.refs, ev) == Some(id) && id in w.refs.attempts && !ev.SaveSettles?
    requires w.refs.attempts[id].pc.SavingChoice? || w.refs.attempts[id].pc.SavingSent?
    ensures RefsAfter(lib, w, ev) == w.refs
  {
  }

  lemma FreshTap(lib: Lib, r: Refs, id: AskId, choice: Choice, alwaysDeny: bool, nowMs: nat, o: Options)
    requires RefsOk(r) && id !in r.attempts
    ensures var r' := Tap(lib, r, id, choice, alwaysDeny, nowMs, o);
      id in r'.attempts && !r'.attempts[id].pc.SavingChoice? ==> id in r.unsent
  {
    hide Lookup, UniqueList, EntryHolds, Work, RefsOk, Recorded;
    if !r.loaded { TapBeforeLoad(lib, r, id, choice, alwaysDeny, nowMs, o); }
    else if Refusal(r, id, choice, nowMs, o).None? { NewAttemptFacts(r, id, choice, alwaysDeny, nowMs, o); }
  }

  /** An event that moves an answer past its choice save acts on a held answer. */
  lemma MovedIsHeld(lib: Lib, w: World, ev: Event)
    requires RefsOk(w.refs) && !ev.SaveSettles?
    ensures var m := Moved(w.refs, RefsAfter(lib, w, ev), ev);
      m.Some? && !m.value.pc.SavingChoice? ==> Subject(w.refs, ev).value in w.refs.unsent
  {
    hide RefsOk, OnAsk, OnReply, OnExpiry, Tap, RulesListed, DenyRuleSaved, AllowRuleSaved,
      PushSettled, VerdictBuilt, PublishSettled, GaveBack, OnLoad;
    var r := w.refs;
    var s := Subject(r, ev);
    InProgress(r);
    if s.Some? && s.value in r.attempts {
      if r.attempts[s.value].pc.SavingChoice? || r.attempts[s.value].pc.SavingSent? {
        SavingStays(lib, w, ev, s.value);
      }
    } else if ev.Taps? {
      FreshTap(lib, r, ev.id, ev.choice, ev.alwaysDeny, ev.nowMs, ev.options);
    }
  }

  lemma SubjectIs(lib: Lib, w: World, ev: Event)
    requires RefsOk(RefsAfter(lib, w, ev))
    ensures var m := Moved(w.refs, RefsAfter(lib, w, ev), ev); m.Some? ==> m.value.ask.id == Subject(w.refs, ev).value
  {
  }

  lemma CommitLost(r: Refs, disk: seq<Entry>, committed: map<AskId, Choice>, lost: set<AskId>, id: AskId, c: Choice)
    requires Stable(r, disk, committed, lost) && id in lost
    ensures Stable(r, disk, committed[id := c], lost)
  {
  }

  /** The handlers other than saves, reloads and loads. */
  lemma HandlerStable(lib: Lib, w: World, ev: Event)
    requires WorldOk(w) && !ev.SaveSettles? && !ev.Reload? && !ev.HistoryLoads?
    ensures var r' := RefsAfter(lib, w, ev);
      Stable(r', w.disk, w.committed, w.lost + Dropped(w.refs.history, r'.history))
  {
    hide RefsOk, Stable, RowOk, AttemptOk, Dropped, OnAsk, OnReply, Tap, SaveOutcome, MarkAnswered, WideningFits,
         AlwaysWidening;
    var r := w.refs;
    InProgress(r);
    MoreLost(r, w.disk, w.committed, w.lost, Dropped(r.history, r.history));
    if ev.AskArrives? {
      if r.loaded { OnAskStable(r, ev.dep, ev.ask, w.disk, w.committed, w.lost); }
    } else if ev.ReplyArrives? {
      if r.loaded { OnReplyStable(r, ev.verdict, w.disk, w.committed, w.lost); }
    } else if ev.ExpiryFires? {
      ExpiryLists(r, ev.nowS);
      UnlistedStable(r, Unexpired(r.asks, ev.nowS), w.disk, w.committed, w.lost);
    } else if ev.Taps? {
      if r.loaded {
        TapStable(lib, r, ev.id, ev.choice, ev.alwaysDeny, ev.nowMs, ev.options, w.disk, w.committed, w.lost);
      }
      else { TapBeforeLoad(lib, r, ev.id, ev.choice, ev.alwaysDeny, ev.nowMs, ev.options); }
    } else if Subject(r, ev).value in r.attempts {
      CallStable(lib, w, ev, Subject(r, ev).value);
    }
  }

  lemma ExpiryLists(r: Refs, nowS: int)
    requires RefsOk(r)
    ensures forall x :: Listed(r.asks, x).None? ==> Listed(Unexpired(r.asks, nowS), x).None?
  {
    UnexpiredFacts(r.asks, nowS);
  }

  lemma TapBeforeLoad(lib: Lib, r: Refs, id: AskId, choice: Choice, alwaysDeny: bool, nowMs: nat, o: Options)
    requires RefsOk(r) && !r.loaded
    ensures Tap(lib, r, id, choice, alwaysDeny, nowMs, o) == r
  {
  }

  /** A call of an answer in progress settles. */
  lemma CallStable(lib: Lib, w: World, ev: Event, id: AskId)
    requires WorldOk(w) && Subject(w.refs, ev) == Some(id) && id in w.refs.attempts && !ev.SaveSettles? && !ev.Taps?
    ensures var r' := RefsAfter(lib, w, ev);
      Stable(r', w.disk, w.committed, w.lost + Dropped(w.refs.history, r'.history))
  {
    hide RefsOk, Stable, RowOk, Dropped, DenyRuleSaved, AllowRuleSaved, PushSettled, RulesListed, VerdictBuilt,
         PublishSettled, GaveBack;
    var r, d, c, l := w.refs, w.disk, w.committed, w.lost;
    var a := r.attempts[id];
    InProgress(r);
    MoreLost(r, d, c, l, Dropped(r.history, r.history));
    if ev.RuleSettles? {
      RuleSettledStable(r, a, ev.ok, d, c, l);
    } else if ev.RulesRead? {
      if a.pc.ListingRules? { RulesListedStable(lib, r, a, ev.rules, d, c, l); }
    } else if ev.PushSettles? {
      if a.pc.Pushing? { PushSettledStable(r, a, ev.ok, d, c, l); }
    } else {
      TailStable(lib, w, ev, id);
    }
  }

  /** The last part of `CallStable`: from the built verdict on. */
  lemma TailStable(lib: Lib, w: World, ev: Event, id: AskId)
    requires WorldOk(w) && Subject(w.refs, ev) == Some(id) && id in w.refs.attempts
    requires ev.BuildSettles? || ev.PublishSettles? || ev.DropSettles?
    ensures var r' := RefsAfter(lib, w, ev);
      Stable(r', w.disk, w.committed, w.lost + Dropped(w.refs.history, r'.history))
  {
    hide RefsOk, Stable, RowOk, Dropped, NotSent, PublishSettled, GaveBack;
    var r, d, c, l := w.refs, w.disk, w.committed, w.lost;
    var a := r.attempts[id];
    InProgress(r);
    MoreLost(r, d, c, l, Dropped(r.history, r.history));
    if ev.BuildSettles? {
      if a.pc.Building? {
        if ev.ok { PutStable(r, a.(pc := Publishing), d, c, l); } else { NotSentStable(r, a, d, c, l); }
      }
    } else if ev.PublishSettles? {
      if a.pc.Publishing? { PublishSettledStable(r, a, ev.ok, d, c, l); }
    } else if a.pc.GivingBack? {
      GaveBackStable(r, a, d, c, l);
    }
  }

  lemma RuleSettledStable(r: Refs, a: Attempt, ok: bool, d: seq<Entry>, c: map<AskId, Choice>, l: set<AskId>)
    requires RefsOk(r) && Stable(r, d, c, l) && a.ask.id in r.attempts && r.attempts[a.ask.id] == a
    ensures a.pc.SavingDenyRule? ==>
      var r' := DenyRuleSaved(r, a, ok); Stable(r', d, c, l + Dropped(r.history, r'.history))
    ensures a.pc.SavingAllowRule? ==>
      var r' := AllowRuleSaved(r, a, ok); Stable(r', d, c, l + Dropped(r.history, r'.history))
  {
    hide RefsOk, Stable, Dropped, SaveOutcome;
    InProgress(r);
    if a.pc.SavingDenyRule? {
      SaveOutcomeStable(r, a.(out := if ok then a.out.(ruleId := Some(a.pc.denyRule.id))
                                     else a.out.(alwaysDeny := false)), d, c, l);
    } else if a.pc.SavingAllowRule? {
      var a1 := a.(out := a.out.(ruleId := Some(a.pc.allowRule.id)));
      if !ok { EndStable(r, a.ask.id, d, c, l); }
      else if a.ask.via == SignEvent { PutStable(r, a1.(pc := Pushing(a.pc.widening)), d, c, l); }
      else { SaveOutcomeStable(r, a1, d, c, l); }
    }
  }

  lemma PushSettledStable(r: Refs, a: Attempt, ok: bool, d: seq<Entry>, c: map<AskId, Choice>, l: set<AskId>)
    requires RefsOk(r) && Stable(r, d, c, l) && a.ask.id in r.attempts && r.attempts[a.ask.id] == a && a.pc.Pushing?
    ensures var r' := PushSettled(r, a, ok); Stable(r', d, c, l + Dropped(r.history, r'.history))
  {
    hide RefsOk, Stable, Dropped, SaveOutcome;
    InProgress(r);
    if ok {
      SaveOutcomeStable(r, a.(added := a.pc.pushed.extra, out := a.out.(alsoOpened := AlsoOpened(a, a.pc.pushed))),
                        d, c, l);
    }
    else { SaveOutcomeStable(r, Refuse(a, DeviceUnreachable, Some(Unreachable)), d, c, l); }
  }

  lemma PublishSettledStable(r: Refs, a: Attempt, ok: bool, d: seq<Entry>, c: map<AskId, Choice>, l: set<AskId>)
    requires RefsOk(r) && r.loaded && Stable(r, d, c, l) && a.ask.id in r.attempts && r.attempts[a.ask.id] == a
    requires a.pc.Publishing?
    ensures var r' := PublishSettled(r, a, ok); Stable(r', d, c, l + Dropped(r.history, r'.history))
  {
    hide RefsOk, Stable, Dropped, NotSent;
    if ok { AcknowledgedStable(r, a.ask.id, d, c, l); } else { NotSentStable(r, a, d, c, l); }
  }

  lemma GaveBackStable(r: Refs, a: Attempt, d: seq<Entry>, c: map<AskId, Choice>, l: set<AskId>)
    requires RefsOk(r) && Stable(r, d, c, l) && a.ask.id in r.attempts && r.attempts[a.ask.id] == a && a.pc.GivingBack?
    ensures var r' := GaveBack(r, a); Stable(r', d, c, l + Dropped(r.history, r'.history))
  {
    hide RefsOk, Stable, Dropped, MarkAnswered;
    InProgress(r);
    if a.pc.answered.Some? {
      AnsweredEndStable(r, a.ask.id, a.pc.answered.value, d, c, l);
    } else {
      EndStable(r, a.ask.id, d, c, l);
    }
  }

  lemma NotSentStable(r: Refs, a: Attempt, d: seq<Entry>, c: map<AskId, Choice>, l: set<AskId>)
    requires RefsOk(r) && Stable(r, d, c, l) && a.ask.id in r.attempts && r.attempts[a.ask.id] == a && Working(a.pc)
    ensures var r' := NotSent(r, a); Stable(r', d, c, l + Dropped(r.history, r'.history))
  {
    hide RefsOk, Stable, Dropped;
    if a.added != [] && a.canDrop {
      PutStable(r, a.(pc := GivingBack(None)), d, c, l);
    } else {
      EndStable(r, a.ask.id, d, c, l);
    }
  }

  lemma RulesListedStable(lib: Lib, r: Refs, a: Attempt, rules: Option<seq<Rule>>, d: seq<Entry>, c: map<AskId,
                          Choice>, l: set<AskId>)
    requires RefsOk(r) && r.loaded && Stable(r, d, c, l) && a.ask.id in r.attempts && r.attempts[a.ask.id] == a
    requires a.pc.ListingRules?
    ensures var r' := RulesListed(lib, r, a, rules); Stable(r', d, c, l + Dropped(r.history, r'.history))
  {
    hide RefsOk, Stable, Dropped, WideningFits, AlwaysWidening, OnceWidening, RuleFor, SaveOutcome;
    InProgress(r);
    if rules.None? {
      EndStable(r, a.ask.id, d, c, l);
    } else if a.ask.via == SignEvent && a.child.paused {
      SaveOutcomeStable(r, Refuse(a, Paused, None), d, c, l);
    } else if a.out.choice == Always {
      var wd := AlwaysWidening(lib, a, rules.value);
      if a.ask.via == SignEvent && !WideningFits(lib, wd) {
        SaveOutcomeStable(r, Refuse(a, CeilingFull, None), d, c, l);
      }
      else { PutStable(r, a.(pc := SavingAllowRule(RuleFor(lib, a, true), wd)), d, c, l); }
    } else if a.ask.via == SignEvent {
      var wd := OnceWidening(a, rules.value);
      if !WideningFits(lib, wd) { SaveOutcomeStable(r, Refuse(a, CeilingFull, None), d, c, l); }
      else { PutStable(r, a.(pc := Pushing(wd)), d, c, l); }
    } else {
      SaveOutcomeStable(r, a, d, c, l);
    }
  }

  lemma AcknowledgedStable(r: Refs, id: AskId, d: seq<Entry>, c: map<AskId, Choice>, l: set<AskId>)
    requires RefsOk(r) && r.loaded && Stable(r, d, c, l) && id in r.attempts && r.attempts[id].pc.Publishing?
    ensures var r' := PublishSettled(r, r.attempts[id], true); Stable(r', d, c, l + Dropped(r.history, r'.history))
  {
    hide RefsOk, Stable, Dropped, EntryHolds, Recorded;
    var s := Acknowledged(r, id);
    SentKeeps(r, id);
    AttemptFacts(r, id);
    AcknowledgedRelaxes(r, id, d, c, l);
    RelaxStable(r, s, d, c, l);
    RecordKeepsStable(s, r.attempts[id].entry.(sent := Some(true)), Some(id), d, c, l);
  }

  lemma AcknowledgedRelaxes(r: Refs, id: AskId, d: seq<Entry>, c: map<AskId, Choice>, l: set<AskId>)
    requires RefsOk(r) && id in r.attempts && r.attempts[id].pc.Publishing? && Stable(r, d, c, l)
    ensures Relaxes(r, Acknowledged(r, id), c, l)
  {
    hide RefsOk, RowSays, SavesSay, Choosing, Done;
    AcknowledgedDone(r, id);
    AttemptAt(r, id);
  }

  lemma AttemptAt(r: Refs, id: AskId)
    requires RefsOk(r) && id in r.attempts
    ensures r.attempts[id].ask.id == id
  {
    assert AttemptOk(r, id);
  }

  lemma AcknowledgedDone(r: Refs, id: AskId)
    requires RefsOk(r) && id in r.attempts
    ensures forall x :: Done(r, x) ==> Done(Acknowledged(r, id), x)
  {
    hide Lookup, UniqueRow, EntryHolds, HistoryOk, WaitersOk, UnsentOk;
    assert AttemptOk(r, id);
    UnlistFacts(r.asks, id);
  }

  /** Every event keeps the world consistent. */
  lemma StepStable(lib: Lib, w: World, ev: Event)
    requires WorldOk(w)
    ensures WorldOk(Step(lib, w, ev))
  {
    hide RefsOk, Stable, RowOk, RefsAfter, OnLoad;
    var r, w' := w.refs, Step(lib, w, ev);
    var r' := RefsAfter(lib, w, ev);
    StepKeepsRefs(lib, w, ev);
    match ev {
      case SaveSettles(ok) => SavesStable(lib, w, ok);
      case Reload => ReloadStep(lib, w);
      case HistoryLoads(nowS, ok) => LoadStep(lib, w, nowS, ok);
      case _ =>
        HandlerStable(lib, w, ev);
        MovedIsHeld(lib, w, ev);
        SubjectIs(lib, w, ev);
        HeldFacts(r, w.disk, w.committed, w.lost);
        assert Forgotten(w, r', ev) == Dropped(r.history, r'.history);
        var m := Moved(r, r', ev);
        if m.Some? && !m.value.pc.SavingChoice? && m.value.ask.id !in w.committed {
          CommitLost(r', w.disk, w.committed, w'.lost, m.value.ask.id, ChoiceOf(m.value.entry));
        }
    }
  }

  lemma HeldFacts(r: Refs, disk: seq<Entry>, committed: map<AskId, Choice>, lost: set<AskId>)
    requires Stable(r, disk, committed, lost)
    ensures forall id <- r.unsent :: id !in lost ==> id in committed && committed[id] == ChoiceOf(r.unsent[id])
  {
  }

  lemma SavesStable(lib: Lib, w: World, ok: bool)
    requires WorldOk(w) && RefsOk(RefsAfter(lib, w, SaveSettles(ok)))
    ensures var w' := Step(lib, w, SaveSettles(ok)); Stable(w'.refs, w'.disk, w'.committed, w'.lost)
  {
    hide RefsOk, Stable, RowOk, SaveSettled, NewEffects, AccountsAfter, AcksAfter;
    var r, ev := w.refs, SaveSettles(ok);
    var r' := RefsAfter(lib, w, ev);
    if r.saves == [] {
      assert r' == r by { NothingSettles(lib, r, ok); }
      MoreLost(r, w.disk, w.committed, w.lost, Forgotten(w, r', ev));
    } else if ChoiceWaits(r) {
      ChoiceSaves(lib, w, ok);
    } else {
      OtherSaves(lib, w, ok);
    }
  }

  /** The save a choice waited for settles: the choice is committed, or it is as if it had never been made. */
  lemma ChoiceSaves(lib: Lib, w: World, ok: bool)
    requires WorldOk(w) && ChoiceWaits(w.refs) && RefsOk(RefsAfter(lib, w, SaveSettles(ok)))
    ensures var ev := SaveSettles(ok); var r' := RefsAfter(lib, w, ev);
      Stable(r', DiskAfter(w, ev), CommittedAfter(w, r', ev), w.lost + Forgotten(w, r', ev))
  {
    hide RefsOk, Stable, RowOk, SaveSettled;
    var r, ev := w.refs, SaveSettles(ok);
    var r' := RefsAfter(lib, w, ev);
    var id := r.saves[0].waiter.value;
    InProgress(r);
    SubjectIs(lib, w, ev);
    if ok {
      ChoiceLandedStable(lib, r, id, w.disk, w.committed, w.lost);
      assert Forgotten(w, r', ev) == Dropped(r.history, r'.history);
      assert CommittedAfter(w, r', ev) == WithChoice(w.committed, id, ChoiceOf(r.attempts[id].entry));
    } else {
      ChoiceFailedStable(lib, r, id, w.disk, w.committed, w.lost);
      MoreLost(r', w.disk, w.committed, w.lost, Forgotten(w, r', ev));
    }
  }

  /** Any other save settles. */
  lemma OtherSaves(lib: Lib, w: World, ok: bool)
    requires WorldOk(w) && w.refs.saves != [] && !ChoiceWaits(w.refs) && RefsOk(RefsAfter(lib, w, SaveSettles(ok)))
    ensures var ev := SaveSettles(ok); var r' := RefsAfter(lib, w, ev);
      Stable(r', DiskAfter(w, ev), CommittedAfter(w, r', ev), w.lost + Forgotten(w, r', ev))
  {
    hide RefsOk, Stable, RowOk, SaveSettled;
    var r, ev := w.refs, SaveSettles(ok);
    var r' := RefsAfter(lib, w, ev);
    InProgress(r);
    HeldFacts(r, w.disk, w.committed, w.lost);
    SubjectIs(lib, w, ev);
    PoppedKeeps(r);
    OtherSaveStable(lib, r, w.disk, w.committed, w.lost, ok);
    MoreLost(r', DiskAfter(w, ev), w.committed, w.lost + Dropped(r.history, r'.history), Forgotten(w, r', ev));
    var m := Moved(r, r', ev);
    if m.Some? && m.value.ask.id !in w.committed {
      SavedIsHeld(lib, r, ok);
      CommitLost(r', DiskAfter(w, ev), w.committed, w.lost + Forgotten(w, r', ev), m.value.ask.id,
                 ChoiceOf(m.value.entry));
    }
  }

  lemma NothingSettles(lib: Lib, r: Refs, ok: bool)
    requires r.saves == []
    ensures SaveSettled(lib, r, ok) == r
  {
  }

  lemma SavedIsHeld(lib: Lib, r: Refs, ok: bool)
    requires RefsOk(r) && r.saves != [] && r.saves[0].waiter.Some?
    requires var id := r.saves[0].waiter.value; id in r.attempts && id in SaveSettled(lib, r, ok).attempts
    requires !r.attempts[r.saves[0].waiter.value].pc.SavingChoice?
    ensures r.saves[0].waiter.value in r.unsent
  {
    hide Lookup, Listed, UniqueList, CountFor, EntryHolds, Record;
    assert AttemptOk(r, r.saves[0].waiter.value);
  }

  lemma ReloadStep(lib: Lib, w: World)
    requires WorldOk(w)
    ensures var w' := Step(lib, w, Reload); Stable(w'.refs, w'.disk, w'.committed, w'.lost)
  {
  }

  lemma LoadStep(lib: Lib, w: World, nowS: int, ok: bool)
    requires WorldOk(w)
    ensures var w' := Step(lib, w, HistoryLoads(nowS, ok)); Stable(w'.refs, w'.disk, w'.committed, w'.lost)
  {
    hide Stable, RowOk, UnsentRows, SeenRows, ListOk, AttemptsOk, HistoryOk, UnsentOk, WaitersOk;
    var r, ev := w.refs, HistoryLoads(nowS, ok);
    var r' := RefsAfter(lib, w, ev);
    if r.loaded {
      assert w.lost + Forgotten(w, r', ev) == w.lost;
    } else if ok {
      LoadStable(r, nowS, w.disk, w.committed, w.lost);
      MoreLost(r', w.disk, CommittedAfter(w, r', ev), w.lost, Forgotten(w, r', ev));
    } else {
      FailedLoadStable(r, w.disk, w.committed, w.lost, nowS);
      assert Forgotten(w, r', ev) == Dropped(w.disk, []);
      assert CommittedAfter(w, r', ev) == w.committed;
    }
  }

  // ---- The issued calls ----

  /** The stored row held the committed choice when the call was issued, and a verdict is that choice or a deny. */
  ghost predicate EffectOk(f: Effect, committed: map<AskId, Choice>, lost: set<AskId>) {
    && f.id in committed
    && (f.call.Publish? ==> f.call.verdict.id == f.id)
    && (f.id !in lost ==>
        && f.durable == Some(committed[f.id])
        && (f.call.Publish? ==> f.call.verdict.choice == committed[f.id] || f.call.verdict.choice == Deny))
  }

  ghost predicate EffectsOk(w: World) {
    forall f <- w.effects :: EffectOk(f, w.committed, w.lost)
  }

  /** An answer issuing a call holds its committed choice, and the stored row says so. */
  lemma IssuedIsDurable(r: Refs, disk: seq<Entry>, committed: map<AskId, Choice>, lost: set<AskId>, id: AskId)
    requires RefsOk(r) && Stable(r, disk, committed, lost) && id in r.attempts && Issued(r.attempts[id]).Some?
    ensures var a := r.attempts[id];
      && a.ask.id == id && a.out.id == id
      && (id !in lost ==> id in committed && DiskChoice(disk, id) == Some(committed[id])
                          && (a.out.choice == committed[id] || a.out.choice == Deny))
  {
  }

  lemma StepEffects(lib: Lib, w: World, ev: Event)
    requires WorldOk(w) && EffectsOk(w)
    ensures EffectsOk(Step(lib, w, ev))
  {
    hide RefsOk, Stable, RowOk, RefsAfter, DiskAfter, Lookup, Forgotten;
    StepStable(lib, w, ev);
    var w' := Step(lib, w, ev);
    SubjectIs(lib, w, ev);
    var m := Moved(w.refs, w'.refs, ev);
    forall f | f in w'.effects ensures EffectOk(f, w'.committed, w'.lost) {
      if f in w.effects {
        assert EffectOk(f, w.committed, w.lost);
      } else {
        assert f in NewEffects(w'.disk, m);
        IssuedIsDurable(w'.refs, w'.disk, w'.committed, w'.lost, m.value.ask.id);
      }
    }
  }

  lemma InitOk(w: World)
    requires Init(w)
    ensures WorldOk(w) && EffectsOk(w)
  {
  }

  lemma {:induction false} RunOk(lib: Lib, w: World, evs: seq<Event>)
    requires Init(w)
    ensures WorldOk(Run(lib, w, evs)) && EffectsOk(Run(lib, w, evs))
  {
    hide WorldOk, Step, EffectsOk, Init;
    if evs == [] {
      InitOk(w);
    } else {
      RunOk(lib, w, evs[..|evs| - 1]);
      StepStable(lib, Run(lib, w, evs[..|evs| - 1]), evs[|evs| - 1]);
      StepEffects(lib, Run(lib, w, evs[..|evs| - 1]), evs[|evs| - 1]);
    }
  }

  /**
   * Write-ahead and stable choice, over every run with a reload at any point:
   * whenever a rule was saved, a ceiling pushed or a verdict published for an
   * ask, the stored row already held its choice; that choice was always the
   * same; and each verdict was that choice or a deny. It holds for every ask
   * whose row was neither evicted nor missed by a failed load.
   */
  lemma {:induction false} ChoiceIsWrittenAheadAndStable(lib: Lib, w: World, evs: seq<Event>, i: nat, j: nat)
    requires Init(w)
    ensures var r := Run(lib, w, evs);
      i < |r.effects| && j < |r.effects| && r.effects[i].id == r.effects[j].id && r.effects[i].id !in r.lost ==>
        var f, g := r.effects[i], r.effects[j];
        && f.durable.Some? && f.durable == g.durable
        && (f.call.Publish? ==> f.call.verdict.choice == f.durable.value || f.call.verdict.choice == Deny)
        && (f.call.Publish? && g.call.Publish? && f.call.verdict.choice != Deny && g.call.verdict.choice != Deny ==>
            f.call.verdict.choice == g.call.verdict.choice)
  {
    RunOk(lib, w, evs);
    var r := Run(lib, w, evs);
    hide Run, Init;
    if i < |r.effects| && j < |r.effects| { assert r.effects[i] in r.effects && r.effects[j] in r.effects; }
  }

  /** Recording pushes out at most the last entry, and only of a full row. */
  lemma EvictedWhenFull(row: seq<Entry>, e: Entry, id: AskId)
    requires RowOk(row) && EntryOk(e) && id in Dropped(row, Recorded(row, e))
    ensures |row| == HISTORY_MAX && row[HISTORY_MAX - 1].ask.id == id
  {
    hide RowOk, EntryOk, Dropped, Lookup, Without;
    var rest := Without(row, e.ask.id);
    DroppedWasThere(row, e, id);
    LookupCons(e, rest, id);
    WithoutSame(row, e.ask.id);
    if |rest| >= HISTORY_MAX {
      assert rest == row;
      assert Recorded(row, e) == [e] + row[..HISTORY_MAX - 1];
      LookupCons(e, row[..HISTORY_MAX - 1], id);
      assert row == row[..HISTORY_MAX - 1] + [row[HISTORY_MAX - 1]];
      LookupAppend(row[..HISTORY_MAX - 1], row[HISTORY_MAX - 1], id);
    }
  }

  lemma DroppedWasThere(row: seq<Entry>, e: Entry, id: AskId)
    requires RowOk(row) && EntryOk(e) && id in Dropped(row, Recorded(row, e))
    ensures |row| <= HISTORY_MAX && id != e.ask.id
    ensures Lookup(row, id).Some? && Lookup(Without(row, e.ask.id), id).Some? && Lookup(Recorded(row, e), id).None?
  {
    hide Without, Lookup, UniqueRow, EntryOk, Recorded;
    RecordedLookup(row, e);
    WithoutFacts(row, e.ask.id);
    forall f | f in row && f.ask.id == id ensures Lookup(row, id).Some? { LookupFound(row, id); }
  }

  lemma LookupCons(e: Entry, rest: seq<Entry>, id: AskId)
    ensures Lookup([e] + rest, id) == if e.ask.id == id then Some(e) else Lookup(rest, id)
  {
  }

  lemma {:induction false} WithoutSame(row: seq<Entry>, id: AskId)
    ensures |Without(row, id)| <= |row| && (|Without(row, id)| == |row| ==> Without(row, id) == row)
  {
    if row != [] { WithoutSame(row[1..], id); }
  }

  /** A fresh `always` is open to this ask: not at full control, and an app permission only bounded at full autonomy. */
  predicate AlwaysOpen(ask: Ask, stage: Stage, nowS: int) {
    stage != FullControl
    && (ask.scope == Some(APP_PERMISSION) ==> stage == FullAutonomy && PermissionGrant(ask, nowS).Some?)
  }

  /**
   * Where stability ends: a live ask whose unsent answer is in the stored row
   * can be answered differently after a reload exactly when the load fails (and
   * the other answer is one a fresh ask may get).
   */
  lemma OnlyAFailedLoadForgets(disk: seq<Entry>, ask: Ask, dep: DepId, other: Choice, nowMs: nat, o: Options, ok: bool,
                               serial: nat)
    requires RowOk(disk) && Lookup(disk, ask.id).Some? && !IsSent(Lookup(disk, ask.id).value)
    requires other != ChoiceOf(Lookup(disk, ask.id).value)
    requires Lookup(disk, ask.id).value.ask.expiresAt == ask.expiresAt && ask.expiresAt > Seconds(nowMs)
    requires o.unlocked && dep in o.children
    ensures var loaded := OnLoad(Emptied(serial), if ok then Some(disk) else None, Seconds(nowMs));
      var refusal := Refusal(OnAsk(loaded, dep, ask), ask.id, other, nowMs, o);
      && (ok ==> refusal == Some(AlreadyDecided))
      && (!ok ==> (refusal.None? <==> other != Always || AlwaysOpen(ask, o.children[dep].stage, Seconds(nowMs))))
  {
    hide UniqueRow, EntryOk, UnsentRows, SeenRows, PermissionGrant;
    assert Cap(disk) == disk;
    LoadedFacts(disk, Seconds(nowMs));
    var loaded := OnLoad(Emptied(serial), if ok then Some(disk) else None, Seconds(nowMs));
    assert CountFor([], dep) == 0;
    assert [] + [Pending(ask, dep, Marker(loaded, ask.id))] == [Pending(ask, dep, Marker(loaded, ask.id))];
  }

  /** The memory after a failed load, once this ask has arrived. */
  function Blank(dep: DepId, ask: Ask, serial: nat): Refs {
    Emptied(serial).(loaded := true, asks := [Pending(ask, dep, None)], seen := {ask.id})
  }

  lemma BlankIs(dep: DepId, ask: Ask, serial: nat, nowS: int)
    ensures OnAsk(OnLoad(Emptied(serial), None, nowS), dep, ask) == Blank(dep, ask, serial)
  {
    assert CountFor([], dep) == 0;
    assert [] + [Pending(ask, dep, None)] == [Pending(ask, dep, None)];
  }

  /** The one row queued by the first answer after a failed load. */
  lemma FirstAnswerRow(lib: Lib, dep: DepId, ask: Ask, serial: nat, choice: Choice, alwaysDeny: bool, nowMs: nat,
                       o: Options)
    requires Refusal(Blank(dep, ask, serial), ask.id, choice, nowMs, o).None?
    ensures var r := Tap(lib, Blank(dep, ask, serial), ask.id, choice, alwaysDeny, nowMs, o);
      |r.saves| == 1 && |r.saves[0].row| == 1 && r.saves[0].row[0].ask.id == ask.id
  {
    hide PermissionGrant, Work;
  }

  /**
   * A failed load costs the history: the first answer given after it is saved
   * as the whole of it, so once that save lands every other stored row is lost.
   */
  lemma TheFirstAnswerReplacesTheHistory(
    lib: Lib, w: World, dep: DepId, ask: Ask, choice: Choice, alwaysDeny: bool, nowMs: nat, o: Options)
    requires w.refs == Emptied(w.refs.serial)
    requires Refusal(Blank(dep, ask, w.refs.serial), ask.id, choice, nowMs, o).None?
    ensures var w1 := Step(lib, w, HistoryLoads(Seconds(nowMs), false));
      var w3 := Step(lib, Step(lib, w1, AskArrives(dep, ask)), Taps(ask.id, choice, alwaysDeny, nowMs, o));
      var disk := Step(lib, w3, SaveSettles(true)).disk;
      && |disk| == 1 && disk[0].ask.id == ask.id
      && forall x :: x != ask.id ==> Lookup(disk, x).None?
  {
    hide Tap, SaveSettled, NewEffects, AccountsAfter, CommittedAfter, Forgotten, Refusal;
    BlankIs(dep, ask, w.refs.serial, Seconds(nowMs));
    FirstAnswerRow(lib, dep, ask, w.refs.serial, choice, alwaysDeny, nowMs, o);
    var w1 := Step(lib, w, HistoryLoads(Seconds(nowMs), false));
    var w2 := Step(lib, w1, AskArrives(dep, ask));
    assert w2.refs == Blank(dep, ask, w.refs.serial);
    var w3 := Step(lib, w2, Taps(ask.id, choice, alwaysDeny, nowMs, o));
    var disk := Step(lib, w3, SaveSettles(true)).disk;
    assert disk == w3.refs.saves[0].row;
    assert disk[1..] == [];
  }
}
