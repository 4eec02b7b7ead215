/**
 * What a failed load of the history costs: over every run until the next
 * reload, the rows this unlock writes name only asks that arrived since.
 */
module ChildAskForget {
  import opened Wrappers
  import opened ChildAsks
  import opened ChildAskRows
  import opened ChildAskRun

  predicate Within(row: seq<Entry>, ids: set<AskId>) { forall e <- row :: e.ask.id in ids }

  predicate ListWithin(asks: seq<Pending>, ids: set<AskId>) { forall p <- asks :: p.ask.id in ids }

  predicate AttemptWithin(a: Attempt, ids: set<AskId>) { a.ask.id in ids && a.entry.ask.id in ids }

  /** Everything in memory that can reach a row is about these asks. */
  ghost predicate Only(r: Refs, ids: set<AskId>) {
    && r.loaded && Within(r.history, ids) && ListWithin(r.asks, ids)
    && (forall s <- r.saves :: Within(s.row, ids))
    && (forall id <- r.attempts :: AttemptWithin(r.attempts[id], ids))
    && (forall id <- r.unsent :: r.unsent[id].ask.id in ids)
  }

  // ---- Rows and lists ----

  lemma {:induction false} WithoutWithin(row: seq<Entry>, id: AskId, ids: set<AskId>)
    requires Within(row, ids)
    ensures Within(Without(row, id), ids)
  {
    if row != [] { WithoutWithin(row[1..], id, ids); }
  }

  lemma RecordedWithin(row: seq<Entry>, e: Entry, ids: set<AskId>)
    requires Within(row, ids) && e.ask.id in ids
    ensures Within(Recorded(row, e), ids)
  {
    WithoutWithin(row, e.ask.id, ids);
  }

  lemma {:induction false} UnlistWithin(asks: seq<Pending>, id: AskId, ids: set<AskId>)
    requires ListWithin(asks, ids)
    ensures ListWithin(Unlist(asks, id), ids)
  {
    if asks != [] { UnlistWithin(asks[1..], id, ids); }
  }

  lemma {:induction false} UnexpiredWithin(asks: seq<Pending>, nowS: int, ids: set<AskId>)
    requires ListWithin(asks, ids)
    ensures ListWithin(Unexpired(asks, nowS), ids)
  {
    if asks != [] { UnexpiredWithin(asks[1..], nowS, ids); }
  }

  lemma {:induction false} MarkUnsentWithin(asks: seq<Pending>, id: AskId, c: Choice, ids: set<AskId>)
    requires ListWithin(asks, ids)
    ensures ListWithin(MarkUnsent(asks, id, c), ids)
  {
    if asks != [] { MarkUnsentWithin(asks[1..], id, c, ids); }
  }

  // ---- Handlers ----

  lemma RecordOnly(r: Refs, e: Entry, waiter: Option<AskId>, ids: set<AskId>)
    requires Only(r, ids) && e.ask.id in ids
    ensures Only(Record(r, e, waiter), ids)
  {
    hide Recorded;
    RecordedWithin(r.history, e, ids);
  }

  /** Taking an ask off the list, and what was held for it. */
  lemma ClearedOnly(r: Refs, id: AskId, seen: set<AskId>, ids: set<AskId>)
    requires Only(r, ids)
    ensures Only(r.(seen := seen, unsent := r.unsent - {id}, asks := Unlist(r.asks, id)), ids)
  {
    hide Within;
    UnlistWithin(r.asks, id, ids);
  }

  lemma MarkAnsweredOnly(r: Refs, id: AskId, v: Verdict, ids: set<AskId>)
    requires Only(r, ids)
    ensures Only(MarkAnswered(r, id, v), ids)
  {
    hide Recorded, Unlist, Listed, Lookup, Record;
    ListedFound(r.asks, id);
    LookupFound(r.history, id);
    ClearedOnly(r, id, r.seen + {id}, ids);
    var pending, known := Listed(r.asks, id), Lookup(r.history, id);
    var r1 := r.(seen := r.seen + {id}, unsent := r.unsent - {id}, asks := Unlist(r.asks, id));
    if pending.Some? {
      RecordOnly(r1, Entry(Slim(pending.value.ask), v, Some(v.choice), Some(true), None), None, ids);
    } else if known.Some? {
      RecordOnly(r1, Entry(known.value.ask, v, Some(v.choice), Some(true), None), None, ids);
    }
  }

  lemma PutOnly(r: Refs, a: Attempt, ids: set<AskId>)
    requires Only(r, ids) && AttemptWithin(a, ids)
    ensures Only(Put(r, a), ids) && Only(End(r, a.ask.id), ids)
    ensures Only(Put(r.(unsent := r.unsent[a.ask.id := a.entry]), a), ids)
  {
  }

  lemma SaveOutcomeOnly(r: Refs, a: Attempt, ids: set<AskId>)
    requires Only(r, ids) && AttemptWithin(a, ids)
    ensures Only(SaveOutcome(r, a), ids)
  {
    hide Record, Only;
    var e := a.entry.(verdict := a.out, sent := Some(false),
                      reason := if a.reason.Some? then a.reason else a.entry.reason);
    PutOnly(r, a.(entry := e, pc := SavingOutcome), ids);
    RecordOnly(Put(r.(unsent := r.unsent[a.ask.id := e]), a.(entry := e, pc := SavingOutcome)), e, Some(a.ask.id), ids);
  }

  lemma WorkOnly(lib: Lib, r: Refs, a0: Attempt, ids: set<AskId>)
    requires Only(r, ids) && AttemptWithin(a0, ids)
    ensures Only(Work(lib, r, a0), ids)
  {
    hide Only, SaveOutcome, RuleFor, Put;
    var again := Reconsiders(a0);
    var out := if again then PlainVerdict(a0.ask.id, ChoiceOf(a0.entry), a0.entry.verdict.decidedAt)
               else a0.entry.verdict.(alsoOpened := None);
    var a := a0.(out := out, reason := if again then None else a0.entry.reason);
    SaveOutcomeOnly(r, a, ids);
    PutOnly(r, a.(pc := SavingDenyRule(RuleFor(lib, a, false))), ids);
    PutOnly(r, a.(pc := ListingRules), ids);
  }

  lemma ListsOnly(r: Refs, id: AskId, nowS: int, ids: set<AskId>)
    requires Only(r, ids)
    ensures Only(r.(asks := Unlist(r.asks, id)), ids) && Only(r.(asks := Unexpired(r.asks, nowS)), ids)
    ensures Only(r.(serial := r.serial + 1), ids)
  {
    hide Within, Unlist, Unexpired;
    UnlistWithin(r.asks, id, ids);
    UnexpiredWithin(r.asks, nowS, ids);
  }

  lemma NewAttemptWithin(r: Refs, id: AskId, choice: Choice, alwaysDeny: bool, nowMs: nat, o: Options, ids: set<AskId>)
    requires Only(r, ids) && Refusal(r, id, choice, nowMs, o).None?
    ensures AttemptWithin(NewAttempt(r, id, choice, alwaysDeny, nowMs, o), ids)
  {
    hide PermissionGrant, Within, Listed;
    ListedFound(r.asks, id);
  }

  lemma TapOnly(lib: Lib, r: Refs, ev: Event, ids: set<AskId>)
    requires Only(r, ids) && ev.Taps?
    ensures Only(Tap(lib, r, ev.id, ev.choice, ev.alwaysDeny, ev.nowMs, ev.options), ids)
  {
    hide Only, Work, Record, MarkAnswered, Unlist, Listed, Put, Refusal, NewAttempt;
    ListsOnly(r, ev.id, 0, ids);
    if Refusal(r, ev.id, ev.choice, ev.nowMs, ev.options).Some? {
      if ev.id in r.replied { MarkAnsweredOnly(r, ev.id, r.replied[ev.id], ids); }
    } else {
      NewAttemptWithin(r, ev.id, ev.choice, ev.alwaysDeny, ev.nowMs, ev.options, ids);
      var a := NewAttempt(r, ev.id, ev.choice, ev.alwaysDeny, ev.nowMs, ev.options);
      var r1 := r.(serial := r.serial + 1);
      WorkOnly(lib, r1, a, ids);
      PutOnly(r1, a, ids);
      RecordOnly(Put(r1, a), a.entry, Some(ev.id), ids);
    }
  }

  lemma OnAskOnly(r: Refs, dep: DepId, ask: Ask, ids: set<AskId>)
    requires Only(r, ids) && ask.id in ids
    ensures Only(OnAsk(r, dep, ask), ids)
  {
    hide CountFor, Record, Within;
    if ask.id in r.replied {
      var v := r.replied[ask.id];
      RecordOnly(r.(seen := r.seen + {ask.id}, unsent := r.unsent - {ask.id}),
                 Entry(Slim(ask), v, Some(v.choice), Some(true), None), None, ids);
    }
  }

  lemma OnReplyOnly(r: Refs, v: Verdict, ids: set<AskId>)
    requires Only(r, ids)
    ensures Only(OnReply(r, v), ids)
  {
    hide Lookup, MarkAnswered, Within;
    MarkAnsweredOnly(r.(replied := r.replied[v.id := v]), v.id, v, ids);
  }

  lemma LoadedOnly(r: Refs, ids: set<AskId>)
    requires Only(r, ids)
    ensures r.loaded
  {
  }

  lemma ArrivalsOnly(lib: Lib, w: World, ev: Event, ids: set<AskId>)
    requires Only(w.refs, ids) && (ev.AskArrives? || ev.ReplyArrives? || ev.ExpiryFires? || ev.HistoryLoads?)
    ensures Only(RefsAfter(lib, w, ev), ids + Arrived([ev]))
  {
    hide Only, OnAsk, OnReply, Unexpired;
    var r, more := w.refs, ids + Arrived([ev]);
    OnlyMore(r, ids, more);
    LoadedOnly(r, ids);
    if ev.AskArrives? {
      assert ev in [ev];
      OnAskOnly(r, ev.dep, ev.ask, more);
    } else if ev.ReplyArrives? {
      OnReplyOnly(r, ev.verdict, more);
    } else if ev.ExpiryFires? {
      ListsOnly(r, "", ev.nowS, more);
    }
  }

  lemma PoppedOnly(r: Refs, id: AskId, ids: set<AskId>)
    requires Only(r, ids) && r.saves != [] && id in r.attempts
    ensures var r1 := r.(saves := r.saves[1..]); var a := r.attempts[id];
      && Only(r1, ids) && AttemptWithin(a, ids)
      && Only(r1.(history := Without(r1.history, a.ask.id)), ids)
      && Only(r1.(unsent := r1.unsent[a.ask.id := a.entry], asks := MarkUnsent(r1.asks, a.ask.id, ChoiceOf(a.entry))),
              ids)
  {
    hide Without, MarkUnsent;
    var a := r.attempts[id];
    MarkUnsentWithin(r.asks, a.ask.id, ChoiceOf(a.entry), ids);
    WithoutWithin(r.history, a.ask.id, ids);
  }

  lemma PopOnly(r: Refs, ids: set<AskId>)
    requires Only(r, ids) && r.saves != []
    ensures Only(r.(saves := r.saves[1..]), ids)
  {
  }

  lemma SaveOnly(lib: Lib, r: Refs, ok: bool, ids: set<AskId>)
    requires Only(r, ids)
    ensures Only(SaveSettled(lib, r, ok), ids)
  {
    hide Only, Work, MarkAnswered, Without, MarkUnsent, Put, End;
    if r.saves != [] {
      PopOnly(r, ids);
      if r.saves[0].waiter.Some? && r.saves[0].waiter.value in r.attempts {
        var a := r.attempts[r.saves[0].waiter.value];
        var r1 := r.(saves := r.saves[1..]);
        PoppedOnly(r, r.saves[0].waiter.value, ids);
        WorkOnly(
          lib, r1.(unsent := r1.unsent[a.ask.id := a.entry], asks := MarkUnsent(r1.asks, a.ask.id, ChoiceOf(a.entry))),
          a, ids);
        PutOnly(r1, a, ids);
        PutOnly(r1.(history := Without(r1.history, a.ask.id)), a, ids);
        PutOnly(r1, a.(pc := Building), ids);
        if a.ask.id in r.replied {
          PutOnly(r1, a.(pc := GivingBack(Some(r.replied[a.ask.id]))), ids);
          MarkAnsweredOnly(r1, a.ask.id, r.replied[a.ask.id], ids);
          PutOnly(MarkAnswered(r1, a.ask.id, r.replied[a.ask.id]), a, ids);
        }
      }
    }
  }

  lemma RulesOnly(lib: Lib, r: Refs, a: Attempt, rules: Option<seq<Rule>>, ids: set<AskId>)
    requires Only(r, ids) && AttemptWithin(a, ids)
    ensures Only(RulesListed(lib, r, a, rules), ids)
  {
    hide Only, SaveOutcome, WideningFits, AlwaysWidening, OnceWidening, RuleFor, Put, End;
    PutOnly(r, a, ids);
    SaveOutcomeOnly(r, a, ids);
    SaveOutcomeOnly(r, Refuse(a, Paused, None), ids);
    SaveOutcomeOnly(r, Refuse(a, CeilingFull, None), ids);
    if rules.Some? {
      var w := AlwaysWidening(lib, a, rules.value);
      PutOnly(r, a.(pc := SavingAllowRule(RuleFor(lib, a, true), w)), ids);
      PutOnly(r, a.(pc := Pushing(OnceWidening(a, rules.value))), ids);
    }
  }

  lemma RuleOnly(r: Refs, a: Attempt, ok: bool, ids: set<AskId>)
    requires Only(r, ids) && AttemptWithin(a, ids)
    ensures a.pc.SavingDenyRule? ==> Only(DenyRuleSaved(r, a, ok), ids)
    ensures a.pc.SavingAllowRule? ==> Only(AllowRuleSaved(r, a, ok), ids)
    ensures a.pc.Pushing? ==> Only(PushSettled(r, a, ok), ids)
  {
    hide Only, SaveOutcome, Put, End;
    PutOnly(r, a, ids);
    if a.pc.SavingDenyRule? {
      SaveOutcomeOnly(r, a.(out := if ok then a.out.(ruleId := Some(a.pc.denyRule.id))
                                   else a.out.(alwaysDeny := false)), ids);
    } else if a.pc.SavingAllowRule? {
      var a1 := a.(out := a.out.(ruleId := Some(a.pc.allowRule.id)));
      SaveOutcomeOnly(r, a1, ids);
      PutOnly(r, a1.(pc := Pushing(a.pc.widening)), ids);
    } else if a.pc.Pushing? {
      SaveOutcomeOnly(r, Refuse(a, DeviceUnreachable, Some(Unreachable)), ids);
      SaveOutcomeOnly(
        r, a.(added := a.pc.pushed.extra, out := a.out.(alsoOpened := AlsoOpened(a, a.pc.pushed))), ids);
    }
  }

  lemma TailOnly(r: Refs, a: Attempt, ok: bool, ids: set<AskId>)
    requires Only(r, ids) && AttemptWithin(a, ids)
    ensures Only(VerdictBuilt(r, a, ok), ids) && Only(PublishSettled(r, a, ok), ids)
    ensures a.pc.GivingBack? ==> Only(GaveBack(r, a), ids)
  {
    hide Only, Record, Unlist, MarkAnswered, Put, End;
    PutOnly(r, a, ids);
    PutOnly(r, a.(pc := Publishing), ids);
    PutOnly(r, a.(pc := GivingBack(None)), ids);
    SentOnly(r, a, ids);
    if a.pc.GivingBack? && a.pc.answered.Some? { MarkAnsweredOnly(r, a.ask.id, a.pc.answered.value, ids); }
    if a.pc.GivingBack? {
      PutOnly(if a.pc.answered.Some? then MarkAnswered(r, a.ask.id, a.pc.answered.value) else r, a, ids);
    }
  }

  lemma SentOnly(r: Refs, a: Attempt, ids: set<AskId>)
    requires Only(r, ids) && AttemptWithin(a, ids)
    ensures var r1 := r.(unsent := r.unsent - {a.ask.id}, asks := Unlist(r.asks, a.ask.id));
      Only(Record(Put(r1, a.(pc := SavingSent)), a.entry.(sent := Some(true)), Some(a.ask.id)), ids)
  {
    hide Only, Record, Unlist, Put;
    var id := a.ask.id;
    ClearedOnly(r, id, r.seen, ids);
    var r1 := r.(unsent := r.unsent - {id}, asks := Unlist(r.asks, id));
    PutOnly(r1, a.(pc := SavingSent), ids);
    RecordOnly(Put(r1, a.(pc := SavingSent)), a.entry.(sent := Some(true)), Some(id), ids);
  }

  // ---- Every run ----

  /** The asks these events bring in. */
  function Arrived(evs: seq<Event>): set<AskId> { set ev | ev in evs && ev.AskArrives? :: ev.ask.id }

  lemma StepOnly(lib: Lib, w: World, ev: Event, ids: set<AskId>)
    requires Only(w.refs, ids) && !ev.Reload?
    ensures Only(RefsAfter(lib, w, ev), ids + Arrived([ev]))
  {
    hide Only, Arrived, Tap, SaveSettled, DenyRuleSaved, AllowRuleSaved, PushSettled, RulesListed, VerdictBuilt,
      PublishSettled, GaveBack, OnAsk, OnReply, OnExpiry, OnLoad;
    var r := w.refs;
    if ev.AskArrives? || ev.ReplyArrives? || ev.ExpiryFires? || ev.HistoryLoads? {
      ArrivalsOnly(lib, w, ev, ids);
    } else {
      if ev.Taps? {
        TapOnly(lib, r, ev, ids);
      } else if ev.SaveSettles? {
        SaveOnly(lib, r, ev.ok, ids);
      } else if ev.id in r.attempts {
        AttemptOnly(r, ev.id, ids);
        if ev.RulesRead? {
          RulesOnly(lib, r, r.attempts[ev.id], ev.rules, ids);
        } else {
          RuleOnly(r, r.attempts[ev.id], ev.ok, ids);
          TailOnly(r, r.attempts[ev.id], ev.ok, ids);
        }
      }
      OnlyMore(RefsAfter(lib, w, ev), ids, ids + Arrived([ev]));
    }
  }

  lemma AttemptOnly(r: Refs, id: AskId, ids: set<AskId>)
    requires Only(r, ids) && id in r.attempts
    ensures AttemptWithin(r.attempts[id], ids)
  {
  }

  lemma OnlyMore(r: Refs, ids: set<AskId>, more: set<AskId>)
    requires Only(r, ids) && ids <= more
    ensures Only(r, more)
  {
  }

  lemma LandedOnly(w: World, ev: Event, ids: set<AskId>)
    requires Only(w.refs, ids)
    ensures DiskAfter(w, ev) == w.disk || Within(DiskAfter(w, ev), ids)
  {
  }

  /**
   * What a failed load costs, over every run until the next reload: every row
   * queued to be saved names only asks that arrived since. So the stored row is
   * the old one until the first save lands, and from then on whatever it held
   * about any other ask is lost.
   */
  lemma {:induction false} AFailedLoadLosesTheHistory(lib: Lib, w: World, evs: seq<Event>)
    requires w.refs == OnLoad(Emptied(w.refs.serial), None, 0) && forall ev <- evs :: !ev.Reload?
    ensures var r := Run(lib, w, evs);
      && Only(r.refs, Arrived(evs))
      && (forall s <- r.refs.saves :: Within(s.row, Arrived(evs)))
      && (r.disk == w.disk || Within(r.disk, Arrived(evs)))
  {
    if evs != [] {
      hide Step, RefsAfter, DiskAfter, Only, Within, Arrived;
      var init, ev := evs[..|evs| - 1], evs[|evs| - 1];
      AFailedLoadLosesTheHistory(lib, w, init);
      var before := Run(lib, w, init);
      assert Run(lib, w, evs) == Step(lib, before, ev);
      StepIs(lib, before, ev);
      StepOnly(lib, before, ev, Arrived(init));
      LandedOnly(before, ev, Arrived(init));
      assert evs == init + [ev];
      ArrivedSplits(init, ev);
      RowsOnly(RefsAfter(lib, before, ev), Arrived(evs));
      WithinMore(DiskAfter(before, ev), Arrived(init), Arrived(evs));
    } else {
      hide Step;
    }
  }

  lemma ArrivedSplits(init: seq<Event>, ev: Event)
    ensures Arrived(init + [ev]) == Arrived(init) + Arrived([ev])
  {
  }

  lemma RowsOnly(r: Refs, ids: set<AskId>)
    requires Only(r, ids)
    ensures forall s <- r.saves :: Within(s.row, ids)
  {
  }

  lemma WithinMore(row: seq<Entry>, ids: set<AskId>, more: set<AskId>)
    requires ids <= more
    ensures Within(row, ids) ==> Within(row, more)
  {
  }

  lemma StepIs(lib: Lib, w: World, ev: Event)
    ensures Step(lib, w, ev).refs == RefsAfter(lib, w, ev) && Step(lib, w, ev).disk == DiskAfter(w, ev)
  {
    hide RefsAfter, DiskAfter;
  }
}
