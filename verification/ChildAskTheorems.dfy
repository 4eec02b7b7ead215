/** What holds of the inbox over every run, with reloads and failures at any await. */
module ChildAskTheorems {
  import opened Wrappers
  import opened ChildAsks
  import opened ChildAskRows
  import opened ChildAskRefs
  import opened ChildAskRun
  import opened ChildAskStable
  import opened ChildAskChoice
  import opened ChildAskAccounts

  // ---- Once done, always done (within one unlock) ----

  /** Seen and off the list. */
  predicate OffList(r: Refs, id: AskId) { id in r.seen && Listed(r.asks, id).None? }

  lemma MarkAnsweredLists(r: Refs, x: AskId, v: Verdict)
    requires UniqueList(r.asks)
    ensures var r' := MarkAnswered(r, x, v); r'.seen >= r.seen && r'.unsent.Keys <= r.unsent.Keys
    ensures forall id :: Listed(r.asks, id).None? ==> Listed(MarkAnswered(r, x, v).asks, id).None?
  {
    hide Recorded, Lookup;
    UnlistFacts(r.asks, x);
  }

  /** No event but a reload lists an ask again, and only a listed ask gets a held answer or an attempt. */
  lemma StepLists(lib: Lib, w: World, ev: Event)
    requires RefsOk(w.refs) && w.refs.loaded && !ev.Reload?
    ensures var r, r' := w.refs, RefsAfter(lib, w, ev);
      && r'.loaded && r'.seen >= r.seen
      && (forall id :: OffList(r, id) ==> OffList(r', id))
  {
    hide Recorded, Lookup, MarkAnswered, Work, RulesListed, SaveOutcome, RefsOk, UniqueList, EntryHolds;
    var r := w.refs;
    RefsGive(r);
    forall x: AskId, v: Verdict ensures MarkAnswered(r, x, v).loaded { MarkAnsweredLoaded(r, x, v); }
    if ev.AskArrives? {
      AskLists(r, ev.dep, ev.ask);
    } else if ev.ReplyArrives? {
      var r1 := r.(replied := r.replied[ev.verdict.id := ev.verdict]);
      MarkAnsweredLists(r1, ev.verdict.id, ev.verdict);
      MarkAnsweredLoaded(r1, ev.verdict.id, ev.verdict);
    } else if ev.ExpiryFires? {
      ExpiryLists(r, ev.nowS);
    } else if ev.Taps? {
      TapLists(lib, r, ev);
    } else if ev.SaveSettles? {
      SaveLists(lib, r, ev.ok);
    } else if SettlesCall(ev) && Subject(r, ev).value in r.attempts {
      CallLists(lib, w, ev);
    }
  }

  lemma RefsGive(r: Refs)
    requires RefsOk(r)
    ensures UniqueList(r.asks)
  {
  }

  lemma MarkAnsweredLoaded(r: Refs, x: AskId, v: Verdict)
    ensures MarkAnswered(r, x, v).loaded == r.loaded
  {
  }

  lemma AskLists(r: Refs, dep: DepId, ask: Ask)
    requires UniqueList(r.asks) && RefsOk(r) && r.loaded
    ensures var r' := OnAsk(r, dep, ask);
      r'.loaded && r'.seen >= r.seen && forall id :: OffList(r, id) ==> OffList(r', id)
  {
    hide Recorded, Lookup, EntryHolds, UniqueList;
    if ask.id !in r.seen { AppendFacts(r.asks, Pending(ask, dep, Marker(r, ask.id))); }
  }

  lemma SaveOutcomeLists(r: Refs, a: Attempt)
    ensures var r' := SaveOutcome(r, a); r'.loaded == r.loaded && r'.seen == r.seen && r'.asks == r.asks
  {
  }

  lemma WorkLists(lib: Lib, r: Refs, a: Attempt)
    ensures var r' := Work(lib, r, a); r'.loaded == r.loaded && r'.seen == r.seen && r'.asks == r.asks
  {
  }

  lemma TapLists(lib: Lib, r: Refs, ev: Event)
    requires ev.Taps? && UniqueList(r.asks) && r.loaded
    ensures var r' := Tap(lib, r, ev.id, ev.choice, ev.alwaysDeny, ev.nowMs, ev.options);
      r'.loaded && r'.seen >= r.seen && forall id :: OffList(r, id) ==> OffList(r', id)
  {
    hide Recorded, Work, MarkAnswered, UniqueList;
    if Refusal(r, ev.id, ev.choice, ev.nowMs, ev.options).Some? {
      UnlistFacts(r.asks, ev.id);
      if ev.id in r.replied {
        MarkAnsweredLists(r, ev.id, r.replied[ev.id]);
        MarkAnsweredLoaded(r, ev.id, r.replied[ev.id]);
      }
    } else {
      WorkLists(lib, r.(serial := r.serial + 1), NewAttempt(r, ev.id, ev.choice, ev.alwaysDeny, ev.nowMs, ev.options));
    }
  }

  lemma SaveLists(lib: Lib, r: Refs, ok: bool)
    requires UniqueList(r.asks) && r.loaded
    ensures var r' := SaveSettled(lib, r, ok);
      r'.loaded && r'.seen >= r.seen && forall id :: OffList(r, id) ==> OffList(r', id)
  {
    hide Recorded, Work, MarkAnswered, UniqueList, MarkUnsent, Without;
    if r.saves != [] && r.saves[0].waiter.Some? && r.saves[0].waiter.value in r.attempts {
      var r1 := Popped(r);
      var id := r.saves[0].waiter.value;
      var a := r.attempts[id];
      MarkUnsentListed(r.asks, a.ask.id, ChoiceOf(a.entry));
      WorkLists(lib, r1.(unsent := r1.unsent[a.ask.id := a.entry],
                         asks := MarkUnsent(r1.asks, a.ask.id, ChoiceOf(a.entry))), a);
      if a.ask.id in r1.replied {
        MarkAnsweredLists(r1, a.ask.id, r1.replied[a.ask.id]);
        MarkAnsweredLoaded(r1, a.ask.id, r1.replied[a.ask.id]);
      }
    }
  }

  lemma RulesLists(lib: Lib, r: Refs, a: Attempt, rules: Option<seq<Rule>>)
    ensures SameLists(r, RulesListed(lib, r, a, rules))
  {
    hide SaveOutcome, WideningFits, AlwaysWidening, OnceWidening, RuleFor;
    SaveOutcomeLists(r, a);
    SaveOutcomeLists(r, Refuse(a, Paused, None));
    SaveOutcomeLists(r, Refuse(a, CeilingFull, None));
  }

  lemma RuleLists(r: Refs, a: Attempt, ok: bool)
    ensures a.pc.SavingDenyRule? ==> SameLists(r, DenyRuleSaved(r, a, ok))
    ensures a.pc.SavingAllowRule? ==> SameLists(r, AllowRuleSaved(r, a, ok))
    ensures a.pc.Pushing? ==> SameLists(r, PushSettled(r, a, ok))
  {
  }

  predicate SameLists(r: Refs, r': Refs) { r'.loaded == r.loaded && r'.seen == r.seen && r'.asks == r.asks }

  lemma NotSentLists(r: Refs, a: Attempt, ok: bool)
    ensures SameLists(r, NotSent(r, a)) && SameLists(r, VerdictBuilt(r, a, ok))
  {
  }

  lemma PublishedLists(r: Refs, a: Attempt, ok: bool)
    requires UniqueList(r.asks)
    ensures var r' := PublishSettled(r, a, ok);
      r'.loaded == r.loaded && r'.seen == r.seen && forall id :: Listed(r.asks, id).None? ==> Listed(r'.asks, id).None?
  {
    hide Recorded, UniqueList, NotSent, Unlist, Listed;
    UnlistFacts(r.asks, a.ask.id);
    NotSentLists(r, a, ok);
  }

  lemma GaveBackLists(r: Refs, a: Attempt)
    requires UniqueList(r.asks) && a.pc.GivingBack?
    ensures var r' := GaveBack(r, a);
      r'.loaded == r.loaded && r'.seen >= r.seen && forall id :: Listed(r.asks, id).None? ==> Listed(r'.asks, id).None?
  {
    hide MarkAnswered, UniqueList, Listed;
    if a.pc.answered.Some? {
      MarkAnsweredLists(r, a.ask.id, a.pc.answered.value);
      MarkAnsweredLoaded(r, a.ask.id, a.pc.answered.value);
    }
  }

  lemma TailLists(r: Refs, a: Attempt, ok: bool)
    requires UniqueList(r.asks)
    ensures SameLists(r, NotSent(r, a)) && SameLists(r, VerdictBuilt(r, a, ok))
    ensures PublishSettled(r, a, ok).loaded == r.loaded && PublishSettled(r, a, ok).seen == r.seen
    ensures forall id :: OffList(r, id) ==> OffList(PublishSettled(r, a, ok), id)
    ensures a.pc.GivingBack? ==> GaveBack(r, a).loaded == r.loaded && GaveBack(r, a).seen >= r.seen
    ensures a.pc.GivingBack? ==> forall id :: OffList(r, id) ==> OffList(GaveBack(r, a), id)
  {
    hide UniqueList, NotSent, VerdictBuilt, PublishSettled, GaveBack, Listed;
    NotSentLists(r, a, ok);
    PublishedLists(r, a, ok);
    if a.pc.GivingBack? { GaveBackLists(r, a); }
  }

  lemma CallLists(lib: Lib, w: World, ev: Event)
    requires UniqueList(w.refs.asks) && w.refs.loaded && SettlesCall(ev) && Subject(w.refs, ev).value in w.refs.attempts
    ensures var r, r' := w.refs, RefsAfter(lib, w, ev);
      r'.loaded && r'.seen >= r.seen && forall id :: OffList(r, id) ==> OffList(r', id)
  {
    hide DenyRuleSaved, AllowRuleSaved, PushSettled, RulesListed, VerdictBuilt, PublishSettled, GaveBack, UniqueList;
    var r := w.refs;
    var a := r.attempts[Subject(r, ev).value];
    if ev.RulesRead? {
      RulesLists(lib, r, a, ev.rules);
    } else {
      RuleLists(r, a, ev.ok);
      TailLists(r, a, ev.ok);
    }
  }

  // ---- At most one acknowledged answer ----

  /** Acknowledged asks are off the list, not in progress past their publish, and acknowledged once. */
  ghost predicate AcksOk(w: World) {
    && (!w.refs.loaded ==> w.acks == [])
    && (forall id <- w.acks :: OffList(w.refs, id) && (id in w.refs.attempts ==> w.refs.attempts[id].pc.SavingSent?))
    && (forall i, j :: 0 <= i < j < |w.acks| ==> w.acks[i] != w.acks[j])
  }

  /** Only a listed ask gets an attempt, and an attempt past its publish only ends. */
  lemma AttemptsOnlyOfListed(lib: Lib, w: World, ev: Event, id: AskId)
    requires RefsOk(w.refs) && OffList(w.refs, id)
    requires id in w.refs.attempts ==> w.refs.attempts[id].pc.SavingSent?
    ensures var r' := RefsAfter(lib, w, ev);
      id in r'.attempts ==> id in w.refs.attempts && r'.attempts[id].pc.SavingSent?
  {
    hide RefsOk, RefsAfter, Tap, SaveSettled, Left, OffList;
    var r, r' := w.refs, RefsAfter(lib, w, ev);
    InProgress(r);
    AfterIs(lib, w, ev);
    if ev.Taps? {
      TapOnlyListed(lib, r, ev, id);
    } else if ev.SaveSettles? {
      SaveOnlyEnds(lib, r, ev.ok, id);
    } else if SettlesCall(ev) {
      CallOnlyEnds(lib, w, ev, id);
    } else if !ev.Reload? {
      Untouched(lib, w, ev);
    }
  }

  lemma CallOnlyEnds(lib: Lib, w: World, ev: Event, id: AskId)
    requires RefsOk(w.refs) && SettlesCall(ev)
    requires id in w.refs.attempts ==> w.refs.attempts[id].pc.SavingSent?
    ensures var r' := RefsAfter(lib, w, ev);
      id in r'.attempts ==> id in w.refs.attempts && r'.attempts[id].pc.SavingSent?
  {
    hide RefsOk, RefsAfter, Left;
    var r := w.refs;
    var x := Subject(r, ev).value;
    InProgress(r);
    if x == id && id in r.attempts { SavingStays(lib, w, ev, id); }
    else if x in r.attempts { CallLeaves(lib, w, ev, x); }
    else { NoSubject(lib, w, ev); }
  }

  lemma AfterIs(lib: Lib, w: World, ev: Event)
    ensures ev.Taps? ==>
      RefsAfter(lib, w, ev) == Tap(lib, w.refs, ev.id, ev.choice, ev.alwaysDeny, ev.nowMs, ev.options)
    ensures ev.SaveSettles? ==> RefsAfter(lib, w, ev) == SaveSettled(lib, w.refs, ev.ok)
    ensures ev.Reload? ==> RefsAfter(lib, w, ev) == Emptied(w.refs.serial)
  {
  }

  lemma NoSubject(lib: Lib, w: World, ev: Event)
    requires SettlesCall(ev) && Subject(w.refs, ev).value !in w.refs.attempts
    ensures RefsAfter(lib, w, ev) == w.refs
  {
  }

  lemma TapOnlyListed(lib: Lib, r: Refs, ev: Event, id: AskId)
    requires RefsOk(r) && ev.Taps? && OffList(r, id)
    ensures var r' := Tap(lib, r, ev.id, ev.choice, ev.alwaysDeny, ev.nowMs, ev.options);
      if id in r.attempts then id in r'.attempts && r'.attempts[id] == r.attempts[id] else id !in r'.attempts
  {
    hide RefsOk, InFlight, Work, Recorded, MarkAnswered;
    TapOpens(lib, r, ev.id, ev.choice, ev.alwaysDeny, ev.nowMs, ev.options);
    if ev.id == id { assert Refusal(r, id, ev.choice, ev.nowMs, ev.options).Some?; }
  }

  lemma SaveOnlyEnds(lib: Lib, r: Refs, ok: bool, id: AskId)
    requires RefsOk(r) && (id in r.attempts ==> r.attempts[id].pc.SavingSent?)
    ensures var r' := SaveSettled(lib, r, ok); id in r'.attempts ==> id in r.attempts && r'.attempts[id].pc.SavingSent?
  {
    hide RefsOk, WorkOn, SaveSettled;
    InProgress(r);
    if r.saves == [] || r.saves[0].waiter.None? {
      NobodyResumes(lib, r, ok);
    } else {
      PoppedWaiter(r);
      SaveLeaves(lib, r, r.saves[0].waiter.value, ok);
    }
  }

  lemma NobodyResumes(lib: Lib, r: Refs, ok: bool)
    requires r.saves == [] || r.saves[0].waiter.None?
    ensures SaveSettled(lib, r, ok).attempts == r.attempts
  {
  }

  lemma AckedIsOff(r: Refs, a: Attempt)
    requires RefsOk(r) && a.ask.id in r.attempts && r.attempts[a.ask.id] == a && a.pc.Publishing?
    ensures var r' := PublishSettled(r, a, true); OffList(r', a.ask.id) && r'.attempts[a.ask.id].pc.SavingSent?
  {
    hide Recorded, EntryHolds, Lookup;
    assert AttemptOk(r, a.ask.id);
    UnlistFacts(r.asks, a.ask.id);
  }

  lemma StepAcks(lib: Lib, w: World, ev: Event)
    requires WorldOk(w) && AcksOk(w)
    ensures AcksOk(Step(lib, w, ev))
  {
    hide RefsOk, Stable, RowOk, RefsAfter, OffList, NewEffects, AccountsAfter, CommittedAfter, Forgotten, DiskAfter;
    var r, w' := w.refs, Step(lib, w, ev);
    InProgress(r);
    if !ev.Reload? && r.loaded {
      StepLists(lib, w, ev);
      forall id | id in w.acks ensures id in w'.refs.attempts ==> w'.refs.attempts[id].pc.SavingSent? {
        AttemptsOnlyOfListed(lib, w, ev, id);
      }
      if w'.acks != w.acks {
        AckedIsOff(r, r.attempts[ev.id]);
        PublishIs(lib, w, ev);
      }
    } else if !r.loaded {
      assert w'.acks == [];
    }
  }

  lemma PublishIs(lib: Lib, w: World, ev: Event)
    requires ev.PublishSettles? && ev.ok && ev.id in w.refs.attempts && w.refs.attempts[ev.id].pc.Publishing?
    ensures RefsAfter(lib, w, ev) == PublishSettled(w.refs, w.refs.attempts[ev.id], true)
  {
  }

  // ---- The run theorems ----

  ghost predicate Sound(lib: Lib, w: World) {
    WorldOk(w) && EffectsOk(w) && AccountsOk(lib, w.refs, w.accounts) && AcksOk(w)
  }

  lemma {:induction false} RunSound(lib: Lib, w: World, evs: seq<Event>)
    requires Init(w)
    ensures Sound(lib, Run(lib, w, evs))
  {
    hide WorldOk, Step, EffectsOk, AccountsOk, AcksOk;
    if evs == [] {
      InitSound(lib, w);
    } else {
      var before, ev := Run(lib, w, evs[..|evs| - 1]), evs[|evs| - 1];
      RunSound(lib, w, evs[..|evs| - 1]);
      StepSound(lib, before, ev);
    }
  }

  lemma InitSound(lib: Lib, w: World)
    requires Init(w)
    ensures Sound(lib, w)
  {
  }

  lemma StepSound(lib: Lib, w: World, ev: Event)
    requires Sound(lib, w)
    ensures Sound(lib, Step(lib, w, ev))
  {
    hide Stable, RefsOk, RowOk, Step, EffectsOk, AccountsOk, AcksOk;
    StepStable(lib, w, ev);
    StepEffects(lib, w, ev);
    StepAccounts(lib, w, ev);
    StepAcks(lib, w, ev);
  }

  /**
   * An approval on the wire is backed by the device: a published `once` or
   * `always` of a signature ask went out after a push that succeeded in the
   * same attempt, for a child who was not paused, whose ceiling then listed the
   * ask's kind and every kind it listed before. Every other verdict on the wire
   * is a deny, on a "Send again" as on a first answer. `alsoOpened` names the
   * seal exactly when that push opened it besides the ask's own kind.
   */
  lemma {:induction false} ApprovalIsBackedByTheDevice(lib: Lib, w: World, evs: seq<Event>, n: nat)
    requires Init(w) && n in Run(lib, w, evs).accounts && Run(lib, w, evs).accounts[n].sent.Some?
    ensures var acc := Run(lib, w, evs).accounts[n]; var v := acc.sent.value;
      && (v.choice != Deny && acc.ask.via == SignEvent ==>
          acc.pushed.Some?
          && var p := acc.pushed.value;
             var now := CeilingFor(lib, p.dep, p.before, p.once, p.nowS);
             var wide := CeilingFor(lib, p.dep, p.after, p.once + p.extra, p.nowS);
             !p.dep.paused && Lists(wide, acc.ask.kind)
             && (forall e <- p.extra :: Lists(wide, e.kind)) && (forall k :: Lists(now, k) ==> Lists(wide, k)))
      && (v.alsoOpened == Some([SEAL_KIND]) <==>
          acc.pushed.Some? && OpensSeal(acc.pushed.value) && (v.choice == Always || acc.ask.kind != SEAL_KIND))
      && (v.alsoOpened.Some? ==> v.alsoOpened == Some([SEAL_KIND]))
  {
    RunSound(lib, w, evs);
    hide Run, Init, WorldOk, EffectsOk, AcksOk, Balanced, InFlight;
    var acc := Run(lib, w, evs).accounts[n];
    assert SentOk(lib, acc);
  }

  /** And the push came first: an answer about to publish has it in its account already. */
  lemma {:induction false} PushComesBeforePublish(lib: Lib, w: World, evs: seq<Event>, id: AskId)
    requires Init(w)
    ensures var r := Run(lib, w, evs);
      id in r.refs.attempts && r.refs.attempts[id].pc.Building? ==>
        var a := r.refs.attempts[id];
        && a.serial in r.accounts && r.accounts[a.serial].sent.None?
        && (a.out.choice != Deny && a.ask.via == SignEvent ==>
            r.accounts[a.serial].pushed.Some? && Backs(lib, a.ask, r.accounts[a.serial].pushed.value))
  {
    RunSound(lib, w, evs);
    hide Run, Init, WorldOk, EffectsOk, AcksOk, Balanced, SentOk, Backs;
    var r := Run(lib, w, evs);
    if id in r.refs.attempts { assert InFlight(lib, r.accounts[r.refs.attempts[id].serial], r.refs.attempts[id]); }
  }

  /**
   * A rule is saved only for the choice that is held: an allow only for an
   * `always`, a deny only for a deny, each for exactly the ask's persona, scope
   * and target, and with a bounded permission only on an allow.
   */
  lemma {:induction false} SavedRulesMatchTheAsk(lib: Lib, w: World, evs: seq<Event>, id: AskId)
    requires Init(w)
    ensures var r := Run(lib, w, evs).refs;
      id in r.attempts && (r.attempts[id].pc.SavingAllowRule? || r.attempts[id].pc.SavingDenyRule?) ==>
        var a := r.attempts[id];
        var rule := if a.pc.SavingAllowRule? then a.pc.allowRule else a.pc.denyRule;
        && (rule.allow <==> a.out.choice == Always) && (rule.allow ==> ChoiceOf(a.entry) == Always)
        && (!rule.allow ==> a.out.choice == Deny && rule.permission.None?)
        && rule.dep == a.dep && rule.persona == a.ask.persona && rule.target == a.ask.target
        && rule.scope == ScopeOf(a.ask)
        && rule.id == lib.ruleId(a.dep, a.ask.persona, ScopeOf(a.ask), a.ask.target)
  {
    RunSound(lib, w, evs);
    hide Run, Init, EffectsOk, AcksOk, Balanced, SentOk, Stable, Honest, Ready, EntryHolds;
    var r := Run(lib, w, evs);
    if id in r.refs.attempts {
      assert InFlight(lib, r.accounts[r.refs.attempts[id].serial], r.refs.attempts[id]);
      assert AttemptOk(r.refs, id);
    }
  }

  /**
   * Conservation of approved-once entries: an attempt that is over holds in the
   * ledger exactly the entries its push placed if the relay took its verdict,
   * and none otherwise. The exceptions are exactly the attempts with no
   * `dropOnce`, a `dropOnce` that failed, or a reload in the middle.
   */
  lemma {:induction false} OnceEntriesAreConserved(lib: Lib, w: World, evs: seq<Event>, n: nat)
    requires Init(w) && n in Run(lib, w, evs).accounts && !Running(Run(lib, w, evs).refs, n)
    ensures var acc := Run(lib, w, evs).accounts[n];
      && (acc.acked ==> acc.sent.Some? && acc.held == EntriesOf(acc.pushed))
      && (!acc.acked && acc.canDrop && !acc.cut ==> acc.held == multiset{})
      && (!acc.acked && (!acc.canDrop || acc.cut) ==> acc.held == EntriesOf(acc.pushed))
  {
    RunSound(lib, w, evs);
    hide Run, Init, WorldOk, EffectsOk, AcksOk, InFlight, Honest;
    assert SentOk(lib, Run(lib, w, evs).accounts[n]) && Balanced(Run(lib, w, evs).accounts[n]);
  }

  /** Within one unlock no ask is acknowledged twice. */
  lemma {:induction false} AnsweredAtMostOnce(lib: Lib, w: World, evs: seq<Event>, i: nat, j: nat)
    requires Init(w) && i < j < |Run(lib, w, evs).acks|
    ensures Run(lib, w, evs).acks[i] != Run(lib, w, evs).acks[j]
  {
    RunSound(lib, w, evs);
  }

  /** The list: each ask once, seen, marked with exactly the held answer, 32 a dependant at most. */
  lemma {:induction false} ListIsConsistent(lib: Lib, w: World, evs: seq<Event>, p: Pending)
    requires Init(w) && p in Run(lib, w, evs).refs.asks
    ensures var r := Run(lib, w, evs).refs;
      && Listed(r.asks, p.ask.id) == Some(p) && p.ask.id in r.seen
      && (p.unsent.Some? <==> p.ask.id in r.unsent)
      && (p.unsent.Some? ==> p.unsent.value == ChoiceOf(r.unsent[p.ask.id]))
      && CountFor(r.asks, p.dep) <= LIVE_LIMIT
  {
    RunSound(lib, w, evs);
    hide Run, Init, EffectsOk, AccountsOk, AcksOk, Stable, EntryHolds;
    OnlyOne(Run(lib, w, evs).refs.asks, p);
  }

  lemma {:induction false} OnlyOne(asks: seq<Pending>, p: Pending)
    requires UniqueList(asks) && p in asks
    ensures Listed(asks, p.ask.id) == Some(p)
  {
    if asks[0] != p {
      OnlyOne(asks[1..], p);
    }
  }

  predicate NoReload(evs: seq<Event>) { forall ev <- evs :: !ev.Reload? }

  /** An ask that left the list is never listed again in this unlock. */
  lemma {:induction false} RemovedStaysRemoved(lib: Lib, w: World, evs: seq<Event>, id: AskId)
    requires WorldOk(w) && w.refs.loaded && OffList(w.refs, id) && NoReload(evs)
    ensures var r := Run(lib, w, evs); WorldOk(r) && r.refs.loaded && OffList(r.refs, id)
  {
    hide Stable, RefsOk, RowOk, RefsAfter, OffList;
    if evs != [] {
      var init, ev := evs[..|evs| - 1], evs[|evs| - 1];
      RemovedStaysRemoved(lib, w, init, id);
      StepStable(lib, Run(lib, w, init), ev);
      StepLists(lib, Run(lib, w, init), ev);
    }
  }

  // ---- A rail reply stops the publish ----

  /** A rail reply is recorded for the ask, and no answer to it is past the check that looks for one. */
  predicate Overtaken(r: Refs, id: AskId) {
    id in r.replied && (id in r.attempts ==> !r.attempts[id].pc.Building? && !r.attempts[id].pc.Publishing?)
  }

  /** Nothing but a reload takes back a recorded reply. */
  lemma RepliesOnlyGrow(lib: Lib, w: World, ev: Event, id: AskId)
    requires RefsOk(w.refs) && id in w.refs.replied && !ev.Reload?
    ensures id in RefsAfter(lib, w, ev).replied
  {
    hide RefsOk, RefsAfter, Tap, SaveSettled;
    LoadedToReply(w.refs, id);
    AfterIs(lib, w, ev);
    if ev.Taps? { TapKeepsReplies(lib, w.refs, ev); }
    else if ev.SaveSettles? { SaveKeepsReplies(lib, w.refs, ev.ok); }
    else if SettlesCall(ev) { CallKeepsReplies(lib, w, ev); }
    else { ArrivalsAddReplies(lib, w, ev, id); }
  }

  lemma LoadedToReply(r: Refs, id: AskId)
    requires RefsOk(r) && id in r.replied
    ensures r.loaded
  {
  }

  lemma MarkAnsweredReplies(r: Refs, id: AskId, v: Verdict)
    ensures MarkAnswered(r, id, v).replied == r.replied
  {
  }

  lemma WorkReplies(lib: Lib, r: Refs, a: Attempt)
    ensures Work(lib, r, a).replied == r.replied && SaveOutcome(r, a).replied == r.replied
  {
  }

  lemma ArrivalsAddReplies(lib: Lib, w: World, ev: Event, id: AskId)
    requires w.refs.loaded && id in w.refs.replied
    requires ev.AskArrives? || ev.ReplyArrives? || ev.ExpiryFires? || ev.HistoryLoads?
    ensures id in RefsAfter(lib, w, ev).replied
  {
    hide Recorded, Unexpired, Lookup, MarkAnswered, CountFor;
    if ev.ReplyArrives? {
      var v := ev.verdict;
      MarkAnsweredReplies(w.refs.(replied := w.refs.replied[v.id := v]), v.id, v);
    }
  }

  lemma TapKeepsReplies(lib: Lib, r: Refs, ev: Event)
    requires ev.Taps?
    ensures Tap(lib, r, ev.id, ev.choice, ev.alwaysDeny, ev.nowMs, ev.options).replied == r.replied
  {
    hide Work, Recorded, MarkAnswered, Refusal, Unlist;
    if ev.id in r.replied { MarkAnsweredReplies(r, ev.id, r.replied[ev.id]); }
    if Refusal(r, ev.id, ev.choice, ev.nowMs, ev.options).None? {
      WorkReplies(lib, r.(serial := r.serial + 1),
                  NewAttempt(r, ev.id, ev.choice, ev.alwaysDeny, ev.nowMs, ev.options));
    }
  }

  lemma SaveKeepsReplies(lib: Lib, r: Refs, ok: bool)
    ensures SaveSettled(lib, r, ok).replied == r.replied
  {
    hide Work, MarkAnswered, Without, MarkUnsent;
    if r.saves != [] && r.saves[0].waiter.Some? && r.saves[0].waiter.value in r.attempts {
      var r1 := Popped(r);
      var a := r.attempts[r.saves[0].waiter.value];
      var r2 := r1.(unsent := r1.unsent[a.ask.id := a.entry], asks := MarkUnsent(r1.asks, a.ask.id, ChoiceOf(a.entry)));
      WorkReplies(lib, r2, a);
      if a.ask.id in r1.replied { MarkAnsweredReplies(r1, a.ask.id, r1.replied[a.ask.id]); }
    }
  }

  lemma RulesKeepReplies(lib: Lib, r: Refs, a: Attempt, rules: Option<seq<Rule>>)
    ensures RulesListed(lib, r, a, rules).replied == r.replied
  {
    hide SaveOutcome, WideningFits, AlwaysWidening, OnceWidening, RuleFor;
    WorkReplies(lib, r, a);
    WorkReplies(lib, r, Refuse(a, Paused, None));
    WorkReplies(lib, r, Refuse(a, CeilingFull, None));
  }

  lemma RuleKeepsReplies(lib: Lib, r: Refs, a: Attempt, ok: bool)
    ensures a.pc.SavingDenyRule? ==> DenyRuleSaved(r, a, ok).replied == r.replied
    ensures a.pc.SavingAllowRule? ==> AllowRuleSaved(r, a, ok).replied == r.replied
    ensures a.pc.Pushing? ==> PushSettled(r, a, ok).replied == r.replied
  {
    hide SaveOutcome;
    if a.pc.SavingDenyRule? {
      WorkReplies(lib, r, a.(out := if ok then a.out.(ruleId := Some(a.pc.denyRule.id))
                                    else a.out.(alwaysDeny := false)));
    } else if a.pc.SavingAllowRule? {
      WorkReplies(lib, r, a.(out := a.out.(ruleId := Some(a.pc.allowRule.id))));
    } else if a.pc.Pushing? {
      WorkReplies(lib, r, Refuse(a, DeviceUnreachable, Some(Unreachable)));
      WorkReplies(lib, r, a.(added := a.pc.pushed.extra, out := a.out.(alsoOpened := AlsoOpened(a, a.pc.pushed))));
    }
  }

  lemma TailKeepsReplies(r: Refs, a: Attempt, ok: bool)
    ensures VerdictBuilt(r, a, ok).replied == r.replied && PublishSettled(r, a, ok).replied == r.replied
    ensures a.pc.GivingBack? ==> GaveBack(r, a).replied == r.replied
  {
    hide Recorded, Unlist, MarkAnswered;
    if a.pc.GivingBack? && a.pc.answered.Some? { MarkAnsweredReplies(r, a.ask.id, a.pc.answered.value); }
  }

  lemma CallKeepsReplies(lib: Lib, w: World, ev: Event)
    requires SettlesCall(ev)
    ensures RefsAfter(lib, w, ev).replied == w.refs.replied
  {
    hide DenyRuleSaved, AllowRuleSaved, PushSettled, RulesListed, VerdictBuilt, PublishSettled, GaveBack;
    var r := w.refs;
    if Subject(r, ev).value in r.attempts {
      var a := r.attempts[Subject(r, ev).value];
      if ev.RulesRead? {
        RulesKeepReplies(lib, r, a, ev.rules);
      } else {
        RuleKeepsReplies(lib, r, a, ev.ok);
        TailKeepsReplies(r, a, ev.ok);
      }
    }
  }

  /** What a settled save leaves of an overtaken attempt is not about to be published. */
  lemma SaveStaysOvertaken(lib: Lib, r: Refs, ok: bool, id: AskId)
    requires RefsOk(r) && Overtaken(r, id)
    ensures var r' := SaveSettled(lib, r, ok);
      id in r'.attempts ==> !r'.attempts[id].pc.Building? && !r'.attempts[id].pc.Publishing?
  {
    hide RefsOk, SaveSettled;
    InProgress(r);
    if r.saves == [] || r.saves[0].waiter.None? {
      NobodyResumes(lib, r, ok);
    } else {
      PoppedWaiter(r);
      SaveLeaves(lib, r, r.saves[0].waiter.value, ok);
    }
  }

  predicate PastTheCheck(pc: Pc) { pc.Building? || pc.Publishing? }

  lemma LeftStaysBefore(lib: Lib, a: Attempt, ev: Event)
    requires !PastTheCheck(a.pc)
    ensures var left := Left(lib, a, ev); left.Some? ==> !PastTheCheck(left.value.pc)
  {
    hide WideningFits, RuleFor, AlwaysWidening, OnceWidening;
  }

  /** Nor is what a settled call leaves of it. */
  lemma CallStaysOvertaken(lib: Lib, w: World, ev: Event, id: AskId)
    requires RefsOk(w.refs) && Overtaken(w.refs, id) && SettlesCall(ev)
    ensures var r' := RefsAfter(lib, w, ev);
      id in r'.attempts ==> !r'.attempts[id].pc.Building? && !r'.attempts[id].pc.Publishing?
  {
    hide RefsOk, RefsAfter, Left;
    var x := Subject(w.refs, ev).value;
    InProgress(w.refs);
    if x !in w.refs.attempts {
      NoSubject(lib, w, ev);
    } else {
      CallLeaves(lib, w, ev, x);
      if x == id { LeftStaysBefore(lib, w.refs.attempts[id], ev); }
    }
  }

  /** A tap on an answered ask opens nothing. */
  lemma TapStaysOvertaken(lib: Lib, r: Refs, ev: Event, id: AskId)
    requires RefsOk(r) && Overtaken(r, id) && ev.Taps?
    ensures var r' := Tap(lib, r, ev.id, ev.choice, ev.alwaysDeny, ev.nowMs, ev.options);
      id in r'.attempts ==> id in r.attempts && r'.attempts[id] == r.attempts[id]
  {
    hide RefsOk, Tap, InFlight;
    TapOpens(lib, r, ev.id, ev.choice, ev.alwaysDeny, ev.nowMs, ev.options);
    if ev.id == id && id !in r.attempts { RepliedIsRefused(lib, r, ev, id); }
  }

  lemma RepliedIsRefused(lib: Lib, r: Refs, ev: Event, id: AskId)
    requires ev.Taps? && ev.id == id && id in r.replied && id !in r.attempts
    ensures id !in Tap(lib, r, ev.id, ev.choice, ev.alwaysDeny, ev.nowMs, ev.options).attempts
  {
    hide Refused;
    RefusedLeaves(r, id, ev.nowMs);
  }

  lemma StaysOvertaken(lib: Lib, w: World, ev: Event, id: AskId)
    requires RefsOk(w.refs) && Overtaken(w.refs, id) && !ev.Reload?
    ensures Overtaken(RefsAfter(lib, w, ev), id)
  {
    hide RefsOk, RefsAfter, Tap, SaveSettled;
    RepliesOnlyGrow(lib, w, ev, id);
    AfterIs(lib, w, ev);
    if ev.Taps? { TapStaysOvertaken(lib, w.refs, ev, id); }
    else if ev.SaveSettles? { SaveStaysOvertaken(lib, w.refs, ev.ok, id); }
    else if SettlesCall(ev) { CallStaysOvertaken(lib, w, ev, id); }
    else { Untouched(lib, w, ev); }
  }

  /** What an event publishes is in progress as being published. */
  lemma PublishedIsPublishing(lib: Lib, w: World, ev: Event, id: AskId)
    requires RefsOk(RefsAfter(lib, w, ev)) && Overtaken(RefsAfter(lib, w, ev), id)
    ensures var w' := Step(lib, w, ev);
      && w.effects <= w'.effects
      && forall i :: |w.effects| <= i < |w'.effects| && w'.effects[i].id == id ==> !w'.effects[i].call.Publish?
  {
    hide RefsOk, RefsAfter, DiskAfter, AccountsAfter, CommittedAfter, Forgotten, AcksAfter;
    InProgress(RefsAfter(lib, w, ev));
  }

  /**
   * Once a rail reply is recorded for an ask, and no answer to it is past the
   * check, no verdict is published for it any more: not by the answer in
   * progress, not by a later tap, over every run without a reload.
   */
  lemma {:induction false} RailReplyStopsThePublish(lib: Lib, w: World, evs: seq<Event>, id: AskId)
    requires WorldOk(w) && Overtaken(w.refs, id) && NoReload(evs)
    ensures var r := Run(lib, w, evs);
      && WorldOk(r) && Overtaken(r.refs, id) && w.effects <= r.effects
      && forall i :: |w.effects| <= i < |r.effects| && r.effects[i].id == id ==> !r.effects[i].call.Publish?
  {
    hide Stable, RefsOk, RowOk, RefsAfter, Overtaken, Step;
    if evs != [] {
      var init, ev := evs[..|evs| - 1], evs[|evs| - 1];
      RailReplyStopsThePublish(lib, w, init, id);
      var before := Run(lib, w, init);
      StepStable(lib, before, ev);
      StepRefs(lib, before, ev);
      StaysOvertaken(lib, before, ev, id);
      PublishedIsPublishing(lib, before, ev, id);
    }
  }

  lemma StepRefs(lib: Lib, w: World, ev: Event)
    ensures Step(lib, w, ev).refs == RefsAfter(lib, w, ev)
  {
    hide RefsAfter;
  }
}
