/**
 * The inbox as the hook runs it: one object whose fields are the refs, updated
 * in place by each handler. Every method is proved to do what the handler of
 * the same name in ChildAsks.dfy says, so everything proved of those handlers
 * over runs holds of this object.
 */
module ChildAskInbox {
  import opened Wrappers
  import opened ChildAsks
  import opened ChildAskRows
  import opened ChildAskRefs
  import opened ChildAskRun

  class AskInbox {
    var loaded: bool
    var asks: seq<Pending>
    var history: seq<Entry>
    var seen: set<AskId>
    var unsent: map<AskId, Entry>
    var replied: map<AskId, Verdict>
    var deciding: map<AskId, Attempt>
    var saves: seq<Save>
    var serial: nat

    function Memory(): Refs
      reads this
    {
      Refs(loaded, asks, history, seen, unsent, replied, deciding, saves, serial)
    }

    ghost predicate Valid()
      reads this
    {
      RefsOk(Memory())
    }

    constructor ()
      ensures Memory() == Emptied(0) && Valid()
    {
      loaded, asks, history, seen, unsent := false, [], [], {}, map[];
      replied, deciding, saves, serial := map[], map[], [], 0;
      new;
      EmptiedOk(0);
    }

    /** A new unlock, or a reload: everything in memory goes. */
    method Clear()
      modifies this
      ensures Memory() == Emptied(old(serial)) && Valid()
    {
      loaded, asks, history, seen, unsent := false, [], [], {}, map[];
      replied, deciding, saves := map[], map[], [];
      EmptiedOk(serial);
    }

    /**
     * The stored row arrives: unsent answers to live asks wait, every other id
     * counts as seen. When the read failed (None) the memory stays empty.
     */
    method Load(raw: Option<seq<Entry>>, nowS: int)
      requires Valid() && !loaded && (raw.Some? ==> RowOk(raw.value))
      modifies this
      ensures Valid() && loaded && Memory() == OnLoad(old(Memory()), raw, nowS)
      ensures raw.None? ==> history == [] && seen == {} && unsent == map[]
    {
      OnLoadKeeps(Memory(), raw, nowS);
      if raw.None? {
        loaded := true;
        return;
      }
      var entries := Cap(raw.value);
      history := entries;
      for i := 0 to |entries|
        invariant seen == SeenRows(entries[..i], nowS) && unsent == UnsentRows(entries[..i], nowS)
        invariant Memory() == old(Memory()).(history := entries, seen := seen, unsent := unsent)
      {
        var e := entries[i];
        assert entries[..i + 1][..i] == entries[..i];
        if !IsSent(e) && e.ask.expiresAt > nowS {
          unsent := unsent[e.ask.id := e];
        } else {
          seen := seen + {e.ask.id};
        }
      }
      assert entries[..|entries|] == entries;
      loaded := true;
    }

    /** The row changes now; the write is queued behind the ones already under way. */
    method RecordHistory(e: Entry, waiter: Option<AskId>)
      modifies this
      ensures Memory() == Record(old(Memory()), e, waiter)
      ensures history != [] && history[0] == e && |history| <= HISTORY_MAX
      ensures saves == old(saves) + [Save(history, waiter)]
    {
      history := Cap([e] + Without(history, e.ask.id));
      saves := saves + [Save(history, waiter)];
    }

    method MarkAnswered(id: AskId, v: Verdict)
      modifies this
      ensures Memory() == ChildAsks.MarkAnswered(old(Memory()), id, v)
      ensures id in seen && id !in unsent && deciding == old(deciding)
    {
      var pending := Listed(asks, id);
      var known := Lookup(history, id);
      seen := seen + {id};
      unsent := unsent - {id};
      asks := Unlist(asks, id);
      if pending.Some? {
        RecordHistory(Entry(Slim(pending.value.ask), v, Some(v.choice), Some(true), None), None);
      } else if known.Some? {
        RecordHistory(Entry(known.value.ask, v, Some(v.choice), Some(true), None), None);
      }
    }

    method OnReplyEvent(v: Verdict)
      requires Valid() && loaded
      modifies this
      ensures Memory() == OnReply(old(Memory()), v) && Valid()
    {
      OnReplyKeeps(Memory(), v);
      var known := Lookup(history, v.id);
      if known.Some? && IsSent(known.value) { return; }
      replied := replied[v.id := v];
      if v.id in deciding { return; }
      MarkAnswered(v.id, v);
    }

    method OnAskEvent(dep: DepId, ask: Ask)
      requires Valid() && loaded
      modifies this
      ensures Memory() == OnAsk(old(Memory()), dep, ask) && Valid()
    {
      OnAskKeeps(Memory(), dep, ask);
      if ask.id in seen { return; }
      if ask.id in replied {
        var v := replied[ask.id];
        seen := seen + {ask.id};
        unsent := unsent - {ask.id};
        RecordHistory(Entry(Slim(ask), v, Some(v.choice), Some(true), None), None);
        return;
      }
      if CountFor(asks, dep) >= LIVE_LIMIT { return; }
      seen := seen + {ask.id};
      var marker := if ask.id in unsent then Some(ChoiceOf(unsent[ask.id])) else None;
      asks := asks + [Pending(ask, dep, marker)];
    }

    method OnExpiryTimer(nowS: int)
      requires Valid()
      modifies this
      ensures Memory() == OnExpiry(old(Memory()), nowS) && Valid()
    {
      OnExpiryKeeps(Memory(), nowS);
      asks := Unexpired(asks, nowS);
    }

    /** `decide` up to its first await; the reason when it starts nothing. */
    method Decide(lib: Lib, id: AskId, choice: Choice, alwaysDeny: bool, nowMs: nat, o: Options)
      returns (refused: Option<Reason>)
      requires Valid()
      modifies this
      ensures Memory() == Tap(lib, old(Memory()), id, choice, alwaysDeny, nowMs, o) && Valid()
      ensures refused == Refusal(old(Memory()), id, choice, nowMs, o)
    {
      hide RefsOk;
      TapKeeps(lib, Memory(), id, choice, alwaysDeny, nowMs, o);
      if id in deciding { return Some(AlreadyDecided); }
      var pending := Listed(asks, id);
      if pending.None? {
        var known := Lookup(history, id);
        return Some(if known.Some? && IsSent(known.value) then AlreadyDecided else NotFound);
      }
      var ask, nowS := pending.value.ask, Seconds(nowMs);
      if ask.expiresAt <= nowS {
        asks := Unlist(asks, id);
        return Some(Expired);
      }
      if id in replied {
        MarkAnswered(id, replied[id]);
        return Some(AlreadyDecided);
      }
      refused := Refusal(Memory(), id, choice, nowMs, o);
      if refused.Some? { return; }
      var a := NewAttempt(Memory(), id, choice, alwaysDeny, nowMs, o);
      serial := serial + 1;
      if a.resend {
        Begin(lib, a);
      } else {
        deciding := deciding[a.ask.id := a];
        RecordHistory(a.entry, Some(id));
      }
    }

    /** The side effects of a choice that is durable: the deny rule, the allow path, or straight to the outcome. */
    method Begin(lib: Lib, a0: Attempt)
      modifies this
      ensures Memory() == Work(lib, old(Memory()), a0)
    {
      var a := a0;
      if Reconsiders(a0) {
        a := a.(out := PlainVerdict(a0.ask.id, ChoiceOf(a0.entry), a0.entry.verdict.decidedAt), reason := None);
      } else {
        a := a.(out := a0.entry.verdict.(alsoOpened := None), reason := a0.entry.reason);
      }
      if a.out.choice == Deny {
        if a.out.alwaysDeny && a.out.ruleId.None? {
          deciding := deciding[a.ask.id := a.(pc := SavingDenyRule(RuleFor(lib, a, false)))];
        } else {
          RecordOutcome(a);
        }
      } else {
        deciding := deciding[a.ask.id := a.(pc := ListingRules)];
      }
    }

    /** The verdict about to be sent goes into the row first. */
    method RecordOutcome(a: Attempt)
      modifies this
      ensures Memory() == SaveOutcome(old(Memory()), a)
      ensures a.ask.id in unsent && unsent[a.ask.id].verdict == a.out && history != [] && history[0] == unsent[a.ask.id]
    {
      var e := a.entry.(verdict := a.out, sent := Some(false));
      if a.reason.Some? { e := e.(reason := a.reason); }
      unsent := unsent[a.ask.id := e];
      deciding := deciding[a.ask.id := a.(entry := e, pc := SavingOutcome)];
      RecordHistory(e, Some(a.ask.id));
    }

    /** The oldest save settles; whoever awaited it goes on. */
    method OnSaveSettled(lib: Lib, ok: bool)
      requires Valid()
      modifies this
      ensures Memory() == SaveSettled(lib, old(Memory()), ok) && Valid()
    {
      hide RefsOk, Work, ChildAsks.MarkAnswered;
      SaveSettledKeeps(lib, Memory(), ok);
      if saves == [] { return; }
      var waiter := saves[0].waiter;
      saves := saves[1..];
      if waiter.None? || waiter.value !in deciding { return; }
      var a := deciding[waiter.value];
      var id := a.ask.id;
      if a.pc.SavingChoice? {
        if !ok {
          history := Without(history, id);
          deciding := deciding - {id};
        } else {
          unsent := unsent[id := a.entry];
          asks := MarkUnsent(asks, id, ChoiceOf(a.entry));
          Begin(lib, a);
        }
      } else if a.pc.SavingOutcome? {
        if id !in replied {
          deciding := deciding[id := a.(pc := Building)];
        } else if a.added != [] && a.canDrop {
          deciding := deciding[id := a.(pc := GivingBack(Some(replied[id])))];
        } else {
          MarkAnswered(id, replied[id]);
          deciding := deciding - {id};
        }
      } else if a.pc.SavingSent? {
        deciding := deciding - {id};
      }
    }

    method OnRulesListed(lib: Lib, id: AskId, rules: Option<seq<Rule>>)
      requires Valid() && id in deciding && deciding[id].pc.ListingRules?
      modifies this
      ensures Memory() == RulesListed(lib, old(Memory()), old(deciding[id]), rules) && Valid()
    {
      hide RefsOk, WideningFits, RuleFor, SaveOutcome;
      var a := deciding[id];
      InProgress(Memory());
      RulesListedKeeps(lib, Memory(), a, rules);
      if rules.None? {
        deciding := deciding - {id};
        return;
      }
      var signs := a.ask.via == SignEvent;
      if signs && a.child.paused {
        RecordOutcome(Refuse(a, Paused, None));
      } else if a.out.choice == Always {
        var w := AlwaysWidening(lib, a, rules.value);
        if signs && !WideningFits(lib, w) {
          RecordOutcome(Refuse(a, CeilingFull, None));
        } else {
          deciding := deciding[id := a.(pc := SavingAllowRule(RuleFor(lib, a, true), w))];
        }
      } else if signs {
        var w := OnceWidening(a, rules.value);
        if !WideningFits(lib, w) {
          RecordOutcome(Refuse(a, CeilingFull, None));
        } else {
          deciding := deciding[id := a.(pc := Pushing(w))];
        }
      } else {
        RecordOutcome(a);
      }
    }

    method OnRuleSaved(id: AskId, ok: bool)
      requires Valid() && id in deciding && (deciding[id].pc.SavingDenyRule? || deciding[id].pc.SavingAllowRule?)
      modifies this
      ensures old(deciding[id].pc).SavingDenyRule? ==> Memory() == DenyRuleSaved(old(Memory()), old(deciding[id]), ok)
      ensures old(deciding[id].pc).SavingAllowRule? ==> Memory() == AllowRuleSaved(old(Memory()), old(deciding[id]), ok)
      ensures Valid()
    {
      hide RefsOk, SaveOutcome;
      var a := deciding[id];
      InProgress(Memory());
      RuleSettlesKeeps(Memory(), a, ok);
      if a.pc.SavingDenyRule? {
        RecordOutcome(a.(out := if ok then a.out.(ruleId := Some(a.pc.denyRule.id)) else a.out.(alwaysDeny := false)));
      } else if !ok {
        deciding := deciding - {id};
      } else {
        var a1 := a.(out := a.out.(ruleId := Some(a.pc.allowRule.id)));
        if a.ask.via == SignEvent {
          deciding := deciding[id := a1.(pc := Pushing(a.pc.widening))];
        } else {
          RecordOutcome(a1);
        }
      }
    }

    method OnCeilingPushed(id: AskId, ok: bool)
      requires Valid() && id in deciding && deciding[id].pc.Pushing?
      modifies this
      ensures Memory() == PushSettled(old(Memory()), old(deciding[id]), ok) && Valid()
    {
      hide RefsOk, SaveOutcome;
      var a := deciding[id];
      InProgress(Memory());
      PushSettledKeeps(Memory(), a, ok);
      if !ok {
        RecordOutcome(Refuse(a, DeviceUnreachable, Some(Unreachable)));
      } else {
        var w := a.pc.pushed;
        RecordOutcome(a.(added := w.extra, out := a.out.(alsoOpened := AlsoOpened(a, w))));
      }
    }

    method OnVerdictBuilt(id: AskId, ok: bool)
      requires Valid() && id in deciding && deciding[id].pc.Building?
      modifies this
      ensures Memory() == VerdictBuilt(old(Memory()), old(deciding[id]), ok) && Valid()
    {
      hide RefsOk;
      InProgress(Memory());
      VerdictBuiltKeeps(Memory(), deciding[id], ok);
      if ok {
        deciding := deciding[id := deciding[id].(pc := Publishing)];
      } else {
        GiveBackOnce(id);
      }
    }

    /** Nothing was sent: the approved-once entries go back, if there are any and they can. */
    method GiveBackOnce(id: AskId)
      requires id in deciding && deciding[id].ask.id == id
      modifies this
      ensures Memory() == NotSent(old(Memory()), old(deciding[id]))
    {
      var a := deciding[id];
      if a.added != [] && a.canDrop {
        deciding := deciding[id := a.(pc := GivingBack(None))];
      } else {
        deciding := deciding - {id};
      }
    }

    method OnPublished(id: AskId, ok: bool)
      requires Valid() && id in deciding && deciding[id].pc.Publishing?
      modifies this
      ensures Memory() == PublishSettled(old(Memory()), old(deciding[id]), ok) && Valid()
    {
      hide RefsOk;
      var a := deciding[id];
      InProgress(Memory());
      PublishSettledKeeps(Memory(), a, ok);
      if !ok {
        GiveBackOnce(id);
        return;
      }
      unsent := unsent - {id};
      asks := Unlist(asks, id);
      deciding := deciding[id := a.(pc := SavingSent)];
      RecordHistory(a.entry.(sent := Some(true)), Some(id));
    }

    method OnGaveBack(id: AskId)
      requires Valid() && id in deciding && deciding[id].pc.GivingBack?
      modifies this
      ensures Memory() == GaveBack(old(Memory()), old(deciding[id])) && Valid()
    {
      hide RefsOk, ChildAsks.MarkAnswered;
      var a := deciding[id];
      InProgress(Memory());
      GaveBackKeeps(Memory(), a);
      if a.pc.answered.Some? { MarkAnswered(id, a.pc.answered.value); }
      deciding := deciding - {id};
    }
  }
}
