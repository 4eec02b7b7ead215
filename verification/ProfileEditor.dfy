/** The profile editor's housekeeping refs as one object, its upload map and lists changed in place. */
module ProfileEditor {
  import opened Wrappers
  import opened BlobHousekeeping

  /** Which orphans a sweep has reached when these uploads are still to visit. */
  ghost predicate SweptTo(e: Editor, keep: set<Hash>, todo: set<Hash>, orphans: set<Hash>) {
    forall h :: h in orphans <==> h in e.session - todo && h !in keep && !IsDurable(e, h)
  }

  lemma SweptAll(e: Editor, keep: set<Hash>, orphans: set<Hash>)
    requires SweptTo(e, keep, {}, orphans)
    ensures orphans == Orphans(e, keep)
  {
  }

  lemma AskNothing(out: Outside)
    ensures Asking(out, {}) == out
  {
  }

  lemma AskMore(out: Outside, hashes: set<Hash>, h: Hash)
    ensures Asking(Asking(out, hashes), {h}) == Asking(out, hashes + {h})
  {
  }

  lemma FreeNothing(out: Outside)
    ensures Freeing(out, {}) == out
  {
  }

  lemma FreeMore(out: Outside, hashes: set<Hash>, h: Hash)
    ensures Freeing(Freeing(out, hashes), {h}) == Freeing(out, hashes + {h})
    ensures Freeing(out, hashes + {h}).stored == out.stored
  {
  }

  lemma SweepShrinks(e: Editor, keep: set<Hash>)
    ensures Sweep(e, keep).session <= keep
  {
  }

  /** An upload that has settled is not gone. */
  lemma KeptStays(e: Editor, f: Field, h: Hash, hosted: bool)
    ensures var e' := Step(e, Uploads(f, h, hosted)); h in In(e'.form) && h !in e'.out.gone
  {
  }

  lemma SaveLeaves(e: Editor, ok: bool)
    requires SafeOk(e) && Possible(e, SaveSettles(ok))
    ensures var e' := Step(e, SaveSettles(ok));
      e'.saving.None? && (ok ==> e'.session == {} && e'.saved == e'.out.stored)
  {
    hide In, Sweep, Retire, AtOnce;
    if ok {
      SaveFrame(Begun(e));
      SavedSession(Begun(e));
    }
  }

  lemma SavedSession(e: Editor)
    requires e.saving.Some?
    ensures Saved(e).session == {}
  {
  }

  class Housekeeping {
    var config: Slots
    var formHashes: Slots
    var savedHashes: Slots
    var sessionUploads: set<Hash>
    var openHashes: set<Hash>
    var publishedHashes: set<Hash>
    var publishedBase: Option<set<Hash>>
    var enabled: bool
    var canPublish: bool
    var pendingOld: set<Hash>
    var promptOpen: bool
    var republishing: bool
    var saving: Option<Saving>
    var left: bool
    var out: Outside

    ghost function State(): Editor
      reads this
    {
      Editor(config, formHashes, savedHashes, sessionUploads, openHashes, publishedHashes, publishedBase, enabled,
             canPublish, pendingOld, promptOpen, republishing, saving, left, out)
    }

    /** The refs agree with what is stored outside. */
    ghost predicate Valid()
      reads this
    {
      SafeOk(State())
    }

    /** The form opens on the stored config. */
    constructor (c: Slots, base: Option<set<Hash>>, on: bool, canRepublish: bool)
      ensures Valid() && Init(State()) && State().out.stored == c
    {
      config, formHashes, savedHashes := c, c, c;
      sessionUploads, openHashes := {}, In(c);
      publishedHashes, publishedBase := if base.Some? then base.value else {}, base;
      enabled, canPublish, pendingOld, promptOpen, republishing, saving := on, canRepublish, {}, false, false, None;
      left, out := false, Outside(c, c, {}, {}, {}, {});
    }

    predicate Durable(h: Hash)
      reads this
    {
      h in openHashes || h in publishedHashes || h in In(savedHashes)
    }

    /** Walks the session uploads: keeps what is referenced, forgets the durable, deletes the rest. */
    method SweepOrphans(keep: set<Hash>)
      modifies `sessionUploads, `out
      ensures State() == Sweep(old(State()), keep)
    {
      hide In, Asking, Orphans;
      var todo := sessionUploads;
      ghost var before := State();
      ghost var orphans: set<Hash> := {};
      AskNothing(out);
      while todo != {}
        invariant todo <= before.session && sessionUploads == todo + (before.session * keep)
        invariant SweptTo(before, keep, todo, orphans) && out == Asking(before.out, orphans)
        decreases |todo|
      {
        var hash :| hash in todo;
        todo := todo - {hash};
        if hash !in keep {
          sessionUploads := sessionUploads - {hash};
          if !Durable(hash) {
            AskMore(before.out, orphans, hash);
            orphans := orphans + {hash};
            out := Asking(out, {hash});
          }
        }
      }
      SweptAll(before, keep, orphans);
    }

    /** Sets one field and sweeps: afterwards every session upload is one the form or the saved config names. */
    method SetField(f: Field, h: Option<Hash>)
      modifies `formHashes, `sessionUploads, `out
      ensures State() == SetForm(old(State()), f, h)
      ensures sessionUploads <= In(formHashes) + In(savedHashes)
    {
      formHashes := With(formHashes, f, h);
      SweepOrphans(In(formHashes) + In(savedHashes));
    }

    method Begin()
      modifies `out
      ensures State() == Begun(old(State()))
    {
      out := out.(asked := {}, retired := {});
    }

    /** The picked blob is on its server and in the form, and no other unsaved upload is kept. */
    method OnUploaded(f: Field, h: Hash, hosted: bool)
      requires Valid()
      modifies this
      ensures Valid() && State() == Step(old(State()), Uploads(f, h, hosted))
      ensures h in In(formHashes) && h !in out.gone && sessionUploads <= In(formHashes) + In(savedHashes)
    {
      hide SetForm;
      StepSafe(State(), Uploads(f, h, hosted));
      Begin();
      out := out.(gone := out.gone - {h});
      if hosted && !Durable(h) { sessionUploads := sessionUploads + {h}; }
      SetField(f, Some(h));
      KeptStays(old(State()), f, h, hosted);
    }

    /** A paste or a removal: the field names no blob, and what only it named goes. */
    method OnCleared(f: Field)
      requires Valid() && Possible(State(), Clears(f))
      modifies this
      ensures Valid() && State() == Step(old(State()), Clears(f))
      ensures sessionUploads <= In(formHashes) + In(savedHashes)
    {
      hide SetForm;
      StepSafe(State(), Clears(f));
      Begin();
      SetField(f, None);
    }

    /** `handleSave` up to the await of `onSaveConfig`: nothing is deleted, and the publication state is captured. */
    method HandleSave(servers: set<Hash>)
      requires Valid() && Possible(State(), SaveTaps(servers))
      modifies this
      ensures Valid() && State() == Step(old(State()), SaveTaps(servers))
      ensures out.gone == old(out.gone) && saving.Some? && saving.value.next == formHashes
      ensures saving.value.published == enabled && saving.value.hasBase == publishedBase.Some?
    {
      StepSafe(State(), SaveTaps(servers));
      Begin();
      var previous: set<Hash> := {};
      if config.picture.Some? && config.picture != formHashes.picture { previous := previous + {config.picture.value}; }
      if config.banner.Some? && config.banner != formHashes.banner { previous := previous + {config.banner.value}; }
      assert previous * servers == Replaced(config, formHashes, servers);
      saving := Some(Saving(formHashes, previous * servers, false, enabled, publishedBase.Some?, canPublish));
    }

    /** The parent's delete, one blob at a time: refused while a stored config names it. */
    method DeleteBlobs(todo: set<Hash>)
      modifies `openHashes, `out
      ensures State() == Delete(old(State()), todo)
    {
      hide In, Freeing;
      ghost var before := State();
      ghost var done: set<Hash> := {};
      var rest := todo;
      FreeNothing(out);
      while rest != {}
        invariant done + rest == todo && out == Freeing(before.out, done) && out.stored == before.out.stored
        invariant openHashes == before.open - (done - In(before.out.stored))
        decreases |rest|
      {
        var hash :| hash in rest;
        rest := rest - {hash};
        FreeMore(before.out, done, hash);
        done := done + {hash};
        if hash !in In(out.stored) { openHashes := openHashes - {hash}; }
        out := Freeing(out, {hash});
      }
      assert done == todo;
    }

    /** A stored save leaves no session upload behind. */
    method OnSaveSettled(ok: bool)
      requires Valid() && Possible(State(), SaveSettles(ok))
      modifies this
      ensures Valid() && State() == Step(old(State()), SaveSettles(ok))
      ensures saving.None? && (ok ==> sessionUploads == {} && savedHashes == out.stored)
    {
      hide In, Sweep, Retire, SafeOk;
      SaveLeaves(State(), ok);
      StepSafe(State(), SaveSettles(ok));
      Begin();
      var s := saving.value;
      saving := None;
      if !ok { return; }
      savedHashes := s.next;
      sessionUploads := sessionUploads - In(s.next);
      SweepOrphans({});
      RetireReplaced(s);
    }

    /** After a save: what the live profile does not show goes, what it shows waits for the answer, or stays. */
    method RetireReplaced(s: Saving)
      modifies `openHashes, `out, `pendingOld, `promptOpen
      ensures State() == Retire(old(State()), s)
      ensures s.published && s.hasBase ==> out.retired - old(out.retired) !! publishedHashes
    {
      hide In, Delete;
      ghost var before := State();
      RetireFrame(before, s);
      var holdBack := if s.published && s.hasBase then s.replaced * publishedHashes else s.replaced;
      var goNow := if s.published && s.hasBase then s.replaced - publishedHashes else {};
      DeleteBlobs(goNow);
      if s.published && s.canPublish {
        pendingOld := holdBack;
        promptOpen := true;
      } else if s.published {
        pendingOld := {};
      } else {
        DeleteBlobs(holdBack);
        pendingOld := {};
      }
    }

    /** The stored profile is the published one. */
    method SetBase()
      modifies `publishedBase, `publishedHashes
      ensures State() == WithBase(old(State()), Some(In(out.stored)))
    {
      hide In;
      publishedBase := Some(In(out.stored));
      if !left { publishedHashes := In(out.stored); }
    }

    /** The stored profile is live: its base is what it names, and the old blobs go. */
    method ReplaceLive()
      modifies `publishedBase, `publishedHashes, `promptOpen, `republishing, `pendingOld, `openHashes, `out
      ensures State() == Republished(old(State()))
    {
      hide Delete, In, WithBase;
      SetBase();
      promptOpen := false;
      republishing := false;
      var todo := pendingOld;
      DeleteBlobs(todo);
      pendingOld := {};
    }

    method OnRepublished(ok: bool)
      requires Valid() && Possible(State(), PublishSettles(ok))
      modifies this
      ensures Valid() && State() == Step(old(State()), PublishSettles(ok))
      ensures if ok then pendingOld == {} && publishedBase == Some(In(out.stored)) else out.gone == old(out.gone)
    {
      hide Republished, SafeOk, In;
      StepSafe(State(), PublishSettles(ok));
      RepublishedFrame(Begun(State()));
      Begin();
      if ok { ReplaceLive(); } else { republishing := false; }
    }

    /** The answer "publish": when the parent can no longer republish the prompt just closes, and the old blobs stay. */
    method ConfirmRepublish()
      requires Valid() && Possible(State(), Confirms)
      modifies this
      ensures Valid() && State() == Step(old(State()), Confirms) && out.gone == old(out.gone)
      ensures pendingOld == old(pendingOld) && (promptOpen <==> canPublish) && (canPublish ==> republishing)
    {
      Begin();
      if !canPublish {
        promptOpen := false;
        return;
      }
      republishing := true;
    }

    /** The answer "save locally": the old blobs stay for good. */
    method KeepPendingOld()
      requires Valid() && Possible(State(), Declines)
      modifies this
      ensures Valid() && State() == Step(old(State()), Declines)
      ensures pendingOld == {} && out.gone == old(out.gone)
    {
      Begin();
      promptOpen := false;
      pendingOld := {};
    }

    /** The parent hands in the config it has stored. */
    method OnConfig()
      requires Valid() && Possible(State(), ConfigArrives)
      modifies this
      ensures Valid() && State() == Step(old(State()), ConfigArrives) && savedHashes == out.stored
    {
      Begin();
      config := out.stored;
      savedHashes := out.stored;
    }

    /** The parent hands in the stored record of the published profile. */
    method OnBase(base: Option<set<Hash>>)
      requires Valid() && !left
      modifies this
      ensures Valid() && State() == Step(old(State()), BaseArrives(base))
      ensures publishedHashes == if base.Some? then base.value else {}
    {
      Begin();
      publishedBase := base;
      publishedHashes := if base.Some? then base.value else {};
    }

    /** Leaving keeps no unsaved upload. */
    method Leave()
      requires Valid() && Possible(State(), Leaves)
      modifies this
      ensures Valid() && State() == Step(old(State()), Leaves) && sessionUploads <= In(savedHashes)
    {
      hide Sweep;
      StepSafe(State(), Leaves);
      SweepShrinks(Begun(State()), In(savedHashes));
      Begin();
      SweepOrphans(In(savedHashes));
      left := true;
    }
  }
}
