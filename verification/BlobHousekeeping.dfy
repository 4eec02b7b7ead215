/**
 * Blob housekeeping in the profile editor (src/components/SlotProfileFields.tsx):
 * which uploaded pictures the form deletes, and when. A save is cut at its
 * await: the parent stores the new config at some moment before the save
 * settles, and an upload picked earlier may settle in between.
 */
module BlobHousekeeping {
  import opened Wrappers

  type Hash = string

  datatype Field = Picture | Banner

  /** The hashes a profile names. */
  datatype Slots = Slots(picture: Option<Hash>, banner: Option<Hash>)

  function In(s: Slots): set<Hash> {
    (if s.picture.Some? then {s.picture.value} else {}) + (if s.banner.Some? then {s.banner.value} else {})
  }

  function With(s: Slots, f: Field, h: Option<Hash>): Slots { if f.Picture? then s.(picture := h) else s.(banner := h) }

  function Other(s: Slots, f: Field): Option<Hash> { if f.Picture? then s.banner else s.picture }

  /**
   * A save under way: what it writes, what it replaces, and whether the parent
   * has stored it. The last three are what the handler captured when Save was
   * tapped: whether the profile was published, whether its base was stored, and
   * whether the parent could republish it.
   */
  datatype Saving = Saving(
    next: Slots, replaced: set<Hash>, landed: bool, published: bool, hasBase: bool, canPublish: bool)

  /**
   * What is outside the form: the config it opened with, the one the parent has
   * stored, the blobs no longer on a server and those of them deleted openly
   * (not by a sweep); and what the last event asked to delete, by a sweep
   * (`asked`) and openly (`retired`).
   */
  datatype Outside = Outside(
    opening: Slots, stored: Slots, gone: set<Hash>, freed: set<Hash>, asked: set<Hash>, retired: set<Hash>)

  /**
   * The editor's refs and props, and what is outside it. `base` is what the
   * stored record of the published profile shows; `shown` is the ref that
   * follows it while the form is mounted.
   */
  datatype Editor = Editor(
    config: Slots, form: Slots, saved: Slots, session: set<Hash>, open: set<Hash>, shown: set<Hash>,
    base: Option<set<Hash>>, enabled: bool, canPublish: bool, pending: set<Hash>, prompt: bool, republishing: bool,
    saving: Option<Saving>, left: bool, out: Outside)

  datatype Event =
    | Uploads(field: Field, hash: Hash, hosted: bool)
    | Clears(field: Field)
    | SaveTaps(servers: set<Hash>)
    | Lands
    | SaveSettles(ok: bool)
    | ConfigArrives
    | Confirms
    | Declines
    | PublishSettles(ok: bool)
    | Toggles(on: bool, canPublish: bool)
    | BaseArrives(base: Option<set<Hash>>)
    | Leaves

  /** What the stored record of the published profile shows. */
  function Live(e: Editor): set<Hash> { if e.base.Some? then e.base.value else {} }

  predicate IsDurable(e: Editor, h: Hash) { h in e.open || h in e.shown || h in In(e.saved) }

  // ---- Deleting ----

  /** The session uploads a sweep deletes. */
  function Orphans(e: Editor, keep: set<Hash>): set<Hash> {
    set h | h in e.session && h !in keep && !IsDurable(e, h)
  }

  function Asking(out: Outside, hashes: set<Hash>): Outside {
    out.(gone := out.gone + (hashes - In(out.stored)), asked := out.asked + hashes)
  }

  function Freeing(out: Outside, hashes: set<Hash>): Outside {
    var now := hashes - In(out.stored);
    out.(gone := out.gone + now, freed := out.freed + now, retired := out.retired + hashes)
  }

  /** The silent sweep. The parent's delete refuses a hash a stored config names. */
  function Sweep(e: Editor, keep: set<Hash>): Editor {
    e.(session := e.session * keep, out := Asking(e.out, Orphans(e, keep)))
  }

  /** An open deletion: one the guardian is told about. */
  function Delete(e: Editor, hashes: set<Hash>): Editor {
    e.(open := e.open - (hashes - In(e.out.stored)), out := Freeing(e.out, hashes))
  }

  function Kept(e: Editor): set<Hash> { In(e.form) + In(e.saved) }

  function SetForm(e: Editor, f: Field, h: Option<Hash>): Editor {
    var e1 := e.(form := With(e.form, f, h));
    Sweep(e1, Kept(e1))
  }

  function Uploaded(e: Editor, f: Field, h: Hash, hosted: bool): Editor {
    var e1 := e.(out := e.out.(gone := e.out.gone - {h}));
    SetForm(if hosted && !IsDurable(e1, h) then e1.(session := e1.session + {h}) else e1, f, Some(h))
  }

  // ---- Saving and republishing ----

  /** The hashes the last config used and the next one does not, field by field, where their server is known. */
  function Replaced(config: Slots, next: Slots, servers: set<Hash>): set<Hash> {
    ((if config.picture.Some? && config.picture != next.picture then {config.picture.value} else {})
     + (if config.banner.Some? && config.banner != next.banner then {config.banner.value} else {})) * servers
  }

  function GoNow(e: Editor, s: Saving): set<Hash> {
    if s.published && s.hasBase then s.replaced - e.shown else {}
  }

  function HoldBack(e: Editor, s: Saving): set<Hash> {
    if s.published && s.hasBase then s.replaced * e.shown else s.replaced
  }

  /** The save is stored: what it kept is no session upload any more, the rest of the session is swept. */
  function Saved(e: Editor): Editor
    requires e.saving.Some?
  {
    var s := e.saving.value;
    Sweep(e.(saved := s.next, session := e.session - In(s.next), saving := None), {})
  }

  /** And then the replaced blobs go, wait for the republish, or stay, as things stood at the tap. */
  function Retire(e: Editor, s: Saving): Editor {
    var e1 := Delete(e, GoNow(e, s));
    if s.published && s.canPublish then e1.(pending := HoldBack(e, s), prompt := true)
    else if s.published then e1.(pending := {})
    else Delete(e1, HoldBack(e, s)).(pending := {})
  }

  /** The stored record of the published profile, as a mounted form sees it. */
  function WithBase(e: Editor, base: Option<set<Hash>>): Editor {
    var e1 := e.(base := base);
    if e.left then e1 else e1.(shown := Live(e1))
  }

  /** The republish settled: the stored profile is live now. */
  function Republished(e: Editor): Editor {
    Delete(WithBase(e, Some(In(e.out.stored))).(prompt := false, republishing := false), e.pending).(pending := {})
  }

  /** What a tap on Save captures. */
  function Tapped(e: Editor, servers: set<Hash>): Saving {
    Saving(e.form, Replaced(e.config, e.form, servers), false, e.enabled, e.base.Some?, e.canPublish)
  }

  function Begun(e: Editor): Editor { e.(out := e.out.(asked := {}, retired := {})) }

  function Step(e0: Editor, ev: Event): Editor {
    var e := Begun(e0);
    match ev
    case Uploads(f, h, hosted) => Uploaded(e, f, h, hosted)
    case Clears(f) => SetForm(e, f, None)
    case SaveTaps(servers) => e.(saving := Some(Tapped(e, servers)))
    case Lands =>
      if e.saving.None? then e
      else e.(out := e.out.(stored := e.saving.value.next), saving := Some(e.saving.value.(landed := true)))
    case SaveSettles(ok) =>
      if e.saving.None? then e
      else if ok then Retire(Saved(e), e.saving.value)
      else e.(saving := None)
    case ConfigArrives => e.(config := e.out.stored, saved := e.out.stored)
    case Confirms => if e.canPublish then e.(republishing := true) else e.(prompt := false)
    case Declines => e.(prompt := false, pending := {})
    case PublishSettles(ok) => if ok then Republished(e) else e.(republishing := false)
    case Toggles(on, canPublish) => e.(enabled := on, canPublish := canPublish)
    case BaseArrives(base) => WithBase(e, base)
    case Leaves => Sweep(e, In(e.saved)).(left := true)
  }

  /**
   * What can happen: inputs are off during a save and a republish, and once the
   * form is left only what was under way settles.
   */
  predicate Possible(e: Editor, ev: Event) {
    match ev
    case Uploads(_, _, _) => true
    case Clears(_) => !e.left && e.saving.None? && !e.republishing
    case SaveTaps(_) => !e.left && e.saving.None? && !e.republishing
    case Lands => e.saving.Some? && !e.saving.value.landed
    case SaveSettles(ok) => e.saving.Some? && e.saving.value.landed == ok
    case ConfigArrives => !e.left
    case Confirms => !e.left && e.prompt && !e.republishing
    case Declines => !e.left && e.prompt && !e.republishing
    case PublishSettles(_) => e.republishing
    case Toggles(_, _) => true
    case BaseArrives(_) => true
    case Leaves => !e.left
  }

  function Run(e: Editor, evs: seq<Event>): Editor {
    if evs == [] then e else Step(Run(e, evs[..|evs| - 1]), evs[|evs| - 1])
  }

  ghost predicate Possibles(e: Editor, evs: seq<Event>) {
    evs == [] || (Possibles(e, evs[..|evs| - 1]) && Possible(Run(e, evs[..|evs| - 1]), evs[|evs| - 1]))
  }

  /** The form as it opens on a stored config. */
  predicate Init(e: Editor) {
    && e.config == e.form == e.saved == e.out.opening == e.out.stored && e.session == {} && e.open == In(e.out.opening)
    && e.shown == Live(e) && e.pending == {} && !e.prompt && !e.republishing && e.saving.None? && !e.left
    && e.out.gone == {} && e.out.freed == {}
  }

  // ---- What the silent sweep spares ----

  /** What ties the refs to what is stored outside. */
  ghost predicate SafeOk(e: Editor) {
    && e.open == In(e.out.opening) - e.out.freed
    && (!e.left ==> e.shown == Live(e))
    && (e.saving.None? || !e.saving.value.landed ==> e.saved == e.out.stored)
    && (e.saving.Some? && e.saving.value.landed ==> e.out.stored == e.saving.value.next)
  }

  /** What an open deletion leaves alone, and that `open` loses exactly what it freed. */
  lemma DeleteFrame(e: Editor, hashes: set<Hash>)
    ensures var e' := Delete(e, hashes);
      && e' == e.(open := e'.open, out := e'.out)
      && e'.out == e.out.(gone := e'.out.gone, freed := e'.out.freed, retired := e'.out.retired)
      && e.out.freed <= e'.out.freed <= e.out.freed + hashes && e'.out.retired == e.out.retired + hashes
      && e'.out.freed !! In(e.out.stored) - e.out.freed
      && (e.open == In(e.out.opening) - e.out.freed ==> e'.open == In(e'.out.opening) - e'.out.freed)
  {
  }

  lemma SweepFrame(e: Editor, keep: set<Hash>)
    ensures var e' := Sweep(e, keep);
      e' == e.(session := e'.session, out := e'.out) && e'.out == e.out.(gone := e'.out.gone, asked := e'.out.asked)
  {
  }

  /** The replaced blobs a settled save deletes at once. */
  function AtOnce(e: Editor, s: Saving): set<Hash> {
    GoNow(e, s) + if s.published then {} else HoldBack(e, s)
  }

  lemma RetireFrame(e: Editor, s: Saving)
    ensures var e' := Retire(e, s);
      && e' == e.(open := e'.open, pending := e'.pending, prompt := e'.prompt, out := e'.out)
      && e'.out == e.out.(gone := e'.out.gone, freed := e'.out.freed, retired := e'.out.retired)
      && (e.open == In(e.out.opening) - e.out.freed ==> e'.open == In(e'.out.opening) - e'.out.freed)
      && e.out.freed <= e'.out.freed <= e.out.freed + AtOnce(e, s) && e'.out.freed !! In(e.out.stored) - e.out.freed
      && e'.out.retired == e.out.retired + AtOnce(e, s)
  {
    hide Delete, In, GoNow, HoldBack;
    DeleteFrame(e, GoNow(e, s));
    DeleteFrame(Delete(e, GoNow(e, s)), HoldBack(e, s));
  }

  /** A settled save, frame by frame. */
  lemma SaveFrame(e: Editor)
    requires e.saving.Some?
    ensures var s := e.saving.value; var e1 := Saved(e); var e' := Retire(e1, s);
      && e1 == e.(saved := s.next, session := e1.session, saving := None, out := e1.out)
      && e1.out == e.out.(gone := e1.out.gone, asked := e1.out.asked)
      && e' == e1.(open := e'.open, pending := e'.pending, prompt := e'.prompt, out := e'.out)
      && e'.out == e1.out.(gone := e'.out.gone, freed := e'.out.freed, retired := e'.out.retired)
      && (e.open == In(e.out.opening) - e.out.freed ==> e'.open == In(e'.out.opening) - e'.out.freed)
      && e.out.freed <= e'.out.freed <= e.out.freed + AtOnce(e1, s) && e'.out.freed !! In(e.out.stored) - e.out.freed
      && e'.out.retired == e.out.retired + AtOnce(e1, s)
  {
    hide Sweep, Retire, In;
    var s := e.saving.value;
    SweepFrame(e.(saved := s.next, session := e.session - In(s.next), saving := None), {});
    RetireFrame(Saved(e), s);
  }

  lemma SetFormFrame(e: Editor, f: Field, h: Option<Hash>)
    ensures var e' := SetForm(e, f, h);
      && e' == e.(form := With(e.form, f, h), session := e'.session, out := e'.out)
      && e'.out == e.out.(gone := e'.out.gone, asked := e'.out.asked)
  {
    hide Sweep;
    SweepFrame(e.(form := With(e.form, f, h)), Kept(e.(form := With(e.form, f, h))));
  }

  lemma UploadedFrame(e: Editor, f: Field, h: Hash, hosted: bool)
    ensures var e' := Uploaded(e, f, h, hosted);
      && e' == e.(form := With(e.form, f, Some(h)), session := e'.session, out := e'.out)
      && e'.out == e.out.(gone := e'.out.gone, asked := e'.out.asked)
  {
    hide SetForm, IsDurable;
    var e1 := e.(out := e.out.(gone := e.out.gone - {h}));
    SetFormFrame(if hosted && !IsDurable(e1, h) then e1.(session := e1.session + {h}) else e1, f, Some(h));
  }

  lemma RepublishedFrame(e: Editor)
    ensures var e' := Republished(e);
      && e' == e.(open := e'.open, shown := e'.shown, base := Some(In(e.out.stored)), pending := {}, prompt := false,
                  republishing := false, out := e'.out)
      && (!e.left ==> e'.shown == In(e.out.stored)) && (e.left ==> e'.shown == e.shown)
      && e'.out == e.out.(gone := e'.out.gone, freed := e'.out.freed, retired := e.out.retired + e.pending)
      && (e.open == In(e.out.opening) - e.out.freed ==> e'.open == In(e'.out.opening) - e'.out.freed)
      && e.out.freed <= e'.out.freed <= e.out.freed + e.pending && e'.out.freed !! In(e.out.stored) - e.out.freed
  {
    hide Delete, In;
    DeleteFrame(WithBase(e, Some(In(e.out.stored))).(prompt := false, republishing := false), e.pending);
  }

  lemma StepSafe(e: Editor, ev: Event)
    requires SafeOk(e) && Possible(e, ev)
    ensures SafeOk(Step(e, ev))
    ensures Step(e, ev).out.opening == e.out.opening && e.out.freed <= Step(e, ev).out.freed
  {
    hide In, Retire, Sweep, SetForm, Uploaded, Saved, Republished, AtOnce;
    var e1 := Begun(e);
    match ev {
      case Uploads(f, h, hosted) => UploadedFrame(e1, f, h, hosted);
      case Clears(f) => SetFormFrame(e1, f, None);
      case SaveSettles(ok) => if ok && e.saving.Some? { SaveFrame(e1); }
      case PublishSettles(ok) => RepublishedFrame(e1);
      case Leaves => SweepFrame(e1, In(e.saved));
      case SaveTaps(_) =>
      case Lands =>
      case ConfigArrives =>
      case Confirms =>
      case Declines =>
      case Toggles(_, _) =>
      case BaseArrives(_) =>
    }
  }

  lemma {:induction false} RunSafe(e: Editor, evs: seq<Event>)
    requires Init(e) && Possibles(e, evs)
    ensures SafeOk(Run(e, evs)) && Run(e, evs).out.opening == e.out.opening
  {
    if evs != [] {
      RunSafe(e, evs[..|evs| - 1]);
      hide SafeOk, Step;
      StepSafe(Run(e, evs[..|evs| - 1]), evs[|evs| - 1]);
    }
  }

  /** What a sweep's request is not, before and after. */
  predicate Spares(e: Editor, e': Editor, h: Hash) {
    && h !in e.open && h !in e.shown && h !in In(e'.saved) && e'.out.stored == e.out.stored
    && (h in In(e.out.stored) && h in e'.out.gone ==> h in e.out.gone)
  }

  lemma LeaveAsks(e: Editor, h: Hash)
    requires h in Sweep(e, In(e.saved)).out.asked && h !in e.out.asked
    ensures Spares(e, Sweep(e, In(e.saved)).(left := true), h)
  {
  }

  lemma AskedIsNotDurable(e: Editor, ev: Event, h: Hash)
    requires h in Step(e, ev).out.asked
    ensures Spares(e, Step(e, ev), h)
  {
    hide In, Retire, Sweep, IsDurable, Uploaded, SetForm, Saved, Republished, Spares;
    var e1 := Begun(e);
    SparesSince(e, e1, Step(e, ev), h);
    if ev.SaveSettles? && ev.ok && e.saving.Some? {
      SaveAsks(e1, h);
    } else if ev.Leaves? {
      LeaveAsks(e1, h);
    } else if ev.Clears? {
      SetFormAsks(e1, ev.field, None, h);
    } else if ev.Uploads? {
      UploadedAsks(e1, ev.field, ev.hash, ev.hosted, h);
    } else {
      RepublishedFrame(e1);
    }
  }

  lemma SparesSince(e: Editor, e1: Editor, e': Editor, h: Hash)
    requires e1 == Begun(e)
    ensures Spares(e1, e', h) ==> Spares(e, e', h)
  {
  }

  lemma SaveAsks(e: Editor, h: Hash)
    requires e.saving.Some? && e.out.asked == {} && h in Retire(Saved(e), e.saving.value).out.asked
    ensures Spares(e, Retire(Saved(e), e.saving.value), h)
  {
  }

  lemma SetFormAsks(e: Editor, f: Field, x: Option<Hash>, h: Hash)
    requires h in SetForm(e, f, x).out.asked && h !in e.out.asked
    ensures Spares(e, SetForm(e, f, x), h)
  {
  }

  lemma UploadedAsks(e: Editor, f: Field, x: Hash, hosted: bool, h: Hash)
    requires h in Uploaded(e, f, x, hosted).out.asked && h !in e.out.asked
    ensures Spares(e, Uploaded(e, f, x, hosted), h)
  {
  }

  /**
   * The silent sweep, over every editing session and whatever settles after the
   * form is left: it never asks to delete a blob the published base shows (as
   * far as a mounted form knew it), one the opening config named (unless it was
   * openly deleted since), or one the stored config names - except while a save
   * already stored has yet to settle, and then the parent's delete refuses it.
   */
  lemma {:induction false} SweepSparesWhatIsUsed(e: Editor, evs: seq<Event>, ev: Event, h: Hash)
    requires Init(e) && Possibles(e, evs) && Possible(Run(e, evs), ev)
    requires h in Step(Run(e, evs), ev).out.asked
    ensures var s, s' := Run(e, evs), Step(Run(e, evs), ev);
      && h !in s.shown && (!s.left ==> h !in Live(s))
      && (h in In(e.out.opening) ==> h in s.out.freed)
      && (h in In(s'.out.stored) ==> s.saving.Some? && s.saving.value.landed && (h in s'.out.gone ==> h in s.out.gone))
  {
    hide Run, Init, Step, In, Live;
    RunSafe(e, evs);
    StepSafe(Run(e, evs), ev);
    AskedIsNotDurable(Run(e, evs), ev, h);
    SettlingStores(Run(e, evs), ev);
  }

  /** No save starts, or is stored, at the moment a sweep asks. */
  lemma SettlingStores(e: Editor, ev: Event)
    ensures Step(e, ev).out.asked != {} ==> Step(e, ev).saving.None? || Step(e, ev).saving == e.saving
  {
    hide In, Retire, Sweep, SetForm, Uploaded, Saved, Republished, AtOnce;
    var e1 := Begun(e);
    if ev.Clears? { SetFormFrame(e1, ev.field, None); }
    else if ev.Uploads? { UploadedFrame(e1, ev.field, ev.hash, ev.hosted); }
    else if ev.Leaves? { SweepFrame(e1, In(e.saved)); }
    else if ev.SaveSettles? { if ev.ok && e.saving.Some? { SaveFrame(e1); } }
    else if ev.PublishSettles? { RepublishedFrame(e1); }
  }

  // ---- What an open deletion spares ----

  /**
   * A settled save that deletes a blob the published profile shows: publication
   * was off when Save was tapped, or the form was left and its ref no longer
   * follows the stored base.
   */
  predicate DecidedEarlier(e: Editor, ev: Event, h: Hash) {
    && ev == SaveSettles(true) && e.saving.Some? && h in e.saving.value.replaced
    && var s := e.saving.value;
       !s.published || (s.hasBase && e.left && h !in e.shown)
  }

  /**
   * While the profile is published with a stored base, an open deletion names a
   * blob that base shows exactly when the republish that replaces it has just
   * succeeded, or a save settles that had decided earlier. Only in that last
   * case is a blob deleted that the profile shows afterwards.
   */
  lemma ReplacedBlobsWaitForTheRepublish(e: Editor, ev: Event, h: Hash)
    requires SafeOk(e) && e.base.Some? && h in e.base.value
    ensures h in Step(e, ev).out.retired <==>
            (ev == PublishSettles(true) && h in e.pending) || DecidedEarlier(e, ev, h)
    ensures h in Step(e, ev).out.freed - e.out.freed && h in Live(Step(e, ev)) ==> DecidedEarlier(e, ev, h)
  {
    hide In, Retire, Sweep, SetForm, Uploaded, Saved, Republished;
    var e1 := Begun(e);
    if ev.Clears? { SetFormFrame(e1, ev.field, None); }
    else if ev.Uploads? { UploadedFrame(e1, ev.field, ev.hash, ev.hosted); }
    else if ev.Leaves? { SweepFrame(e1, In(e.saved)); }
    else if ev.SaveSettles? { if ev.ok && e.saving.Some? { SaveFrame(e1); } }
    else if ev.PublishSettles? { RepublishedFrame(e1); }
  }

  // ---- Whether what is stored stays alive ----

  /** Nothing the form shows, the save under way writes or the parent has stored is gone. */
  predicate Alive(e: Editor) {
    && e.out.gone !! In(e.out.stored) && (!e.left ==> e.out.gone !! In(e.form))
    && (e.saving.Some? ==> e.out.gone !! In(e.saving.value.next))
  }

  /**
   * No upload settles while a save or a republish is under way in the form, the
   * form is not edited or saved behind the prompt that covers it, and it is not
   * left during a save.
   */
  predicate Quiet(e: Editor, ev: Event) {
    && (ev.Uploads? ==> e.saving.None? && (e.left || (!e.prompt && !e.republishing)))
    && (ev.Clears? || ev.SaveTaps? ==> !e.prompt)
    && (ev.Leaves? ==> e.saving.None?)
  }

  /** During a save, and until the republish is answered, the form is what was saved. */
  predicate Settled(e: Editor) {
    && (e.saving.Some? ==> !e.left && e.form == e.saving.value.next)
    && (!e.left && (e.prompt || e.republishing) ==> e.form == e.out.stored && e.saving.None?)
  }

  ghost predicate Quiets(e: Editor, evs: seq<Event>) {
    evs == [] || (Quiets(e, evs[..|evs| - 1]) && Quiet(Run(e, evs[..|evs| - 1]), evs[|evs| - 1]))
  }

  lemma QuietUpload(e: Editor, f: Field, h: Hash, hosted: bool)
    requires SafeOk(e) && Alive(e) && e.saving.None? && e.out.asked == {}
    ensures var e' := Uploaded(e, f, h, hosted);
      e'.out.gone !! In(e.out.stored) && (!e.left ==> e'.out.gone !! In(e'.form))
  {
  }

  lemma QuietSave(e: Editor)
    requires SafeOk(e) && Alive(e) && Settled(e) && e.saving.Some? && e.saving.value.landed
    ensures var e' := Retire(Saved(e), e.saving.value);
      e'.out.gone !! In(e.out.stored) && e'.form == e.out.stored && e'.saving.None?
  {
    hide In, GoNow, HoldBack;
  }

  lemma QuietRepublish(e: Editor)
    requires Alive(e)
    ensures var e' := Republished(e);
      e'.out.gone !! In(e.out.stored) && (e.form == e.out.stored ==> e'.out.gone !! In(e'.form))
  {
    hide In;
  }

  lemma QuietStep(e: Editor, ev: Event)
    requires SafeOk(e) && Alive(e) && Settled(e) && Possible(e, ev) && Quiet(e, ev)
    ensures Alive(Step(e, ev)) && Settled(Step(e, ev))
  {
    hide In, Retire, Uploaded, Saved, Republished, SafeOk, IsDurable;
    var e1 := Begun(e);
    BegunSafe(e);
    if ev.Uploads? {
      QuietUpload(e1, ev.field, ev.hash, ev.hosted);
      UploadedFrame(e1, ev.field, ev.hash, ev.hosted);
    } else if ev.SaveSettles? {
      if ev.ok {
        QuietSave(e1);
        SaveFrame(e1);
      }
    } else if ev.PublishSettles? {
      QuietRepublish(e1);
      RepublishedFrame(e1);
    } else if ev.Clears? || ev.Leaves? {
      QuietSweeps(e1, ev);
    }
  }

  lemma BegunSafe(e: Editor)
    requires SafeOk(e)
    ensures SafeOk(Begun(e)) && (e.saving.None? ==> e.saved == e.out.stored)
  {
  }

  lemma QuietSweeps(e: Editor, ev: Event)
    requires SafeOk(e) && Alive(e) && Settled(e) && e.saving.None? && (ev.Clears? || ev.Leaves?)
    ensures ev.Clears? ==> var e' := SetForm(e, ev.field, None);
      e'.out.gone !! In(e.out.stored) && (!e.left ==> e'.out.gone !! In(e'.form))
    ensures ev.Leaves? ==> Sweep(e, In(e.saved)).out.gone !! In(e.out.stored)
  {
  }

  /**
   * The stored config stays alive over every editing session, and whatever
   * settles after it, in which no upload settles while a save or a republish is
   * under way, nothing is edited or saved behind the open prompt, and nobody
   * leaves during a save: no blob it names, or the form shows, was deleted by a
   * sweep or openly.
   */
  lemma {:induction false} QuietSessionsStayAlive(e: Editor, evs: seq<Event>)
    requires Init(e) && Possibles(e, evs) && Quiets(e, evs)
    ensures var s := Run(e, evs); SafeOk(s) && Settled(s) && Alive(s)
  {
    if evs != [] {
      var init, ev := evs[..|evs| - 1], evs[|evs| - 1];
      QuietSessionsStayAlive(e, init);
      hide SafeOk, Settled, Alive, Step;
      StepSafe(Run(e, init), ev);
      QuietStep(Run(e, init), ev);
    }
  }

  /** An upload that settles during a save pushes out a blob the save is writing. */
  predicate Bites(e: Editor, f: Field, h: Hash)
    requires e.saving.Some?
  {
    exists x <- In(e.saving.value.next) ::
      x != h && x in e.session && Other(e.form, f) != Some(x) && !IsDurable(e, x) && x !in In(e.out.stored)
  }

  /** A settled upload leaves a save under way alive exactly when it pushes out nothing that save writes. */
  lemma UploadDuringASave(e: Editor, f: Field, h: Hash, hosted: bool)
    requires SafeOk(e) && Alive(e) && e.saving.Some?
    ensures Alive(Step(e, Uploads(f, h, hosted))) <==> !Bites(e, f, h)
  {
  }

  /** A save writes only blobs that leaving now would spare. */
  predicate SparedByLeaving(e: Editor)
    requires e.saving.Some?
  {
    forall x <- In(e.saving.value.next) :: x in e.session ==> IsDurable(e, x) || x in In(e.out.stored)
  }

  /**
   * Leaving during a save keeps it alive exactly when it writes no fresh upload
   * (or is stored already); and so it is once that save has landed and settled.
   */
  lemma LeavingDuringASave(e: Editor)
    requires SafeOk(e) && Alive(e) && e.saving.Some? && !e.left
    ensures Alive(Step(e, Leaves)) <==> SparedByLeaving(e)
    ensures var s := Step(Step(Step(e, Leaves), Lands), SaveSettles(true));
      s.out.stored == e.saving.value.next && (s.out.gone !! In(s.out.stored) <==> SparedByLeaving(e))
  {
    hide Step, In;
    var e1 := Step(e, Leaves);
    LeavesAt(e);
    SettlesAt(e1);
  }

  lemma LeavesAt(e: Editor)
    requires Alive(e) && e.saving.Some? && !e.left
    ensures var e1 := Step(e, Leaves); e1.saving == e.saving && e1.left && e1.out.stored == e.out.stored
    ensures Alive(Step(e, Leaves)) <==> SparedByLeaving(e)
    ensures Step(e, Leaves).out.gone !! In(e.saving.value.next) <==> SparedByLeaving(e)
  {
  }

  /** The parent's delete spares what is stored. */
  lemma SweepSparesStored(e: Editor, keep: set<Hash>)
    ensures forall h <- In(e.out.stored) :: h in Sweep(e, keep).out.gone <==> h in e.out.gone
  {
  }

  lemma DeleteSparesStored(e: Editor, hashes: set<Hash>)
    ensures forall h <- In(e.out.stored) :: h in Delete(e, hashes).out.gone <==> h in e.out.gone
  {
  }

  lemma RetireSparesStored(e: Editor, s: Saving)
    ensures forall h <- In(e.out.stored) :: h in Retire(e, s).out.gone <==> h in e.out.gone
  {
    hide Delete, In, GoNow, HoldBack;
    DeleteFrame(e, GoNow(e, s));
    DeleteSparesStored(e, GoNow(e, s));
    DeleteSparesStored(Delete(e, GoNow(e, s)), HoldBack(e, s));
  }

  /** A save that lands and settles deletes nothing it wrote. */
  lemma SettlesAt(e: Editor)
    requires e.saving.Some?
    ensures var s := Step(Step(e, Lands), SaveSettles(true));
      && s.out.stored == e.saving.value.next
      && forall h <- In(s.out.stored) :: h in s.out.gone <==> h in e.out.gone
  {
    hide Sweep, Retire, In;
    var e1 := Begun(Step(e, Lands));
    var s := e1.saving.value;
    var e2 := e1.(saved := s.next, session := e1.session - In(s.next), saving := None);
    SweepFrame(e2, {});
    SweepSparesStored(e2, {});
    RetireFrame(Saved(e1), s);
    RetireSparesStored(Saved(e1), s);
  }

  /**
   * A settled save leaves the form alive exactly when each blob the form shows
   * was saved, or is neither a fresh upload nor one this save retires.
   */
  lemma SavingWhileTheFormMoved(e: Editor)
    requires SafeOk(e) && Alive(e) && e.saving.Some? && e.saving.value.landed && !e.left
    ensures Alive(Step(e, SaveSettles(true))) <==>
            forall x <- In(e.form) - In(e.saving.value.next) ::
              (x in e.session ==> x in e.open || x in e.shown) && x !in AtOnce(e, e.saving.value)
  {
    hide In;
  }

  /** What a save under way writes. */
  function Written(e: Editor): set<Hash> { if e.saving.Some? then In(e.saving.value.next) else {} }

  /** A republish keeps everything alive exactly when neither the form nor a save uses one of the old blobs again. */
  lemma RepublishingWhileTheFormMoved(e: Editor)
    requires SafeOk(e) && Alive(e) && e.republishing && !e.left
    ensures Alive(Step(e, PublishSettles(true))) <==> e.pending - In(e.out.stored) !! In(e.form) + Written(e)
  {
  }

  // ---- Where it fails ----

  /** A run that goes one event further. */
  lemma Further(e: Editor, evs: seq<Event>, ev: Event)
    requires Possibles(e, evs) && Possible(Run(e, evs), ev)
    ensures Possibles(e, evs + [ev]) && Run(e, evs + [ev]) == Step(Run(e, evs), ev)
  {
  }

  lemma Starts(e: Editor)
    ensures Possibles(e, []) && Run(e, []) == e
  {
  }

  /** A form opened on a profile with this banner, whose published base shows these blobs. */
  function Opened(banner: Option<Hash>, base: Option<set<Hash>>): Editor {
    var c := Slots(None, banner);
    Editor(c, c, c, {}, In(c), if base.Some? then base.value else {}, base, false, true, {}, false, false, None, false,
           Outside(c, c, {}, {}, {}, {}))
  }

  /** The form with the first banner picked, while it is being saved. */
  function Picked(): Editor { Opened(None, None).(form := Slots(None, Some("b1")), session := {"b1"}) }

  function Writing(): Editor {
    Picked().(saving := Some(Saving(Slots(None, Some("b1")), {}, false, false, false, true)))
  }

  lemma PickedThenWriting()
    ensures Step(Opened(None, None), Uploads(Banner, "b1", true)) == Picked()
    ensures Step(Picked(), SaveTaps({})) == Writing()
  {
    var e1 := Opened(None, None).(form := Slots(None, Some("b1")), session := {"b1"});
    assert Orphans(e1, Kept(e1)) == {};
    assert Replaced(Picked().config, Picked().form, {}) == {};
  }

  lemma SecondBannerPushesOut()
    ensures var e := Step(Writing(), Uploads(Banner, "b2", true));
      "b1" in e.out.gone && e.saving == Writing().saving && !e.left
  {
  }

  lemma TheSaveLands(e: Editor)
    requires "b1" in e.out.gone && e.saving == Writing().saving
    ensures var e1 := Step(e, Lands); Possible(e, Lands) && Possible(e1, SaveSettles(true))
    ensures var e2 := Step(Step(e, Lands), SaveSettles(true));
      "b1" in e2.out.gone && e2.out.stored.banner == Some("b1") && e2.saving.None?
  {
    hide In, GoNow, HoldBack;
  }

  /**
   * Save a new banner and let a second upload settle before the save lands: the
   * banner the parent stores is deleted. The Save button is not disabled while
   * an upload is under way.
   */
  lemma AnUploadCanKillASave() returns (evs: seq<Event>)
    ensures var e := Opened(None, None); Init(e) && Possibles(e, evs)
    ensures var s := Run(Opened(None, None), evs);
      s.saving.None? && s.out.stored.banner == Some("b1") && "b1" in s.out.gone
  {
    hide Step, Possibles, Run, Writing;
    var e := Opened(None, None);
    SecondBannerPushesOut();
    AllowedSoFar();
    TheSaveLands(Step(Writing(), Uploads(Banner, "b2", true)));
    evs := SavingTheFirstBanner();
    Further(e, evs, Uploads(Banner, "b2", true));
    evs := evs + [Uploads(Banner, "b2", true)];
    Further(e, evs, Lands);
    evs := evs + [Lands];
    Further(e, evs, SaveSettles(true));
    evs := evs + [SaveSettles(true)];
  }

  lemma AllowedSoFar()
    ensures Possible(Opened(None, None), Uploads(Banner, "b1", true)) && Possible(Picked(), SaveTaps({}))
    ensures Possible(Writing(), Uploads(Banner, "b2", true)) && Possible(Writing(), Leaves)
    ensures Possible(Writing(), Uploads(Picture, "p1", true))
  {
  }

  /** The first banner is picked and being saved. */
  lemma SavingTheFirstBanner() returns (evs: seq<Event>)
    ensures var e := Opened(None, None); Init(e) && Possibles(e, evs) && Run(e, evs) == Writing()
  {
    hide Step, Possibles, Picked, Writing;
    var e := Opened(None, None);
    PickedThenWriting();
    Starts(e);
    AllowedSoFar();
    evs := [];
    Further(e, evs, Uploads(Banner, "b1", true));
    evs := evs + [Uploads(Banner, "b1", true)];
    Further(e, evs, SaveTaps({}));
    evs := evs + [SaveTaps({})];
  }

  lemma LeavingSweepsIt()
    ensures var e := Step(Writing(), Leaves); "b1" in e.out.gone && e.saving == Writing().saving
  {
  }

  /** Leave the form while a new banner is being saved: the banner the parent stores is deleted. */
  lemma LeavingCanKillASave() returns (evs: seq<Event>)
    ensures var e := Opened(None, None); Init(e) && Possibles(e, evs)
    ensures var s := Run(Opened(None, None), evs);
      s.left && s.saving.None? && s.out.stored.banner == Some("b1") && "b1" in s.out.gone
  {
    hide Step, Possibles, Run, Writing;
    var e := Opened(None, None);
    LeavingSweepsIt();
    AllowedSoFar();
    TheSaveLands(Step(Writing(), Leaves));
    LeftStays(Writing());
    evs := SavingTheFirstBanner();
    Further(e, evs, Leaves);
    evs := evs + [Leaves];
    Further(e, evs, Lands);
    evs := evs + [Lands];
    Further(e, evs, SaveSettles(true));
    evs := evs + [SaveSettles(true)];
  }

  lemma LeftStays(e: Editor)
    ensures Step(Step(Step(e, Leaves), Lands), SaveSettles(true)).left
  {
    hide Sweep, Retire;
    var e1 := Begun(Step(Step(e, Leaves), Lands));
    if e1.saving.Some? {
      SaveFrame(e1);
    }
  }

  /** A picture picked while the first banner is being saved. */
  function PickedMeanwhile(): Editor {
    Writing().(form := Slots(Some("p1"), Some("b1")), session := {"b1", "p1"})
  }

  lemma MeanwhileIs()
    ensures Step(Writing(), Uploads(Picture, "p1", true)) == PickedMeanwhile()
  {
    var e1 := PickedMeanwhile();
    assert Orphans(e1, Kept(e1)) == {};
  }

  lemma TheSaveSweepsIt()
    ensures var e1 := Step(PickedMeanwhile(), Lands);
      Possible(PickedMeanwhile(), Lands) && Possible(e1, SaveSettles(true))
    ensures var s := Step(Step(PickedMeanwhile(), Lands), SaveSettles(true));
      !s.left && s.saving.None? && s.form.picture == Some("p1") && "p1" in s.out.gone
  {
    hide GoNow, HoldBack;
  }

  /** Let an upload settle while a save is under way: once that save settles the new blob is gone and still shown. */
  lemma AnUploadCanLoseItself() returns (evs: seq<Event>)
    ensures var e := Opened(None, None); Init(e) && Possibles(e, evs)
    ensures var s := Run(Opened(None, None), evs);
      !s.left && s.saving.None? && s.form.picture == Some("p1") && "p1" in s.out.gone
  {
    hide Step, Possibles, Run, PickedMeanwhile, Writing;
    var e := Opened(None, None);
    MeanwhileIs();
    AllowedSoFar();
    TheSaveSweepsIt();
    evs := SavingTheFirstBanner();
    Further(e, evs, Uploads(Picture, "p1", true));
    evs := evs + [Uploads(Picture, "p1", true)];
    Further(e, evs, Lands);
    evs := evs + [Lands];
    Further(e, evs, SaveSettles(true));
    evs := evs + [SaveSettles(true)];
  }

  /** The published banner cleared while publication is off, and the save of that under way. */
  function Clearing(): Editor { Opened(Some("b0"), Some({"b0"})).(form := Slots(None, None)) }

  function Dropping(): Editor {
    Clearing().(saving := Some(Saving(Slots(None, None), {"b0"}, false, false, true, true)))
  }

  lemma ClearedThenDropping()
    ensures Step(Opened(Some("b0"), Some({"b0"})), Clears(Banner)) == Clearing()
    ensures Step(Clearing(), SaveTaps({"b0"})) == Dropping()
    ensures var e := Step(Step(Dropping(), Toggles(true, true)), Lands);
      e == Dropping().(enabled := true, saving := e.saving, out := e.out)
      && e.saving == Some(Dropping().saving.value.(landed := true))
      && e.out.stored == Slots(None, None) && e.out.freed == {}
  {
    var e1 := Opened(Some("b0"), Some({"b0"})).(form := Slots(None, None));
    assert Orphans(e1, Kept(e1)) == {};
    assert Replaced(Clearing().config, Clearing().form, {"b0"}) == {"b0"};
  }

  lemma TheDropSettles(e: Editor)
    requires e == Dropping().(enabled := true, saving := e.saving, out := e.out)
    requires e.saving == Some(Dropping().saving.value.(landed := true))
    requires e.out.stored == Slots(None, None) && e.out.freed == {}
    ensures var s := Step(e, SaveSettles(true)); "b0" in s.out.freed && s.enabled && s.base == Some({"b0"})
  {
  }

  /**
   * Clear the banner the published base shows while publication is off, save,
   * and switch publication on before the save lands: the banner is deleted
   * although the profile is published and shows it.
   */
  lemma SwitchingOnDuringASaveDeletesALiveBlob() returns (evs: seq<Event>)
    ensures var e := Opened(Some("b0"), Some({"b0"})); Init(e) && Possibles(e, evs)
    ensures var s := Run(Opened(Some("b0"), Some({"b0"})), evs); s.enabled && "b0" in s.out.freed && "b0" in Live(s)
  {
    hide Step, Possibles;
    var e := Opened(Some("b0"), Some({"b0"}));
    ClearedThenDropping();
    TheDropSettles(Step(Step(Dropping(), Toggles(true, true)), Lands));
    TogglePossible();
    Starts(e);
    evs := [];
    Further(e, evs, Clears(Banner));
    evs := evs + [Clears(Banner)];
    Further(e, evs, SaveTaps({"b0"}));
    evs := evs + [SaveTaps({"b0"})];
    Further(e, evs, Toggles(true, true));
    evs := evs + [Toggles(true, true)];
    Further(e, evs, Lands);
    evs := evs + [Lands];
    Further(e, evs, SaveSettles(true));
    evs := evs + [SaveSettles(true)];
  }

  lemma TogglePossible()
    ensures Possible(Step(Dropping(), Toggles(true, true)), Lands)
  {
  }
}
