/**
 * The merge of two connected-apps records (src/hooks/useChildActivityPublisher.ts,
 * `mergeConnectedApps`): a union by app id, newest first, 64 at most.
 */
module ConnectedApps {
  import opened Wrappers

  const APPS_MAX: nat := 64

  type AppId = string

  datatype App = App(appId: AppId, title: string, origin: string, firstSeen: int, lastUsed: int)

  function Min(x: int, y: int): int { if x <= y then x else y }

  function Max(x: int, y: int): int { if x >= y then x else y }

  /** Two entries of one app: the newer one's fields (the later one on a tie), the widest times. */
  function Combined(prev: App, x: App): App {
    (if x.lastUsed >= prev.lastUsed then x else prev).(
      firstSeen := Min(prev.firstSeen, x.firstSeen), lastUsed := Max(prev.lastUsed, x.lastUsed))
  }

  /** An insertion-ordered map from id to app, as a sequence. */
  function At(m: seq<App>, id: AppId): Option<App> {
    if m == [] then None else if m[0].appId == id then Some(m[0]) else At(m[1..], id)
  }

  predicate Unique(m: seq<App>) { m == [] || (At(m[1..], m[0].appId).None? && Unique(m[1..])) }

  function Put(m: seq<App>, x: App): seq<App> {
    if m == [] then [x]
    else if m[0].appId == x.appId then [Combined(m[0], x)] + m[1..]
    else [m[0]] + Put(m[1..], x)
  }

  function Folded(xs: seq<App>): seq<App> {
    if xs == [] then [] else Put(Folded(xs[..|xs| - 1]), xs[|xs| - 1])
  }

  /** The merge before it is sorted and capped. */
  function Union(a: seq<App>, b: seq<App>): seq<App> { Folded(a + b) }

  function Insert(s: seq<App>, x: App): seq<App> {
    if s == [] then [x] else if s[0].lastUsed >= x.lastUsed then [s[0]] + Insert(s[1..], x) else [x] + s
  }

  /** Newest first; entries used at the same time keep their order. */
  function ByUse(m: seq<App>): seq<App> {
    if m == [] then [] else Insert(ByUse(m[..|m| - 1]), m[|m| - 1])
  }

  function Cap(s: seq<App>): seq<App> { if |s| <= APPS_MAX then s else s[..APPS_MAX] }

  function Merge(a: seq<App>, b: seq<App>): seq<App> { Cap(ByUse(Union(a, b))) }

  /** The merge as the source computes it: one pass over both lists into a map. */
  method MergeConnectedApps(a: seq<App>, b: seq<App>) returns (merged: seq<App>)
    ensures merged == Merge(a, b)
  {
    var all := a + b;
    var byId: seq<App> := [];
    for i := 0 to |all|
      invariant byId == Folded(all[..i])
    {
      var x := all[i];
      var prev := At(byId, x.appId);
      assert all[..i + 1][..i] == all[..i];
      if prev.None? {
        AppendNew(byId, x);
        byId := byId + [x];
      } else {
        byId := Put(byId, x);
      }
    }
    assert all[..|all|] == all;
    merged := Cap(ByUse(byId));
  }

  lemma {:induction false} AppendNew(m: seq<App>, x: App)
    requires At(m, x.appId).None?
    ensures Put(m, x) == m + [x]
  {
    if m != [] { AppendNew(m[1..], x); }
  }

  // ---- What an app's entries say together ----

  function LaterOf(o: Option<int>, p: Option<int>): Option<int> {
    if o.None? then p else if p.None? then o else Some(Max(o.value, p.value))
  }

  function EarlierOf(o: Option<int>, p: Option<int>): Option<int> {
    if o.None? then p else if p.None? then o else Some(Min(o.value, p.value))
  }

  function LastUsed(xs: seq<App>, id: AppId): Option<int> {
    if xs == [] then None
    else LaterOf(LastUsed(xs[..|xs| - 1], id), if xs[|xs| - 1].appId == id then Some(xs[|xs| - 1].lastUsed) else None)
  }

  function FirstSeen(xs: seq<App>, id: AppId): Option<int> {
    if xs == [] then None
    else EarlierOf(FirstSeen(xs[..|xs| - 1], id),
                   if xs[|xs| - 1].appId == id then Some(xs[|xs| - 1].firstSeen) else None)
  }

  /** The last entry of an app with its largest `lastUsed`. */
  predicate IsNewest(xs: seq<App>, id: AppId, i: nat) {
    && i < |xs| && xs[i].appId == id
    && (forall j :: 0 <= j < |xs| && xs[j].appId == id ==> xs[j].lastUsed <= xs[i].lastUsed)
    && (forall j :: i < j < |xs| && xs[j].appId == id ==> xs[j].lastUsed < xs[i].lastUsed)
  }

  lemma {:induction false} PutAt(m: seq<App>, x: App, id: AppId)
    requires Unique(m)
    ensures Unique(Put(m, x))
    ensures At(Put(m, x), id) ==
            if x.appId != id then At(m, id) else if At(m, id).None? then Some(x) else Some(Combined(At(m, id).value, x))
    ensures At(m, id).Some? ==> At(m, id).value.appId == id
  {
    if m != [] {
      PutAt(m[1..], x, id);
      PutAt(m[1..], x, m[0].appId);
    }
  }

  lemma {:induction false} FoldedStats(xs: seq<App>, id: AppId)
    ensures var r := At(Folded(xs), id);
      && Unique(Folded(xs))
      && (r.None? ==> LastUsed(xs, id).None? && FirstSeen(xs, id).None?)
      && (r.Some? ==>
            r.value.appId == id && LastUsed(xs, id) == Some(r.value.lastUsed)
            && FirstSeen(xs, id) == Some(r.value.firstSeen))
  {
    if xs != [] {
      FoldedStats(xs[..|xs| - 1], id);
      PutAt(Folded(xs[..|xs| - 1]), xs[|xs| - 1], id);
    }
  }

  predicate Mentions(xs: seq<App>, id: AppId) { exists x <- xs :: x.appId == id }

  /** One more entry either leaves the newest where it was or becomes it. */
  lemma NewestSnoc(init: seq<App>, x: App, id: AppId, n: nat)
    requires Mentions(init, id) ==> IsNewest(init, id, n)
    ensures Mentions(init + [x], id) <==> Mentions(init, id) || x.appId == id
    ensures Mentions(init, id) && (x.appId != id || x.lastUsed < init[n].lastUsed) ==> IsNewest(init + [x], id, n)
    ensures x.appId == id && (!Mentions(init, id) || x.lastUsed >= init[n].lastUsed) ==>
      IsNewest(init + [x], id, |init|)
  {
  }

  lemma {:induction false} FoldedNewest(xs: seq<App>, id: AppId) returns (newest: nat)
    ensures var r := At(Folded(xs), id);
      && (r.Some? <==> Mentions(xs, id))
      && (r.Some? ==> IsNewest(xs, id, newest))
      && (r.Some? ==> newest < |xs| && r.value == xs[newest].(firstSeen := r.value.firstSeen))
  {
    hide Mentions, IsNewest, Unique, Put, FirstSeen, LastUsed;
    newest := 0;
    if xs != [] {
      var n := |xs| - 1;
      var init, x := xs[..n], xs[n];
      newest := FoldedNewest(init, id);
      FoldedStats(init, id);
      PutAt(Folded(init), x, id);
      assert xs == init + [x];
      NewestSnoc(init, x, id, newest);
      if x.appId == id && (At(Folded(init), id).None? || x.lastUsed >= At(Folded(init), id).value.lastUsed) {
        newest := n;
      }
    } else {
      NoMention(id);
    }
  }

  lemma NoMention(id: AppId)
    ensures !Mentions([], id)
  {
  }

  /**
   * Each merged app: present exactly when one of its entries is, with the
   * smallest `firstSeen`, the largest `lastUsed` and the fields of its newest entry.
   */
  lemma FoldedAt(xs: seq<App>, id: AppId) returns (newest: nat)
    ensures var r := At(Folded(xs), id);
      && Unique(Folded(xs))
      && (r.Some? <==> Mentions(xs, id))
      && (r.None? ==> LastUsed(xs, id).None? && FirstSeen(xs, id).None?)
      && (r.Some? ==>
            r.value.appId == id && LastUsed(xs, id) == Some(r.value.lastUsed)
            && FirstSeen(xs, id) == Some(r.value.firstSeen))
      && (r.Some? ==> IsNewest(xs, id, newest) && r.value == xs[newest].(firstSeen := r.value.firstSeen))
  {
    hide Folded, Unique, At, FirstSeen, LastUsed;
    FoldedStats(xs, id);
    newest := FoldedNewest(xs, id);
  }

  // ---- Sorting and capping ----

  predicate Sorted(s: seq<App>) { forall i, j :: 0 <= i < j < |s| ==> s[i].lastUsed >= s[j].lastUsed }

  lemma {:induction false} InsertAt(s: seq<App>, x: App, id: AppId)
    requires Unique(s) && At(s, x.appId).None?
    ensures Unique(Insert(s, x)) && |Insert(s, x)| == |s| + 1
    ensures At(Insert(s, x), id) == if id == x.appId then Some(x) else At(s, id)
  {
    if s != [] {
      InsertAt(s[1..], x, id);
      InsertAt(s[1..], x, s[0].appId);
      assert ([x] + s)[1..] == s;
    }
  }

  lemma {:induction false} InsertSorts(s: seq<App>, x: App)
    requires Sorted(s)
    ensures Sorted(Insert(s, x)) && forall e <- Insert(s, x) :: e == x || e in s
  {
    if s != [] && s[0].lastUsed >= x.lastUsed {
      InsertSorts(s[1..], x);
      assert forall e <- s[1..] :: e.lastUsed <= s[0].lastUsed;
    } else if s != [] {
      assert forall e <- s :: e.lastUsed <= s[0].lastUsed;
    }
  }

  lemma {:induction false} Prefix(m: seq<App>, id: AppId)
    requires Unique(m) && m != []
    ensures var init := m[..|m| - 1]; var x := m[|m| - 1];
      && Unique(init) && At(init, x.appId).None?
      && At(m, id) == if id == x.appId then Some(x) else At(init, id)
  {
    var init := m[..|m| - 1];
    if |m| > 1 {
      Prefix(m[1..], id);
      Prefix(m[1..], m[0].appId);
      assert m[1..][..|m| - 2] == init[1..];
      AtIn(m[1..], m[0].appId);
    }
  }

  lemma {:induction false} AtIn(m: seq<App>, id: AppId)
    ensures At(m, id).Some? <==> exists x <- m :: x.appId == id
    ensures At(m, id).Some? ==> At(m, id).value in m && At(m, id).value.appId == id
  {
    if m != [] {
      AtIn(m[1..], id);
      assert forall x <- m[1..] :: x in m;
    }
  }

  lemma {:induction false} ByUseAt(m: seq<App>, id: AppId)
    requires Unique(m)
    ensures var s := ByUse(m); Unique(s) && Sorted(s) && |s| == |m| && At(s, id) == At(m, id)
  {
    if m != [] {
      var init, x := m[..|m| - 1], m[|m| - 1];
      Prefix(m, id);
      ByUseAt(init, id);
      ByUseAt(init, x.appId);
      InsertAt(ByUse(init), x, id);
      InsertSorts(ByUse(init), x);
    }
  }

  function Ids(s: seq<App>): set<AppId> { set x | x in s :: x.appId }

  lemma {:induction false} IdsCount(s: seq<App>)
    requires Unique(s)
    ensures |Ids(s)| == |s|
  {
    if s != [] {
      IdsCount(s[1..]);
      AtIn(s[1..], s[0].appId);
      assert Ids(s) == {s[0].appId} + Ids(s[1..]);
    }
  }

  lemma {:induction false} FrontAt(s: seq<App>, n: nat, id: AppId)
    requires Unique(s) && n <= |s|
    ensures Unique(s[..n]) && (At(s[..n], id).Some? ==> At(s[..n], id) == At(s, id))
  {
    if n > 0 {
      FrontAt(s[1..], n - 1, id);
      FrontAt(s[1..], n - 1, s[0].appId);
      assert s[..n][1..] == s[1..][..n - 1];
    }
  }

  /** Where an app stands: everything strictly newer is in front of it. */
  lemma Position(s: seq<App>, id: AppId) returns (p: nat)
    requires Unique(s) && Sorted(s) && At(s, id).Some?
    ensures p < |s| && s[p] == At(s, id).value
    ensures forall y <- s :: y.lastUsed > s[p].lastUsed ==> y in s[..p]
    ensures forall n :: 0 <= n <= p ==> At(s[..n], id).None?
  {
    AtIn(s, id);
    p :| 0 <= p < |s| && s[p] == At(s, id).value;
    forall n | 0 <= n <= p ensures At(s[..n], id).None? {
      if At(s[..n], id).Some? { Twice(s, n, p, id); }
    }
    forall y | y in s && y.lastUsed > s[p].lastUsed ensures y in s[..p] {
      var i :| 0 <= i < |s| && s[i] == y;
      assert i < p;
    }
  }

  lemma {:induction false} Twice(s: seq<App>, n: nat, p: nat, id: AppId)
    requires Unique(s) && n <= p < |s| && s[p].appId == id
    ensures At(s[..n], id).None?
  {
    if n > 0 {
      assert s[..n][1..] == s[1..][..n - 1];
      Twice(s[1..], n - 1, p - 1, id);
      AtIn(s[1..], s[0].appId);
      assert s[1..][p - 1] == s[p];
    }
  }

  /** Sixty-four strictly newer apps push an app out. */
  lemma Crowded(s: seq<App>, ids: set<AppId>, id: AppId)
    requires Unique(s) && Sorted(s) && At(s, id).Some? && |ids| >= APPS_MAX
    requires forall y <- ids :: At(s, y).Some? && At(s, y).value.lastUsed > At(s, id).value.lastUsed
    ensures At(Cap(s), id).None?
  {
    var p := Position(s, id);
    FrontAt(s, p, id);
    IdsCount(s[..p]);
    forall y | y in ids ensures y in Ids(s[..p]) {
      AtIn(s, y);
      assert At(s, y).value in s[..p];
    }
    Fewer(ids, Ids(s[..p]));
  }

  lemma {:induction false} Fewer<T>(a: set<T>, b: set<T>)
    requires a <= b
    ensures |a| <= |b|
  {
    if a != {} {
      var x :| x in a;
      Fewer(a - {x}, b - {x});
    }
  }

  /** An app is pushed out only when the cap is full of apps at least as new. */
  lemma PushedOut(s: seq<App>, id: AppId)
    requires Unique(s) && Sorted(s) && At(s, id).Some? && At(Cap(s), id).None?
    ensures |Ids(Cap(s))| == APPS_MAX == |Cap(s)|
    ensures forall y <- Ids(Cap(s)) :: y != id && At(s, y).Some? && At(s, y).value.lastUsed >= At(s, id).value.lastUsed
  {
    assert |s| > APPS_MAX;
    FrontAt(s, APPS_MAX, id);
    IdsCount(Cap(s));
    AtIn(s, id);
    var p :| 0 <= p < |s| && s[p] == At(s, id).value;
    if p < APPS_MAX {
      assert Cap(s)[p].appId == id;
      AtIn(Cap(s), id);
    }
    forall y | y in Ids(Cap(s))
      ensures y != id && At(s, y).Some? && At(s, y).value.lastUsed >= At(s, id).value.lastUsed
    {
      AtIn(Cap(s), y);
      AtIn(Cap(s), id);
      FrontAt(s, APPS_MAX, y);
      var i :| 0 <= i < |Cap(s)| && Cap(s)[i] == At(Cap(s), y).value;
      assert s[i] == Cap(s)[i];
    }
  }

  lemma CapAt(s: seq<App>, id: AppId)
    requires Unique(s) && Sorted(s)
    ensures Unique(Cap(s)) && Sorted(Cap(s)) && |Cap(s)| <= APPS_MAX
    ensures At(Cap(s), id).Some? ==> At(Cap(s), id) == At(s, id)
  {
    if |s| > APPS_MAX { FrontAt(s, APPS_MAX, id); }
  }

  // ---- The merge ----

  /**
   * The merged list: unique ids, newest first, 64 at most. A kept app has the
   * smallest `firstSeen`, the largest `lastUsed` and the newest entry's fields;
   * an app is missing only when it is in neither list, or the list is full of
   * apps at least as recently used.
   */
  lemma MergeIsTheNewest64(a: seq<App>, b: seq<App>, id: AppId) returns (newest: nat)
    ensures var m := Merge(a, b); Unique(m) && Sorted(m) && |m| <= APPS_MAX
    ensures var r := At(Merge(a, b), id); var all := a + b;
      r.Some? ==> IsNewest(all, id, newest) && r.value == all[newest].(firstSeen := r.value.firstSeen)
                  && FirstSeen(all, id) == Some(r.value.firstSeen)
    ensures var m := Merge(a, b); At(m, id).None? && LastUsed(a + b, id).Some? ==>
      |m| == APPS_MAX && forall x <- m :: x.lastUsed >= LastUsed(a + b, id).value
  {
    newest := FoldedAt(a + b, id);
    var s := ByUse(Union(a, b));
    ByUseAt(Union(a, b), id);
    CapAt(s, id);
    if At(s, id).Some? && At(Cap(s), id).None? {
      PushedOut(s, id);
      forall x | x in Cap(s) ensures x.lastUsed >= LastUsed(a + b, id).value {
        assert x.appId in Ids(Cap(s));
        InUnique(Cap(s), x);
        CapAt(s, x.appId);
      }
    }
  }

  lemma {:induction false} InUnique(s: seq<App>, x: App)
    requires Unique(s) && x in s
    ensures At(s, x.appId) == Some(x)
  {
    if s[0] != x {
      AtIn(s[1..], s[0].appId);
      InUnique(s[1..], x);
    }
  }

  /** A publish drops a remotely recorded app only because of the cap: 64 apps at least as recently used are kept. */
  lemma PublishDropsOnlyByCap(remote: seq<App>, local: seq<App>, app: App)
    requires app in remote && At(Merge(remote, local), app.appId).None?
    ensures |Merge(remote, local)| == APPS_MAX && forall x <- Merge(remote, local) :: x.lastUsed >= app.lastUsed
  {
    var n := MergeIsTheNewest64(remote, local, app.appId);
    var k := FoldedAt(remote + local, app.appId);
    assert app in remote + local;
    var i :| 0 <= i < |remote + local| && (remote + local)[i] == app;
    assert (remote + local)[i].lastUsed <= (remote + local)[k].lastUsed;
  }

  // ---- Its algebra ----

  lemma {:induction false} StatsJoin(a: seq<App>, b: seq<App>, id: AppId)
    ensures LastUsed(a + b, id) == LaterOf(LastUsed(a, id), LastUsed(b, id))
    ensures FirstSeen(a + b, id) == EarlierOf(FirstSeen(a, id), FirstSeen(b, id))
  {
    if b == [] {
      assert a + b == a;
    } else {
      StatsJoin(a, b[..|b| - 1], id);
      assert (a + b)[..|a + b| - 1] == a + b[..|b| - 1];
    }
  }

  /** In a list without repeats an app's entry is all there is to say about it. */
  lemma {:induction false} StatsOfUnique(m: seq<App>, id: AppId)
    requires Unique(m)
    ensures LastUsed(m, id) == if At(m, id).Some? then Some(At(m, id).value.lastUsed) else None
    ensures FirstSeen(m, id) == if At(m, id).Some? then Some(At(m, id).value.firstSeen) else None
  {
    if m != [] {
      Prefix(m, id);
      StatsOfUnique(m[..|m| - 1], id);
    }
  }

  lemma UnionStats(a: seq<App>, b: seq<App>, id: AppId)
    ensures Unique(Union(a, b))
    ensures LastUsed(Union(a, b), id) == LaterOf(LastUsed(a, id), LastUsed(b, id))
    ensures FirstSeen(Union(a, b), id) == EarlierOf(FirstSeen(a, id), FirstSeen(b, id))
  {
    var n := FoldedAt(a + b, id);
    StatsOfUnique(Union(a, b), id);
    StatsJoin(a, b, id);
  }

  /** Before the cap, merging is commutative and associative in `firstSeen` and `lastUsed`. */
  lemma UnionIsCommutativeAndAssociative(a: seq<App>, b: seq<App>, c: seq<App>, id: AppId)
    ensures LastUsed(Union(a, b), id) == LastUsed(Union(b, a), id)
    ensures FirstSeen(Union(a, b), id) == FirstSeen(Union(b, a), id)
    ensures LastUsed(Union(Union(a, b), c), id) == LastUsed(Union(a, Union(b, c)), id)
    ensures FirstSeen(Union(Union(a, b), c), id) == FirstSeen(Union(a, Union(b, c)), id)
  {
    UnionStats(a, b, id);
    UnionStats(b, a, id);
    UnionStats(b, c, id);
    UnionStats(Union(a, b), c, id);
    UnionStats(a, Union(b, c), id);
  }

  // ---- Capping early ----

  /** No two apps of the list were last used at the same time. */
  predicate DistinctTimes(m: seq<App>) {
    forall i, j :: 0 <= i < j < |m| ==> m[i].lastUsed != m[j].lastUsed
  }

  /** The two sides of capping early: `x` merged in full with `c`, and its 64 newest merged with `c`. */
  function Full(x: seq<App>, c: seq<App>): seq<App> { ByUse(Union(x, c)) }

  function Early(x: seq<App>, c: seq<App>): seq<App> { ByUse(Union(Cap(ByUse(x)), c)) }

  lemma SideFacts(x: seq<App>, c: seq<App>, id: AppId)
    requires Unique(x)
    ensures Unique(Full(x, c)) && Sorted(Full(x, c)) && Unique(Early(x, c)) && Sorted(Early(x, c))
    ensures LastUsed(Full(x, c), id) == LaterOf(LastUsed(x, id), LastUsed(c, id))
    ensures LastUsed(Early(x, c), id) == LaterOf(LastUsed(Cap(ByUse(x)), id), LastUsed(c, id))
    ensures LastUsed(Cap(ByUse(x)), id).Some? ==> LastUsed(Cap(ByUse(x)), id) == LastUsed(x, id)
  {
    ByUseAt(x, id);
    CapAt(ByUse(x), id);
    StatsOfUnique(x, id);
    StatsOfUnique(Cap(ByUse(x)), id);
    UnionStats(x, c, id);
    UnionStats(Cap(ByUse(x)), c, id);
    ByUseAt(Union(x, c), id);
    ByUseAt(Union(Cap(ByUse(x)), c), id);
    StatsOfUnique(Union(x, c), id);
    StatsOfUnique(Union(Cap(ByUse(x)), c), id);
    StatsOfUnique(Full(x, c), id);
    StatsOfUnique(Early(x, c), id);
  }

  lemma DistinctIds(m: seq<App>, x: AppId, y: AppId)
    requires Unique(m) && DistinctTimes(m) && x != y && At(m, x).Some? && At(m, y).Some?
    ensures At(m, x).value.lastUsed != At(m, y).value.lastUsed
  {
    AtIn(m, x);
    AtIn(m, y);
    var i :| 0 <= i < |m| && m[i] == At(m, x).value;
    var j :| 0 <= j < |m| && m[j] == At(m, y).value;
  }

  /** An app that survives the full merge is in the early one, as recently used. */
  lemma SurvivorIsUnchanged(x: seq<App>, c: seq<App>, id: AppId)
    requires Unique(x) && DistinctTimes(Full(x, c)) && At(Cap(Full(x, c)), id).Some?
    ensures At(Early(x, c), id).Some? && LastUsed(Early(x, c), id) == LastUsed(Full(x, c), id)
  {
    hide Full, Early, Folded, ByUse, Cap, Unique, Sorted, DistinctTimes, LastUsed;
    var full, lean := Full(x, c), Early(x, c);
    SideFacts(x, c, id);
    CapAt(full, id);
    StatsOfUnique(full, id);
    StatsOfUnique(lean, id);
    if LastUsed(lean, id) != LastUsed(full, id) {
      var sorted := ByUse(x);
      ByUseAt(x, id);
      StatsOfUnique(x, id);
      CapAt(sorted, id);
      StatsOfUnique(Cap(sorted), id);
      PushedOut(sorted, id);
      forall y | y in Ids(Cap(sorted))
        ensures At(full, y).Some? && At(full, y).value.lastUsed > At(full, id).value.lastUsed
      {
        ByUseAt(x, y);
        StatsOfUnique(x, y);
        SideFacts(x, c, y);
        StatsOfUnique(full, y);
        DistinctIds(full, y, id);
      }
      Crowded(full, Ids(Cap(sorted)), id);
    }
  }

  /** The early merge never shows an app as more recently used than the full one. */
  lemma EarlyIsLeaner(x: seq<App>, c: seq<App>, id: AppId)
    requires Unique(x)
    ensures At(Early(x, c), id).Some? ==>
              At(Full(x, c), id).Some? && At(Full(x, c), id).value.lastUsed >= At(Early(x, c), id).value.lastUsed
  {
    hide Full, Early, Folded, ByUse, Cap, Unique, LastUsed;
    SideFacts(x, c, id);
    StatsOfUnique(Full(x, c), id);
    StatsOfUnique(Early(x, c), id);
  }

  lemma SurvivorSurvives(x: seq<App>, c: seq<App>, id: AppId)
    requires Unique(x) && DistinctTimes(Full(x, c)) && At(Cap(Full(x, c)), id).Some?
    ensures At(Cap(Early(x, c)), id).Some?
  {
    hide Full, Early, Folded, ByUse, Unique, Sorted, DistinctTimes, LastUsed, Cap;
    var full, lean := Full(x, c), Early(x, c);
    SideFacts(x, c, id);
    SurvivorIsUnchanged(x, c, id);
    CapAt(full, id);
    StatsOfUnique(full, id);
    StatsOfUnique(lean, id);
    if At(Cap(lean), id).None? {
      PushedOut(lean, id);
      forall y | y in Ids(Cap(lean))
        ensures At(full, y).Some? && At(full, y).value.lastUsed > At(full, id).value.lastUsed
      {
        EarlyIsLeaner(x, c, y);
        DistinctIds(full, y, id);
      }
      Crowded(full, Ids(Cap(lean)), id);
    }
  }

  lemma OnlySurvivorsSurvive(x: seq<App>, c: seq<App>, id: AppId)
    requires Unique(x) && DistinctTimes(Full(x, c)) && At(Cap(Early(x, c)), id).Some?
    ensures At(Cap(Full(x, c)), id).Some?
  {
    hide Full, Early, Folded, ByUse, Unique, Sorted, DistinctTimes, LastUsed, Cap;
    var full, lean := Full(x, c), Early(x, c);
    SideFacts(x, c, id);
    CapAt(lean, id);
    EarlyIsLeaner(x, c, id);
    if At(Cap(full), id).None? {
      PushedOut(full, id);
      forall y | y in Ids(Cap(full))
        ensures At(lean, y).Some? && At(lean, y).value.lastUsed > At(lean, id).value.lastUsed
      {
        CapAt(full, y);
        AtIn(Cap(full), y);
        SurvivorIsUnchanged(x, c, y);
        StatsOfUnique(full, y);
        StatsOfUnique(lean, y);
        DistinctIds(full, y, id);
      }
      Crowded(lean, Ids(Cap(full)), id);
    }
  }

  /**
   * When no two apps of the whole union were last used at the same time,
   * capping one merge before the next changes neither which apps survive nor
   * when they were last used.
   */
  lemma CappingEarlyIsHarmless(a: seq<App>, b: seq<App>, c: seq<App>, id: AppId)
    requires DistinctTimes(ByUse(Union(Union(a, b), c)))
    ensures var early, late := Merge(Merge(a, b), c), Cap(ByUse(Union(Union(a, b), c)));
      && (At(early, id).Some? <==> At(late, id).Some?)
      && (At(early, id).Some? ==> At(early, id).value.lastUsed == At(late, id).value.lastUsed)
  {
    hide Folded, ByUse, Unique, Sorted, DistinctTimes, LastUsed, Cap;
    var x := Union(a, b);
    UnionStats(a, b, id);
    SideFacts(x, c, id);
    CapAt(Full(x, c), id);
    CapAt(Early(x, c), id);
    if At(Cap(Full(x, c)), id).Some? {
      SurvivorSurvives(x, c, id);
      SurvivorIsUnchanged(x, c, id);
      StatsOfUnique(Full(x, c), id);
      StatsOfUnique(Early(x, c), id);
    } else if At(Cap(Early(x, c)), id).Some? {
      OnlySurvivorsSurvive(x, c, id);
    }
  }
}
