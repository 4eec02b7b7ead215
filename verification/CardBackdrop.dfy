/**
 * The card backdrop cache (src/hooks/useCardBackdrop.ts): one object URL per
 * identity, with reads and writes that race. A load is cut at its promise
 * steps: reading the stored picture, holding the URL made from it, settled.
 */
module CardBackdrop {
  import opened Wrappers

  type Pubkey = string
  type Url = string

  datatype Load = Reading | Holding(url: Option<Url>) | Settled

  /** `created` and `revoked` are every object URL made and released, in order. */
  datatype Cache = Cache(urls: map<Pubkey, Option<Url>>, loads: map<Pubkey, Load>, created: set<Url>, revoked: seq<Url>)

  const EMPTY: Cache := Cache(map[], map[], {}, [])

  datatype Event =
    | Mounts(key: Pubkey)
    | ReadEnds(key: Pubkey, url: Option<Url>)
    | LoadSettles(key: Pubkey)
    | LoadFinishes(key: Pubkey)
    | Remembers(key: Pubkey, url: Option<Url>)

  /** An object URL is made fresh for each blob. */
  predicate Possible(c: Cache, ev: Event) {
    (ev.ReadEnds? || ev.Remembers?) && ev.url.Some? ==> ev.url.value !in c.created
  }

  function Making(c: Cache, url: Option<Url>): Cache {
    if url.Some? then c.(created := c.created + {url.value}) else c
  }

  function Revoking(c: Cache, url: Option<Url>): Cache {
    if url.Some? then c.(revoked := c.revoked + [url.value]) else c
  }

  /** A read that is in flight never replaces a value that is there by the time it settles. */
  function Settling(c: Cache, key: Pubkey): Cache
    requires key in c.loads && c.loads[key].Holding?
  {
    var url := c.loads[key].url;
    var c1 := c.(loads := c.loads[key := Settled]);
    if key !in c.urls then c1.(urls := c.urls[key := url]) else Revoking(c1, url)
  }

  /** A write (`set`: a URL; `clear` and `forget`: none) replaces what is there and releases it. */
  function Remembering(c: Cache, key: Pubkey, url: Option<Url>): Cache {
    var c1 := Making(c, url);
    var previous := if key in c.urls then c.urls[key] else None;
    (if previous != url then Revoking(c1, previous) else c1).(urls := c.urls[key := url])
  }

  function Step(c: Cache, ev: Event): Cache {
    match ev
    case Mounts(key) => if key in c.urls || key in c.loads then c else c.(loads := c.loads[key := Reading])
    case ReadEnds(key, url) =>
      if key in c.loads && c.loads[key].Reading? then Making(c, url).(loads := c.loads[key := Holding(url)]) else c
    case LoadSettles(key) => if key in c.loads && c.loads[key].Holding? then Settling(c, key) else c
    case LoadFinishes(key) => if key in c.loads && c.loads[key].Settled? then c.(loads := c.loads - {key}) else c
    case Remembers(key, url) => Remembering(c, key, url)
  }

  function Run(c: Cache, evs: seq<Event>): Cache {
    if evs == [] then c else Step(Run(c, evs[..|evs| - 1]), evs[|evs| - 1])
  }

  ghost predicate Possibles(c: Cache, evs: seq<Event>) {
    evs == [] || (Possibles(c, evs[..|evs| - 1]) && Possible(Run(c, evs[..|evs| - 1]), evs[|evs| - 1]))
  }

  // ---- Who owns a URL ----

  predicate InCache(c: Cache, k: Pubkey, u: Url) { k in c.urls && c.urls[k] == Some(u) }

  predicate InLoad(c: Cache, k: Pubkey, u: Url) { k in c.loads && c.loads[k] == Holding(Some(u)) }

  /** An owned URL was made and not released, and has one owner. */
  ghost predicate Owned(c: Cache) {
    && (forall k, u :: InCache(c, k, u) || InLoad(c, k, u) ==> u in c.created && u !in c.revoked)
    && (forall k, l, u :: InCache(c, k, u) && InCache(c, l, u) ==> k == l)
    && (forall k, l, u :: InLoad(c, k, u) && InLoad(c, l, u) ==> k == l)
    && (forall k, l, u :: !(InCache(c, k, u) && InLoad(c, l, u)))
  }

  ghost predicate HasOwner(c: Cache, u: Url) { (exists k :: InCache(c, k, u)) || exists k :: InLoad(c, k, u) }

  ghost predicate CacheOk(c: Cache) {
    && Owned(c)
    && (forall u <- c.created :: u in c.revoked || HasOwner(c, u))
    && (forall u <- c.revoked :: u in c.created)
    && (forall i, j :: 0 <= i < j < |c.revoked| ==> c.revoked[i] != c.revoked[j])
  }

  lemma SettlingKeeps(c: Cache, key: Pubkey)
    requires CacheOk(c) && key in c.loads && c.loads[key].Holding?
    ensures CacheOk(Settling(c, key))
  {
    var c', url := Settling(c, key), c.loads[key].url;
    forall k, u ensures InCache(c', k, u) <==> InCache(c, k, u) || (key !in c.urls && k == key && url == Some(u)) {}
    forall k, u ensures InLoad(c', k, u) <==> InLoad(c, k, u) && k != key {}
    forall u | u in c'.created && u !in c'.revoked ensures HasOwner(c', u) {
      assert HasOwner(c, u);
      if k :| InCache(c, k, u) { assert InCache(c', k, u); }
      else {
        var k :| InLoad(c, k, u);
        if k == key { assert InCache(c', key, u); } else { assert InLoad(c', k, u); }
      }
    }
    if url.Some? { assert InLoad(c, key, url.value); }
  }

  lemma RememberingKeeps(c: Cache, key: Pubkey, url: Option<Url>)
    requires CacheOk(c) && (url.Some? ==> url.value !in c.created)
    ensures CacheOk(Remembering(c, key, url))
  {
    var c' := Remembering(c, key, url);
    var previous := if key in c.urls then c.urls[key] else None;
    if previous.Some? { assert InCache(c, key, previous.value); }
    forall k, u ensures InCache(c', k, u) <==> if k == key then url == Some(u) else InCache(c, k, u) {}
    forall k, u ensures InLoad(c', k, u) <==> InLoad(c, k, u) {}
    forall u | u in c'.created && u !in c'.revoked ensures HasOwner(c', u) {
      if url == Some(u) {
        assert InCache(c', key, u);
      } else {
        assert HasOwner(c, u);
        if k :| InCache(c, k, u) {
          assert InCache(c', k, u);
        } else {
          var k :| InLoad(c, k, u); assert InLoad(c', k, u);
        }
      }
    }
  }

  lemma ReadKeeps(c: Cache, key: Pubkey, url: Option<Url>)
    requires CacheOk(c) && key in c.loads && c.loads[key].Reading? && (url.Some? ==> url.value !in c.created)
    ensures CacheOk(Step(c, ReadEnds(key, url)))
  {
    var c' := Step(c, ReadEnds(key, url));
    forall k, u ensures InLoad(c', k, u) <==> InLoad(c, k, u) || (k == key && url == Some(u)) {}
    forall k, u ensures InCache(c', k, u) <==> InCache(c, k, u) {}
    forall u | u in c'.created && u !in c'.revoked ensures HasOwner(c', u) {
      if url == Some(u) {
        assert InLoad(c', key, u);
      } else {
        assert HasOwner(c, u);
        if k :| InCache(c, k, u) {
          assert InCache(c', k, u);
        } else {
          var k :| InLoad(c, k, u); assert InLoad(c', k, u);
        }
      }
    }
  }

  lemma SameOwnersKeep(c: Cache, c': Cache)
    requires CacheOk(c) && c'.created == c.created && c'.revoked == c.revoked && c'.urls == c.urls
    requires forall k, u :: InLoad(c', k, u) <==> InLoad(c, k, u)
    ensures CacheOk(c')
  {
    forall k, u ensures InCache(c', k, u) <==> InCache(c, k, u) {}
    forall u | HasOwner(c, u) ensures HasOwner(c', u) {
      if k :| InCache(c, k, u) { assert InCache(c', k, u); } else { var k :| InLoad(c, k, u); assert InLoad(c', k, u); }
    }
  }

  lemma StepKeeps(c: Cache, ev: Event)
    requires CacheOk(c) && Possible(c, ev)
    ensures CacheOk(Step(c, ev))
  {
    hide CacheOk, Settling, Remembering;
    match ev {
      case ReadEnds(key, url) => if key in c.loads && c.loads[key].Reading? { ReadKeeps(c, key, url); }
      case LoadSettles(key) => if key in c.loads && c.loads[key].Holding? { SettlingKeeps(c, key); }
      case Remembers(key, url) => RememberingKeeps(c, key, url);
      case Mounts(key) => SameOwnersKeep(c, Step(c, ev));
      case LoadFinishes(key) => SameOwnersKeep(c, Step(c, ev));
    }
  }

  lemma {:induction false} RunKeeps(evs: seq<Event>)
    requires Possibles(EMPTY, evs)
    ensures CacheOk(Run(EMPTY, evs))
  {
    if evs != [] {
      RunKeeps(evs[..|evs| - 1]);
      hide CacheOk, Step;
      StepKeeps(Run(EMPTY, evs[..|evs| - 1]), evs[|evs| - 1]);
    }
  }

  /**
   * Conservation, under every interleaving of loads, sets, clears and forgets:
   * the object URLs not yet released are exactly the cached ones and those of
   * loads that hold one and have not settled, each with one owner; and no URL
   * is released twice.
   */
  lemma {:induction false} UrlsAreConserved(evs: seq<Event>)
    requires Possibles(EMPTY, evs)
    ensures var c := Run(EMPTY, evs);
      && (forall u :: u in c.created && u !in c.revoked <==> HasOwner(c, u))
      && Owned(c)
      && (forall i, j :: 0 <= i < j < |c.revoked| ==> c.revoked[i] != c.revoked[j])
  {
    RunKeeps(evs);
    hide Run;
    var c := Run(EMPTY, evs);
    forall u | HasOwner(c, u) ensures u in c.created && u !in c.revoked {
      if k :| InCache(c, k, u) { assert u in c.created; } else { var k :| InLoad(c, k, u); assert u in c.created; }
    }
  }

  predicate Writes(ev: Event, key: Pubkey) { ev.Remembers? && ev.key == key }

  /**
   * A settled value is replaced only by a write: over any run without a write
   * to that identity, whatever loads were in flight, the cache keeps it.
   */
  lemma {:induction false} ReadsNeverReplace(c: Cache, evs: seq<Event>, key: Pubkey)
    requires key in c.urls && forall ev <- evs :: !Writes(ev, key)
    ensures var c' := Run(c, evs); key in c'.urls && c'.urls[key] == c.urls[key]
  {
    if evs != [] {
      ReadsNeverReplace(c, evs[..|evs| - 1], key);
      assert !Writes(evs[|evs| - 1], key);
    }
  }

  /** And the URL of a read that lost the race is released at once. */
  lemma LosingReadIsReleased(c: Cache, key: Pubkey, u: Url)
    requires InLoad(c, key, u) && key in c.urls
    ensures var c' := Step(c, LoadSettles(key)); c'.urls == c.urls && c'.revoked == c.revoked + [u]
  {
  }

  // ---- The module-level maps, changed in place ----

  class BackdropCache {
    var urls: map<Pubkey, Option<Url>>
    var loads: map<Pubkey, Load>
    ghost var created: set<Url>
    ghost var revoked: seq<Url>

    ghost function State(): Cache
      reads this
    {
      Cache(urls, loads, created, revoked)
    }

    /** Every URL made is released or has exactly one owner. */
    ghost predicate Valid()
      reads this
    {
      CacheOk(State())
    }

    constructor ()
      ensures Valid() && State() == EMPTY
    {
      urls, loads, created, revoked := map[], map[], {}, [];
    }

    /** `load`: the cached value, the running load, or a new one. */
    method Load(key: Pubkey) returns (cached: Option<Option<Url>>)
      requires Valid()
      modifies `loads
      ensures Valid() && State() == Step(old(State()), Mounts(key))
      ensures cached == if key in urls then Some(urls[key]) else None
      ensures cached.None? ==> key in loads
    {
      hide CacheOk;
      StepKeeps(State(), Mounts(key));
      if key in urls { return Some(urls[key]); }
      cached := None;
      if key in loads { return; }
      loads := loads[key := Reading];
    }

    /** A read ended: the URL made from it, if any, is held by its load and by nothing else. */
    method OnRead(key: Pubkey, url: Option<Url>)
      requires Valid() && key in loads && loads[key].Reading? && Possible(State(), ReadEnds(key, url))
      modifies `loads, `created
      ensures Valid() && State() == Step(old(State()), ReadEnds(key, url))
      ensures url.Some? ==> InLoad(State(), key, url.value) && forall k :: !InCache(State(), k, url.value)
    {
      hide CacheOk;
      StepKeeps(State(), ReadEnds(key, url));
      if url.Some? {
        OneOwner(Step(State(), ReadEnds(key, url)), key, url.value);
        created := created + {url.value};
      }
      loads := loads[key := Holding(url)];
    }

    /** A load settles: what a write put there meanwhile stays, and the read's own URL is then released. */
    method OnSettle(key: Pubkey) returns (shown: Option<Url>)
      requires Valid() && key in loads && loads[key].Holding?
      modifies this
      ensures Valid() && State() == Step(old(State()), LoadSettles(key)) && key in urls && shown == urls[key]
      ensures key in old(urls) ==> urls == old(urls)
      ensures key !in old(urls) ==> shown == old(loads[key].url) && revoked == old(revoked)
    {
      hide CacheOk;
      StepKeeps(State(), LoadSettles(key));
      var url := loads[key].url;
      loads := loads[key := Settled];
      if key !in urls {
        urls := urls[key := url];
      } else if url.Some? {
        revoked := revoked + [url.value];
      }
      shown := urls[key];
    }

    /** Forgetting a finished load neither shows nor releases anything. */
    method OnFinally(key: Pubkey)
      requires Valid() && key in loads && loads[key].Settled?
      modifies `loads
      ensures Valid() && State() == Step(old(State()), LoadFinishes(key)) && key !in loads
    {
      hide CacheOk;
      StepKeeps(State(), LoadFinishes(key));
      loads := loads - {key};
    }

    /**
     * `remember`, from a `set` (its fresh URL) or from a `clear` or a `forget` (none): what it replaces is
     * released.
     */
    method Remember(key: Pubkey, url: Option<Url>)
      requires Valid() && Possible(State(), Remembers(key, url))
      modifies this
      ensures Valid() && State() == Step(old(State()), Remembers(key, url))
      ensures key in urls && urls[key] == url
      ensures key in old(urls) && old(urls[key]).Some? ==> old(urls[key]).value in revoked
    {
      hide CacheOk;
      StepKeeps(State(), Remembers(key, url));
      KeptIsCreated(State(), key);
      var previous := if key in urls then urls[key] else None;
      if url.Some? { created := created + {url.value}; }
      if previous.Some? && previous != url { revoked := revoked + [previous.value]; }
      urls := urls[key := url];
    }
  }

  lemma OneOwner(c: Cache, key: Pubkey, u: Url)
    requires CacheOk(c) && InLoad(c, key, u)
    ensures forall k :: !InCache(c, k, u)
  {
  }

  lemma KeptIsCreated(c: Cache, key: Pubkey)
    requires CacheOk(c)
    ensures key in c.urls && c.urls[key].Some? ==> c.urls[key].value in c.created
  {
    if key in c.urls && c.urls[key].Some? { assert InCache(c, key, c.urls[key].value); }
  }
}
