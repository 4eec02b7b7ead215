/** Facts about the inbox's rows and lists, each proved by induction on the list. */
module ChildAskRows {
  import opened Wrappers
  import opened ChildAsks

  predicate UniqueRow(row: seq<Entry>) {
    row == [] || (Lookup(row[1..], row[0].ask.id).None? && UniqueRow(row[1..]))
  }

  predicate UniqueList(asks: seq<Pending>) {
    asks == [] || (Listed(asks[1..], asks[0].ask.id).None? && UniqueList(asks[1..]))
  }

  /** A row entry whose answer has not gone out names the choice, and holds that choice or a deny. */
  predicate EntryOk(e: Entry) {
    && e.verdict.id == e.ask.id
    && (!IsSent(e) ==> e.chosen.Some? && (e.verdict.choice == e.chosen.value || e.verdict.choice == Deny))
  }

  predicate RowOk(row: seq<Entry>) {
    |row| <= HISTORY_MAX && UniqueRow(row) && forall e <- row :: EntryOk(e)
  }

  lemma {:induction false} LookupFound(row: seq<Entry>, id: AskId)
    ensures Lookup(row, id).Some? ==> Lookup(row, id).value in row && Lookup(row, id).value.ask.id == id
    ensures Lookup(row, id).None? ==> forall e <- row :: e.ask.id != id
  {
    if row != [] && row[0].ask.id != id { LookupFound(row[1..], id); }
  }

  lemma {:induction false} WithoutFacts(row: seq<Entry>, id: AskId)
    requires UniqueRow(row)
    ensures UniqueRow(Without(row, id)) && |Without(row, id)| <= |row|
    ensures forall e <- Without(row, id) :: e in row
    ensures forall x :: Lookup(Without(row, id), x) == if x == id then None else Lookup(row, x)
  {
    if row != [] { WithoutFacts(row[1..], id); }
  }

  lemma {:induction false} PrefixFacts(row: seq<Entry>, n: nat)
    requires UniqueRow(row) && n <= |row|
    ensures UniqueRow(row[..n])
    ensures forall x :: Lookup(row[..n], x) == Lookup(row, x) || Lookup(row[..n], x).None?
  {
    if n > 0 {
      assert row[..n][1..] == row[1..][..n - 1];
      PrefixFacts(row[1..], n - 1);
    }
  }

  lemma CapFacts(row: seq<Entry>)
    requires UniqueRow(row)
    ensures UniqueRow(Cap(row)) && |Cap(row)| <= HISTORY_MAX
    ensures forall e <- Cap(row) :: e in row
    ensures forall x :: Lookup(Cap(row), x) == Lookup(row, x) || Lookup(Cap(row), x).None?
    ensures row != [] ==> Lookup(Cap(row), row[0].ask.id) == Some(row[0])
  {
    if |row| > HISTORY_MAX { PrefixFacts(row, HISTORY_MAX); }
  }

  /** Recording puts the new entry in and changes no other entry, except that the last may fall out. */
  lemma RecordedFacts(row: seq<Entry>, e: Entry)
    requires RowOk(row) && EntryOk(e)
    ensures RowOk(Recorded(row, e))
    ensures Lookup(Recorded(row, e), e.ask.id) == Some(e)
    ensures forall x :: x != e.ask.id ==>
      Lookup(Recorded(row, e), x) == Lookup(row, x) || Lookup(Recorded(row, e), x).None?
  {
    WithoutFacts(row, e.ask.id);
    var full := [e] + Without(row, e.ask.id);
    assert full[1..] == Without(row, e.ask.id);
    CapFacts(full);
  }

  lemma {:induction false} UnlistFacts(asks: seq<Pending>, id: AskId)
    requires UniqueList(asks)
    ensures UniqueList(Unlist(asks, id))
    ensures forall x :: Listed(Unlist(asks, id), x) == if x == id then None else Listed(asks, x)
    ensures forall d :: CountFor(Unlist(asks, id), d) <= CountFor(asks, d)
  {
    if asks != [] { UnlistFacts(asks[1..], id); }
  }

  lemma {:induction false} UnexpiredFacts(asks: seq<Pending>, nowS: int)
    requires UniqueList(asks)
    ensures UniqueList(Unexpired(asks, nowS))
    ensures forall x ::
      Listed(Unexpired(asks, nowS), x)
      == (if Listed(asks, x).Some? && Listed(asks, x).value.ask.expiresAt <= nowS then None else Listed(asks, x))
    ensures forall d :: CountFor(Unexpired(asks, nowS), d) <= CountFor(asks, d)
  {
    if asks != [] { UnexpiredFacts(asks[1..], nowS); }
  }

  lemma {:induction false} MarkUnsentFacts(asks: seq<Pending>, id: AskId, c: Choice)
    requires UniqueList(asks)
    ensures UniqueList(MarkUnsent(asks, id, c))
    ensures forall x ::
      Listed(MarkUnsent(asks, id, c), x)
      == (if x == id && Listed(asks, x).Some? then Some(Listed(asks, x).value.(unsent := Some(c)))
          else Listed(asks, x))
    ensures forall d :: CountFor(MarkUnsent(asks, id, c), d) == CountFor(asks, d)
  {
    if asks != [] { MarkUnsentFacts(asks[1..], id, c); }
  }

  lemma {:induction false} AppendFacts(asks: seq<Pending>, p: Pending)
    requires UniqueList(asks) && Listed(asks, p.ask.id).None?
    ensures UniqueList(asks + [p])
    ensures forall x :: Listed(asks + [p], x) == if x == p.ask.id then Some(p) else Listed(asks, x)
    ensures forall d :: CountFor(asks + [p], d) == CountFor(asks, d) + if d == p.dep then 1 else 0
  {
    if asks == [] {
      assert asks + [p] == [p];
    } else {
      assert (asks + [p])[1..] == asks[1..] + [p];
      AppendFacts(asks[1..], p);
    }
  }

  lemma {:induction false} ListedFound(asks: seq<Pending>, id: AskId)
    ensures Listed(asks, id).Some? ==> Listed(asks, id).value in asks && Listed(asks, id).value.ask.id == id
    ensures Listed(asks, id).None? ==> forall p <- asks :: p.ask.id != id
  {
    if asks != [] && asks[0].ask.id != id { ListedFound(asks[1..], id); }
  }

  lemma {:induction false} LookupAppend(row: seq<Entry>, e: Entry, x: AskId)
    ensures Lookup(row + [e], x) ==
      if Lookup(row, x).Some? then Lookup(row, x) else if e.ask.id == x then Some(e) else None
  {
    if row == [] {
      assert row + [e] == [e];
    } else {
      assert (row + [e])[1..] == row[1..] + [e];
      if row[0].ask.id != x { LookupAppend(row[1..], e, x); }
    }
  }

  /** The last entry of a row with distinct ids is the only one with its id. */
  lemma {:induction false} LastIsNew(row: seq<Entry>)
    requires UniqueRow(row) && row != []
    ensures Lookup(row[..|row| - 1], row[|row| - 1].ask.id).None?
  {
    if |row| > 1 {
      LastIsNew(row[1..]);
      assert row[..|row| - 1][1..] == row[1..][..|row| - 2];
      LookupFound(row[1..], row[0].ask.id);
    }
  }

  /** What a load keeps: the live unsent answers, and every other id as already seen. */
  lemma {:induction false} LoadedFacts(row: seq<Entry>, nowS: int)
    requires UniqueRow(row)
    ensures forall x :: x in UnsentRows(row, nowS) <==>
      (Lookup(row, x).Some? && !IsSent(Lookup(row, x).value) && Lookup(row, x).value.ask.expiresAt > nowS)
    ensures forall x <- UnsentRows(row, nowS) :: UnsentRows(row, nowS)[x] == Lookup(row, x).value
    ensures forall x :: x in SeenRows(row, nowS) <==> (Lookup(row, x).Some? && x !in UnsentRows(row, nowS))
  {
    if row != [] {
      var init, e := row[..|row| - 1], row[|row| - 1];
      PrefixFacts(row, |row| - 1);
      LoadedFacts(init, nowS);
      LastIsNew(row);
      assert row == init + [e];
      forall x
        ensures Lookup(row, x)
                == if Lookup(init, x).Some? then Lookup(init, x) else if e.ask.id == x then Some(e) else None
      {
        LookupAppend(init, e, x);
      }
    }
  }
}
