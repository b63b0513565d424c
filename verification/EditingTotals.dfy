/** Stored totals through edits: always the pricing of the order's own lines, whatever came before. */
module EditingTotals {
  import opened Base
  import opened Stock
  import opened Domain
  import opened Editing
  import opened EditingLaws

  /** No two lines share product and variant. */
  ghost predicate Unrepeated(items: seq<Item>) {
    items != [] ==> LastIndex(items[1..], KeyOf(items[0])).None? && Unrepeated(items[1..])
  }

  // ---- What the changes add up to ---------------------------------------------------------------

  lemma {:induction false} NothingWanted(items: seq<Item>)
    ensures Kept(items, []) == [] && Surplus(items, []) == Tally(0, 0, 0)
  {
    if items != [] {
      NothingWanted(items[1..]);
    }
  }

  lemma {:induction false} SameKeysSameLast(a: seq<Item>, b: seq<Item>, key: Key)
    requires |a| == |b| && forall i :: 0 <= i < |a| ==> KeyOf(a[i]) == KeyOf(b[i])
    ensures LastIndex(a, key) == LastIndex(b, key)
  {
    if a != [] {
      SameKeysSameLast(a[1..], b[1..], key);
    }
  }

  lemma {:induction false} LastAfter(shelf: Shelf, items: seq<Item>, wanted: seq<Entry>, changes: seq<Change>, key: Key)
    requires Answers(items, wanted, changes) && DistinctKeys(wanted) && Aimed(items, changes)
    ensures LastIndex(ApplyAll(shelf, items, changes).items, key) == LastIndex(items, key)
  {
    var after := ApplyAll(shelf, items, changes).items;
    forall i | 0 <= i < |items| ensures KeyOf(after[i]) == KeyOf(items[i]) {
      KeysStay(shelf, items, wanted, changes, i);
    }
    SameKeysSameLast(after, items, key);
  }

  /** The lines written so far add up to the changes made so far, plus the repeated lines left standing. */
  ghost predicate AddsUp(w: Work, wanted: seq<Entry>, changes: seq<Change>) {
    Plus(Total(Kept(w.items, wanted)), Total(w.added)) == Plus(Total(ItemsOf(changes)), Surplus(w.items, wanted))
  }

  lemma {:induction false} ItemsOfSnoc(changes: seq<Change>)
    requires changes != []
    ensures Total(ItemsOf(changes)) ==
            Plus(Total(ItemsOf(changes[..|changes| - 1])), One(changes[|changes| - 1].item))
  {
    var n := |changes| - 1;
    assert ItemsOf(changes) == ItemsOf(changes[..n]) + [changes[n].item];
    TotalConcat(ItemsOf(changes[..n]), [changes[n].item]);
  }

  lemma {:induction false} TotalOfOne(item: Item)
    ensures Total([item]) == One(item)
  {
    var tail := [item][1..];
    assert tail == [] && Total(tail) == Tally(0, 0, 0);
  }

  lemma {:induction false} Shift(k: Tally, a: Tally, c: Tally, s: Tally, o: Tally)
    requires Plus(k, a) == Plus(c, s)
    ensures Plus(k, Plus(a, o)) == Plus(Plus(c, o), s)
  {
  }

  lemma {:induction false} Swap(k: Tally, a: Tally, c: Tally, s: Tally, o: Tally, k': Tally, s': Tally)
    requires Plus(k, a) == Plus(c, s) && Plus(k', s) == Plus(Plus(k, s'), o)
    ensures Plus(k', a) == Plus(Plus(c, o), s')
  {
  }

  lemma {:induction false} AddsUpNew(w: Work, wanted: seq<Entry>, e: Entry, done: seq<Change>, item: Item, o: Tally)
    requires AddsUp(w, wanted, done) && LastIndex(w.items, e.key).None? && o == Total([item])
    ensures Plus(Total(Kept(w.items, wanted + [e])), Total(w.added + [item]))
            == Plus(Plus(Total(ItemsOf(done)), o), Surplus(w.items, wanted + [e]))
  {
    NoSuchLine(w.items, wanted, e);
    TotalConcat(w.added, [item]);
    Shift(Total(Kept(w.items, wanted)), Total(w.added), Total(ItemsOf(done)), Surplus(w.items, wanted), o);
  }

  lemma {:induction false} AddsUpOld(w: Work, wanted: seq<Entry>, e: Entry, done: seq<Change>, x: Item)
    requires AddsUp(w, wanted, done) && LastIndex(w.items, e.key).Some? && KeyOf(x) == e.key
    requires Find(wanted, e.key) == |wanted|
    ensures var after := w.items[LastIndex(w.items, e.key).value := x];
            Plus(Total(Kept(after, wanted + [e])), Total(w.added))
            == Plus(Plus(Total(ItemsOf(done)), One(x)), Surplus(after, wanted + [e]))
  {
    var after := w.items[LastIndex(w.items, e.key).value := x];
    OneMoreKey(w.items, wanted, e, x);
    Swap(Total(Kept(w.items, wanted)), Total(w.added), Total(ItemsOf(done)), Surplus(w.items, wanted), One(x),
         Total(Kept(after, wanted + [e])), Surplus(after, wanted + [e]));
  }

  lemma {:induction false} NotYetWanted(wanted: seq<Entry>)
    requires wanted != [] && DistinctKeys(wanted)
    ensures var n := |wanted| - 1; Find(wanted[..n], wanted[n].key) == n && wanted[..n] + [wanted[n]] == wanted
  {
  }

  lemma {:induction false} WorkAddsUp(shelf: Shelf, items: seq<Item>, wanted: seq<Entry>, changes: seq<Change>)
    requires Answers(items, wanted, changes) && DistinctKeys(wanted) && Aimed(items, changes)
    ensures AddsUp(ApplyAll(shelf, items, changes), wanted, changes)
  {
    if changes == [] {
      NothingWanted(items);
    } else {
      var n := |changes| - 1;
      var w, e, c := ApplyAll(shelf, items, changes[..n]), wanted[n], changes[n];
      AnswersPrefix(items, wanted, changes);
      WorkAddsUp(shelf, items, wanted[..n], changes[..n]);
      NotYetWanted(wanted);
      ItemsOfSnoc(changes);
      LastAfter(shelf, items, wanted[..n], changes[..n], e.key);
      if c.at.None? {
        TotalOfOne(c.item);
        AddsUpNew(w, wanted[..n], e, changes[..n], c.item, One(c.item));
      } else {
        var i := c.at.value;
        Rewritten(shelf, items, wanted, changes, n);
        var x := ApplyAll(shelf, items, changes).items[i];
        assert One(x) == One(c.item) && KeyOf(x) == e.key;
        AddsUpOld(w, wanted[..n], e, changes[..n], x);
        OnlyOneMoved(shelf, items, wanted, changes);
      }
    }
  }

  lemma {:induction false} OnlyOneMoved(shelf: Shelf, items: seq<Item>, wanted: seq<Entry>, changes: seq<Change>)
    requires Answers(items, wanted, changes) && DistinctKeys(wanted) && Aimed(items, changes)
    requires changes != [] && changes[|changes| - 1].at.Some?
    ensures var n := |changes| - 1;
            var w, t := ApplyAll(shelf, items, changes[..n]), ApplyAll(shelf, items, changes);
            var i := changes[n].at.value;
            t.added == w.added && t.items == w.items[i := t.items[i]]
  {
  }

  /** The order's lines after the edit. */
  function NewItems(shelf: Shelf, items: seq<Item>, r: Repriced): seq<Item>
    requires Aimed(items, r.changes)
  {
    var w := ApplyAll(shelf, items, r.changes);
    Kept(w.items, r.wanted) + w.added
  }

  /** What is stored exceeds what was priced by exactly the repeated lines left standing. */
  lemma {:induction false} StoredMinusPriced(shelf: Shelf, items: seq<Item>, r: Repriced)
    requires Answers(items, r.wanted, r.changes) && DistinctKeys(r.wanted) && Aimed(items, r.changes)
    ensures Total(NewItems(shelf, items, r)) ==
            Plus(Total(ItemsOf(r.changes)), Surplus(ApplyAll(shelf, items, r.changes).items, r.wanted))
  {
    var w := ApplyAll(shelf, items, r.changes);
    WorkAddsUp(shelf, items, r.wanted, r.changes);
    TotalConcat(Kept(w.items, r.wanted), w.added);
  }

  lemma {:induction false} NoSurplus(items: seq<Item>, wanted: seq<Entry>)
    requires Unrepeated(items)
    ensures Surplus(items, wanted) == Tally(0, 0, 0)
  {
    if items != [] {
      NoSurplus(items[1..], wanted);
    }
  }

  /** Some line that stays has its key again further down the order. */
  ghost predicate KeptRepeat(items: seq<Item>, wanted: seq<Entry>) {
    items != [] &&
    (|| (Wanted(wanted, items[0]) && LastIndex(items[1..], KeyOf(items[0])).Some?)
     || KeptRepeat(items[1..], wanted))
  }

  lemma {:induction false} SurplusIffRepeat(items: seq<Item>, wanted: seq<Entry>)
    requires forall i :: 0 <= i < |items| ==> items[i].quantity > 0
    ensures Surplus(items, wanted).quantity > 0 <==> KeptRepeat(items, wanted)
  {
    if items != [] {
      SurplusIffRepeat(items[1..], wanted);
    }
  }

  lemma {:induction false} SameRepeats(a: seq<Item>, b: seq<Item>, wanted: seq<Entry>)
    requires |a| == |b| && forall i :: 0 <= i < |a| ==> KeyOf(a[i]) == KeyOf(b[i])
    ensures KeptRepeat(a, wanted) == KeptRepeat(b, wanted)
    ensures Unrepeated(a) == Unrepeated(b)
  {
    if a != [] {
      SameRepeats(a[1..], b[1..], wanted);
      SameKeysSameLast(a[1..], b[1..], KeyOf(a[0]));
    }
  }

  lemma {:induction false} AfterKeys(shelf: Shelf, items: seq<Item>, r: Repriced)
    requires Answers(items, r.wanted, r.changes) && DistinctKeys(r.wanted) && Aimed(items, r.changes)
    ensures var after := ApplyAll(shelf, items, r.changes).items;
            && KeptRepeat(after, r.wanted) == KeptRepeat(items, r.wanted)
            && Unrepeated(after) == Unrepeated(items)
  {
    var after := ApplyAll(shelf, items, r.changes).items;
    forall i | 0 <= i < |items| ensures KeyOf(after[i]) == KeyOf(items[i]) {
      KeysStay(shelf, items, r.wanted, r.changes, i);
    }
    SameRepeats(after, items, r.wanted);
  }

  lemma {:induction false} PositiveAfter(shelf: Shelf, items: seq<Item>, r: Repriced, i: nat)
    requires Answers(items, r.wanted, r.changes) && DistinctKeys(r.wanted) && Aimed(items, r.changes) && i < |items|
    requires items[i].quantity > 0 && forall k :: 0 <= k < |r.wanted| ==> r.wanted[k].quantity > 0
    ensures ApplyAll(shelf, items, r.changes).items[i].quantity > 0
  {
    if k :| 0 <= k < |r.changes| && r.changes[k].at == Some(i) {
      Rewritten(shelf, items, r.wanted, r.changes, k);
    } else {
      Untouched(shelf, items, r.changes, i);
    }
  }

  /**
   * Lines placed twice for one product are priced once and stored twice: an edit bills the quantity
   * it stores if and only if no line it keeps is repeated.
   */
  lemma {:induction false} BilledIffUnrepeated(shelf: Shelf, items: seq<Item>, r: Repriced)
    requires Answers(items, r.wanted, r.changes) && DistinctKeys(r.wanted) && Aimed(items, r.changes)
    requires forall i :: 0 <= i < |items| ==> items[i].quantity > 0
    requires forall k :: 0 <= k < |r.wanted| ==> r.wanted[k].quantity > 0
    ensures Total(NewItems(shelf, items, r)).quantity == Total(ItemsOf(r.changes)).quantity
            <==> !KeptRepeat(items, r.wanted)
  {
    var after := ApplyAll(shelf, items, r.changes).items;
    StoredMinusPriced(shelf, items, r);
    forall i | 0 <= i < |items| ensures after[i].quantity > 0 {
      PositiveAfter(shelf, items, r, i);
    }
    SurplusIffRepeat(after, r.wanted);
    AfterKeys(shelf, items, r);
  }

  // ---- Unrepeated lines stay unrepeated and well priced ------------------------------------------

  lemma {:induction false} LastIndexConcat(a: seq<Item>, b: seq<Item>, key: Key)
    ensures LastIndex(a + b, key).Some? <==> LastIndex(a, key).Some? || LastIndex(b, key).Some?
  {
    if a == [] {
      assert a + b == b;
    } else {
      assert (a + b)[1..] == a[1..] + b;
      LastIndexConcat(a[1..], b, key);
    }
  }

  lemma {:induction false} KeptSubset(items: seq<Item>, wanted: seq<Entry>, key: Key)
    ensures LastIndex(Kept(items, wanted), key).Some? ==> LastIndex(items, key).Some?
  {
    if items != [] {
      var rest := Kept(items[1..], wanted);
      KeptSubset(items[1..], wanted, key);
      LastIndexConcat([items[0]], rest, key);
      LastIndexConcat([items[0]], items[1..], key);
      assert items == [items[0]] + items[1..] && [] + rest == rest;
    }
  }

  lemma {:induction false} KeptUnrepeated(items: seq<Item>, wanted: seq<Entry>)
    requires Unrepeated(items)
    ensures Unrepeated(Kept(items, wanted))
  {
    if items != [] {
      var rest := Kept(items[1..], wanted);
      KeptUnrepeated(items[1..], wanted);
      KeptSubset(items[1..], wanted, KeyOf(items[0]));
      assert [] + rest == rest && ([items[0]] + rest)[1..] == rest;
    }
  }

  lemma {:induction false} AppendUnrepeated(items: seq<Item>, x: Item)
    requires Unrepeated(items) && LastIndex(items, KeyOf(x)).None?
    ensures Unrepeated(items + [x])
  {
    if items == [] {
      assert items + [x] == [x];
    } else {
      var h, tail := items[0], items[1..];
      LastIndexConcat([h], tail, KeyOf(x));
      assert items == [h] + tail && (items + [x])[1..] == tail + [x];
      AppendUnrepeated(tail, x);
      LastIndexConcat(tail, [x], KeyOf(h));
      assert KeyOf(h) != KeyOf(x);
    }
  }

  ghost predicate NewKey(items: seq<Item>, wanted: seq<Entry>, key: Key) {
    Find(wanted, key) < |wanted| && LastIndex(items, key).None?
  }

  /** A new line carries a wanted key that no stored line has. */
  lemma {:induction false} AddedKey(shelf: Shelf, items: seq<Item>, wanted: seq<Entry>, changes: seq<Change>, key: Key)
    requires Answers(items, wanted, changes) && DistinctKeys(wanted) && Aimed(items, changes)
    requires LastIndex(ApplyAll(shelf, items, changes).added, key).Some?
    ensures NewKey(items, wanted, key)
  {
    var n := |changes| - 1;
    var added, e, item := ApplyAll(shelf, items, changes[..n]).added, wanted[n], changes[n].item;
    AnswersPrefix(items, wanted, changes);
    NotYetWanted(wanted);
    FindExtends(wanted[..n], e, key);
    if LastIndex(added, key).Some? {
      AddedKey(shelf, items, wanted[..n], changes[..n], key);
    } else {
      LastIndexConcat(added, [item], key);
    }
  }

  lemma {:induction false} AddedUnrepeated(shelf: Shelf, items: seq<Item>, wanted: seq<Entry>, changes: seq<Change>)
    requires Answers(items, wanted, changes) && DistinctKeys(wanted) && Aimed(items, changes)
    ensures Unrepeated(ApplyAll(shelf, items, changes).added)
  {
    if changes != [] {
      var n := |changes| - 1;
      var added := ApplyAll(shelf, items, changes[..n]).added;
      AnswersPrefix(items, wanted, changes);
      AddedUnrepeated(shelf, items, wanted[..n], changes[..n]);
      if changes[n].at.None? {
        NotYetWanted(wanted);
        if LastIndex(added, wanted[n].key).Some? {
          AddedKey(shelf, items, wanted[..n], changes[..n], wanted[n].key);
        }
        AppendUnrepeated(added, changes[n].item);
      }
    }
  }

  /** Every new line is the item of some change. */
  lemma {:induction false} AddedFromChanges(shelf: Shelf, items: seq<Item>, changes: seq<Change>, a: Item)
    requires Aimed(items, changes) && a in ApplyAll(shelf, items, changes).added
    ensures exists k :: 0 <= k < |changes| && changes[k].at.None? && changes[k].item == a
  {
    var n := |changes| - 1;
    if changes[n].at.Some? || a != changes[n].item {
      AddedFromChanges(shelf, items, changes[..n], a);
      var k :| 0 <= k < n && changes[..n][k].at.None? && changes[..n][k].item == a;
      assert changes[k].item == a && changes[k].at.None?;
    } else {
      assert changes[n].item == a;
    }
  }

  lemma {:induction false} JoinUnrepeated(a: seq<Item>, b: seq<Item>)
    requires Unrepeated(a) && Unrepeated(b)
    requires forall key :: LastIndex(b, key).Some? ==> LastIndex(a, key).None?
    ensures Unrepeated(a + b)
  {
    if a == [] {
      assert a + b == b;
    } else {
      var h, tail := a[0], a[1..];
      assert a == [h] + tail && (a + b)[1..] == tail + b;
      forall key | LastIndex(b, key).Some? ensures LastIndex(tail, key).None? {
        LastIndexConcat([h], tail, key);
      }
      JoinUnrepeated(tail, b);
      LastIndexConcat(tail, b, KeyOf(h));
      LastIndexConcat([h], tail, KeyOf(h));
    }
  }

  lemma {:induction false} EditKeepsUnrepeated(shelf: Shelf, items: seq<Item>, r: Repriced)
    requires Answers(items, r.wanted, r.changes) && DistinctKeys(r.wanted) && Aimed(items, r.changes)
    requires Unrepeated(items)
    ensures Unrepeated(NewItems(shelf, items, r))
  {
    var w := ApplyAll(shelf, items, r.changes);
    AfterKeys(shelf, items, r);
    KeptUnrepeated(w.items, r.wanted);
    AddedUnrepeated(shelf, items, r.wanted, r.changes);
    forall key | LastIndex(w.added, key).Some? ensures LastIndex(Kept(w.items, r.wanted), key).None? {
      AddedKey(shelf, items, r.wanted, r.changes, key);
      KeptSubset(w.items, r.wanted, key);
      LastAfter(shelf, items, r.wanted, r.changes, key);
    }
    JoinUnrepeated(Kept(w.items, r.wanted), w.added);
  }
}
