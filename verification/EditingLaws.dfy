/** What an edit does to held stock and to the amounts of the stored lines, on every order and request. */
module EditingLaws {
  import opened Base
  import opened Pricing
  import opened Stock
  import opened Domain
  import opened Editing

  // ---- The changes aim at the last line of each distinct wanted key ---------------------------

  ghost predicate DistinctKeys(wanted: seq<Entry>) {
    forall i, j :: 0 <= i < j < |wanted| ==> wanted[i].key != wanted[j].key
  }

  lemma {:induction false} MergedDistinct(entries: seq<Entry>)
    ensures DistinctKeys(Merged(entries))
  {
    if entries != [] {
      MergedDistinct(entries[..|entries| - 1]);
    }
  }

  ghost predicate AnswersOne(items: seq<Item>, e: Entry, c: Change) {
    && c.at == LastIndex(items, e.key) && KeyOf(c.item) == e.key && c.item.quantity == e.quantity
    && (c.at.Some? ==> c.item == Requantify(items[c.at.value], e.quantity))
  }

  /** Change k is the line wanted[k] stands for: aimed at the last stored line of its key, or new. */
  ghost predicate Answers(items: seq<Item>, wanted: seq<Entry>, changes: seq<Change>) {
    && |changes| == |wanted|
    && forall k :: 0 <= k < |changes| ==> AnswersOne(items, wanted[k], changes[k])
  }

  lemma {:induction false} ChangeAnswers(catalogue: map<Id, Product>, items: seq<Item>, e: Entry)
    requires ChangeFor(catalogue, items, e).Some?
    ensures AnswersOne(items, e, ChangeFor(catalogue, items, e).value)
  {
  }

  lemma {:induction false} AnswersMore(items: seq<Item>, wanted: seq<Entry>, init: seq<Change>, last: Change)
    requires wanted != [] && Answers(items, wanted[..|wanted| - 1], init)
    requires AnswersOne(items, wanted[|wanted| - 1], last)
    ensures Answers(items, wanted, init + [last])
  {
  }

  lemma {:induction false} ChangesAnswer(catalogue: map<Id, Product>, items: seq<Item>, wanted: seq<Entry>)
    requires Changes(catalogue, items, wanted).Some?
    ensures Answers(items, wanted, Changes(catalogue, items, wanted).value)
  {
    if wanted != [] {
      var n := |wanted| - 1;
      ChangesAnswer(catalogue, items, wanted[..n]);
      var init, last := Changes(catalogue, items, wanted[..n]).value, ChangeFor(catalogue, items, wanted[n]).value;
      ChangeAnswers(catalogue, items, wanted[n]);
      AnswersMore(items, wanted, init, last);
    }
  }

  lemma {:induction false} AnswersPrefix(items: seq<Item>, wanted: seq<Entry>, changes: seq<Change>)
    requires Answers(items, wanted, changes) && changes != [] && DistinctKeys(wanted)
    ensures Answers(items, wanted[..|wanted| - 1], changes[..|changes| - 1]) && DistinctKeys(wanted[..|wanted| - 1])
  {
  }

  /** A stored line no change aims at is left as it was. */
  lemma {:induction false} Untouched(shelf: Shelf, items: seq<Item>, changes: seq<Change>, i: nat)
    requires Aimed(items, changes) && i < |items|
    requires forall k :: 0 <= k < |changes| ==> changes[k].at != Some(i)
    ensures ApplyAll(shelf, items, changes).items[i] == items[i]
  {
    if changes != [] {
      var n := |changes| - 1;
      assert changes[n].at != Some(i);
      assert forall k :: 0 <= k < n ==> changes[..n][k].at == changes[k].at;
      Untouched(shelf, items, changes[..n], i);
    }
  }

  lemma {:induction false} AimsApart(items: seq<Item>, wanted: seq<Entry>, changes: seq<Change>, j: nat, k: nat)
    requires Answers(items, wanted, changes) && DistinctKeys(wanted) && j < k < |changes| && changes[k].at.Some?
    ensures changes[j].at != changes[k].at
  {
    assert wanted[j].key != wanted[k].key;
  }

  lemma {:induction false} LastRewrites(shelf: Shelf, items: seq<Item>, changes: seq<Change>, i: nat)
    requires Aimed(items, changes) && changes != [] && changes[|changes| - 1].at == Some(i)
    requires forall j :: 0 <= j < |changes| - 1 ==> changes[j].at != Some(i)
    ensures var last := changes[|changes| - 1].item;
            i < |items| && ApplyAll(shelf, items, changes).items[i] ==
                           if last.quantity == items[i].quantity then items[i] else last
  {
    var init := changes[..|changes| - 1];
    assert changes[|changes| - 1] in changes;
    assert forall j :: 0 <= j < |init| ==> init[j] == changes[j];
    Untouched(shelf, items, init, i);
  }

  lemma {:induction false} OtherLast(shelf: Shelf, items: seq<Item>, changes: seq<Change>, i: nat)
    requires Aimed(items, changes) && changes != [] && i < |items| && changes[|changes| - 1].at != Some(i)
    ensures Aimed(items, changes[..|changes| - 1])
            && ApplyAll(shelf, items, changes).items[i] == ApplyAll(shelf, items, changes[..|changes| - 1]).items[i]
  {
  }

  lemma {:induction false} NoOtherAims(items: seq<Item>, wanted: seq<Entry>, changes: seq<Change>, k: nat)
    requires Answers(items, wanted, changes) && DistinctKeys(wanted) && k < |changes| && changes[k].at.Some?
    ensures forall j :: 0 <= j < |changes| && j != k ==> changes[j].at != changes[k].at
  {
    forall j | 0 <= j < |changes| && j != k ensures changes[j].at != changes[k].at {
      if j < k {
        AimsApart(items, wanted, changes, j, k);
      } else if changes[j].at.Some? {
        AimsApart(items, wanted, changes, k, j);
      }
    }
  }

  lemma {:induction false} OnlyRewrite(shelf: Shelf, items: seq<Item>, changes: seq<Change>, k: nat)
    requires Aimed(items, changes) && k < |changes| && changes[k].at.Some?
    requires forall j :: 0 <= j < |changes| && j != k ==> changes[j].at != changes[k].at
    ensures var i := changes[k].at.value;
            i < |items| && ApplyAll(shelf, items, changes).items[i] ==
                           if changes[k].item.quantity == items[i].quantity then items[i] else changes[k].item
  {
    var n, i := |changes| - 1, changes[k].at.value;
    assert changes[k] in changes;
    if k == n {
      LastRewrites(shelf, items, changes, i);
    } else {
      OtherLast(shelf, items, changes, i);
      OnlyRewrite(shelf, items, changes[..n], k);
    }
  }

  /** A line some change aims at becomes that change's item, unless its quantity stays the same. */
  lemma {:induction false} Rewritten(shelf: Shelf, items: seq<Item>, wanted: seq<Entry>, changes: seq<Change>, k: nat)
    requires Answers(items, wanted, changes) && DistinctKeys(wanted) && Aimed(items, changes)
    requires k < |changes| && changes[k].at.Some?
    ensures var i := changes[k].at.value;
            ApplyAll(shelf, items, changes).items[i] ==
            if wanted[k].quantity == items[i].quantity then items[i] else changes[k].item
  {
    NoOtherAims(items, wanted, changes, k);
    OnlyRewrite(shelf, items, changes, k);
  }

  lemma {:induction false} KeysStay(shelf: Shelf, items: seq<Item>, wanted: seq<Entry>, changes: seq<Change>, i: nat)
    requires Answers(items, wanted, changes) && DistinctKeys(wanted) && Aimed(items, changes) && i < |items|
    ensures KeyOf(ApplyAll(shelf, items, changes).items[i]) == KeyOf(items[i])
  {
    if k :| 0 <= k < |changes| && changes[k].at == Some(i) {
      Rewritten(shelf, items, wanted, changes, k);
    } else {
      Untouched(shelf, items, changes, i);
    }
  }

  // ---- Stock ----------------------------------------------------------------------------------

  lemma {:induction false} HeldByConcat(a: seq<Item>, b: seq<Item>)
    ensures HeldBy(a + b) == HeldBy(a) + HeldBy(b)
  {
    if a == [] {
      assert a + b == b;
    } else {
      assert (a + b)[1..] == a[1..] + b;
      HeldByConcat(a[1..], b);
    }
  }

  lemma {:induction false} HeldByHead(items: seq<Item>, slot: Slot)
    requires items != []
    ensures Asked(HeldBy(items), slot) == Asked(Held(items[0]), slot) + Asked(HeldBy(items[1..]), slot)
  {
    AskedConcat(Held(items[0]), HeldBy(items[1..]), slot);
  }

  lemma {:induction false} HeldByUpdate(items: seq<Item>, i: nat, x: Item, slot: Slot)
    requires i < |items|
    ensures Asked(HeldBy(items[i := x]), slot) ==
            Asked(HeldBy(items), slot) - Asked(Held(items[i]), slot) + Asked(Held(x), slot)
  {
    HeldByHead(items, slot);
    HeldByHead(items[i := x], slot);
    if i == 0 {
      assert items[i := x][1..] == items[1..];
    } else {
      assert items[i := x][1..] == items[1..][i - 1 := x];
      HeldByUpdate(items[1..], i - 1, x, slot);
    }
  }

  predicate Uses(item: Item, slot: Slot) {
    if item.variant.Some? then slot == VariantRow(item.variant.value)
    else item.product.Some? && slot == ProductRow(item.product.value)
  }

  lemma {:induction false} HeldAsks(item: Item, slot: Slot)
    ensures Asked(Held(item), slot) == if Uses(item, slot) then item.quantity else 0
  {
  }

  /** The pieces of one stock row that the lines take between them. */
  function Pieces(items: seq<Item>, slot: Slot): nat {
    if items == [] then 0 else (if Uses(items[0], slot) then items[0].quantity else 0) + Pieces(items[1..], slot)
  }

  lemma {:induction false} HeldPieces(items: seq<Item>, slot: Slot)
    ensures Asked(HeldBy(items), slot) == Pieces(items, slot)
  {
    if items != [] {
      HeldPieces(items[1..], slot);
      HeldByHead(items, slot);
      HeldAsks(items[0], slot);
    }
  }

  lemma {:induction false} LiveAsks(shelf: Shelf, item: Item, slot: Slot)
    requires slot in shelf
    ensures Asked(Live(shelf, Held(item)), slot) == if Uses(item, slot) then item.quantity else 0
  {
    HeldAsks(item, slot);
  }

  ghost predicate Balanced(items: seq<Item>, w: Work, slot: Slot) {
    Asked(HeldBy(w.items), slot) + Asked(HeldBy(w.added), slot) + Asked(w.give, slot)
    == Asked(HeldBy(items), slot) + Asked(w.take, slot)
  }

  lemma {:induction false} AddBalances(shelf: Shelf, items: seq<Item>, w: Work, c: Change, slot: Slot)
    requires |items| == |w.items| && c.at.None? && Balanced(items, w, slot)
    ensures Balanced(items, Apply(shelf, items, w, c), slot)
  {
    HeldByConcat(w.added, [c.item]);
    assert HeldBy([c.item]) == Held(c.item) + [];
    AskedConcat(Held(c.item), [], slot);
    AskedConcat(HeldBy(w.added), HeldBy([c.item]), slot);
    AskedConcat(w.take, Held(c.item), slot);
  }

  /** The same line at a higher quantity holds as much more of the same row as is taken. */
  lemma {:induction false} DifferenceTaken(shelf: Shelf, item: Item, now: Item, slot: Slot)
    requires slot in shelf && KeyOf(now) == KeyOf(item) && now.quantity >= item.quantity
    ensures Asked(Held(now), slot)
            == Asked(Held(item), slot)
               + Asked(Live(shelf, Held(item.(quantity := now.quantity - item.quantity))), slot)
  {
    HeldAsks(item, slot);
    HeldAsks(now, slot);
    LiveAsks(shelf, item.(quantity := now.quantity - item.quantity), slot);
  }

  /** And at a lower one, as much less as is given back. */
  lemma {:induction false} DifferenceGiven(item: Item, now: Item, slot: Slot)
    requires KeyOf(now) == KeyOf(item) && now.quantity <= item.quantity
    ensures Asked(Held(item), slot)
            == Asked(Held(now), slot) + Asked(Held(item.(quantity := item.quantity - now.quantity)), slot)
  {
    HeldAsks(item, slot);
    HeldAsks(now, slot);
    HeldAsks(item.(quantity := item.quantity - now.quantity), slot);
  }

  lemma {:induction false} TakeBalances(items: seq<Item>, w: Work, i: nat, x: Item, more: seq<Demand>, slot: Slot)
    requires Balanced(items, w, slot) && i < |w.items|
    requires Asked(Held(x), slot) == Asked(Held(w.items[i]), slot) + Asked(more, slot)
    ensures Balanced(items, w.(items := w.items[i := x], take := w.take + more), slot)
  {
    HeldByUpdate(w.items, i, x, slot);
    AskedConcat(w.take, more, slot);
  }

  lemma {:induction false} GiveBalances(items: seq<Item>, w: Work, i: nat, x: Item, less: seq<Demand>, slot: Slot)
    requires Balanced(items, w, slot) && i < |w.items|
    requires Asked(Held(w.items[i]), slot) == Asked(Held(x), slot) + Asked(less, slot)
    ensures Balanced(items, w.(items := w.items[i := x], give := w.give + less), slot)
  {
    HeldByUpdate(w.items, i, x, slot);
    AskedConcat(w.give, less, slot);
  }

  /** What one rewritten line asks of the shelf or gives back to it. */
  lemma {:induction false} RewriteMoves(shelf: Shelf, items: seq<Item>, w: Work, c: Change, slot: Slot)
    returns (more: seq<Demand>, less: seq<Demand>)
    requires slot in shelf && c.at.Some? && c.at.value < |items| == |w.items| && w.items[c.at.value] == items[c.at.value]
    requires KeyOf(c.item) == KeyOf(items[c.at.value]) && c.item.quantity != items[c.at.value].quantity
    ensures var i := c.at.value;
            || (more == [] && Apply(shelf, items, w, c) == w.(items := w.items[i := c.item], give := w.give + less)
                && Asked(Held(w.items[i]), slot) == Asked(Held(c.item), slot) + Asked(less, slot))
            || (less == [] && Apply(shelf, items, w, c) == w.(items := w.items[i := c.item], take := w.take + more)
                && Asked(Held(c.item), slot) == Asked(Held(w.items[i]), slot) + Asked(more, slot))
  {
    var item, x := items[c.at.value], c.item;
    more, less := [], [];
    if x.quantity > item.quantity {
      more := Live(shelf, Held(item.(quantity := x.quantity - item.quantity)));
      DifferenceTaken(shelf, item, x, slot);
    } else {
      less := Held(item.(quantity := item.quantity - x.quantity));
      DifferenceGiven(item, x, slot);
    }
  }

  lemma {:induction false} RewriteBalances(shelf: Shelf, items: seq<Item>, w: Work, c: Change, slot: Slot)
    requires slot in shelf && Balanced(items, w, slot)
    requires c.at.Some? && c.at.value < |items| == |w.items| && w.items[c.at.value] == items[c.at.value]
    requires KeyOf(c.item) == KeyOf(items[c.at.value])
    ensures Balanced(items, Apply(shelf, items, w, c), slot)
  {
    var i := c.at.value;
    if c.item.quantity == items[i].quantity {
      assert Apply(shelf, items, w, c) == w;
    } else {
      var more, less := RewriteMoves(shelf, items, w, c, slot);
      EitherBalances(items, w, Apply(shelf, items, w, c), i, c.item, more, less, slot);
    }
  }

  lemma {:induction false} EitherBalances(items: seq<Item>, w: Work, t: Work, i: nat, x: Item,
                                          more: seq<Demand>, less: seq<Demand>, slot: Slot)
    requires Balanced(items, w, slot) && i < |w.items|
    requires || (t == w.(items := w.items[i := x], give := w.give + less)
                 && Asked(Held(w.items[i]), slot) == Asked(Held(x), slot) + Asked(less, slot))
             || (t == w.(items := w.items[i := x], take := w.take + more)
                 && Asked(Held(x), slot) == Asked(Held(w.items[i]), slot) + Asked(more, slot))
    ensures Balanced(items, t, slot)
  {
    if t == w.(items := w.items[i := x], give := w.give + less)
       && Asked(Held(w.items[i]), slot) == Asked(Held(x), slot) + Asked(less, slot) {
      GiveBalances(items, w, i, x, less, slot);
    } else {
      TakeBalances(items, w, i, x, more, slot);
    }
  }

  /** While changes are written, what the lines hold and what is left to take or give back stay in balance. */
  lemma {:induction false} WorkBalances(shelf: Shelf, items: seq<Item>, wanted: seq<Entry>, changes: seq<Change>,
                                        slot: Slot)
    requires Answers(items, wanted, changes) && DistinctKeys(wanted) && Aimed(items, changes) && slot in shelf
    ensures Balanced(items, ApplyAll(shelf, items, changes), slot)
  {
    if changes != [] {
      var n := |changes| - 1;
      AnswersPrefix(items, wanted, changes);
      WorkBalances(shelf, items, wanted[..n], changes[..n], slot);
      var w := ApplyAll(shelf, items, changes[..n]);
      if changes[n].at.None? {
        AddBalances(shelf, items, w, changes[n], slot);
      } else {
        forall j | 0 <= j < n ensures changes[..n][j].at != changes[n].at {
          AimsApart(items, wanted, changes, j, n);
        }
        Untouched(shelf, items, changes[..n], changes[n].at.value);
        RewriteBalances(shelf, items, w, changes[n], slot);
      }
    }
  }

  lemma {:induction false} HeldByOneMore(item: Item, rest: seq<Item>, slot: Slot)
    ensures Asked(HeldBy([item] + rest), slot) == Asked(Held(item), slot) + Asked(HeldBy(rest), slot)
  {
    HeldByHead([item] + rest, slot);
    assert ([item] + rest)[1..] == rest;
  }

  lemma {:induction false} KeptAndRemoved(items: seq<Item>, wanted: seq<Entry>, slot: Slot)
    ensures Asked(HeldBy(items), slot) ==
            Asked(HeldBy(Kept(items, wanted)), slot) + Asked(HeldBy(Removed(items, wanted)), slot)
  {
    if items != [] {
      var tail := items[1..];
      var kept, removed := Kept(tail, wanted), Removed(tail, wanted);
      KeptAndRemoved(tail, wanted, slot);
      HeldByHead(items, slot);
      if Wanted(wanted, items[0]) {
        HeldByOneMore(items[0], kept, slot);
        assert [] + removed == removed;
      } else {
        HeldByOneMore(items[0], removed, slot);
        assert [] + kept == kept;
      }
    }
  }

  lemma {:induction false} SameRemoved(a: seq<Item>, b: seq<Item>, wanted: seq<Entry>)
    requires |a| == |b|
    requires forall i :: 0 <= i < |a| ==> KeyOf(a[i]) == KeyOf(b[i]) && (!Wanted(wanted, a[i]) ==> a[i] == b[i])
    ensures Removed(a, wanted) == Removed(b, wanted)
  {
    if a != [] {
      SameRemoved(a[1..], b[1..], wanted);
    }
  }

  lemma {:induction false} RemovedUntouched(shelf: Shelf, items: seq<Item>, wanted: seq<Entry>, changes: seq<Change>)
    requires Answers(items, wanted, changes) && DistinctKeys(wanted) && Aimed(items, changes)
    ensures Removed(ApplyAll(shelf, items, changes).items, wanted) == Removed(items, wanted)
  {
    var after := ApplyAll(shelf, items, changes).items;
    forall i | 0 <= i < |items|
      ensures KeyOf(after[i]) == KeyOf(items[i]) && (!Wanted(wanted, after[i]) ==> after[i] == items[i])
    {
      KeysStay(shelf, items, wanted, changes, i);
      if k :| 0 <= k < |changes| && changes[k].at == Some(i) {
        assert wanted[k].key == KeyOf(items[i]);
      } else {
        Untouched(shelf, items, changes, i);
      }
    }
    SameRemoved(after, items, wanted);
  }

  lemma {:induction false} EditKeys(db: Db, items: seq<Item>, r: Repriced)
    requires Aimed(items, r.changes) && db.store.tracks && Rewrite(db, items, r).Some?
    ensures Rewrite(db, items, r).value.1.Keys == db.shelf.Keys
  {
    var w := ApplyAll(db.shelf, items, r.changes);
    var taken := Reserve(db.shelf, w.take).value;
    ReserveTakes(db.shelf, w.take, taken);
    ReleaseGives(taken, w.give + HeldBy(Removed(items, r.wanted)));
  }

  /** An edit moves each shelf row by exactly the difference between what the order held and what it holds now. */
  lemma {:induction false} EditMovesTheDifference(db: Db, items: seq<Item>, r: Repriced, slot: Slot)
    requires Answers(items, r.wanted, r.changes) && DistinctKeys(r.wanted) && Aimed(items, r.changes)
    requires db.store.tracks && slot in db.shelf && Rewrite(db, items, r).Some?
    ensures var after := Rewrite(db, items, r).value;
            && after.1.Keys == db.shelf.Keys
            && after.1[slot] + Asked(HeldBy(after.0), slot) == db.shelf[slot] + Asked(HeldBy(items), slot)
  {
    var w := ApplyAll(db.shelf, items, r.changes);
    var gone := HeldBy(Removed(items, r.wanted));
    var taken := Reserve(db.shelf, w.take).value;
    ReserveTakes(db.shelf, w.take, taken);
    ReleaseGives(taken, w.give + gone);
    AskedConcat(w.give, gone, slot);
    WorkBalances(db.shelf, items, r.wanted, r.changes, slot);
    KeptAndRemoved(w.items, r.wanted, slot);
    RemovedUntouched(db.shelf, items, r.wanted, r.changes);
    HeldByConcat(Kept(w.items, r.wanted), w.added);
    AskedConcat(HeldBy(Kept(w.items, r.wanted)), HeldBy(w.added), slot);
  }

  // ---- Amounts --------------------------------------------------------------------------------

  /** Quantity, subtotal and tax of a list of lines. */
  datatype Tally = Tally(quantity: nat, subtotal: nat, tax: nat)

  function Plus(a: Tally, b: Tally): Tally {
    Tally(a.quantity + b.quantity, a.subtotal + b.subtotal, a.tax + b.tax)
  }

  function One(item: Item): Tally {
    var p := PriceLine(LineOf(item));
    Tally(item.quantity, p.subtotal, p.tax)
  }

  function Total(items: seq<Item>): Tally {
    if items == [] then Tally(0, 0, 0) else Plus(One(items[0]), Total(items[1..]))
  }

  lemma {:induction false} TotalConcat(a: seq<Item>, b: seq<Item>)
    ensures Total(a + b) == Plus(Total(a), Total(b))
  {
    if a == [] {
      assert a + b == b;
    } else {
      assert (a + b)[1..] == a[1..] + b;
      TotalConcat(a[1..], b);
    }
  }

  lemma {:induction false} TotalOfLines(items: seq<Item>)
    ensures Total(items).subtotal == Subtotal(Lines(items)) && Total(items).tax == Tax(Lines(items))
  {
    if items != [] {
      TotalOfLines(items[1..]);
      assert Lines(items)[1..] == Lines(items[1..]);
    }
  }

  /** Stored lines that stay although a later line of the order has their key: nothing re-prices them. */
  function Surplus(items: seq<Item>, wanted: seq<Entry>): Tally {
    if items == [] then Tally(0, 0, 0)
    else
      var rest := Surplus(items[1..], wanted);
      if Wanted(wanted, items[0]) && LastIndex(items[1..], KeyOf(items[0])).Some? then Plus(One(items[0]), rest)
      else rest
  }

  lemma {:induction false} FindExtends(wanted: seq<Entry>, e: Entry, key: Key)
    ensures Find(wanted + [e], key) < |wanted + [e]| <==> Find(wanted, key) < |wanted| || key == e.key
  {
    var longer := wanted + [e];
    if Find(longer, key) == |longer| {
      assert longer[|wanted|].key != key;
      forall j | 0 <= j < |wanted| ensures wanted[j].key != key {
        assert longer[j].key != key;
      }
    }
    if Find(wanted, key) < |wanted| {
      assert longer[Find(wanted, key)].key == key;
    }
    if key == e.key {
      assert longer[|wanted|].key == key;
    }
  }

  lemma {:induction false} NoSuchLine(items: seq<Item>, wanted: seq<Entry>, e: Entry)
    requires LastIndex(items, e.key).None?
    ensures Kept(items, wanted + [e]) == Kept(items, wanted)
    ensures Surplus(items, wanted + [e]) == Surplus(items, wanted)
  {
    if items != [] {
      assert KeyOf(items[0]) != e.key;
      NoSuchLine(items[1..], wanted, e);
      FindExtends(wanted, e, KeyOf(items[0]));
    }
  }

  lemma {:induction false} LastIndexKept(items: seq<Item>, i: nat, x: Item, key: Key)
    requires i < |items| && KeyOf(x) == KeyOf(items[i])
    ensures LastIndex(items[i := x], key) == LastIndex(items, key)
  {
    var tail := items[1..];
    if i == 0 {
      assert items[i := x][1..] == tail;
    } else {
      assert items[i := x][1..] == tail[i - 1 := x];
      LastIndexKept(tail, i - 1, x, key);
    }
  }

  lemma {:induction false} KeptHead(items: seq<Item>, wanted: seq<Entry>)
    requires items != []
    ensures Total(Kept(items, wanted)) ==
            if Wanted(wanted, items[0]) then Plus(One(items[0]), Total(Kept(items[1..], wanted)))
            else Total(Kept(items[1..], wanted))
  {
    var rest := Kept(items[1..], wanted);
    TotalConcat([items[0]], rest);
    assert [] + rest == rest;
  }

  /** Accounting for one more wanted key: its last line becomes x, its earlier lines become surplus. */
  ghost predicate Accounted(items: seq<Item>, after: seq<Item>, wanted: seq<Entry>, longer: seq<Entry>, x: Item) {
    Plus(Total(Kept(after, longer)), Surplus(items, wanted))
    == Plus(Plus(Total(Kept(items, wanted)), Surplus(after, longer)), One(x))
  }

  lemma {:induction false} SurplusHead(items: seq<Item>, wanted: seq<Entry>)
    requires items != []
    ensures Surplus(items, wanted) ==
            if Wanted(wanted, items[0]) && LastIndex(items[1..], KeyOf(items[0])).Some?
            then Plus(One(items[0]), Surplus(items[1..], wanted))
            else Surplus(items[1..], wanted)
  {
  }

  /** An earlier line of the new key: not kept and no surplus before, both after. */
  lemma {:induction false} OneMoreSame(items: seq<Item>, after: seq<Item>, wanted: seq<Entry>, e: Entry, x: Item)
    requires items != [] && after != [] && items[0] == after[0] && Find(wanted, e.key) == |wanted|
    requires Accounted(items[1..], after[1..], wanted, wanted + [e], x)
    requires KeyOf(items[0]) == e.key && LastIndex(after[1..], e.key).Some?
    ensures Accounted(items, after, wanted, wanted + [e], x)
  {
    FindExtends(wanted, e, e.key);
    KeptHead(items, wanted);
    KeptHead(after, wanted + [e]);
    SurplusHead(items, wanted);
    SurplusHead(after, wanted + [e]);
  }

  /** What a head line of another key adds to the lines kept and to the surplus, before and after alike. */
  lemma {:induction false} OtherHead(items: seq<Item>, after: seq<Item>, wanted: seq<Entry>, e: Entry)
    returns (kept: Tally, over: Tally)
    requires items != [] && after != [] && items[0] == after[0] && KeyOf(items[0]) != e.key
    requires LastIndex(items[1..], KeyOf(items[0])).Some? <==> LastIndex(after[1..], KeyOf(items[0])).Some?
    ensures Total(Kept(items, wanted)) == Plus(kept, Total(Kept(items[1..], wanted)))
    ensures Total(Kept(after, wanted + [e])) == Plus(kept, Total(Kept(after[1..], wanted + [e])))
    ensures Surplus(items, wanted) == Plus(over, Surplus(items[1..], wanted))
    ensures Surplus(after, wanted + [e]) == Plus(over, Surplus(after[1..], wanted + [e]))
  {
    var none := Tally(0, 0, 0);
    FindExtends(wanted, e, KeyOf(items[0]));
    KeptHead(items, wanted);
    KeptHead(after, wanted + [e]);
    SurplusHead(items, wanted);
    SurplusHead(after, wanted + [e]);
    kept := if Wanted(wanted, items[0]) then One(items[0]) else none;
    over := if LastIndex(items[1..], KeyOf(items[0])).Some? then kept else none;
  }

  lemma {:induction false} SameOnBothSides(kept: Tally, over: Tally, k: Tally, l: Tally, s: Tally, t: Tally, one: Tally)
    requires Plus(l, s) == Plus(Plus(k, t), one)
    ensures Plus(Plus(kept, l), Plus(over, s)) == Plus(Plus(Plus(kept, k), Plus(over, t)), one)
  {
  }

  /** A line of another key counts the same on both sides. */
  lemma {:induction false} OneMoreOther(items: seq<Item>, after: seq<Item>, wanted: seq<Entry>, e: Entry, x: Item)
    requires items != [] && after != [] && items[0] == after[0] && KeyOf(items[0]) != e.key
    requires Accounted(items[1..], after[1..], wanted, wanted + [e], x)
    requires LastIndex(items[1..], KeyOf(items[0])).Some? <==> LastIndex(after[1..], KeyOf(items[0])).Some?
    ensures Accounted(items, after, wanted, wanted + [e], x)
  {
    var kept, over := OtherHead(items, after, wanted, e);
    SameOnBothSides(kept, over, Total(Kept(items[1..], wanted)), Total(Kept(after[1..], wanted + [e])),
                    Surplus(items[1..], wanted), Surplus(after[1..], wanted + [e]), One(x));
  }

  lemma {:induction false} OneMoreLast(items: seq<Item>, wanted: seq<Entry>, e: Entry, x: Item)
    requires items != [] && KeyOf(items[0]) == e.key == KeyOf(x) && LastIndex(items[1..], e.key).None?
    requires Find(wanted, e.key) == |wanted|
    ensures Accounted(items, [x] + items[1..], wanted, wanted + [e], x)
  {
    var after, longer := [x] + items[1..], wanted + [e];
    assert after[1..] == items[1..];
    NoSuchLine(items[1..], wanted, e);
    FindExtends(wanted, e, e.key);
    KeptHead(items, wanted);
    KeptHead(after, longer);
    SurplusHead(items, wanted);
    SurplusHead(after, longer);
  }

  lemma {:induction false} UpdateTail(items: seq<Item>, i: nat, x: Item)
    requires i < |items|
    ensures items[i := x] == if i == 0 then [x] + items[1..] else [items[0]] + items[1..][i - 1 := x]
  {
  }

  lemma {:induction false} OneMoreKey(items: seq<Item>, wanted: seq<Entry>, e: Entry, x: Item)
    requires LastIndex(items, e.key).Some? && KeyOf(x) == e.key && Find(wanted, e.key) == |wanted|
    ensures Accounted(items, items[LastIndex(items, e.key).value := x], wanted, wanted + [e], x)
  {
    var i := LastIndex(items, e.key).value;
    var h, tail := items[0], items[1..];
    UpdateTail(items, i, x);
    if LastIndex(tail, e.key).Some? {
      var after := tail[i - 1 := x];
      OneMoreKey(tail, wanted, e, x);
      LastIndexKept(tail, i - 1, x, KeyOf(h));
      assert ([h] + after)[1..] == after;
      if KeyOf(h) == e.key {
        OneMoreSame(items, [h] + after, wanted, e, x);
      } else {
        OneMoreOther(items, [h] + after, wanted, e, x);
      }
    } else {
      OneMoreLast(items, wanted, e, x);
    }
  }
}
