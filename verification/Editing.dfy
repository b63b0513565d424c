/** The merchant's correction of an open order: its lines, shipping and manual payment status. */
module Editing {
  import opened Base
  import opened Pricing
  import opened Stock
  import opened Lifecycle
  import opened Domain
  import opened Checkout

  /** What the request changes; an absent field is left alone, `shipping: Some(None)` switches to pick-up. */
  datatype Edit = Edit(wants: Option<seq<Want>>, shipping: Option<Option<Id>>, paid: Option<bool>)

  datatype Entry = Entry(key: Key, quantity: nat)

  /** Position of a key in the merged list, |list| when absent. */
  function Find(list: seq<Entry>, key: Key): (i: nat)
    ensures i <= |list|
    ensures i < |list| ==> list[i].key == key
    ensures i == |list| <==> forall j :: 0 <= j < |list| ==> list[j].key != key
  {
    if list == [] then 0
    else if list[0].key == key then 0
    else
      var j := Find(list[1..], key);
      assert forall k :: 1 <= k < |list| ==> list[k] == list[1..][k - 1];
      assert j == |list[1..]| ==> forall k :: 0 <= k < |list| ==> list[k].key != key;
      j + 1
  }

  function Merge(list: seq<Entry>, e: Entry): seq<Entry> {
    var i := Find(list, e.key);
    if i < |list| then list[i := Entry(e.key, list[i].quantity + e.quantity)] else list + [e]
  }

  /** Repeated lines are merged, so a product can't be listed twice. */
  function Merged(entries: seq<Entry>): seq<Entry> {
    if entries == [] then [] else Merge(Merged(entries[..|entries| - 1]), entries[|entries| - 1])
  }

  function Requested(items: seq<Item>, wants: Option<seq<Want>>): seq<Entry> {
    match wants
    case Some(ws) => seq(|ws|, i requires 0 <= i < |ws| => Entry(KeyOfWant(ws[i]), ws[i].quantity))
    case None => seq(|items|, i requires 0 <= i < |items| => Entry(KeyOf(items[i]), items[i].quantity))
  }

  /** The line a key stands for: of several with the same key, the last. */
  function LastIndex(items: seq<Item>, key: Key): (r: Option<nat>)
    ensures r.Some? ==> r.value < |items| && KeyOf(items[r.value]) == key
    ensures r.None? <==> forall j :: 0 <= j < |items| ==> KeyOf(items[j]) != key
  {
    if items == [] then None
    else
      var tail := items[1..];
      assert forall j :: 1 <= j < |items| ==> items[j] == tail[j - 1];
      var later := LastIndex(tail, key);
      if later.Some? then Some(later.value + 1)
      else if KeyOf(items[0]) == key then Some(0)
      else
        assert forall j :: 0 <= j < |items| ==> KeyOf(items[j]) != key;
        None
  }

  /** One wanted line: the stored line it changes, if any, and what it becomes. */
  datatype Change = Change(at: Option<nat>, item: Item)

  /** A stored line keeps its own price and rates; only a new line is priced from the catalogue. */
  function ChangeFor(catalogue: map<Id, Product>, items: seq<Item>, e: Entry): Option<Change> {
    match LastIndex(items, e.key)
    case Some(i) => Some(Change(Some(i), Requantify(items[i], e.quantity)))
    case None =>
      if e.key.product.None? then None
      else
        var item :- Offer(catalogue, Want(e.key.product.value, e.key.variant, e.quantity));
        Some(Change(None, item))
  }

  function Changes(catalogue: map<Id, Product>, items: seq<Item>, wanted: seq<Entry>): Option<seq<Change>> {
    if wanted == [] then Some([])
    else
      var init :- Changes(catalogue, items, wanted[..|wanted| - 1]);
      var last :- ChangeFor(catalogue, items, wanted[|wanted| - 1]);
      Some(init + [last])
  }

  function ItemsOf(changes: seq<Change>): seq<Item> {
    seq(|changes|, i requires 0 <= i < |changes| => changes[i].item)
  }

  /** Item rows and stock movements while the changes are written. */
  datatype Work = Work(items: seq<Item>, added: seq<Item>, take: seq<Demand>, give: seq<Demand>)

  /** Nothing is taken for a line whose product was deleted since. */
  function Live(shelf: Shelf, lines: seq<Demand>): seq<Demand> {
    if lines != [] && lines[0].slot in shelf then lines else []
  }

  /** A kept line takes or gives back only what its quantity grew or shrank by; a new line takes all of its own. */
  function Apply(shelf: Shelf, items: seq<Item>, w: Work, c: Change): Work
    requires c.at.Some? ==> c.at.value < |items| == |w.items|
  {
    match c.at
    case None => w.(added := w.added + [c.item], take := w.take + Held(c.item))
    case Some(i) =>
      var was, now := items[i].quantity, c.item.quantity;
      if now == was then w
      else if now > was then
        w.(items := w.items[i := c.item], take := w.take + Live(shelf, Held(items[i].(quantity := now - was))))
      else w.(items := w.items[i := c.item], give := w.give + Held(items[i].(quantity := was - now)))
  }

  predicate Aimed(items: seq<Item>, changes: seq<Change>) {
    forall c :: c in changes && c.at.Some? ==> c.at.value < |items|
  }

  function ApplyAll(shelf: Shelf, items: seq<Item>, changes: seq<Change>): (w: Work)
    requires Aimed(items, changes)
    ensures |w.items| == |items|
  {
    if changes == [] then Work(items, [], [], [])
    else
      var init, last := changes[..|changes| - 1], changes[|changes| - 1];
      assert last in changes && forall c :: c in init ==> c in changes;
      Apply(shelf, items, ApplyAll(shelf, items, init), last)
  }

  predicate Wanted(wanted: seq<Entry>, item: Item) {
    Find(wanted, KeyOf(item)) < |wanted|
  }

  function Kept(items: seq<Item>, wanted: seq<Entry>): seq<Item> {
    if items == [] then []
    else (if Wanted(wanted, items[0]) then [items[0]] else []) + Kept(items[1..], wanted)
  }

  function Removed(items: seq<Item>, wanted: seq<Entry>): seq<Item> {
    if items == [] then []
    else (if Wanted(wanted, items[0]) then [] else [items[0]]) + Removed(items[1..], wanted)
  }

  lemma {:induction false} ChangesAim(catalogue: map<Id, Product>, items: seq<Item>, wanted: seq<Entry>)
    ensures var changes := Changes(catalogue, items, wanted);
            changes.Some? ==> |changes.value| == |wanted| && Aimed(items, changes.value)
  {
    if wanted != [] {
      ChangesAim(catalogue, items, wanted[..|wanted| - 1]);
    }
  }

  datatype Repriced = Repriced(wanted: seq<Entry>, changes: seq<Change>, totals: Totals, shipping: Option<Id>)

  /** Works out the new lines and totals for a merged list without writing anything. */
  function RepriceLines(db: Db, o: Order, wanted: seq<Entry>, shipping: Option<Option<Id>>): (r: Option<Repriced>)
    ensures r.Some? ==> Aimed(o.items, r.value.changes)
  {
    var changes :- Changes(db.catalogue, o.items, wanted);
    ChangesAim(db.catalogue, o.items, wanted);
    var lines := Lines(ItemsOf(changes));
    var subtotal, tax := Subtotal(lines), Tax(lines);
    var discount := if o.coupon.Some? && o.coupon.value in db.coupons
                    then CouponDiscount(subtotal + tax, db.coupons[o.coupon.value].discount)
                    else o.totals.discount;
    match shipping
    case None => Some(Repriced(wanted, changes, MakeTotals(subtotal, tax, discount, o.totals.shipping), o.shipping))
    case Some(None) => Some(Repriced(wanted, changes, MakeTotals(subtotal, tax, discount, 0), None))
    case Some(Some(id)) =>
      if id !in db.shippings then None
      else Some(Repriced(wanted, changes, MakeTotals(subtotal, tax, discount, db.shippings[id].cost), Some(id)))
  }

  function Reprice(db: Db, o: Order, wants: Option<seq<Want>>, shipping: Option<Option<Id>>): (r: Option<Repriced>)
    ensures r.Some? ==> Aimed(o.items, r.value.changes)
  {
    RepriceLines(db, o, Merged(Requested(o.items, wants)), shipping)
  }

  /** Writes the line changes: the new lines and the shelf after taking, then giving back, the differences. */
  function Rewrite(db: Db, items: seq<Item>, r: Repriced): Option<(seq<Item>, Shelf)>
    requires Aimed(items, r.changes)
  {
    var w := ApplyAll(db.shelf, items, r.changes);
    var shelf :- if db.store.tracks then Reserve(db.shelf, w.take) else Some(db.shelf);
    var give := w.give + HeldBy(Removed(items, r.wanted));
    Some((Kept(w.items, r.wanted) + w.added, if db.store.tracks then Release(shelf, give) else shelf))
  }

  /** Orders whose payment status and paid total an edit may not touch. PayPal's are not among them. */
  predicate CardOrder(how: Method) {
    how == Stripe || how == MercadoPago
  }

  function Repaid(row: Row, paid: Option<bool>): Option<Row> {
    if paid.None? then Some(row)
    else
      var pay := if paid.value then Paid else Unpaid;
      if pay == row.pay then Some(row)
      else if CardOrder(row.how) then None
      else Some(row.(pay := pay))
  }

  /** The order with its lines and totals worked out anew, and the shelf; a paid card order keeps its total. */
  function Rework(db: Db, o: Order, e: Edit): Option<(Order, Shelf)> {
    if e.wants.None? && e.shipping.None? then Some((o, db.shelf))
    else
      var r :- Reprice(db, o, e.wants, e.shipping);
      if CardOrder(o.row.how) && o.row.pay == Paid && r.totals.grand != o.totals.grand then None
      else
        var written :- Rewrite(db, o.items, r);
        Some((o.(items := written.0, totals := r.totals, shipping := r.shipping), written.1))
  }

  function UpdateDetails(db: Db, i: nat, e: Edit): Option<Db> {
    if i >= |db.orders| || Terminal(db.orders[i].row.status) then None
    else
      var row :- Repaid(db.orders[i].row, e.paid);
      var done :- Rework(db, db.orders[i], e);
      Some(db.(shelf := done.1, orders := db.orders[i := done.0.(row := row)]))
  }

  /** What an edit leaves alone: other orders, other tables, and on its own order all but these columns. */
  ghost predicate Edited(db: Db, t: Db, i: nat, e: Edit) {
    && i < |db.orders| == |t.orders| && !Terminal(db.orders[i].row.status)
    && t == db.(shelf := t.shelf, orders := db.orders[i := t.orders[i]])
    && Repaid(db.orders[i].row, e.paid) == Some(t.orders[i].row)
    && t.orders[i] == db.orders[i].(row := t.orders[i].row, items := t.orders[i].items, totals := t.orders[i].totals,
                                    shipping := t.orders[i].shipping)
  }

  lemma {:induction false} EditFrame(db: Db, i: nat, e: Edit)
    requires UpdateDetails(db, i, e).Some?
    ensures Edited(db, UpdateDetails(db, i, e).value, i, e)
  {
  }

  /** An edit of lines or shipping writes what re-pricing and rewriting came to. */
  lemma {:induction false} EditWrites(db: Db, i: nat, e: Edit) returns (r: Repriced, items: seq<Item>, shelf: Shelf)
    requires UpdateDetails(db, i, e).Some? && (e.wants.Some? || e.shipping.Some?)
    ensures i < |db.orders| && Reprice(db, db.orders[i], e.wants, e.shipping) == Some(r)
    ensures Aimed(db.orders[i].items, r.changes) && Rewrite(db, db.orders[i].items, r) == Some((items, shelf))
    ensures var t := UpdateDetails(db, i, e).value;
            && i < |t.orders|
            && t == db.(shelf := shelf,
                        orders := db.orders[i := db.orders[i].(row := t.orders[i].row, items := items,
                                                               totals := r.totals, shipping := r.shipping)])
    ensures e.paid.None? ==> UpdateDetails(db, i, e).value.orders[i].row == db.orders[i].row
  {
    r := Reprice(db, db.orders[i], e.wants, e.shipping).value;
    var written := Rewrite(db, db.orders[i].items, r).value;
    items, shelf := written.0, written.1;
  }
}
