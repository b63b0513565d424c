/** Stock rows and the two ways orders move them: a conditional take and an unconditional give-back. */
module Stock {
  import opened Base

  /** The row a line takes stock from: its variant when it names one, else the product itself. */
  datatype Slot = ProductRow(product: Id) | VariantRow(variant: Id)

  type Shelf = map<Slot, nat>

  datatype Demand = Demand(slot: Slot, quantity: nat)

  /** One conditional UPDATE per line; a line that updates no row rejects the whole request. */
  function Reserve(shelf: Shelf, lines: seq<Demand>): Option<Shelf> {
    if lines == [] then Some(shelf)
    else
      var d := lines[0];
      if d.slot in shelf && shelf[d.slot] >= d.quantity then
        Reserve(shelf[d.slot := shelf[d.slot] - d.quantity], lines[1..])
      else None
  }

  /** A row deleted since is silently skipped. */
  function Release(shelf: Shelf, lines: seq<Demand>): Shelf {
    if lines == [] then shelf
    else
      var d := lines[0];
      Release(if d.slot in shelf then shelf[d.slot := shelf[d.slot] + d.quantity] else shelf, lines[1..])
  }

  /** Everything a list of lines asks of one row, repeated lines added up. */
  function Asked(lines: seq<Demand>, slot: Slot): nat {
    if lines == [] then 0
    else (if lines[0].slot == slot then lines[0].quantity else 0) + Asked(lines[1..], slot)
  }

  ghost predicate AllOnShelf(shelf: Shelf, lines: seq<Demand>) {
    forall d :: d in lines ==> d.slot in shelf
  }

  lemma {:induction false} AskedConcat(a: seq<Demand>, b: seq<Demand>, slot: Slot)
    ensures Asked(a + b, slot) == Asked(a, slot) + Asked(b, slot)
  {
    if a == [] {
      assert a + b == b;
    } else {
      assert (a + b)[1..] == a[1..] + b;
      AskedConcat(a[1..], b, slot);
    }
  }

  /** Taking stock succeeds exactly when every named row exists and holds the sum of what is asked of it. */
  lemma {:induction false} ReserveIffEnough(shelf: Shelf, lines: seq<Demand>)
    ensures Reserve(shelf, lines).Some? <==>
            AllOnShelf(shelf, lines) && forall slot :: slot in shelf ==> Asked(lines, slot) <= shelf[slot]
  {
    if lines != [] {
      var d, rest := lines[0], lines[1..];
      if d.slot in shelf && shelf[d.slot] >= d.quantity {
        var next := shelf[d.slot := shelf[d.slot] - d.quantity];
        ReserveIffEnough(next, rest);
        assert next.Keys == shelf.Keys;
        assert lines == [d] + rest;
        if AllOnShelf(shelf, lines) && forall slot :: slot in shelf ==> Asked(lines, slot) <= shelf[slot] {
          forall slot | slot in next ensures Asked(rest, slot) <= next[slot] {
            assert Asked(lines, slot) <= shelf[slot];
          }
        }
        if AllOnShelf(next, rest) && forall slot :: slot in next ==> Asked(rest, slot) <= next[slot] {
          forall slot | slot in shelf ensures Asked(lines, slot) <= shelf[slot] {
            assert Asked(rest, slot) <= next[slot];
          }
        }
      } else if d.slot in shelf {
        assert Asked(lines, d.slot) > shelf[d.slot];
      } else {
        assert d in lines;
      }
    }
  }

  /** Each row loses exactly what was asked of it; no row appears, disappears or goes below zero. */
  lemma {:induction false} ReserveTakes(shelf: Shelf, lines: seq<Demand>, after: Shelf)
    requires Reserve(shelf, lines) == Some(after)
    ensures after.Keys == shelf.Keys
    ensures forall slot :: slot in shelf ==> after[slot] == shelf[slot] - Asked(lines, slot)
  {
    if lines != [] {
      var d := lines[0];
      var next := shelf[d.slot := shelf[d.slot] - d.quantity];
      ReserveTakes(next, lines[1..], after);
      assert next.Keys == shelf.Keys;
    }
  }

  lemma {:induction false} ReleaseGives(shelf: Shelf, lines: seq<Demand>)
    ensures Release(shelf, lines).Keys == shelf.Keys
    ensures forall slot :: slot in shelf ==> Release(shelf, lines)[slot] == shelf[slot] + Asked(lines, slot)
  {
    if lines != [] {
      var d := lines[0];
      var next := if d.slot in shelf then shelf[d.slot := shelf[d.slot] + d.quantity] else shelf;
      ReleaseGives(next, lines[1..]);
      assert next.Keys == shelf.Keys;
    }
  }

  /** Cancelling straight after ordering restores the shelf. */
  lemma {:induction false} ReleaseUndoesReserve(shelf: Shelf, lines: seq<Demand>, after: Shelf)
    requires Reserve(shelf, lines) == Some(after)
    ensures Release(after, lines) == shelf
  {
    ReserveTakes(shelf, lines, after);
    ReleaseGives(after, lines);
  }
}
