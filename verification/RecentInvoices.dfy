/** The bounded move-to-front list of an account's recent invoices. */
module RecentInvoices {
  import opened Outcomes

  const KEPT := 10

  datatype InvoiceRow = InvoiceRow(id: string, details: string)

  function Dedupe(rows: seq<InvoiceRow>, id: string): seq<InvoiceRow> {
    if rows == [] then [] else (if rows[0].id == id then [] else [rows[0]]) + Dedupe(rows[1..], id)
  }

  function Top(rows: seq<InvoiceRow>): seq<InvoiceRow> {
    rows[..Min(|rows|, KEPT)]
  }

  /** What an invoice event writes back. */
  function Touched(rows: seq<InvoiceRow>, row: InvoiceRow): seq<InvoiceRow> {
    Top([row] + Dedupe(rows, row.id))
  }

  /** Every invoice of a history once, as last seen, the most recently seen first. */
  function Recency(history: seq<InvoiceRow>): seq<InvoiceRow>
    decreases |history|
  {
    if history == [] then []
    else
      var last := history[|history| - 1];
      [last] + Dedupe(Recency(history[..|history| - 1]), last.id)
  }

  /** Where an invoice was last seen, -1 for never. */
  function LastSeen(history: seq<InvoiceRow>, id: string): int
    decreases |history|
  {
    if history == [] then -1
    else if history[|history| - 1].id == id then |history| - 1
    else LastSeen(history[..|history| - 1], id)
  }

  ghost predicate DistinctIds(rows: seq<InvoiceRow>) {
    forall i, j :: 0 <= i < j < |rows| ==> rows[i].id != rows[j].id
  }

  ghost predicate Listed(rows: seq<InvoiceRow>, id: string) {
    exists i :: 0 <= i < |rows| && rows[i].id == id
  }

  lemma {:induction false} DedupeMembers(rows: seq<InvoiceRow>, id: string, x: InvoiceRow)
    ensures x in Dedupe(rows, id) <==> x in rows && x.id != id
  {
    if rows != [] { DedupeMembers(rows[1..], id, x); }
  }

  lemma {:induction false} DedupeAbsent(rows: seq<InvoiceRow>, id: string)
    requires forall x <- rows :: x.id != id
    ensures Dedupe(rows, id) == rows
  {
    if rows != [] { DedupeAbsent(rows[1..], id); }
  }

  lemma {:induction false} DedupeKeepsOrder(rows: seq<InvoiceRow>, id: string, history: seq<InvoiceRow>)
    requires Ordered(rows, history)
    ensures Ordered(Dedupe(rows, id), history)
  {
    if rows != [] {
      var tail := rows[1..];
      assert forall i :: 0 <= i < |tail| ==> tail[i] == rows[i + 1];
      DedupeKeepsOrder(tail, id, history);
      if rows[0].id != id {
        var kept := Dedupe(tail, id);
        assert Dedupe(rows, id) == [rows[0]] + kept;
        forall j | 0 <= j < |kept| ensures LastSeen(history, rows[0].id) > LastSeen(history, kept[j].id) {
          DedupeMembers(tail, id, kept[j]);
          var i :| 0 <= i < |tail| && tail[i] == kept[j];
          assert tail[i] == rows[i + 1];
        }
      }
    }
  }

  /** Later positions were last seen earlier. */
  ghost predicate Ordered(rows: seq<InvoiceRow>, history: seq<InvoiceRow>) {
    forall i, j :: 0 <= i < j < |rows| ==> LastSeen(history, rows[i].id) > LastSeen(history, rows[j].id)
  }

  lemma {:induction false} LastSeenBounds(history: seq<InvoiceRow>, id: string)
    ensures -1 <= LastSeen(history, id) < |history|
    ensures LastSeen(history, id) >= 0 ==> history[LastSeen(history, id)].id == id
    ensures LastSeen(history, id) >= 0 <==> Listed(history, id)
    ensures forall k :: LastSeen(history, id) < k < |history| ==> history[k].id != id
    decreases |history|
  {
    if history != [] {
      var front := history[..|history| - 1];
      LastSeenBounds(front, id);
      assert forall k :: 0 <= k < |front| ==> front[k] == history[k];
      if history[|history| - 1].id == id {
        assert Listed(history, id);
      } else if Listed(history, id) {
        var k :| 0 <= k < |history| && history[k].id == id;
        assert front[k].id == id;
      }
    }
  }

  /** The unbounded list means what its name says: each invoice of the history exactly once,
      as it was last seen, ordered by when that was. */
  lemma {:induction false} RecencyMeaning(history: seq<InvoiceRow>)
    ensures Ordered(Recency(history), history)
    ensures forall x :: x in Recency(history) <==> LastSeen(history, x.id) >= 0 && x == history[SeenAt(history, x.id)]
    decreases |history|
  {
    if history != [] {
      var n := |history| - 1;
      var front, last := history[..n], history[n];
      var rest := Recency(front);
      RecencyMeaning(front);
      DedupeKeepsOrder(rest, last.id, front);
      var kept := Dedupe(rest, last.id);
      forall x ensures x in Recency(history) <==> LastSeen(history, x.id) >= 0 && x == history[SeenAt(history, x.id)] {
        DedupeMembers(rest, last.id, x);
        LastSeenBounds(front, x.id);
        if x.id != last.id { assert LastSeen(history, x.id) == LastSeen(front, x.id); }
      }
      forall j | 0 <= j < |kept| ensures LastSeen(history, kept[j].id) == LastSeen(front, kept[j].id) < n {
        DedupeMembers(rest, last.id, kept[j]);
        LastSeenBounds(front, kept[j].id);
      }
      assert Recency(history) == [last] + kept;
    }
  }

  function SeenAt(history: seq<InvoiceRow>, id: string): nat
    requires LastSeen(history, id) >= 0
    ensures SeenAt(history, id) < |history|
  {
    LastSeenBounds(history, id);
    LastSeen(history, id)
  }

  lemma OrderedIsDistinct(rows: seq<InvoiceRow>, history: seq<InvoiceRow>)
    requires Ordered(rows, history)
    ensures DistinctIds(rows)
  {
  }

  /** Cutting the list before or after removing an id gives the same first entries. */
  lemma {:induction false} DedupeOfPrefix(rows: seq<InvoiceRow>, n: nat, id: string)
    requires DistinctIds(rows) && 0 < n <= |rows|
    ensures |Dedupe(rows[..n], id)| >= n - 1 && |Dedupe(rows, id)| >= n - 1
    ensures Dedupe(rows[..n], id)[..n - 1] == Dedupe(rows, id)[..n - 1]
  {
    var tail := rows[1..];
    assert rows[..n][1..] == tail[..n - 1];
    assert forall i :: 0 <= i < |tail| ==> tail[i] == rows[i + 1];
    if rows[0].id == id {
      assert forall x <- tail :: x.id != id;
      DedupeAbsent(tail, id);
      DedupeAbsent(tail[..n - 1], id);
    } else if n > 1 {
      DedupeOfPrefix(tail, n - 1, id);
      assert Dedupe(rows, id) == [rows[0]] + Dedupe(tail, id);
      assert Dedupe(rows[..n], id) == [rows[0]] + Dedupe(tail[..n - 1], id);
    }
  }

  /** The stored list is the first ten of the whole history, event after event. */
  lemma TouchedIsRecent(history: seq<InvoiceRow>, row: InvoiceRow)
    ensures Touched(Top(Recency(history)), row) == Top(Recency(history + [row]))
  {
    var rows := Recency(history);
    RecencyMeaning(history);
    OrderedIsDistinct(rows, history);
    assert (history + [row])[..|history|] == history;
    if |rows| > KEPT {
      DedupeOfPrefix(rows, KEPT, row.id);
      assert Top([row] + Dedupe(rows, row.id)) == [row] + Dedupe(rows, row.id)[..KEPT - 1];
      assert Top([row] + Dedupe(rows[..KEPT], row.id)) == [row] + Dedupe(rows[..KEPT], row.id)[..KEPT - 1];
    } else {
      assert Top(rows) == rows;
    }
  }

  lemma TopIsDistinct(history: seq<InvoiceRow>)
    ensures DistinctIds(Top(Recency(history))) && |Top(Recency(history))| <= 10
  {
    RecencyMeaning(history);
    OrderedIsDistinct(Recency(history), history);
  }

  function IdsOf(rows: seq<InvoiceRow>): set<string> {
    set row <- rows :: row.id
  }

  lemma IdAt(rows: seq<InvoiceRow>, k: nat)
    requires k < |rows|
    ensures rows[k].id in IdsOf(rows)
  {
  }

  lemma PlaceOf(rows: seq<InvoiceRow>, id: string) returns (k: nat)
    requires id in IdsOf(rows)
    ensures k < |rows| && rows[k].id == id
  {
    k :| 0 <= k < |rows| && rows[k].id == id;
  }

  lemma {:induction false} DistinctIdsCount(rows: seq<InvoiceRow>)
    requires DistinctIds(rows)
    ensures |IdsOf(rows)| == |rows|
  {
    if rows != [] {
      var tail := rows[1..];
      assert forall i :: 0 <= i < |tail| ==> tail[i] == rows[i + 1];
      DistinctIdsCount(tail);
      assert rows[0].id !in IdsOf(tail);
      assert rows == [rows[0]] + tail;
      assert IdsOf(rows) == {rows[0].id} + IdsOf(tail);
    }
  }

  /** `RecencyMeaning` for one row, one invoice, and one pair of rows. */
  lemma RowAt(history: seq<InvoiceRow>, i: nat)
    requires i < |Recency(history)|
    ensures var x := Recency(history)[i]; LastSeen(history, x.id) >= 0 && x == history[SeenAt(history, x.id)]
  {
    RecencyMeaning(history);
    assert Recency(history)[i] in Recency(history);
  }

  lemma RowOf(history: seq<InvoiceRow>, id: string) returns (i: nat)
    requires LastSeen(history, id) >= 0
    ensures i < |Recency(history)| && Recency(history)[i] == history[SeenAt(history, id)]
  {
    var x := history[SeenAt(history, id)];
    LastSeenBounds(history, id);
    RecencyMeaning(history);
    assert x in Recency(history);
    i :| 0 <= i < |Recency(history)| && Recency(history)[i] == x;
  }

  lemma RowsOrdered(history: seq<InvoiceRow>, i: nat, j: nat)
    requires i < j < |Recency(history)|
    ensures LastSeen(history, Recency(history)[i].id) > LastSeen(history, Recency(history)[j].id)
  {
    RecencyMeaning(history);
  }

  /** As many rows as there are different invoices in the history, but no more than ten. */
  lemma TenAreKept(history: seq<InvoiceRow>)
    ensures |Top(Recency(history))| == Min(|IdsOf(history)|, 10)
  {
    hide Recency, LastSeen, IdsOf, DistinctIds;
    var rows := Recency(history);
    RecencyIsDistinct(history);
    DistinctIdsCount(rows);
    forall id <- IdsOf(history) ensures id in IdsOf(rows) {
      var k := PlaceOf(history, id);
      SeenSince(history, k);
      var i := RowOf(history, id);
      LastSeenBounds(history, id);
      IdAt(rows, i);
    }
    forall id <- IdsOf(rows) ensures id in IdsOf(history) {
      var i := PlaceOf(rows, id);
      RowAt(history, i);
      IdAt(history, SeenAt(history, id));
    }
    assert IdsOf(rows) == IdsOf(history);
  }

  lemma RecencyIsDistinct(history: seq<InvoiceRow>)
    ensures DistinctIds(Recency(history))
  {
    RecencyMeaning(history);
    OrderedIsDistinct(Recency(history), history);
  }

  lemma SeenSince(history: seq<InvoiceRow>, k: nat)
    requires k < |history|
    ensures LastSeen(history, history[k].id) >= k
  {
    LastSeenBounds(history, history[k].id);
  }

  /** The invoices listed before row i are those seen after it. */
  lemma SeenAfter(history: seq<InvoiceRow>, i: nat, at: nat)
    requires i < |Recency(history)| && LastSeen(history, Recency(history)[i].id) == at < |history|
    ensures IdsOf(history[at + 1..]) == IdsOf(Recency(history)[..i])
  {
    hide Recency, LastSeen, IdsOf;
    var rows := Recency(history);
    forall id <- IdsOf(history[at + 1..]) ensures id in IdsOf(rows[..i]) {
      var k := PlaceOf(history[at + 1..], id);
      SeenSince(history, at + 1 + k);
      var j := RowOf(history, id);
      LastSeenBounds(history, id);
      if i < j { RowsOrdered(history, i, j); }
      IdAt(rows[..i], j);
    }
    forall id <- IdsOf(rows[..i]) ensures id in IdsOf(history[at + 1..]) {
      var j := PlaceOf(rows[..i], id);
      RowsOrdered(history, j, i);
      RowAt(history, j);
      IdAt(history[at + 1..], SeenAt(history, id) - at - 1);
    }
  }

  /** A row is in the stored list exactly when it is its invoice as last seen, and fewer than ten
      other invoices were seen after it. */
  lemma KeptMeaning(history: seq<InvoiceRow>, x: InvoiceRow)
    ensures x in Top(Recency(history))
       <==> LastSeen(history, x.id) >= 0 && x == history[SeenAt(history, x.id)]
            && |IdsOf(history[SeenAt(history, x.id) + 1..])| < 10
  {
    hide Recency, LastSeen, IdsOf, DistinctIds;
    var rows := Recency(history);
    if LastSeen(history, x.id) >= 0 && x == history[SeenAt(history, x.id)] {
      var i := RowOf(history, x.id);
      SeenAfter(history, i, LastSeen(history, x.id));
      DistinctPrefix(history, i);
      PrefixHas(history, i);
    } else if x in rows {
      var i :| 0 <= i < |rows| && rows[i] == x;
      RowAt(history, i);
    }
  }

  lemma DistinctPrefix(history: seq<InvoiceRow>, i: nat)
    requires i < |Recency(history)|
    ensures |IdsOf(Recency(history)[..i])| == i
  {
    RecencyIsDistinct(history);
    DistinctIdsCount(Recency(history)[..i]);
  }

  lemma PrefixHas(history: seq<InvoiceRow>, i: nat)
    requires i < |Recency(history)|
    ensures Recency(history)[i] in Top(Recency(history)) <==> i < 10
  {
    hide Recency;
    RecencyIsDistinct(history);
  }

  /** Applying the last event again changes no id and no position, whatever details it carries. */
  lemma ReapplyChangesNothing(history: seq<InvoiceRow>, row: InvoiceRow, again: InvoiceRow)
    requires again.id == row.id
    ensures var once := Touched(Top(Recency(history)), row);
            Touched(once, again) == once[0 := again]
  {
    var once := Touched(Top(Recency(history)), row);
    TouchedIsRecent(history, row);
    TopIsDistinct(history + [row]);
    TouchAgain(once, again);
  }

  lemma TouchAgain(once: seq<InvoiceRow>, again: InvoiceRow)
    requires DistinctIds(once) && 0 < |once| <= KEPT && once[0].id == again.id
    ensures Touched(once, again) == once[0 := again]
  {
    hide Dedupe;
    forall i | 0 < i < |once| ensures once[i].id != again.id { assert once[0].id != once[i].id; }
    DedupeHead(once, again.id);
    assert [again] + once[1..] == once[0 := again];
  }

  lemma DedupeHead(rows: seq<InvoiceRow>, id: string)
    requires rows != [] && rows[0].id == id && forall i :: 0 < i < |rows| ==> rows[i].id != id
    ensures Dedupe(rows, id) == rows[1..]
  {
    DedupeAbsent(rows[1..], id);
  }

  /** One after the other, the second write keeps the first unless it replaces it. */
  lemma SecondWriteKeepsFirst(rows: seq<InvoiceRow>, first: InvoiceRow, second: InvoiceRow)
    ensures first in Touched(Touched(rows, first), second) <==> first == second || first.id != second.id
  {
    var between := Touched(rows, first);
    var after := Touched(between, second);
    assert after[0] == second;
    if first.id != second.id {
      assert between[0] == first;
      assert Dedupe(between, second.id) == [first] + Dedupe(between[1..], second.id);
      assert after[1] == first;
    } else {
      DedupeMembers(between, second.id, first);
      assert forall x <- after :: x == second || x in Dedupe(between, second.id);
    }
  }

  /** What a write keeps of the list it read. */
  function Shown(rows: seq<InvoiceRow>, row: InvoiceRow): seq<InvoiceRow> {
    var kept := Dedupe(rows, row.id);
    kept[..Min(|kept|, KEPT - 1)]
  }

  lemma TouchedShows(rows: seq<InvoiceRow>, row: InvoiceRow)
    ensures Touched(rows, row) == [row] + Shown(rows, row)
  {
  }

  /** Two handlers of one organisation may read the same list before either writes. Of two invoices
      the first write, with its details, survives the second exactly when the list read showed that
      very row already; of one invoice the second write replaces the first, as it should. */
  lemma OverlappingWrites(rows: seq<InvoiceRow>, first: InvoiceRow, second: InvoiceRow)
    ensures first in Touched(rows, second) <==> first == second || (first.id != second.id && first in Shown(rows, second))
    ensures (first in Touched(rows, second) <==> first in Touched(Touched(rows, first), second))
       <==> first.id == second.id || first in Shown(rows, second)
  {
    TouchedShows(rows, second);
    SecondWriteKeepsFirst(rows, first, second);
    DedupeMembers(rows, second.id, first);
    if first in Shown(rows, second) {
      var kept := Dedupe(rows, second.id);
      assert first in kept;
    }
  }

  /** The whole list is what the two writes one after the other would leave exactly when both carry
      the same invoice, or the first row was already the front of what the second write keeps. */
  lemma OverlappingLists(rows: seq<InvoiceRow>, first: InvoiceRow, second: InvoiceRow)
    requires DistinctIds(rows) && |rows| <= KEPT
    ensures Touched(rows, second) == Touched(Touched(rows, first), second)
       <==> first.id == second.id || (Shown(rows, second) != [] && Shown(rows, second)[0] == first)
  {
    if first.id == second.id {
      SameInvoiceTwice(rows, first, second);
    } else {
      FirstComesSecond(rows, first, second);
      TouchedShows(rows, second);
      if Shown(rows, second) != [] && Shown(rows, second)[0] == first {
        FrontAlready(rows, first, second);
      }
    }
  }

  lemma SameInvoiceTwice(rows: seq<InvoiceRow>, first: InvoiceRow, second: InvoiceRow)
    requires first.id == second.id
    ensures Touched(Touched(rows, first), second) == Touched(rows, second)
  {
    var shown := Shown(rows, first);
    TouchedShows(rows, first);
    TouchedShows(rows, second);
    forall x <- shown ensures x.id != first.id { DedupeMembers(rows, first.id, x); }
    DedupeAbsent(shown, first.id);
    assert Dedupe([first] + shown, second.id) == shown;
  }

  lemma FirstComesSecond(rows: seq<InvoiceRow>, first: InvoiceRow, second: InvoiceRow)
    requires first.id != second.id
    ensures var after := Touched(Touched(rows, first), second);
            && after == [second] + ([first] + Dedupe(Shown(rows, first), second.id))[..Min(1 + |Dedupe(Shown(rows, first), second.id)|, KEPT - 1)]
            && |after| > 1 && after[1] == first
  {
    TouchedShows(rows, first);
    TouchedShows(Touched(rows, first), second);
    assert ([first] + Shown(rows, first))[1..] == Shown(rows, first);
  }

  lemma DedupeCons(row: InvoiceRow, rest: seq<InvoiceRow>, id: string)
    ensures Dedupe([row] + rest, id) == if row.id == id then Dedupe(rest, id) else [row] + Dedupe(rest, id)
  {
    assert ([row] + rest)[1..] == rest;
  }

  lemma {:induction false} DedupeSwaps(rows: seq<InvoiceRow>, a: string, b: string)
    ensures Dedupe(Dedupe(rows, a), b) == Dedupe(Dedupe(rows, b), a)
  {
    if rows != [] {
      var tail := rows[1..];
      DedupeSwaps(tail, a, b);
      DedupeCons(rows[0], tail, a);
      DedupeCons(rows[0], tail, b);
      DedupeCons(rows[0], Dedupe(tail, a), b);
      DedupeCons(rows[0], Dedupe(tail, b), a);
      assert [rows[0]] + tail == rows;
    }
  }

  lemma {:induction false} DedupeDistinct(rows: seq<InvoiceRow>, id: string)
    requires DistinctIds(rows)
    ensures DistinctIds(Dedupe(rows, id)) && |Dedupe(rows, id)| <= |rows|
    ensures Listed(rows, id) ==> |Dedupe(rows, id)| < |rows|
  {
    if rows != [] {
      var tail := rows[1..];
      assert forall i :: 0 <= i < |tail| ==> tail[i] == rows[i + 1];
      DedupeDistinct(tail, id);
      if rows[0].id != id {
        var kept := Dedupe(tail, id);
        forall j | 0 <= j < |kept| ensures kept[j].id != rows[0].id {
          DedupeMembers(tail, id, kept[j]);
          var i :| 0 <= i < |tail| && tail[i] == kept[j];
        }
        assert Dedupe(rows, id) == [rows[0]] + kept;
        if Listed(rows, id) {
          var i :| 0 <= i < |rows| && rows[i].id == id;
          assert tail[i - 1].id == id;
        }
      }
    }
  }

  lemma FrontAlready(rows: seq<InvoiceRow>, first: InvoiceRow, second: InvoiceRow)
    requires DistinctIds(rows) && |rows| <= KEPT && first.id != second.id
    requires Shown(rows, second) != [] && Shown(rows, second)[0] == first
    ensures Touched(Touched(rows, first), second) == Touched(rows, second)
  {
    var kept := Dedupe(rows, second.id);
    var rest := kept[1..];
    DedupeMembers(rows, second.id, first);
    assert kept[0] == first && first in rows;
    var i :| 0 <= i < |rows| && rows[i] == first;
    assert Listed(rows, first.id);
    DedupeDistinct(rows, first.id);
    assert Shown(rows, first) == Dedupe(rows, first.id);
    DedupeSwaps(rows, first.id, second.id);
    DedupeDistinct(rows, second.id);
    DedupeHead(kept, first.id);
    assert Dedupe(Shown(rows, first), second.id) == rest;
    FirstComesSecond(rows, first, second);
    TouchedShows(rows, second);
    assert [first] + rest == kept;
  }

  /** A paid invoice goes back to open when another invoice's event overlaps with its own. */
  lemma LostPayment()
    ensures var rows := [InvoiceRow("a", "open")];
            && Touched(Touched(rows, InvoiceRow("a", "paid")), InvoiceRow("b", "open")) == [InvoiceRow("b", "open"), InvoiceRow("a", "paid")]
            && Touched(rows, InvoiceRow("b", "open")) == [InvoiceRow("b", "open"), InvoiceRow("a", "open")]
  {
    var open, paid, other := InvoiceRow("a", "open"), InvoiceRow("a", "paid"), InvoiceRow("b", "open");
    assert [open][1..] == [] && [paid][1..] == [];
    assert Dedupe([open], "a") == [] && Dedupe([open], "b") == [open] && Dedupe([paid], "b") == [paid];
    assert Touched([open], paid) == [paid];
  }
}
