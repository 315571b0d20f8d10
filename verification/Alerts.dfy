/** The alerts table: rows in id order, ids handed out once and never reused. */
module Alerts {

  datatype Alert = Alert(id: nat, kind: string, blockNumber: nat, txHash: nat)

  /** `lastId` survives deletions, as an AUTOINCREMENT counter does. */
  datatype Table = Table(rows: seq<Alert>, lastId: nat)

  const MAX_LIST: int := 500

  ghost predicate Ordered(rows: seq<Alert>)
  {
    forall i, j :: 0 <= i < j < |rows| ==> rows[i].id < rows[j].id
  }

  ghost predicate Valid(t: Table)
  {
    Ordered(t.rows) && forall r :: r in t.rows ==> 1 <= r.id <= t.lastId
  }

  predicate Stored(rows: seq<Alert>, id: nat)
  {
    exists r :: r in rows && r.id == id
  }

  predicate SameEvent(r: Alert, kind: string, blockNumber: nat, txHash: nat)
  {
    r.txHash == txHash && r.kind == kind && r.blockNumber == blockNumber
  }

  predicate Known(rows: seq<Alert>, kind: string, blockNumber: nat, txHash: nat)
  {
    exists r :: r in rows && SameEvent(r, kind, blockNumber, txHash)
  }

  /** No two rows describe the same event. */
  ghost predicate EventsUnique(rows: seq<Alert>)
  {
    forall r, s :: r in rows && s in rows && r.kind == s.kind && r.blockNumber == s.blockNumber && r.txHash == s.txHash
      ==> r == s
  }

  // ---- operations ----

  /** Insert unless an alert for the same event is already there. */
  function Record(t: Table, kind: string, blockNumber: nat, txHash: nat): Table
  {
    if Known(t.rows, kind, blockNumber, txHash) then t
    else Table(t.rows + [Alert(t.lastId + 1, kind, blockNumber, txHash)], t.lastId + 1)
  }

  /** The page size a caller gets for the page size it asks for. */
  function SafeLimit(limit: int): (n: nat)
    ensures 1 <= n <= MAX_LIST
  {
    if limit < 1 then 1 else if limit > MAX_LIST then MAX_LIST else limit
  }

  /** The `n` oldest rows above `afterId`. */
  function Batch(rows: seq<Alert>, afterId: nat, n: nat): seq<Alert>
  {
    if rows == [] || n == 0 then []
    else if rows[0].id > afterId then [rows[0]] + Batch(rows[1..], afterId, n - 1)
    else Batch(rows[1..], afterId, n)
  }

  function CountAfter(rows: seq<Alert>, afterId: nat): nat
  {
    if rows == [] then 0
    else (if rows[0].id > afterId then 1 else 0) + CountAfter(rows[1..], afterId)
  }

  function Filter(rows: seq<Alert>, keep: Alert -> bool): (kept: seq<Alert>)
    ensures forall r :: r in kept <==> r in rows && keep(r)
  {
    if rows == [] then []
    else (if keep(rows[0]) then [rows[0]] else []) + Filter(rows[1..], keep)
  }

  /** What retention may keep: fewer than `keep` rows are newer, or the row is above the bound. */
  function Retained(rows: seq<Alert>, keep: int, keepAboveId: int): Alert -> bool
  {
    (r: Alert) => CountAfter(rows, r.id) < keep || r.id > keepAboveId
  }

  /** Newest `keep` rows plus everything above `keepAboveId`; zero or less keeps everything. */
  function Prune(t: Table, keep: int, keepAboveId: int): Table
  {
    if keep <= 0 then t else t.(rows := Filter(t.rows, Retained(t.rows, keep, keepAboveId)))
  }

  /** Drop the alerts of blocks from `fromBlock` on. */
  function DropFrom(t: Table, fromBlock: nat): Table
  {
    t.(rows := Filter(t.rows, (r: Alert) => r.blockNumber < fromBlock))
  }

  // ---- facts ----

  lemma OrderedTail(rows: seq<Alert>)
    requires Ordered(rows) && rows != []
    ensures Ordered(rows[1..])
    ensures forall r :: r in rows[1..] ==> rows[0].id < r.id
  {
  }

  lemma OrderedCons(r: Alert, rest: seq<Alert>)
    requires Ordered(rest) && forall s :: s in rest ==> r.id < s.id
    ensures Ordered([r] + rest)
  {
    var rows := [r] + rest;
    forall i, j | 0 <= i < j < |rows|
      ensures rows[i].id < rows[j].id
    {
      assert rows[j] in rest;
    }
  }

  lemma {:induction false} FilterOrdered(rows: seq<Alert>, keep: Alert -> bool)
    requires Ordered(rows)
    ensures Ordered(Filter(rows, keep))
  {
    if rows != [] {
      OrderedTail(rows);
      FilterOrdered(rows[1..], keep);
      if keep(rows[0]) {
        OrderedCons(rows[0], Filter(rows[1..], keep));
      }
    }
  }

  lemma RecordValid(t: Table, kind: string, blockNumber: nat, txHash: nat)
    requires Valid(t)
    ensures Valid(Record(t, kind, blockNumber, txHash))
    ensures EventsUnique(t.rows) ==> EventsUnique(Record(t, kind, blockNumber, txHash).rows)
    ensures Known(Record(t, kind, blockNumber, txHash).rows, kind, blockNumber, txHash)
  {
    var t' := Record(t, kind, blockNumber, txHash);
    if !Known(t.rows, kind, blockNumber, txHash) {
      var r := Alert(t.lastId + 1, kind, blockNumber, txHash);
      assert t'.rows == t.rows + [r];
      assert forall s :: s in t'.rows <==> s in t.rows || s == r;
      assert r in t'.rows && SameEvent(r, kind, blockNumber, txHash);
    }
  }

  /** One row of that kind, block and transaction is there afterwards, under a fresh id if it was
      not there before; all other rows stay as they were. */
  lemma RecordAdds(t: Table, kind: string, blockNumber: nat, txHash: nat)
    ensures
      var rows := Record(t, kind, blockNumber, txHash).rows;
      && (exists r :: r in rows && r.kind == kind && r.blockNumber == blockNumber && r.txHash == txHash)
      && t.rows <= rows
      && (if exists r :: r in t.rows && r.kind == kind && r.blockNumber == blockNumber && r.txHash == txHash
          then rows == t.rows
          else rows == t.rows + [Alert(t.lastId + 1, kind, blockNumber, txHash)])
  {
    var t' := Record(t, kind, blockNumber, txHash);
    if !Known(t.rows, kind, blockNumber, txHash) {
      assert t'.rows[|t.rows|] == Alert(t.lastId + 1, kind, blockNumber, txHash);
      assert forall r :: r in t.rows ==> !SameEvent(r, kind, blockNumber, txHash);
    } else {
      var r :| r in t.rows && SameEvent(r, kind, blockNumber, txHash);
    }
  }

  lemma FilterValid(t: Table, keep: Alert -> bool)
    requires Valid(t)
    ensures Valid(t.(rows := Filter(t.rows, keep)))
    ensures EventsUnique(t.rows) ==> EventsUnique(Filter(t.rows, keep))
  {
    FilterOrdered(t.rows, keep);
  }

  /** `b` holds the oldest rows above `afterId`: all of them up to its own last id. */
  ghost predicate OldestAfter(b: seq<Alert>, rows: seq<Alert>, afterId: nat)
  {
    && Ordered(b)
    && (forall r :: r in b ==> r in rows && r.id > afterId)
    && (forall r :: r in rows && r.id > afterId && b != [] && r.id <= b[|b| - 1].id ==> r in b)
  }

  lemma OldestCons(b: seq<Alert>, rows: seq<Alert>, afterId: nat)
    requires rows != [] && Ordered(rows) && rows[0].id > afterId && OldestAfter(b, rows[1..], afterId)
    ensures OldestAfter([rows[0]] + b, rows, afterId)
  {
    OrderedTail(rows);
    OrderedCons(rows[0], b);
    var c := [rows[0]] + b;
    assert c[|c| - 1] == if b == [] then rows[0] else b[|b| - 1];
    forall r | r in rows && r.id > afterId && r.id <= c[|c| - 1].id
      ensures r in c
    {
      if r != rows[0] {
        assert r in rows[1..];
      }
    }
  }

  lemma OldestSkip(b: seq<Alert>, rows: seq<Alert>, afterId: nat)
    requires rows != [] && rows[0].id <= afterId && OldestAfter(b, rows[1..], afterId)
    ensures OldestAfter(b, rows, afterId)
  {
    assert forall r :: r in rows && r.id > afterId ==> r in rows[1..];
  }

  /** What a page of the table is. */
  lemma {:induction false} BatchIsOldest(rows: seq<Alert>, afterId: nat, n: nat)
    requires Ordered(rows)
    ensures OldestAfter(Batch(rows, afterId, n), rows, afterId)
  {
    if rows != [] && n > 0 {
      OrderedTail(rows);
      if rows[0].id > afterId {
        BatchIsOldest(rows[1..], afterId, n - 1);
        OldestCons(Batch(rows[1..], afterId, n - 1), rows, afterId);
      } else {
        BatchIsOldest(rows[1..], afterId, n);
        OldestSkip(Batch(rows[1..], afterId, n), rows, afterId);
      }
    }
  }

  /** A page that is not full has reached the end. */
  lemma {:induction false} ShortBatchIsAll(rows: seq<Alert>, afterId: nat, n: nat, r: Alert)
    requires |Batch(rows, afterId, n)| < n && r in rows && r.id > afterId
    ensures r in Batch(rows, afterId, n)
  {
    if rows[0].id > afterId {
      if r != rows[0] {
        ShortBatchIsAll(rows[1..], afterId, n - 1, r);
      }
    } else {
      ShortBatchIsAll(rows[1..], afterId, n, r);
    }
  }

  lemma {:induction false} BatchSize(rows: seq<Alert>, afterId: nat, n: nat)
    ensures |Batch(rows, afterId, n)| == if CountAfter(rows, afterId) < n then CountAfter(rows, afterId) else n
  {
    if rows != [] && n > 0 {
      BatchSize(rows[1..], afterId, if rows[0].id > afterId then n - 1 else n);
    }
  }

  /** A page is as long as was asked for, between one and five hundred rows, as far as there are any. */
  lemma PageSize(rows: seq<Alert>, afterId: nat, limit: int)
    ensures
      var page, pending := Batch(rows, afterId, SafeLimit(limit)), CountAfter(rows, afterId);
      && (1 <= limit <= 500 ==> |page| == if pending <= limit then pending else limit)
      && (limit < 1 ==> |page| == if pending == 0 then 0 else 1)
      && (limit > 500 ==> |page| == if pending <= 500 then pending else 500)
  {
    BatchSize(rows, afterId, SafeLimit(limit));
  }

  /** In id order, the rows above `rows[i].id` are exactly those after position `i`. */
  lemma {:induction false} CountAfterPosition(rows: seq<Alert>, i: nat)
    requires Ordered(rows) && i < |rows|
    ensures CountAfter(rows, rows[i].id) == |rows| - 1 - i
  {
    if i == 0 {
      AllAfter(rows[1..], rows[0].id);
    } else {
      CountAfterPosition(rows[1..], i - 1);
    }
  }

  lemma {:induction false} AllAfter(rows: seq<Alert>, id: nat)
    requires forall r :: r in rows ==> r.id > id
    ensures CountAfter(rows, id) == |rows|
  {
    if rows != [] {
      AllAfter(rows[1..], id);
    }
  }

  /** Delivering a batch and moving the cursor to its last id leaves exactly the rest pending. */
  lemma {:induction false} CountAfterBatch(rows: seq<Alert>, afterId: nat, n: nat)
    requires Ordered(rows) && Batch(rows, afterId, n) != []
    ensures var b := Batch(rows, afterId, n);
      && b[|b| - 1].id > afterId
      && CountAfter(rows, b[|b| - 1].id) == CountAfter(rows, afterId) - |b|
  {
    OrderedTail(rows);
    if rows[0].id > afterId {
      AllAfter(rows[1..], afterId);
      AllAfter(rows[1..], rows[0].id);
      if Batch(rows[1..], afterId, n - 1) != [] {
        CountAfterBatch(rows[1..], afterId, n - 1);
        LastIsLater(rows, afterId, n - 1);
      }
    } else {
      CountAfterBatch(rows[1..], afterId, n);
    }
  }

  /** The last row of a page comes after the first row of the table. */
  lemma LastIsLater(rows: seq<Alert>, afterId: nat, n: nat)
    requires Ordered(rows) && rows != [] && Batch(rows[1..], afterId, n) != []
    ensures var b := Batch(rows[1..], afterId, n);
      b[|b| - 1] in rows[1..] && b[|b| - 1].id > rows[0].id
  {
    OrderedTail(rows);
    BatchIsOldest(rows[1..], afterId, n);
    LastIn(Batch(rows[1..], afterId, n), rows[1..]);
  }

  lemma LastIn(b: seq<Alert>, rows: seq<Alert>)
    requires b != [] && forall r :: r in b ==> r in rows
    ensures b[|b| - 1] in rows
  {
  }

  lemma {:induction false} FilterSuffix(rows: seq<Alert>, from: nat, keep: Alert -> bool)
    requires from <= |rows|
    requires forall i :: 0 <= i < |rows| ==> (keep(rows[i]) <==> i >= from)
    ensures Filter(rows, keep) == rows[from..]
  {
    if rows != [] {
      var from' := if from == 0 then 0 else from - 1;
      FilterSuffix(rows[1..], from', keep);
      assert rows[1..][from'..] == rows[from' + 1..];
    }
  }

  /** A short table, or a cursor below every id, keeps all rows. */
  lemma NothingToPrune(rows: seq<Alert>, keep: int, keepAboveId: int)
    requires Ordered(rows) && keep > 0 && (forall r :: r in rows ==> r.id >= 1)
    requires |rows| <= keep || rows[|rows| - 1 - keep].id <= 0 || keepAboveId <= 0
    ensures Filter(rows, Retained(rows, keep, keepAboveId)) == rows
  {
    forall i | 0 <= i < |rows|
      ensures Retained(rows, keep, keepAboveId)(rows[i])
    {
      CountAfterPosition(rows, i);
      assert rows[i] in rows;
      assert |rows| > keep ==> rows[|rows| - 1 - keep] in rows;
    }
    FilterSuffix(rows, 0, Retained(rows, keep, keepAboveId));
  }

  /** Deleting up to the cutoff keeps exactly the newest `keep` rows and those above the bound. */
  lemma PrunedIsSuffix(rows: seq<Alert>, keep: int, keepAboveId: int, cutoff: int, from: nat)
    requires Ordered(rows) && 0 < keep < |rows| && from <= |rows|
    requires var newest := rows[|rows| - 1 - keep].id;
      cutoff == if newest < keepAboveId then newest else keepAboveId
    requires from > 0 ==> rows[from - 1].id <= cutoff
    requires from < |rows| ==> rows[from].id > cutoff
    ensures Filter(rows, Retained(rows, keep, keepAboveId)) == rows[from..]
  {
    forall i | 0 <= i < |rows|
      ensures Retained(rows, keep, keepAboveId)(rows[i]) <==> i >= from
    {
      CountAfterPosition(rows, i);
    }
    FilterSuffix(rows, from, Retained(rows, keep, keepAboveId));
  }

  /** Retention deletes the rows that have at least `keep` newer ones and are not above the bound, and no others. */
  lemma PruneKeeps(t: Table, keep: int, keepAboveId: int, i: nat)
    requires Ordered(t.rows) && i < |t.rows|
    ensures t.rows[i] in Prune(t, keep, keepAboveId).rows
       <==> keep <= 0 || i >= |t.rows| - keep || t.rows[i].id > keepAboveId
    ensures forall r :: r in Prune(t, keep, keepAboveId).rows ==> r in t.rows
  {
    CountAfterPosition(t.rows, i);
    assert t.rows[i] in t.rows;
  }

  // ---- the table object ----

  class AlertTable {
    var rows: seq<Alert>
    var lastId: nat

    function Value(): Table
      reads this
    {
      Table(rows, lastId)
    }

    constructor ()
      ensures Value() == Table([], 0)
    {
      rows, lastId := [], 0;
    }

    method RecordAlert(kind: string, blockNumber: nat, txHash: nat)
      modifies this
      ensures Value() == Record(old(Value()), kind, blockNumber, txHash)
    {
      for i := 0 to |rows|
        invariant forall j :: 0 <= j < i ==> !SameEvent(rows[j], kind, blockNumber, txHash)
      {
        if SameEvent(rows[i], kind, blockNumber, txHash) {
          return;
        }
      }
      lastId := lastId + 1;
      rows := rows + [Alert(lastId, kind, blockNumber, txHash)];
    }

    method ListAlertsAfter(afterId: nat, limit: int) returns (page: seq<Alert>)
      ensures page == Batch(rows, afterId, SafeLimit(limit))
    {
      page := [];
      var i := 0;
      assert rows[0..] == rows;
      while i < |rows| && |page| < SafeLimit(limit)
        invariant 0 <= i <= |rows| && |page| <= SafeLimit(limit)
        invariant page + Batch(rows[i..], afterId, SafeLimit(limit) - |page|) == Batch(rows, afterId, SafeLimit(limit))
      {
        assert rows[i..][1..] == rows[i + 1..];
        if rows[i].id > afterId {
          page := page + [rows[i]];
        }
        i := i + 1;
      }
    }

    method CountAlertsAfter(afterId: nat) returns (n: nat)
      ensures n == CountAfter(rows, afterId)
    {
      n := 0;
      assert rows[0..] == rows;
      for i := 0 to |rows|
        invariant n + CountAfter(rows[i..], afterId) == CountAfter(rows, afterId)
      {
        assert rows[i..][1..] == rows[i + 1..];
        if rows[i].id > afterId {
          n := n + 1;
        }
      }
    }

    /** Find the row just past the newest `keep`, bound it by the cursor, and
        delete everything up to it. What stays is what `Prune` describes by rank. */
    method PruneAlerts(keep: int, keepAboveId: int) returns (deleted: nat)
      requires Valid(Value())
      modifies this
      ensures Value() == Prune(old(Value()), keep, keepAboveId)
      ensures deleted == |old(rows)| - |rows|
    {
      deleted := 0;
      if keep <= 0 {
        return;
      }
      if |rows| <= keep {
        NothingToPrune(rows, keep, keepAboveId);
        return;
      }
      var cutoffRow := rows[|rows| - 1 - keep];
      var cutoff := if cutoffRow.id < keepAboveId then cutoffRow.id else keepAboveId;
      if cutoff <= 0 {
        NothingToPrune(rows, keep, keepAboveId);
        return;
      }
      var from := 0;
      while from < |rows| && rows[from].id <= cutoff
        invariant 0 <= from <= |rows|
        invariant from > 0 ==> rows[from - 1].id <= cutoff
      {
        from := from + 1;
      }
      PrunedIsSuffix(rows, keep, keepAboveId, cutoff, from);
      rows := rows[from..];
      deleted := from;
    }

    /** Remove the alerts of orphaned blocks. */
    method DeleteFromBlock(fromBlock: nat)
      modifies this
      ensures Value() == DropFrom(old(Value()), fromBlock)
    {
      var keep := (r: Alert) => r.blockNumber < fromBlock;
      rows := Filter(rows, keep);
    }
  }
}
