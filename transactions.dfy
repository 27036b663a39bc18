/**
 * The ledger of one coin payment: its transaction rows, each keyed by its
 * transaction hash, and the upsert that merges a freshly fetched list of
 * transactions into it.
 */
module Transactions {
  import opened Wrappers

  type Hash = string

  /** Fiat cents per one coin main unit. A rate snapshot is always positive. */
  type Rate = r: real | r > 0.0 witness 1.0

  /** A stored transaction row (CoinPaymentTransaction). */
  datatype Tx = Tx(hash: Hash, confirmations: nat, estimatedValue: int, coinConversion: Rate)

  /** A transaction as the blockchain adapter reports it: no rate snapshot yet. */
  datatype FetchedTx = FetchedTx(hash: Hash, confirmations: nat, estimatedValue: int)

  function HashSet(L: seq<Tx>): set<Hash> {
    set i | 0 <= i < |L| :: L[i].hash
  }

  /** The unique index on `transaction_hash`. */
  predicate NoDuplicateHashes(L: seq<Tx>) {
    forall i, j :: 0 <= i < j < |L| ==> L[i].hash != L[j].hash
  }

  /** How many rows of L carry hash h. */
  function Occurrences(L: seq<Tx>, h: Hash): nat {
    if |L| == 0 then 0 else (if L[0].hash == h then 1 else 0) + Occurrences(L[1..], h)
  }

  lemma HashSetLast(L: seq<Tx>)
    requires |L| > 0
    ensures HashSet(L) == HashSet(L[..|L| - 1]) + {L[|L| - 1].hash}
  {
    var p := L[..|L| - 1];
    forall h | h in HashSet(L) ensures h in HashSet(p) + {L[|L| - 1].hash} {
      var i :| 0 <= i < |L| && L[i].hash == h;
      if i < |L| - 1 { assert p[i] == L[i]; }
    }
    forall h | h in HashSet(p) ensures h in HashSet(L) {
      var i :| 0 <= i < |p| && p[i].hash == h;
      assert L[i] == p[i];
    }
  }

  lemma HashSetFirst(L: seq<Tx>)
    requires |L| > 0
    ensures HashSet(L) == {L[0].hash} + HashSet(L[1..])
  {
    var t := L[1..];
    forall h | h in HashSet(L) ensures h in {L[0].hash} + HashSet(t) {
      var i :| 0 <= i < |L| && L[i].hash == h;
      if i > 0 { assert t[i - 1] == L[i]; }
    }
    forall h | h in HashSet(t) ensures h in HashSet(L) {
      var i :| 0 <= i < |t| && t[i].hash == h;
      assert L[i + 1] == t[i];
    }
  }

  /** The row `find_by_transaction_hash` returns: the first one with hash h, if any. */
  function Find(L: seq<Tx>, h: Hash): (r: Option<nat>)
    ensures r.Some? ==> r.value < |L| && L[r.value].hash == h
    ensures r.Some? ==> forall j :: 0 <= j < r.value ==> L[j].hash != h
    ensures r.None? <==> h !in HashSet(L)
  {
    if |L| == 0 then None
    else
      HashSetFirst(L);
      if L[0].hash == h then Some(0)
      else match Find(L[1..], h)
        case None => None
        case Some(k) => Some(k + 1)
  }

  /**
   * One row of the upsert: when a row with the same hash exists, only its
   * confirmations are overwritten; otherwise the row is appended as given.
   */
  function Upsert(L: seq<Tx>, row: Tx): (r: seq<Tx>)
    ensures HashSet(r) == HashSet(L) + {row.hash}
    ensures |r| == if row.hash in HashSet(L) then |L| else |L| + 1
    ensures forall i :: 0 <= i < |L| ==> r[i] == L[i].(confirmations := r[i].confirmations)
    ensures forall i :: 0 <= i < |L| && L[i].hash != row.hash ==> r[i] == L[i]
    ensures row.hash !in HashSet(L) ==> r[|L|] == row
    ensures NoDuplicateHashes(L) ==> NoDuplicateHashes(r)
    ensures NoDuplicateHashes(L) ==>
      forall i :: 0 <= i < |r| && r[i].hash == row.hash ==> r[i].confirmations == row.confirmations
  {
    match Find(L, row.hash)
    case Some(k) =>
      var r := L[k := L[k].(confirmations := row.confirmations)];
      assert forall i :: 0 <= i < |r| ==> r[i].hash == L[i].hash;
      assert HashSet(r) == HashSet(L);
      r
    case None =>
      var r := L + [row];
      assert r[..|r| - 1] == L;
      HashSetLast(r);
      r
  }

  /** The upsert of a whole list of rows, applied in list order. */
  function UpsertAll(L: seq<Tx>, rows: seq<Tx>): (r: seq<Tx>)
    ensures |r| >= |L|
    ensures HashSet(r) == HashSet(L) + HashSet(rows)
    ensures NoDuplicateHashes(L) ==> NoDuplicateHashes(r)
    decreases |rows|
  {
    if |rows| == 0 then L
    else
      HashSetLast(rows);
      Upsert(UpsertAll(L, rows[..|rows| - 1]), rows[|rows| - 1])
  }

  /**
   * The upsert never removes a row and changes none but the confirmations of
   * rows already there; a row whose hash is not among the upserted ones is
   * left exactly as it was.
   */
  lemma {:induction false} UpsertAllKeepsRows(L: seq<Tx>, rows: seq<Tx>)
    ensures forall i :: 0 <= i < |L| ==>
      UpsertAll(L, rows)[i] == L[i].(confirmations := UpsertAll(L, rows)[i].confirmations)
    ensures forall i :: 0 <= i < |L| && L[i].hash !in HashSet(rows) ==> UpsertAll(L, rows)[i] == L[i]
    decreases |rows|
  {
    if |rows| > 0 {
      HashSetLast(rows);
      UpsertAllKeepsRows(L, rows[..|rows| - 1]);
    }
  }

  /**
   * Every row the upsert adds has a hash new to L and is one of the upserted
   * rows, up to its confirmations (a later row of the same hash updates them).
   */
  lemma {:induction false} UpsertAllNewRows(L: seq<Tx>, rows: seq<Tx>)
    ensures forall i :: |L| <= i < |UpsertAll(L, rows)| ==>
      UpsertAll(L, rows)[i].hash !in HashSet(L) &&
      exists j :: 0 <= j < |rows| &&
        UpsertAll(L, rows)[i] == rows[j].(confirmations := UpsertAll(L, rows)[i].confirmations)
    decreases |rows|
  {
    if |rows| > 0 {
      var pre := rows[..|rows| - 1];
      var last := rows[|rows| - 1];
      var m := UpsertAll(L, pre);
      var r := UpsertAll(L, rows);
      assert r == Upsert(m, last);
      UpsertAllNewRows(L, pre);
      forall i | |L| <= i < |r|
        ensures r[i].hash !in HashSet(L)
        ensures exists j :: 0 <= j < |rows| && r[i] == rows[j].(confirmations := r[i].confirmations)
      {
        if i < |m| {
          var j :| 0 <= j < |pre| && m[i] == pre[j].(confirmations := m[i].confirmations);
          assert r[i] == m[i].(confirmations := r[i].confirmations);
          assert r[i] == rows[j].(confirmations := r[i].confirmations) by { assert pre[j] == rows[j]; }
        } else {
          assert i == |m| && last.hash !in HashSet(m);
          assert r[i] == last;
          assert HashSet(L) <= HashSet(m);
        }
      }
    }
  }

  /**
   * Upserting one row into the ledger keeps a copy aligned with it when the
   * copy gains the row exactly if its hash is new.
   */
  lemma SameRowsUpsert(c: seq<Tx>, m: seq<Tx>, row: Tx)
    requires SameRows(c, m)
    ensures SameRows(c + (if row.hash in HashSet(m) then [] else [row]), Upsert(m, row))
  {
    var extra := if row.hash in HashSet(m) then [] else [row];
    SansConfirmationsAppend(c, extra);
    match Find(m, row.hash)
    case Some(k) =>
      assert c + extra == c;
      SansConfirmationsSetConfs(m, k, row.confirmations);
    case None =>
      SansConfirmationsAppend(m, extra);
  }

  /**
   * A copy of the ledger that was loaded before the upsert and then only
   * extended by the created rows still agrees with the stored ledger in
   * everything but confirmations.
   */
  lemma {:induction false} UpsertAllInserted(C: seq<Tx>, L: seq<Tx>, rows: seq<Tx>)
    requires SameRows(C, L)
    ensures SameRows(C + Inserted(L, rows), UpsertAll(L, rows))
    decreases |rows|
  {
    if |rows| == 0 {
      assert C + [] == C;
    } else {
      var pre := rows[..|rows| - 1];
      var last := rows[|rows| - 1];
      var m := UpsertAll(L, pre);
      var extra := if last.hash in HashSet(m) then [] else [last];
      UpsertAllInserted(C, L, pre);
      SameRowsUpsert(C + Inserted(L, pre), m, last);
      assert UpsertAll(L, rows) == Upsert(m, last);
      assert C + Inserted(L, rows) == (C + Inserted(L, pre)) + extra;
    }
  }

  /** Rows whose hashes the ledger already holds create nothing. */
  lemma {:induction false} InsertedNone(L: seq<Tx>, rows: seq<Tx>)
    requires HashSet(rows) <= HashSet(L)
    ensures Inserted(L, rows) == []
    decreases |rows|
  {
    if |rows| > 0 {
      HashSetLast(rows);
      InsertedNone(L, rows[..|rows| - 1]);
    }
  }

  /** What the merge gives each hash: the confirmations of its last row. */
  function Confs(rows: seq<Tx>): (c: map<Hash, nat>)
    ensures c.Keys == HashSet(rows)
    decreases |rows|
  {
    if |rows| == 0 then map[]
    else
      HashSetLast(rows);
      Confs(rows[..|rows| - 1])[rows[|rows| - 1].hash := rows[|rows| - 1].confirmations]
  }

  /** M with the confirmations of every hash in c replaced by c's. */
  function Refresh(M: seq<Tx>, c: map<Hash, nat>): seq<Tx> {
    seq(|M|, i requires 0 <= i < |M| =>
      if M[i].hash in c then M[i].(confirmations := c[M[i].hash]) else M[i])
  }

  /** The row a fetched transaction becomes, stamped with the payment's rate. */
  function Stamp(f: FetchedTx, rate: Rate): Tx {
    Tx(f.hash, f.confirmations, f.estimatedValue, rate)
  }

  function Stamped(fs: seq<FetchedTx>, rate: Rate): seq<Tx> {
    seq(|fs|, i requires 0 <= i < |fs| => Stamp(fs[i], rate))
  }

  /**
   * The rows the upsert creates, in order and as they were when created: a
   * row is created when its hash is not in the ledger built so far.
   */
  function Inserted(L: seq<Tx>, rows: seq<Tx>): seq<Tx>
    decreases |rows|
  {
    if |rows| == 0 then []
    else
      var pre := rows[..|rows| - 1];
      var last := rows[|rows| - 1];
      Inserted(L, pre) + (if last.hash in HashSet(UpsertAll(L, pre)) then [] else [last])
  }

  /** The rows with their confirmations blanked out. */
  function SansConfirmations(s: seq<Tx>): seq<Tx> {
    seq(|s|, i requires 0 <= i < |s| => s[i].(confirmations := 0))
  }

  /** Two lists of rows that agree row by row in everything but confirmations. */
  predicate SameRows(a: seq<Tx>, b: seq<Tx>) {
    SansConfirmations(a) == SansConfirmations(b)
  }

  lemma SansConfirmationsAppend(a: seq<Tx>, b: seq<Tx>)
    ensures SansConfirmations(a + b) == SansConfirmations(a) + SansConfirmations(b)
  {
  }

  /** Overwriting one row's confirmations is invisible once they are blanked out. */
  lemma SansConfirmationsSetConfs(s: seq<Tx>, j: nat, c: nat)
    requires j < |s|
    ensures SansConfirmations(s[j := s[j].(confirmations := c)]) == SansConfirmations(s)
  {
  }

  /** Some fetched hash is not yet in the ledger, so the merge inserts a row. */
  predicate HasNewHash(L: seq<Tx>, fs: seq<FetchedTx>) {
    exists i :: 0 <= i < |fs| && fs[i].hash !in HashSet(L)
  }

  // ---------------------------------------------------------------------
  // Properties of the merge

  /** A row followed by no row of the same hash decides that hash's confirmations. */
  lemma {:induction false} ConfsLastWins(rows: seq<Tx>, k: nat)
    requires k < |rows|
    requires forall j :: k < j < |rows| ==> rows[j].hash != rows[k].hash
    ensures rows[k].hash in Confs(rows) && Confs(rows)[rows[k].hash] == rows[k].confirmations
  {
    if k < |rows| - 1 {
      var pre := rows[..|rows| - 1];
      assert forall j :: 0 <= j < |pre| ==> pre[j] == rows[j];
      ConfsLastWins(pre, k);
    }
  }

  /** After the upsert every hash of the rows carries the confirmations the last such row gave it. */
  lemma {:induction false} UpsertAllConfs(L: seq<Tx>, rows: seq<Tx>)
    requires NoDuplicateHashes(L)
    ensures forall i ::
      (0 <= i < |UpsertAll(L, rows)| && UpsertAll(L, rows)[i].hash in Confs(rows)) ==>
      UpsertAll(L, rows)[i].confirmations == Confs(rows)[UpsertAll(L, rows)[i].hash]
    decreases |rows|
  {
    if |rows| > 0 {
      var pre := rows[..|rows| - 1];
      var last := rows[|rows| - 1];
      var m := UpsertAll(L, pre);
      var r := UpsertAll(L, rows);
      assert r == Upsert(m, last);
      UpsertAllConfs(L, pre);
      forall i | 0 <= i < |r| && r[i].hash in Confs(rows)
        ensures r[i].confirmations == Confs(rows)[r[i].hash]
      {
        if r[i].hash != last.hash && i < |m| {
          assert r[i] == m[i];
        }
      }
    }
  }

  lemma RefreshHashes(M: seq<Tx>, c: map<Hash, nat>)
    ensures |Refresh(M, c)| == |M|
    ensures forall i :: 0 <= i < |M| ==> Refresh(M, c)[i].hash == M[i].hash
    ensures HashSet(Refresh(M, c)) == HashSet(M)
    ensures NoDuplicateHashes(M) ==> NoDuplicateHashes(Refresh(M, c))
  {
    var x := Refresh(M, c);
    forall h | h in HashSet(M) ensures h in HashSet(x) {
      var i :| 0 <= i < |M| && M[i].hash == h;
      assert x[i].hash == h;
    }
  }

  /** One more upsert of a hash already present is one more entry in the refresh map. */
  lemma RefreshUpsert(M: seq<Tx>, c: map<Hash, nat>, row: Tx)
    requires NoDuplicateHashes(M)
    requires row.hash in HashSet(M)
    ensures Upsert(Refresh(M, c), row) == Refresh(M, c[row.hash := row.confirmations])
  {
    var x := Refresh(M, c);
    RefreshHashes(M, c);
    var r := Upsert(x, row);
    var want := Refresh(M, c[row.hash := row.confirmations]);
    assert |r| == |want|;
    forall i | 0 <= i < |r| ensures r[i] == want[i] {
      if M[i].hash == row.hash {
        assert r[i] == x[i].(confirmations := r[i].confirmations);
      } else {
        assert r[i] == x[i];
      }
    }
  }

  /** On a ledger that already holds every hash of the rows, the upsert only refreshes confirmations. */
  lemma {:induction false} UpsertAllRefresh(M: seq<Tx>, rows: seq<Tx>)
    requires NoDuplicateHashes(M)
    requires HashSet(rows) <= HashSet(M)
    ensures UpsertAll(M, rows) == Refresh(M, Confs(rows))
    decreases |rows|
  {
    if |rows| == 0 {
      assert Refresh(M, Confs(rows)) == M;
    } else {
      var pre := rows[..|rows| - 1];
      var last := rows[|rows| - 1];
      HashSetLast(rows);
      UpsertAllRefresh(M, pre);
      RefreshUpsert(M, Confs(pre), last);
    }
  }

  /** Replacing confirmations by the values they already have changes nothing. */
  lemma RefreshFixed(M: seq<Tx>, c: map<Hash, nat>)
    requires forall i :: 0 <= i < |M| && M[i].hash in c ==> M[i].confirmations == c[M[i].hash]
    ensures Refresh(M, c) == M
  {
  }

  /**
   * The merge is idempotent: upserting again rows that give every hash the
   * same confirmations (the same fetched list, whatever rate stamps it) adds no
   * row and changes nothing.
   */
  lemma {:induction false} UpsertAllIdempotent(L: seq<Tx>, rows: seq<Tx>, again: seq<Tx>)
    requires NoDuplicateHashes(L)
    requires Confs(again) == Confs(rows)
    ensures UpsertAll(UpsertAll(L, rows), again) == UpsertAll(L, rows)
  {
    var m := UpsertAll(L, rows);
    UpsertAllRefresh(m, again);
    UpsertAllConfs(L, rows);
    RefreshFixed(m, Confs(rows));
  }

  /** The rate a fetched list is stamped with does not affect the confirmations it gives. */
  lemma {:induction false} StampedConfs(fs: seq<FetchedTx>, r1: Rate, r2: Rate)
    ensures Confs(Stamped(fs, r1)) == Confs(Stamped(fs, r2))
    decreases |fs|
  {
    if |fs| > 0 {
      var n := |fs|;
      StampedConfs(fs[..n - 1], r1, r2);
      assert Stamped(fs, r1)[..n - 1] == Stamped(fs[..n - 1], r1);
      assert Stamped(fs, r2)[..n - 1] == Stamped(fs[..n - 1], r2);
    }
  }

  lemma {:induction false} HashSetStamped(fs: seq<FetchedTx>, rate: Rate)
    ensures forall i :: 0 <= i < |fs| ==> fs[i].hash in HashSet(Stamped(fs, rate))
  {
    forall i | 0 <= i < |fs| ensures fs[i].hash in HashSet(Stamped(fs, rate)) {
      assert Stamped(fs, rate)[i].hash == fs[i].hash;
    }
  }

  /** A fetched list with no new hash creates no row. */
  lemma InsertedNoNewHash(L: seq<Tx>, fs: seq<FetchedTx>, rate: Rate)
    requires !HasNewHash(L, fs)
    ensures Inserted(L, Stamped(fs, rate)) == []
  {
    var rows := Stamped(fs, rate);
    forall h | h in HashSet(rows) ensures h in HashSet(L) {
      var k :| 0 <= k < |rows| && rows[k].hash == h;
      assert fs[k].hash == h;
    }
    InsertedNone(L, rows);
  }

  /** Merging a fetched list twice, with any rates, is the same as merging it once. */
  lemma MergeIdempotent(L: seq<Tx>, fs: seq<FetchedTx>, r1: Rate, r2: Rate)
    requires NoDuplicateHashes(L)
    ensures UpsertAll(UpsertAll(L, Stamped(fs, r1)), Stamped(fs, r2)) == UpsertAll(L, Stamped(fs, r1))
  {
    StampedConfs(fs, r1, r2);
    UpsertAllIdempotent(L, Stamped(fs, r1), Stamped(fs, r2));
  }

  lemma {:induction false} OccurrencesAbsent(L: seq<Tx>, h: Hash)
    requires h !in HashSet(L)
    ensures Occurrences(L, h) == 0
    decreases |L|
  {
    if |L| > 0 {
      HashSetFirst(L);
      OccurrencesAbsent(L[1..], h);
    }
  }

  /** In a ledger without duplicate hashes, a hash it holds occurs exactly once. */
  lemma {:induction false} OccursOnce(L: seq<Tx>, h: Hash)
    requires NoDuplicateHashes(L) && h in HashSet(L)
    ensures Occurrences(L, h) == 1
    decreases |L|
  {
    HashSetFirst(L);
    var t := L[1..];
    assert NoDuplicateHashes(t) by {
      forall i, j | 0 <= i < j < |t| ensures t[i].hash != t[j].hash {
        assert t[i] == L[i + 1] && t[j] == L[j + 1];
      }
    }
    if L[0].hash == h {
      forall i | 0 <= i < |t| ensures t[i].hash != h {
        assert t[i] == L[i + 1];
      }
      OccurrencesAbsent(t, h);
    } else {
      OccursOnce(t, h);
    }
  }

  /**
   * After the merge every fetched hash occurs exactly once in the ledger, even
   * when the fetched list repeats it, and carries the confirmations of its last
   * fetched occurrence.
   */
  lemma MergeFetchedOnce(L: seq<Tx>, fs: seq<FetchedTx>, rate: Rate, k: nat)
    requires NoDuplicateHashes(L)
    requires k < |fs|
    requires forall j :: k < j < |fs| ==> fs[j].hash != fs[k].hash
    ensures Occurrences(UpsertAll(L, Stamped(fs, rate)), fs[k].hash) == 1
    ensures forall i ::
      (0 <= i < |UpsertAll(L, Stamped(fs, rate))| && UpsertAll(L, Stamped(fs, rate))[i].hash == fs[k].hash) ==>
      UpsertAll(L, Stamped(fs, rate))[i].confirmations == fs[k].confirmations
  {
    var rows := Stamped(fs, rate);
    HashSetStamped(fs, rate);
    OccursOnce(UpsertAll(L, rows), fs[k].hash);
    ConfsLastWins(rows, k);
    UpsertAllConfs(L, rows);
  }
}
