/** The staging table PS_PSHUP_TXN as the importer changes it: `clean_ps_table` deletes the rows
    this loader wrote before, and every `ps_insert` adds one row. The table is held as a sequence;
    its order is the order in which rows were added. */
module Staging {
  import opened Sequences
  import opened Paysheet

  /** A row this loader owns: `pu_source = 'OT'`. */
  predicate IsLoaderRow(r: Record) { r.puSource == SourceTag }

  predicate IsOtherRow(r: Record) { !IsLoaderRow(r) }

  /** The table after `delete from sysadm.PS_PSHUP_TXN where pu_source = 'OT'`. */
  function Purged(t: seq<Record>): (r: seq<Record>)
    ensures |r| <= |t|
    ensures forall i :: 0 <= i < |r| ==> !IsLoaderRow(r[i])
  {
    Filter(IsOtherRow, t)
  }

  /** The rows that delete removes. */
  function LoaderRows(t: seq<Record>): (r: seq<Record>)
    ensures |r| <= |t|
    ensures forall i :: 0 <= i < |r| ==> IsLoaderRow(r[i])
  {
    Filter(IsLoaderRow, t)
  }

  /** The delete removes exactly the loader's rows, each of them as often as it occurs, and keeps
      every other row. */
  lemma PurgedKeeps(t: seq<Record>, x: Record)
    ensures x in Purged(t) <==> x in t && !IsLoaderRow(x)
    ensures multiset(Purged(t))[x] == if IsLoaderRow(x) then 0 else multiset(t)[x]
    ensures multiset(LoaderRows(t))[x] == if IsLoaderRow(x) then multiset(t)[x] else 0
  {
    FilterMembership(IsOtherRow, t, x);
    FilterCount(IsOtherRow, t, x);
    FilterCount(IsLoaderRow, t, x);
  }

  /** The rows that stay keep their relative order. */
  lemma PurgedOrder(t: seq<Record>)
    ensures IsSubsequence(Purged(t), t)
  {
    FilterIsSubsequence(IsOtherRow, t);
  }

  /** The rowcount of the delete plus the rows left make up the table. */
  lemma PurgedSplits(t: seq<Record>)
    ensures |Purged(t)| + |LoaderRows(t)| == |t|
  {
    FilterPartition(IsOtherRow, IsLoaderRow, t);
  }

  /** After the delete no loader row is left, so deleting again changes nothing. */
  lemma PurgedIsClean(t: seq<Record>)
    ensures LoaderRows(Purged(t)) == []
    ensures Purged(Purged(t)) == Purged(t)
  {
    FilterEmpty(IsLoaderRow, Purged(t));
    FilterIdempotent(IsOtherRow, t);
  }

  /** Both the delete and its rowcount work row by row. */
  lemma PurgedAppend(a: seq<Record>, b: seq<Record>)
    ensures Purged(a + b) == Purged(a) + Purged(b)
    ensures LoaderRows(a + b) == LoaderRows(a) + LoaderRows(b)
  {
    FilterAppend(IsOtherRow, a, b);
    FilterAppend(IsLoaderRow, a, b);
  }

  /** A table holding only loader rows is emptied by the delete. */
  lemma PurgedLoaderRows(s: seq<Record>)
    requires forall i :: 0 <= i < |s| ==> IsLoaderRow(s[i])
    ensures Purged(s) == [] && LoaderRows(s) == s
  {
    FilterEmpty(IsOtherRow, s);
    FilterUnchanged(IsLoaderRow, s);
  }

  class StagingTable {
    var rows: seq<Record>

    constructor(initial: seq<Record>)
      ensures rows == initial
    {
      rows := initial;
    }

    /** `clean_ps_table`: deletes the loader's rows and reports how many went. */
    method Purge() returns (removed: nat)
      modifies this
      ensures rows == Purged(old(rows)) && removed == |LoaderRows(old(rows))|
      ensures removed == |old(rows)| - |rows|
    {
      PurgedSplits(rows);
      removed := |LoaderRows(rows)|;
      rows := Purged(rows);
    }

    /** The insert statement of `ps_insert`: adds one row and reports a rowcount of one. */
    method Insert(r: Record) returns (count: nat)
      modifies this
      ensures rows == old(rows) + [r] && count == 1
    {
      rows := rows + [r];
      count := 1;
    }
  }
}
