/** The dashboard's effect over the records visible to the acting user: the
    per-status counts and the five most recent records. */
module Dashboard {

  import opened Seqs
  import opened Data
  import opened ManageComplaints

  datatype Stats = Stats(total: nat, pending: nat, inProgress: nat, resolved: nat, closed: nat)

  /** `filter(c => c.status === s).length`: at most the length, and zero
      exactly when no record has that status. */
  function CountStatus(complaints: seq<Complaint>, s: Status): (n: nat)
    ensures n <= |complaints|
    ensures n == 0 <==> forall c :: c in complaints ==> c.status != s
  {
    var matching := Filter(complaints, (c: Complaint) => c.status == s);
    assert matching != [] ==> matching[0] in matching;
    |matching|
  }

  /** The count of a non-empty list: the head's share plus the tail's
      count. */
  lemma CountStatusStep(complaints: seq<Complaint>, s: Status)
    requires complaints != []
    ensures CountStatus(complaints, s) == (if complaints[0].status == s then 1 else 0) + CountStatus(complaints[1..], s)
  {
  }

  /** Every record has exactly one of the four statuses, so the four counts
      add up to the length. */
  lemma {:induction false} StatusCountsSum(complaints: seq<Complaint>)
    ensures CountStatus(complaints, Pending) + CountStatus(complaints, InProgress) +
            CountStatus(complaints, Resolved) + CountStatus(complaints, Closed) == |complaints|
  {
    if complaints != [] {
      StatusCountsSum(complaints[1..]);
      CountStatusStep(complaints, Pending);
      CountStatusStep(complaints, InProgress);
      CountStatusStep(complaints, Resolved);
      CountStatusStep(complaints, Closed);
    }
  }

  /** The stats card: the total and the four counts, which sum to it. */
  function ComputeStats(filtered: seq<Complaint>): (st: Stats)
    ensures st.total == |filtered|
    ensures st.pending == CountStatus(filtered, Pending) && st.inProgress == CountStatus(filtered, InProgress)
    ensures st.resolved == CountStatus(filtered, Resolved) && st.closed == CountStatus(filtered, Closed)
    ensures st.pending + st.inProgress + st.resolved + st.closed == st.total
  {
    StatusCountsSum(filtered);
    Stats(|filtered|, CountStatus(filtered, Pending), CountStatus(filtered, InProgress),
          CountStatus(filtered, Resolved), CountStatus(filtered, Closed))
  }

  function Min(a: int, b: int): int {
    if a <= b then a else b
  }

  const RecentCount: nat := 5

  /** In a newest-first list, nothing outside a prefix is newer than a
      record in it. */
  lemma PrefixHoldsNewest(sorted: seq<Complaint>, n: nat)
    requires n <= |sorted| && OrderedBy(sorted, ByDate, Desc)
    ensures forall c, k :: c in sorted && c !in sorted[..n] && 0 <= k < n ==> c.createdAt <= sorted[k].createdAt
  {
    forall c, k | c in sorted && c !in sorted[..n] && 0 <= k < n ensures c.createdAt <= sorted[k].createdAt {
      var j :| 0 <= j < |sorted| && sorted[j] == c;
      assert j >= n by {
        assert forall i :: 0 <= i < n ==> sorted[..n][i] == sorted[i];
      }
      assert ColumnValue(sorted[j], ByDate) <= ColumnValue(sorted[k], ByDate);
    }
  }

  /** A prefix of an ordered list is ordered. */
  lemma OrderedPrefix(rows: seq<Complaint>, n: nat, column: SortColumn, order: SortOrder)
    requires n <= |rows| && OrderedBy(rows, column, order)
    ensures OrderedBy(rows[..n], column, order)
  {
    assert forall i :: 0 <= i < n ==> rows[..n][i] == rows[i];
  }

  /** `sortedComplaints.slice(0, 5)` of a newest-first copy: min(5, n)
      records of the list, newest first, and no record left out is newer
      than one shown. */
  function RecentComplaints(filtered: seq<Complaint>): (r: seq<Complaint>)
    ensures |r| == Min(RecentCount, |filtered|)
    ensures OrderedBy(r, ByDate, Desc)
    ensures multiset(r) <= multiset(filtered)
    ensures forall c, k :: c in filtered && c !in r && 0 <= k < |r| ==> c.createdAt <= r[k].createdAt
  {
    var sorted := SortRows(filtered, ByDate, Desc);
    var n := Min(RecentCount, |sorted|);
    PrefixMultiset(sorted, n);
    PrefixHoldsNewest(sorted, n);
    OrderedPrefix(sorted, n, ByDate, Desc);
    SameMultisetSameElements(filtered, sorted);
    sorted[..n]
  }
}
