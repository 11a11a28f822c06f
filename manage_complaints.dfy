/** The complaint management page: the staff-only guard, the search and
    status filters over the store, and the column sort with its
    direction toggle. The search and status filters are the same on the
    complaints page, which imports them from here. */
module ManageComplaints {

  import opened Wrappers
  import opened Text
  import opened Seqs
  import opened AuthContext
  import opened Data

  // -------------------------------------------------------------- filters

  /** The lower-cased title or description contains the lower-cased query,
      which is not trimmed. */
  predicate MatchesQuery(c: Complaint, query: string) {
    Contains(ToLower(c.title), ToLower(query)) || Contains(ToLower(c.description), ToLower(query))
  }

  /** The search filter: a blank query (empty or whitespace only) keeps
      every record; otherwise exactly the records matching it, in order. */
  function SearchFilter(complaints: seq<Complaint>, query: string): (r: seq<Complaint>)
    ensures IsBlank(query) ==> r == complaints
    ensures !IsBlank(query) ==> forall c :: c in r <==> c in complaints && MatchesQuery(c, query)
    ensures forall c :: multiset(r)[c] == if IsBlank(query) || MatchesQuery(c, query) then multiset(complaints)[c] else 0
    ensures IsSubsequence(r, complaints) && multiset(r) <= multiset(complaints)
  {
    if !IsBlank(query) then Filter(complaints, (c: Complaint) => MatchesQuery(c, query))
    else
      SubsequenceReflexive(complaints);
      complaints
  }

  /** The status filter: "all" keeps every record; any other choice keeps
      exactly the records whose status is named by it, in order. */
  function StatusFilter(complaints: seq<Complaint>, choice: string): (r: seq<Complaint>)
    ensures choice == "all" ==> r == complaints
    ensures choice != "all" ==> forall c :: c in r <==> c in complaints && StatusName(c.status) == choice
    ensures forall c :: multiset(r)[c] == if choice == "all" || StatusName(c.status) == choice then multiset(complaints)[c] else 0
    ensures IsSubsequence(r, complaints) && multiset(r) <= multiset(complaints)
  {
    if choice != "all" then Filter(complaints, (c: Complaint) => StatusName(c.status) == choice)
    else
      SubsequenceReflexive(complaints);
      complaints
  }

  /** A status choice names at most one status, so a non-"all" choice
      selects a single status. */
  lemma StatusChoiceSelectsOne(complaints: seq<Complaint>, s: Status)
    ensures forall c :: c in StatusFilter(complaints, StatusName(s)) <==> c in complaints && c.status == s
  {
    forall c: Complaint ensures StatusName(c.status) == StatusName(s) <==> c.status == s {
      StatusNamesDistinct(c.status, s);
    }
  }

  /** The search and status choices a record has to pass. */
  predicate Selected(c: Complaint, query: string, statusChoice: string) {
    (IsBlank(query) || MatchesQuery(c, query)) && (statusChoice == "all" || StatusName(c.status) == statusChoice)
  }

  // -------------------------------------------------------------- sorting

  datatype SortColumn = ByDate | ByPriority | ByStatus
  datatype SortOrder = Asc | Desc

  /** The priority rank: the position in Low, Medium, High, Critical,
      counted from 1. */
  function PriorityRank(p: Priority): (n: int)
    ensures 1 <= n <= |Priorities| && Priorities[n - 1] == p
  {
    match p
    case Low => 1
    case Medium => 2
    case High => 3
    case Critical => 4
  }

  /** The status rank: the position in Pending, In Progress, Resolved,
      Closed, counted from 1. */
  function StatusRank(s: Status): (n: int)
    ensures 1 <= n <= |Statuses| && Statuses[n - 1] == s
  {
    match s
    case Pending => 1
    case InProgress => 2
    case Resolved => 3
    case Closed => 4
  }

  /** The value a column compares: the creation time, or a rank. */
  function ColumnValue(c: Complaint, column: SortColumn): int {
    match column
    case ByDate => c.createdAt
    case ByPriority => PriorityRank(c.priority)
    case ByStatus => StatusRank(c.status)
  }

  /** The comparator `a - b` for `asc` and `b - a` for `desc`, as the key
      whose difference it is. */
  function SortKey(column: SortColumn, order: SortOrder): Complaint -> int {
    (c: Complaint) => if order == Asc then ColumnValue(c, column) else -ColumnValue(c, column)
  }

  /** Column values non-decreasing for `asc`, non-increasing for `desc`. */
  ghost predicate OrderedBy(rows: seq<Complaint>, column: SortColumn, order: SortOrder) {
    forall i, j :: 0 <= i < j < |rows| ==>
      if order == Asc then ColumnValue(rows[i], column) <= ColumnValue(rows[j], column)
      else ColumnValue(rows[j], column) <= ColumnValue(rows[i], column)
  }

  /** `result.sort(...)` on the page's own copy: the same records, ordered
      by the column in the chosen direction. */
  function SortRows(rows: seq<Complaint>, column: SortColumn, order: SortOrder): (r: seq<Complaint>)
    ensures |r| == |rows| && multiset(r) == multiset(rows)
    ensures OrderedBy(r, column, order)
  {
    var r := SortByKey(rows, SortKey(column, order));
    assert SortedBy(r, SortKey(column, order));
    r
  }

  // ---------------------------------------------------------------- the page

  datatype ManageView = Redirect(path: string) | Table(rows: seq<Complaint>)

  /** The page's guard lets through admin and support accounts, that is
      every signed-in account but a `user`-role one. */
  function IsStaff(user: Option<User>): (b: bool)
    ensures b <==> user.Some? && user.value.role != EndUser
  {
    user.Some? && (user.value.role == Admin || user.value.role == Support)
  }

  /** The `filteredComplaints` memo: the records of the store that pass
      search and status, each exactly as often as stored, ordered by the
      column. */
  function TableRows(complaints: seq<Complaint>, query: string, statusChoice: string,
                     column: SortColumn, order: SortOrder): (rows: seq<Complaint>)
    ensures forall c :: c in rows <==> c in complaints && Selected(c, query, statusChoice)
    ensures forall c :: multiset(rows)[c] == if Selected(c, query, statusChoice) then multiset(complaints)[c] else 0
    ensures multiset(rows) <= multiset(complaints)
    ensures OrderedBy(rows, column, order)
  {
    var searched := SearchFilter(complaints, query);
    var filtered := StatusFilter(searched, statusChoice);
    var rows := SortRows(filtered, column, order);
    forall c ensures c in rows <==> c in complaints && Selected(c, query, statusChoice) {
      assert c in rows <==> c in multiset(filtered);
      assert c in searched <==> c in complaints && (IsBlank(query) || MatchesQuery(c, query));
      assert c in filtered <==> c in searched && (statusChoice == "all" || StatusName(c.status) == statusChoice);
    }
    assert multiset(filtered) <= multiset(searched);
    rows
  }

  /** The page: anyone but an admin or support user is sent to
      "/unauthorized" and sees no table; staff see the table rows. */
  function ManageComplaintsView(user: Option<User>, complaints: seq<Complaint>, query: string,
                                statusChoice: string, column: SortColumn, order: SortOrder): (v: ManageView)
    ensures v.Redirect? <==> !IsStaff(user)
    ensures v.Redirect? ==> v.path == "/unauthorized"
    ensures v.Table? ==> forall c :: c in v.rows <==> c in complaints && Selected(c, query, statusChoice)
    ensures v.Table? ==> forall c :: multiset(v.rows)[c] == if Selected(c, query, statusChoice) then multiset(complaints)[c] else 0
    ensures v.Table? ==> multiset(v.rows) <= multiset(complaints)
    ensures v.Table? ==> OrderedBy(v.rows, column, order)
  {
    if !IsStaff(user) then Redirect("/unauthorized")
    else Table(TableRows(complaints, query, statusChoice, column, order))
  }

  /** With no search and no status choice the table holds every record of
      the store, each as often as there. */
  lemma UnfilteredTableIsPermutation(user: Option<User>, complaints: seq<Complaint>, column: SortColumn, order: SortOrder)
    requires IsStaff(user)
    ensures var v := ManageComplaintsView(user, complaints, "", "all", column, order);
            v.Table? && multiset(v.rows) == multiset(complaints)
  {
    assert IsBlank("") by { assert Trim("") == []; }
    var searched := SearchFilter(complaints, "");
    assert searched == complaints;
    var filtered := StatusFilter(searched, "all");
    assert filtered == complaints;
    assert TableRows(complaints, "", "all", column, order) == SortRows(filtered, column, order);
  }

  /** The column and direction the table is sorted by. */
  class SortControl {
    var sortBy: SortColumn
    var sortOrder: SortOrder

    /** Newest first by default. */
    constructor ()
      ensures sortBy == ByDate && sortOrder == Desc
    {
      sortBy := ByDate;
      sortOrder := Desc;
    }

    /** `toggleSort`: the current column flips direction; another column
        is selected with direction `desc`. */
    method ToggleSort(column: SortColumn)
      modifies this
      ensures sortBy == column
      ensures old(sortBy) == column ==> sortOrder != old(sortOrder)
      ensures old(sortBy) != column ==> sortOrder == Desc
    {
      if sortBy == column {
        sortOrder := if sortOrder == Asc then Desc else Asc;
      } else {
        sortBy := column;
        sortOrder := Desc;
      }
    }
  }
}
