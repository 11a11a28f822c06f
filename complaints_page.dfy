/** The complaints list page. It reads the module constant `mockComplaints`
    (the parameter `mock`), never the store that `addComplaint` prepends to.
    It applies the role scope, search, status, category and priority filters
    in that order, sorts newest first, and offers the distinct categories and
    priorities of the seeded records as filter choices. */
module ComplaintsPage {

  import opened Wrappers
  import opened Text
  import opened Seqs
  import opened AuthContext
  import opened Data
  import opened ManageComplaints

  /** Only a `user`-role account is scoped to its own records here; support
      and admin accounts, and a missing user, see every seeded record. */
  predicate InScope(user: Option<User>, c: Complaint) {
    !(user.Some? && user.value.role == EndUser) || c.userId == user.value.id
  }

  function RoleScope(user: Option<User>, mock: seq<Complaint>): (r: seq<Complaint>)
    ensures forall c :: c in r <==> c in mock && InScope(user, c)
    ensures forall c :: multiset(r)[c] == if InScope(user, c) then multiset(mock)[c] else 0
    ensures multiset(r) <= multiset(mock)
  {
    if user.Some? && user.value.role == EndUser then Filter(mock, (c: Complaint) => c.userId == user.value.id)
    else mock
  }

  /** "all" keeps every record; any other choice keeps those whose category
      is named by it. */
  function CategoryFilter(complaints: seq<Complaint>, choice: string): (r: seq<Complaint>)
    ensures choice == "all" ==> r == complaints
    ensures forall c :: c in r <==> c in complaints && (choice == "all" || CategoryName(c.category) == choice)
    ensures forall c :: multiset(r)[c] == if choice == "all" || CategoryName(c.category) == choice then multiset(complaints)[c] else 0
    ensures multiset(r) <= multiset(complaints)
  {
    if choice != "all" then Filter(complaints, (c: Complaint) => CategoryName(c.category) == choice) else complaints
  }

  /** "all" keeps every record; any other choice keeps those whose priority
      is named by it. */
  function PriorityFilter(complaints: seq<Complaint>, choice: string): (r: seq<Complaint>)
    ensures choice == "all" ==> r == complaints
    ensures forall c :: c in r <==> c in complaints && (choice == "all" || PriorityName(c.priority) == choice)
    ensures forall c :: multiset(r)[c] == if choice == "all" || PriorityName(c.priority) == choice then multiset(complaints)[c] else 0
    ensures multiset(r) <= multiset(complaints)
  {
    if choice != "all" then Filter(complaints, (c: Complaint) => PriorityName(c.priority) == choice) else complaints
  }

  /** Every filter choice of the page, taken together. */
  predicate PassesAll(user: Option<User>, c: Complaint, query: string, statusChoice: string,
                      categoryChoice: string, priorityChoice: string) {
    && InScope(user, c)
    && Selected(c, query, statusChoice)
    && (categoryChoice == "all" || CategoryName(c.category) == categoryChoice)
    && (priorityChoice == "all" || PriorityName(c.priority) == priorityChoice)
  }

  /** The five filters applied in the page's order: exactly the seeded
      records passing every one of them (the filters combine
      conjunctively), each exactly as often as seeded. */
  function Narrowed(user: Option<User>, mock: seq<Complaint>, query: string, statusChoice: string,
                    categoryChoice: string, priorityChoice: string): (r: seq<Complaint>)
    ensures forall c :: c in r <==> c in mock && PassesAll(user, c, query, statusChoice, categoryChoice, priorityChoice)
    ensures forall c :: multiset(r)[c] ==
                        if PassesAll(user, c, query, statusChoice, categoryChoice, priorityChoice) then multiset(mock)[c] else 0
    ensures multiset(r) <= multiset(mock)
  {
    var scoped := RoleScope(user, mock);
    var searched := SearchFilter(scoped, query);
    var byStatus := StatusFilter(searched, statusChoice);
    var byCategory := CategoryFilter(byStatus, categoryChoice);
    var r := PriorityFilter(byCategory, priorityChoice);
    forall c ensures c in r <==> c in mock && PassesAll(user, c, query, statusChoice, categoryChoice, priorityChoice) {
      assert c in searched <==> c in scoped && (IsBlank(query) || MatchesQuery(c, query));
      assert c in byStatus <==> c in searched && (statusChoice == "all" || StatusName(c.status) == statusChoice);
    }
    r
  }

  /** `filteredComplaints`: the narrowed records, each as often as seeded,
      newest first. */
  function ComplaintsList(user: Option<User>, mock: seq<Complaint>, query: string, statusChoice: string,
                          categoryChoice: string, priorityChoice: string): (r: seq<Complaint>)
    ensures forall c :: c in r <==> c in mock && PassesAll(user, c, query, statusChoice, categoryChoice, priorityChoice)
    ensures forall c :: multiset(r)[c] ==
                        if PassesAll(user, c, query, statusChoice, categoryChoice, priorityChoice) then multiset(mock)[c] else 0
    ensures multiset(r) <= multiset(mock)
    ensures OrderedBy(r, ByDate, Desc)
  {
    var narrowed := Narrowed(user, mock, query, statusChoice, categoryChoice, priorityChoice);
    var r := SortRows(narrowed, ByDate, Desc);
    assert forall c :: c in r <==> c in multiset(narrowed);
    r
  }

  /** With every choice at "all" and a blank query, an admin sees the seeded
      records exactly, reordered. */
  lemma AdminWithoutFiltersSeesAll(admin: User, mock: seq<Complaint>, query: string)
    requires admin.role == Admin && IsBlank(query)
    ensures multiset(ComplaintsList(Some(admin), mock, query, "all", "all", "all")) == multiset(mock)
  {
    var scoped := RoleScope(Some(admin), mock);
    assert scoped == mock;
    var searched := SearchFilter(scoped, query);
    var byStatus := StatusFilter(searched, "all");
    var byCategory := CategoryFilter(byStatus, "all");
    assert PriorityFilter(byCategory, "all") == mock;
    var narrowed := Narrowed(Some(admin), mock, query, "all", "all", "all");
    assert narrowed == mock;
    assert ComplaintsList(Some(admin), mock, query, "all", "all", "all") == SortRows(narrowed, ByDate, Desc);
  }

  /** The category of every seeded record, in order. */
  function CategoriesOf(mock: seq<Complaint>): (r: seq<Category>)
    ensures |r| == |mock| && forall i :: 0 <= i < |mock| ==> r[i] == mock[i].category
  {
    seq(|mock|, i requires 0 <= i < |mock| => mock[i].category)
  }

  /** The priority of every seeded record, in order. */
  function PrioritiesOf(mock: seq<Complaint>): (r: seq<Priority>)
    ensures |r| == |mock| && forall i :: 0 <= i < |mock| ==> r[i] == mock[i].priority
  {
    seq(|mock|, i requires 0 <= i < |mock| => mock[i].priority)
  }

  /** `uniqueCategories`: each category some seeded record has, once, in the
      order of first appearance. */
  function UniqueCategories(mock: seq<Complaint>): (r: seq<Category>)
    ensures forall x :: x in r <==> x in CategoriesOf(mock)
    ensures forall x :: x in r <==> exists c :: c in mock && c.category == x
    ensures NoDuplicates(r)
    ensures forall i, j :: 0 <= i < j < |r| ==> FirstIndex(CategoriesOf(mock), r[i]) < FirstIndex(CategoriesOf(mock), r[j])
  {
    var all := CategoriesOf(mock);
    var r := Distinct(all);
    DistinctInFirstAppearanceOrder(all);
    forall x ensures x in r <==> exists c :: c in mock && c.category == x {
      if x in all {
        var i :| 0 <= i < |all| && all[i] == x;
        assert mock[i] in mock;
      }
    }
    r
  }

  /** `uniquePriorities`: each priority some seeded record has, once, in the
      order of first appearance. */
  function UniquePriorities(mock: seq<Complaint>): (r: seq<Priority>)
    ensures forall x :: x in r <==> x in PrioritiesOf(mock)
    ensures forall x :: x in r <==> exists c :: c in mock && c.priority == x
    ensures NoDuplicates(r)
    ensures forall i, j :: 0 <= i < j < |r| ==> FirstIndex(PrioritiesOf(mock), r[i]) < FirstIndex(PrioritiesOf(mock), r[j])
  {
    var all := PrioritiesOf(mock);
    var r := Distinct(all);
    DistinctInFirstAppearanceOrder(all);
    forall x ensures x in r <==> exists c :: c in mock && c.priority == x {
      if x in all {
        var i :| 0 <= i < |all| && all[i] == x;
        assert mock[i] in mock;
      }
    }
    r
  }
}
