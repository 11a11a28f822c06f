/** The complaint record types, the mock-data generators that seed the
    dashboard, and the lookup helpers over the seeded list.

    Every `Math.random()` the generators call is a `Unit` draw supplied by
    the caller (one record of draws per generated element), so the structural
    facts proved here hold whatever the random choices are. Timestamps are
    integers (milliseconds); moving a date by `n` days with `setDate` adds
    `n * Day`. */
module Data {

  import opened Wrappers
  import opened Text
  import opened Seqs
  import opened Rand
  import opened AuthContext

  datatype Category = TechnicalIssue | BillingProblem | ServiceQuality | ProductDefect | StaffBehavior | Other

  function CategoryName(c: Category): string {
    match c
    case TechnicalIssue => "Technical Issue"
    case BillingProblem => "Billing Problem"
    case ServiceQuality => "Service Quality"
    case ProductDefect => "Product Defect"
    case StaffBehavior => "Staff Behavior"
    case Other => "Other"
  }

  datatype Priority = Low | Medium | High | Critical

  function PriorityName(p: Priority): string {
    match p
    case Low => "Low"
    case Medium => "Medium"
    case High => "High"
    case Critical => "Critical"
  }

  datatype Status = Pending | InProgress | Resolved | Closed

  function StatusName(s: Status): string {
    match s
    case Pending => "Pending"
    case InProgress => "In Progress"
    case Resolved => "Resolved"
    case Closed => "Closed"
  }

  /** The string literals of each enumeration are pairwise distinct, so a
      name identifies its value. */
  lemma CategoryNamesDistinct(a: Category, b: Category)
    ensures CategoryName(a) == CategoryName(b) ==> a == b
  {
  }

  lemma PriorityNamesDistinct(a: Priority, b: Priority)
    ensures PriorityName(a) == PriorityName(b) ==> a == b
  {
  }

  lemma StatusNamesDistinct(a: Status, b: Status)
    ensures StatusName(a) == StatusName(b) ==> a == b
  {
  }

  datatype Comment = Comment(id: string, text: string, createdAt: int, userId: string, userName: string, userRole: Role)

  /** A complaint record; `assignedTo`, `attachments` and `comments` are the
      optional properties of the interface. */
  datatype Complaint = Complaint(
    id: string,
    title: string,
    description: string,
    category: Category,
    priority: Priority,
    status: Status,
    createdAt: int,
    updatedAt: int,
    userId: string,
    assignedTo: Option<string>,
    attachments: Option<seq<string>>,
    comments: Option<seq<Comment>>)

  const Categories: seq<Category> := [TechnicalIssue, BillingProblem, ServiceQuality, ProductDefect, StaffBehavior, Other]
  const Priorities: seq<Priority> := [Low, Medium, High, Critical]
  const Statuses: seq<Status> := [Pending, InProgress, Resolved, Closed]

  /** One day in milliseconds. */
  const Day: int := 86_400_000

  const MockDescription: string :=
    "This is a detailed description of the complaint. It explains what happened and why the customer is unhappy with the service or product."
  const MockCommentText: string :=
    "This is a comment on the complaint. It could be from the user, support staff, or administrator providing updates or asking questions."

  /** The random draws one generated comment consumes. */
  datatype CommentDraws = CommentDraws(role: Unit, daysAgo: Unit)

  /** The random draws one generated complaint consumes; `comments(i)` are
      those of its i-th comment. */
  datatype ComplaintDraws = ComplaintDraws(
    status: Unit,
    daysAgo: Unit,
    daysUntilUpdate: Unit,
    titleCategory: Unit,
    category: Unit,
    priority: Unit,
    user: Unit,
    assignee: Unit,
    commentCount: Unit,
    comments: nat -> CommentDraws)

  /** The three staff identities a generated comment can carry; id, name and
      role always come from the same row. */
  predicate StaffIdentity(userId: string, userName: string, userRole: Role) {
    || (userId == "1" && userName == "Admin User" && userRole == Admin)
    || (userId == "2" && userName == "Regular User" && userRole == EndUser)
    || (userId == "3" && userName == "Support Staff" && userRole == Support)
  }

  /** The i-th generated comment (0-based). */
  function MockComment(index: nat, d: CommentDraws, now: int): (c: Comment)
    ensures c.id == "comment-" + NatToString(index + 1)
    ensures StaffIdentity(c.userId, c.userName, c.userRole)
    ensures now - 4 * Day <= c.createdAt <= now
  {
    var roles := [Admin, EndUser, Support];
    var userNames := ["Admin User", "Regular User", "Support Staff"];
    var roleIndex := FloorTimes(d.role, 3);
    assert roleIndex == 0 || roleIndex == 1 || roleIndex == 2;
    Comment(
      "comment-" + NatToString(index + 1),
      MockCommentText,
      now - FloorTimes(d.daysAgo, 5) * Day,
      NatToString(roleIndex + 1),
      userNames[roleIndex],
      roles[roleIndex])
  }

  /** `generateMockComments(count)`: `count` comments with ids
      "comment-1" .. "comment-<count>", each by one of the staff identities. */
  function MockComments(count: nat, draws: nat -> CommentDraws, now: int): (r: seq<Comment>)
    ensures |r| == count
    ensures forall i :: 0 <= i < count ==> r[i].id == "comment-" + NatToString(i + 1)
    ensures forall i :: 0 <= i < count ==> StaffIdentity(r[i].userId, r[i].userName, r[i].userRole)
    ensures forall i :: 0 <= i < count ==> now - 4 * Day <= r[i].createdAt <= now
  {
    var r := seq(count, i requires 0 <= i < count => MockComment(i, draws(i), now));
    assert forall i :: 0 <= i < count ==> r[i] == MockComment(i, draws(i), now);
    r
  }

  /** What every generated complaint satisfies, whatever the draws:
      unassigned exactly while Pending, and then assigned to "1" or "3"; no
      comments while Pending and one to three otherwise, all by staff
      identities; owned by "1", "2" or "3"; created within the last 59 days
      and updated up to 9 days after creation; no attachments. */
  ghost predicate MockShape(c: Complaint, now: int) {
    && (c.assignedTo.None? <==> c.status == Pending)
    && (c.assignedTo.Some? ==> c.assignedTo.value == "1" || c.assignedTo.value == "3")
    && c.comments.Some?
    && (c.status == Pending ==> c.comments.value == [])
    && (c.status != Pending ==> 1 <= |c.comments.value| <= 3)
    && (forall k :: 0 <= k < |c.comments.value| ==>
          StaffIdentity(c.comments.value[k].userId, c.comments.value[k].userName, c.comments.value[k].userRole))
    && (c.userId == "1" || c.userId == "2" || c.userId == "3")
    && now - 59 * Day <= c.createdAt <= now
    && c.createdAt <= c.updatedAt <= c.createdAt + 9 * Day
    && c.attachments.None?
    && c.description == MockDescription
  }

  /** The complaint at position `index` (0-based) of `generateMockComplaints`. */
  function MockComplaint(index: nat, d: ComplaintDraws, now: int): (c: Complaint)
    ensures c.id == NatToString(index + 1)
    ensures MockShape(c, now)
  {
    var status := Pick(Statuses, d.status);
    var created := now - FloorTimes(d.daysAgo, 60) * Day;
    var updated := created + FloorTimes(d.daysUntilUpdate, 10) * Day;
    var owner := FloorTimes(d.user, 3) + 1;
    assert owner == 1 || owner == 2 || owner == 3;
    Complaint(
      NatToString(index + 1),
      "Complaint about " + ToLower(CategoryName(Pick(Categories, d.titleCategory))),
      MockDescription,
      Pick(Categories, d.category),
      Pick(Priorities, d.priority),
      status,
      created,
      updated,
      NatToString(owner),
      if status != Pending then Some(if d.assignee > 0.5 then "1" else "3") else None,
      None,
      Some(if status != Pending then MockComments(FloorTimes(d.commentCount, 3) + 1, d.comments, now) else []))
  }

  /** `generateMockComplaints(count)`: `count` records with ids "1" .. "<count>"
      in order, each of the generated shape. */
  function MockComplaints(count: nat, draws: nat -> ComplaintDraws, now: int): (r: seq<Complaint>)
    ensures |r| == count
    ensures forall i :: 0 <= i < count ==> r[i].id == NatToString(i + 1)
    ensures forall i :: 0 <= i < count ==> MockShape(r[i], now)
  {
    var r := seq(count, i requires 0 <= i < count => MockComplaint(i, draws(i), now));
    assert forall i :: 0 <= i < count ==> r[i] == MockComplaint(i, draws(i), now);
    r
  }

  /** The generated ids are pairwise distinct. */
  lemma MockIdsUnique(count: nat, draws: nat -> ComplaintDraws, now: int)
    ensures forall i, j :: 0 <= i < j < count ==>
      MockComplaints(count, draws, now)[i].id != MockComplaints(count, draws, now)[j].id
  {
    var r := MockComplaints(count, draws, now);
    forall i, j | 0 <= i < j < count ensures r[i].id != r[j].id {
      if r[i].id == r[j].id {
        NatToStringInjective(i + 1, j + 1);
      }
    }
  }

  datatype MonthlyData = MonthlyData(month: string, pending: int, inProgress: int, resolved: int, closed: int)

  datatype MonthDraws = MonthDraws(pending: Unit, inProgress: Unit, resolved: Unit, closed: Unit)

  const Months: seq<string> := ["Jan", "Feb", "Mar", "Apr", "May", "Jun", "Jul", "Aug", "Sep", "Oct", "Nov", "Dec"]

  function MonthEntry(month: string, d: MonthDraws): (m: MonthlyData)
    ensures m.month == month
    ensures 5 <= m.pending <= 34 && 5 <= m.inProgress <= 29 && 10 <= m.resolved <= 49 && 5 <= m.closed <= 24
  {
    MonthlyData(
      month,
      FloorTimes(d.pending, 30) + 5,
      FloorTimes(d.inProgress, 25) + 5,
      FloorTimes(d.resolved, 40) + 10,
      FloorTimes(d.closed, 20) + 5)
  }

  /** `generateMonthlyData()`: one entry per month, in calendar order, with
      pending in [5, 34], in progress in [5, 29], resolved in [10, 49] and
      closed in [5, 24]. */
  function GenerateMonthlyData(draws: nat -> MonthDraws): (r: seq<MonthlyData>)
    ensures |r| == 12
    ensures forall i :: 0 <= i < 12 ==> r[i].month == Months[i]
    ensures forall i :: 0 <= i < 12 ==>
      5 <= r[i].pending <= 34 && 5 <= r[i].inProgress <= 29 &&
      10 <= r[i].resolved <= 49 && 5 <= r[i].closed <= 24
  {
    var r := seq(12, i requires 0 <= i < 12 => MonthEntry(Months[i], draws(i)));
    assert forall i :: 0 <= i < 12 ==> r[i] == MonthEntry(Months[i], draws(i));
    r
  }

  datatype NamedValue = NamedValue(name: string, value: int)

  /** `generateCategoryData()`: one entry per category, in declaration order,
      with a value in [20, 119]. */
  function GenerateCategoryData(draws: nat -> Unit): (r: seq<NamedValue>)
    ensures |r| == |Categories|
    ensures forall i :: 0 <= i < |r| ==> r[i].name == CategoryName(Categories[i]) && 20 <= r[i].value <= 119
  {
    var r := seq(|Categories|, i requires 0 <= i < |Categories| =>
      NamedValue(CategoryName(Categories[i]), FloorTimes(draws(i), 100) + 20));
    assert forall i :: 0 <= i < |r| ==>
      r[i] == NamedValue(CategoryName(Categories[i]), FloorTimes(draws(i), 100) + 20);
    r
  }

  /** `generatePriorityData()`: one entry per priority, in declaration order,
      with a value in [10, 109]. */
  function GeneratePriorityData(draws: nat -> Unit): (r: seq<NamedValue>)
    ensures |r| == |Priorities|
    ensures forall i :: 0 <= i < |r| ==> r[i].name == PriorityName(Priorities[i]) && 10 <= r[i].value <= 109
  {
    var r := seq(|Priorities|, i requires 0 <= i < |Priorities| =>
      NamedValue(PriorityName(Priorities[i]), FloorTimes(draws(i), 100) + 10));
    assert forall i :: 0 <= i < |r| ==>
      r[i] == NamedValue(PriorityName(Priorities[i]), FloorTimes(draws(i), 100) + 10);
    r
  }

  /** `getComplaintById(id)` over the seeded list `mock`: the first record
      with that id, or `None` when there is none. */
  function GetComplaintById(mock: seq<Complaint>, id: string): (r: Option<Complaint>)
    ensures r.None? <==> forall c :: c in mock ==> c.id != id
    ensures r.Some? ==> r.value in mock && r.value.id == id
    ensures r.Some? ==> exists k :: (0 <= k < |mock| && mock[k] == r.value &&
                                     forall j :: 0 <= j < k ==> mock[j].id != id)
  {
    Find(mock, (c: Complaint) => c.id == id)
  }

  /** `getUserComplaints(userId)`: exactly the records owned by `userId`, in
      their original order. */
  function GetUserComplaints(mock: seq<Complaint>, userId: string): (r: seq<Complaint>)
    ensures forall c :: c in r <==> c in mock && c.userId == userId
    ensures IsSubsequence(r, mock)
  {
    Filter(mock, (c: Complaint) => c.userId == userId)
  }

  /** `getAssignedComplaints(userId)`: exactly the records assigned to
      `userId`, in their original order. */
  function GetAssignedComplaints(mock: seq<Complaint>, userId: string): (r: seq<Complaint>)
    ensures forall c :: c in r <==> c in mock && c.assignedTo == Some(userId)
    ensures IsSubsequence(r, mock)
  {
    Filter(mock, (c: Complaint) => c.assignedTo == Some(userId))
  }
}
