/** The complaints context: the in-memory record list, seeded with the mock
    records, that `addComplaint` prepends to, and the role-based visibility
    rule `getFilteredComplaints`. The acting user comes from the
    authentication context and is passed in; the uuid of a new record is
    passed in as `freshId`. */
module ComplaintsContext {

  import opened Wrappers
  import opened Seqs
  import opened AuthContext
  import opened Data

  /** What `addComplaint` accepts: a complaint without id, timestamps, owner
      and status. */
  datatype ComplaintInput = ComplaintInput(
    title: string,
    description: string,
    category: Category,
    priority: Priority,
    assignedTo: Option<string>,
    attachments: Option<seq<string>>,
    comments: Option<seq<Comment>>)

  /** `user?.id || "1"`: the acting user's id, with "1" when there is no user
      or its id is the empty string. */
  function OwnerId(user: Option<User>): (id: string)
    ensures id != ""
    ensures user.Some? && user.value.id != "" ==> id == user.value.id
    ensures !(user.Some? && user.value.id != "") ==> id == "1"
  {
    if user.Some? && user.value.id != "" then user.value.id else "1"
  }

  /** The record `addComplaint` builds: every supplied field copied, then
      status Pending, both timestamps `now` and the owner written over them,
      so the caller cannot set those. */
  function NewComplaint(user: Option<User>, data: ComplaintInput, freshId: string, now: int): (c: Complaint)
    ensures c.id == freshId && c.status == Pending
    ensures c.createdAt == now && c.updatedAt == c.createdAt
    ensures c.userId == OwnerId(user)
    ensures c.title == data.title && c.description == data.description
    ensures c.category == data.category && c.priority == data.priority
    ensures c.assignedTo == data.assignedTo && c.attachments == data.attachments && c.comments == data.comments
  {
    Complaint(freshId, data.title, data.description, data.category, data.priority, Pending,
              now, now, OwnerId(user), data.assignedTo, data.attachments, data.comments)
  }

  /** Who may see a record, role by role: a `user` the records they own,
      `support` the records assigned to them or still Pending, `admin`
      every record; nobody signed in sees nothing. */
  predicate VisibleTo(user: Option<User>, c: Complaint) {
    match user
    case None => false
    case Some(u) =>
      match u.role
      case EndUser => c.userId == u.id
      case Support => c.assignedTo == Some(u.id) || c.status == Pending
      case Admin => true
  }

  /** `getFilteredComplaints()`: exactly the records visible to the acting
      user, in store order; the whole list for an admin and nothing without a
      user. */
  function FilteredComplaints(user: Option<User>, complaints: seq<Complaint>): (r: seq<Complaint>)
    ensures forall c :: c in r <==> c in complaints && VisibleTo(user, c)
    ensures forall c :: multiset(r)[c] == if VisibleTo(user, c) then multiset(complaints)[c] else 0
    ensures IsSubsequence(r, complaints)
    ensures user.None? ==> r == []
    ensures user.Some? && user.value.role == Admin ==> r == complaints
  {
    match user
    case None => []
    case Some(u) =>
      if u.role == EndUser then
        var own := Filter(complaints, (c: Complaint) => c.userId == u.id);
        assert forall c :: VisibleTo(user, c) == (c.userId == u.id);
        own
      else if u.role == Support then
        var queue := Filter(complaints, (c: Complaint) => c.assignedTo == Some(u.id) || c.status == Pending);
        assert forall c :: VisibleTo(user, c) == (c.assignedTo == Some(u.id) || c.status == Pending);
        queue
      else
        SubsequenceReflexive(complaints);
        complaints
  }

  /** A record just added is seen by its owner and, being Pending, by every
      support user. */
  lemma NewComplaintIsVisible(owner: User, data: ComplaintInput, freshId: string, now: int,
                              old_: seq<Complaint>, support: User)
    requires owner.id != "" && support.role == Support
    ensures var c := NewComplaint(Some(owner), data, freshId, now);
            && (owner.role == EndUser ==> c in FilteredComplaints(Some(owner), [c] + old_))
            && c in FilteredComplaints(Some(support), [c] + old_)
  {
  }

  class ComplaintsProvider {
    var complaints: seq<Complaint>

    /** The store as first rendered, holding the seeded records. */
    constructor (seed: seq<Complaint>)
      ensures complaints == seed
    {
      complaints := seed;
    }

    /** `addComplaint`: the new record goes in front, and the earlier records
        follow unchanged and in their order. */
    method AddComplaint(user: Option<User>, data: ComplaintInput, freshId: string, now: int)
      modifies this
      ensures complaints == [NewComplaint(user, data, freshId, now)] + old(complaints)
      ensures |complaints| == |old(complaints)| + 1 && complaints[1..] == old(complaints)
    {
      var newComplaint := NewComplaint(user, data, freshId, now);
      complaints := [newComplaint] + complaints;
    }
  }
}
