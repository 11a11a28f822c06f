/** The complaint detail page: the page's own copy of one record, the
    comment box, and the status selector. The record is looked up in the
    seeded list by the route's id. The simulated request delays are taken
    to have run out by the time a handler returns. */
module ComplaintDetail {

  import opened Wrappers
  import opened Text
  import opened AuthContext
  import opened Data
  import opened ManageComplaints

  /** `canUpdateStatus`: the accounts the management page lets in, that is
      every signed-in account but a `user`-role one. */
  function CanUpdateStatus(user: Option<User>): (b: bool)
    ensures b <==> IsStaff(user)
    ensures b <==> user.Some? && user.value.role != EndUser
  {
    user.Some? && (user.value.role == Admin || user.value.role == Support)
  }

  /** The "Assigned to" label: the built-in names for "1" and "3", and
      "Staff #<id>" for every other id. */
  function AssigneeLabel(assignedTo: string): (shown: string)
    ensures assignedTo !in {"1", "3"} ==> shown == "Staff #" + assignedTo
  {
    if assignedTo == "1" then "Admin User"
    else if assignedTo == "3" then "Support Staff"
    else "Staff #" + assignedTo
  }

  /** The two named labels are the names of the built-in staff accounts
      with those ids. */
  lemma AssigneeLabelNamesStaff(m: MockUser)
    requires m in MockUsers && m.role != EndUser
    ensures AssigneeLabel(m.id) == m.name
  {
  }

  /** The comment `handleSubmitComment` builds for a signed-in user. */
  function AuthoredComment(user: User, typed: string, now: nat): (c: Comment)
    ensures c.id == "comment-" + NatToString(now)
    ensures c.text == Trim(typed) && c.createdAt == now
    ensures c.userId == user.id && c.userName == user.name && c.userRole == user.role
  {
    Comment("comment-" + NatToString(now), Trim(typed), now, user.id, user.name, user.role)
  }

  /** The earlier comments, absent ones counted as none. */
  function CommentsOf(c: Complaint): seq<Comment> {
    if c.comments.Some? then c.comments.value else []
  }

  /** The record with one more comment at the end of its thread: the
      earlier comments unchanged and in order, every other field kept. */
  function WithComment(c: Complaint, comment: Comment): (r: Complaint)
    ensures r.comments.Some? && |r.comments.value| == |CommentsOf(c)| + 1
    ensures r.comments.value[..|CommentsOf(c)|] == CommentsOf(c) && r.comments.value[|CommentsOf(c)|] == comment
    ensures r.(comments := c.comments) == c
  {
    c.(comments := Some(CommentsOf(c) + [comment]))
  }

  /** The record with a new status: only `status` and `updatedAt` change. */
  function WithStatus(c: Complaint, s: Status, now: int): (r: Complaint)
    ensures r.status == s && r.updatedAt == now
    ensures r.(status := c.status, updatedAt := c.updatedAt) == c
    ensures r.assignedTo == c.assignedTo && r.comments == c.comments
  {
    c.(status := s, updatedAt := now)
  }

  class ComplaintDetailPage {
    var complaint: Option<Complaint>
    var newComment: string
    var isSubmitting: bool
    /** The status select's value; `None` for "". */
    var status: Option<Status>

    /** The page as first rendered: the first seeded record with the route's
        id, if there is an id and such a record. */
    constructor (mock: seq<Complaint>, routeId: Option<string>)
      ensures complaint == (if routeId.Some? then GetComplaintById(mock, routeId.value) else None)
      ensures newComment == "" && !isSubmitting && status == None
    {
      complaint := if routeId.Some? then GetComplaintById(mock, routeId.value) else None;
      newComment := "";
      isSubmitting := false;
      status := None;
    }

    /** Typing into the comment box. */
    method EditComment(text: string)
      modifies this
      ensures newComment == text
      ensures complaint == old(complaint) && isSubmitting == old(isSubmitting) && status == old(status)
    {
      newComment := text;
    }

    /** `handleSubmitComment`, available while a record is shown. A blank
        comment changes nothing. Otherwise, for a signed-in user the trimmed
        comment is appended with the user's identity and the box is emptied;
        without a user nothing is appended. Submitting ends either way. */
    method SubmitComment(user: Option<User>, now: nat)
      requires complaint.Some?
      modifies this
      ensures status == old(status)
      ensures IsBlank(old(newComment)) ==>
        complaint == old(complaint) && newComment == old(newComment) && isSubmitting == old(isSubmitting)
      ensures !IsBlank(old(newComment)) ==> !isSubmitting
      ensures !IsBlank(old(newComment)) && user.None? ==>
        complaint == old(complaint) && newComment == old(newComment)
      ensures !IsBlank(old(newComment)) && user.Some? ==>
        complaint == Some(WithComment(old(complaint).value, AuthoredComment(user.value, old(newComment), now))) &&
        newComment == ""
    {
      var typed := newComment;
      if IsBlank(typed) {
        return;
      }
      isSubmitting := true;
      if user.Some? {
        var comment := AuthoredComment(user.value, typed, now);
        var updated := WithComment(complaint.value, comment);
        complaint := Some(updated);
        newComment := "";
      }
      isSubmitting := false;
    }

    /** `handleStatusChange`, reachable only through the status select, which
        is rendered while a record is shown and `canUpdateStatus` holds: the
        select shows the new status and the record gets it with a new
        `updatedAt`, every other field unchanged. */
    method ChangeStatus(user: Option<User>, newStatus: Status, now: int)
      requires complaint.Some? && CanUpdateStatus(user)
      modifies this
      ensures status == Some(newStatus)
      ensures complaint == Some(WithStatus(old(complaint).value, newStatus, now))
      ensures newComment == old(newComment) && isSubmitting == old(isSubmitting)
    {
      status := Some(newStatus);
      complaint := Some(WithStatus(complaint.value, newStatus, now));
    }
  }

  /** A submitted comment is never blank and carries no surrounding
      whitespace. */
  lemma SubmittedCommentIsTrimmed(user: User, typed: string, now: nat)
    requires !IsBlank(typed)
    ensures var t := AuthoredComment(user, typed, now).text;
            t != [] && !IsWhitespace(t[0]) && !IsWhitespace(t[|t| - 1])
  {
  }
}
