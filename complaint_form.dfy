/** The complaint submission form: its validation schema, the attachment
    list it keeps beside the form values, and the submit step that hands a
    new complaint to the store. */
module ComplaintForm {

  import opened Wrappers
  import opened AuthContext
  import opened Data
  import opened ComplaintsContext

  /** A chosen file; only its name is used. */
  datatype File = File(name: string)

  /** The form values. The select boxes only offer the enumeration's values. */
  datatype FormValues = FormValues(title: string, description: string, category: Category, priority: Priority)

  const TitleTooShort: string := "Title must be at least 5 characters"
  const DescriptionTooShort: string := "Description must be at least 20 characters"

  /** The defaults: empty texts, "Technical Issue" and "Medium". */
  function DefaultValues(): (v: FormValues)
    ensures v.title == "" && v.description == ""
    ensures CategoryName(v.category) == "Technical Issue" && PriorityName(v.priority) == "Medium"
  {
    FormValues("", "", TechnicalIssue, Medium)
  }

  /** `formSchema`: one message per rule broken, title first. */
  function Validate(v: FormValues): (errors: seq<string>)
    ensures errors == [] <==> |v.title| >= 5 && |v.description| >= 20
    ensures TitleTooShort in errors <==> |v.title| < 5
    ensures DescriptionTooShort in errors <==> |v.description| < 20
    ensures |errors| <= 2
  {
    (if |v.title| < 5 then [TitleTooShort] else []) +
    (if |v.description| < 20 then [DescriptionTooShort] else [])
  }

  /** Category and priority are not checked: changing them never changes
      the outcome. */
  lemma ValidationIgnoresChoices(v: FormValues, category: Category, priority: Priority)
    ensures Validate(v.(category := category, priority := priority)) == Validate(v)
  {
  }

  /** `prev.filter((_, i) => i !== index)` from position `from` on. */
  function DropIndexFrom(files: seq<File>, index: int, from: nat): (r: seq<File>)
    requires from <= |files|
    ensures from <= index < |files| ==> r == files[from..index] + files[index + 1..]
    ensures !(from <= index < |files|) ==> r == files[from..]
    decreases |files| - from
  {
    if from == |files| then []
    else
      var rest := DropIndexFrom(files, index, from + 1);
      if from == index then rest
      else
        assert files[from..] == [files[from]] + files[from + 1..];
        [files[from]] + rest
  }

  /** `removeAttachment(index)`: exactly position `index` removed, the rest
      in order; an index out of range removes nothing. */
  function DropIndex(files: seq<File>, index: int): (r: seq<File>)
    ensures 0 <= index < |files| ==> r == files[..index] + files[index + 1..] && |r| == |files| - 1
    ensures !(0 <= index < |files|) ==> r == files
  {
    DropIndexFrom(files, index, 0)
  }

  /** `attachments.map(file => file.name)`, or undefined for no files. */
  function AttachmentNames(files: seq<File>): (r: Option<seq<string>>)
    ensures r.None? <==> files == []
    ensures r.Some? ==> |r.value| == |files| && forall k :: 0 <= k < |files| ==> r.value[k] == files[k].name
  {
    if |files| > 0 then Some(seq(|files|, k requires 0 <= k < |files| => files[k].name)) else None
  }

  /** What `onSubmit` passes to `addComplaint`. */
  function SubmittedInput(v: FormValues, files: seq<File>): (d: ComplaintInput)
    ensures d.title == v.title && d.description == v.description
    ensures d.category == v.category && d.priority == v.priority
    ensures d.attachments == AttachmentNames(files) && d.assignedTo == None && d.comments == None
  {
    ComplaintInput(v.title, v.description, v.category, v.priority, None, AttachmentNames(files), None)
  }

  class ComplaintFormState {
    var values: FormValues
    var attachments: seq<File>
    var isSubmitting: bool

    /** The form as first rendered. */
    constructor ()
      ensures values == DefaultValues() && attachments == [] && !isSubmitting
    {
      values := DefaultValues();
      attachments := [];
      isSubmitting := false;
    }

    /** Editing the fields. */
    method Enter(v: FormValues)
      modifies this
      ensures values == v && attachments == old(attachments) && isSubmitting == old(isSubmitting)
    {
      values := v;
    }

    /** `handleFileChange`: newly chosen files follow the earlier ones in
        order; no selection, or an empty one, changes nothing. */
    method HandleFileChange(files: Option<seq<File>>)
      modifies this
      ensures files.Some? && files.value != [] ==> attachments == old(attachments) + files.value
      ensures !(files.Some? && files.value != []) ==> attachments == old(attachments)
      ensures values == old(values) && isSubmitting == old(isSubmitting)
    {
      if files.Some? && |files.value| > 0 {
        attachments := attachments + files.value;
      }
    }

    /** `removeAttachment`. */
    method RemoveAttachment(index: int)
      modifies this
      ensures attachments == DropIndex(old(attachments), index)
      ensures values == old(values) && isSubmitting == old(isSubmitting)
    {
      attachments := DropIndex(attachments, index);
    }

    /** Submitting: invalid values are reported and nothing else happens;
        valid ones become a new complaint at the front of the store, and the
        form returns to its defaults with no attachments. */
    method Submit(store: ComplaintsProvider, user: Option<User>, freshId: string, now: int)
      returns (errors: seq<string>)
      modifies this, store
      ensures errors == Validate(old(values))
      ensures errors != [] ==>
        values == old(values) && attachments == old(attachments) && store.complaints == old(store.complaints)
      ensures errors == [] ==>
        store.complaints == [NewComplaint(user, SubmittedInput(old(values), old(attachments)), freshId, now)] + old(store.complaints)
      ensures errors == [] ==> values == DefaultValues() && attachments == []
      ensures !isSubmitting
    {
      errors := Validate(values);
      if errors != [] {
        isSubmitting := false;
        return;
      }
      isSubmitting := true;
      store.AddComplaint(user, SubmittedInput(values, attachments), freshId, now);
      values := DefaultValues();
      attachments := [];
      isSubmitting := false;
    }
  }
}
