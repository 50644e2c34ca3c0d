/** The task-creation form: its validation rules (shared with the edit modal), the tag
    parsing of its submit handler, and the form state its change handler updates. */
module TaskForm {
  import opened Wrappers
  import opened JsStrings
  import opened Tasks
  import opened FormErrors

  /** The names of the form's inputs, which key `formData` and `errors`. */
  datatype Field = Title | Description | Priority | DueDate | Status | Tags

  const TitleRequired := "Title is required"
  const TitleTooLong := "Title cannot exceed 100 characters"
  const DescriptionTooLong := "Description cannot exceed 500 characters"
  const DueDateRequired := "Due date is required"
  const DueDateInPast := "Due date cannot be in the past"

  /** The title rule: `!title.trim()` is checked before the length. */
  function TitleError(title: string): (e: Option<string>)
    ensures e.Some? <==> IsBlank(title) || JsLength(title) > 100
    ensures IsBlank(title) ==> e == Some(TitleRequired)
    ensures !IsBlank(title) && JsLength(title) > 100 ==> e == Some(TitleTooLong)
    ensures e.Some? ==> e.value != ""
  {
    TrimEmptyIffBlank(title);
    if Trim(title) == "" then Some(TitleRequired)
    else if JsLength(title) > 100 then Some(TitleTooLong)
    else None
  }

  /** The description rule. */
  function DescriptionError(description: string): (e: Option<string>)
    ensures e.Some? <==> JsLength(description) > 500
    ensures e.Some? ==> e.value == DescriptionTooLong && e.value != ""
  {
    if JsLength(description) > 500 then Some(DescriptionTooLong) else None
  }

  /** The due-date rule, with `today` the current day number: an empty date is missing;
      a day before today is in the past; an unparsable date compares false with today
      (NaN) and passes. */
  function DueDateError(dueDate: DayInput, today: int): (e: Option<string>)
    ensures e.Some? <==> dueDate.Blank? || (dueDate.OnDay? && dueDate.day < today)
    ensures dueDate.Blank? ==> e == Some(DueDateRequired)
    ensures dueDate.OnDay? && dueDate.day < today ==> e == Some(DueDateInPast)
    ensures dueDate.OnDay? && dueDate.day == today ==> e.None?
    ensures e.Some? ==> e.value != ""
  {
    match dueDate
    case Blank => Some(DueDateRequired)
    case OnDay(day) => if day < today then Some(DueDateInPast) else None
    case Unparsable => None
  }

  /** The `newErrors` dictionary of `validateForm` for a title, description and due date:
      one entry per failing rule, keyed by the field's name. */
  function TaskErrors(title: string, description: string, dueDate: DayInput, today: int): (errs: Errors<Field>)
    ensures errs.Keys <= {Title, Description, DueDate}
    ensures Title in errs <==> TitleError(title).Some?
    ensures Title in errs ==> errs[Title] == TitleError(title).value
    ensures Description in errs <==> DescriptionError(description).Some?
    ensures Description in errs ==> errs[Description] == DescriptionError(description).value
    ensures DueDate in errs <==> DueDateError(dueDate, today).Some?
    ensures DueDate in errs ==> errs[DueDate] == DueDateError(dueDate, today).value
  {
    var withTitle := Put(map[], Title, TitleError(title));
    var withDescription := Put(withTitle, Description, DescriptionError(description));
    Put(withDescription, DueDate, DueDateError(dueDate, today))
  }

  /** Every reported error is a non-empty message, so the form shows it. */
  lemma TaskErrorsShown(title: string, description: string, dueDate: DayInput, today: int)
    ensures forall k :: k in TaskErrors(title, description, dueDate, today) ==>
      HasError(TaskErrors(title, description, dueDate, today), k)
  {
    var errs := TaskErrors(title, description, dueDate, today);
    forall k | k in errs ensures HasError(errs, k) {
      assert k == Title || k == Description || k == DueDate;
    }
  }

  /** Validation passes exactly when the title has a non-space character and at most 100
      code units, the description at most 500, and a due date is given whose day is not
      before today (or that does not parse). */
  lemma TaskErrorsEmptyIff(title: string, description: string, dueDate: DayInput, today: int)
    ensures TaskErrors(title, description, dueDate, today) == map[] <==>
      !IsBlank(title) && JsLength(title) <= 100 && JsLength(description) <= 500
      && !dueDate.Blank? && (dueDate.OnDay? ==> dueDate.day >= today)
  {
    var errs := TaskErrors(title, description, dueDate, today);
    if errs != map[] {
      var k :| k in errs;
    }
  }

  /** `isFormValid`: the expression that enables the submit button. It checks neither
      the title's length nor whether the date is in the past. */
  function LooksValid(title: string, description: string, dueDate: DayInput): (b: bool)
    ensures b <==> !IsBlank(title) && JsLength(description) <= 500 && !dueDate.Blank?
  {
    TrimEmptyIffBlank(title);
    Trim(title) != "" && JsLength(description) <= 500 && !dueDate.Blank?
  }

  /** A form that passes validation also looks valid. */
  lemma ValidImpliesLooksValid(title: string, description: string, dueDate: DayInput, today: int)
    requires TaskErrors(title, description, dueDate, today) == map[]
    ensures LooksValid(title, description, dueDate)
  {
    TaskErrorsEmptyIff(title, description, dueDate, today);
    TrimEmptyIffBlank(title);
  }

  /** The converse fails: a due day before today looks valid but does not validate. */
  lemma LooksValidButPastDue(today: int)
    ensures LooksValid("x", "", OnDay(today - 1))
    ensures TaskErrors("x", "", OnDay(today - 1), today) == map[DueDate := DueDateInPast]
  {
    assert !IsSpace('x');
    assert TrimStart("x") == "x";
    assert TrimEnd("x") == "x";
    assert TitleError("x") == None by {
      assert JsLength("x") == 1;
    }
    assert DescriptionError("") == None;
    var errs := TaskErrors("x", "", OnDay(today - 1), today);
    assert errs.Keys == {DueDate};
  }

  /** `s.split(',').map(tag => tag.trim()).filter(tag => tag)`. */
  function ParseTags(s: string): (tags: seq<string>)
    ensures forall t :: t in tags ==> t != "" && IsTrimmed(t) && ',' !in t
  {
    NonEmptyOnly(TrimEach(Split(s, ',')))
  }

  /** `parts.map(tag => tag.trim())`. */
  function TrimEach(parts: seq<string>): (r: seq<string>)
    ensures |r| == |parts|
    ensures forall i :: 0 <= i < |parts| ==> r[i] == Trim(parts[i])
    ensures forall i :: 0 <= i < |parts| ==> IsTrimmed(r[i]) && (',' in r[i] ==> ',' in parts[i])
  {
    if parts == [] then []
    else
      TrimSpec(parts[0]);
      var t := Trim(parts[0]);
      assert ',' in t ==> ',' in parts[0] by {
        if ',' in t {
          var j :| 0 <= j < |t| && t[j] == ',';
          assert parts[0][TrimOffset(parts[0]) + j] == ',';
        }
      }
      [t] + TrimEach(parts[1..])
  }

  /** `parts.filter(tag => tag)`: the non-empty strings, in order. */
  function NonEmptyOnly(parts: seq<string>): (r: seq<string>)
    ensures forall t :: t in r ==> t in parts && t != ""
    ensures forall i :: 0 <= i < |parts| && parts[i] != "" ==> parts[i] in r
  {
    if parts == [] then []
    else
      assert forall i :: 1 <= i < |parts| ==> parts[i] == parts[1..][i - 1];
      (if parts[0] != "" then [parts[0]] else []) + NonEmptyOnly(parts[1..])
  }

  /** A single string survives the filter exactly when it is non-empty; with
      `NonEmptyOnlyConcat` this fixes the result and its order for every input. */
  lemma NonEmptyOnlySingle(p: string)
    ensures NonEmptyOnly([p]) == if p != "" then [p] else []
  {
    assert [p][1..] == [];
  }

  /** With no empty string among them, every part is kept, in order. */
  lemma {:induction false} NonEmptyOnlyKeepsAll(parts: seq<string>)
    requires forall i :: 0 <= i < |parts| ==> parts[i] != ""
    ensures NonEmptyOnly(parts) == parts
  {
    if parts != [] {
      assert forall i :: 0 <= i < |parts[1..]| ==> parts[1..][i] == parts[i + 1];
      NonEmptyOnlyKeepsAll(parts[1..]);
      HeadTail(parts);
    }
  }

  /** `split` looks at the first character and then at the rest. */
  lemma SplitCons(c: char, t: string, sep: char)
    ensures Split([c] + t, sep) ==
      if c == sep then [""] + Split(t, sep) else [[c] + Split(t, sep)[0]] + Split(t, sep)[1..]
  {
    HeadTailConcat([c], t);
  }

  /** Splitting at a separator splits the two sides independently. */
  lemma {:induction false} SplitAround(x: string, y: string, sep: char)
    ensures Split(x + [sep] + y, sep) == Split(x, sep) + Split(y, sep)
  {
    if x == [] {
      assert x + [sep] + y == [sep] + y;
      SplitCons(sep, y, sep);
    } else {
      HeadTail(x);
      SplitAround(x[1..], y, sep);
      SplitAroundStep(x[0], x[1..], y, sep);
    }
  }

  /** The inductive step of `SplitAround`: one more character in front of `x`. */
  lemma SplitAroundStep(c: char, x: string, y: string, sep: char)
    requires Split(x + [sep] + y, sep) == Split(x, sep) + Split(y, sep)
    ensures Split([c] + x + [sep] + y, sep) == Split([c] + x, sep) + Split(y, sep)
  {
    ConcatAssoc([c], x, [sep]);
    ConcatAssoc([c], x + [sep], y);
    SplitCons(c, x + [sep] + y, sep);
    SplitCons(c, x, sep);
    var left, right := Split(x, sep), Split(y, sep);
    if c == sep {
      ConcatAssoc([""], left, right);
    } else {
      HeadTailConcat(left, right);
      ConcatAssoc([[c] + left[0]], left[1..], right);
    }
  }

  lemma {:induction false} TrimEachConcat(a: seq<string>, b: seq<string>)
    ensures TrimEach(a + b) == TrimEach(a) + TrimEach(b)
  {
    if a != [] {
      HeadTailConcat(a, b);
      TrimEachConcat(a[1..], b);
      ConcatAssoc([Trim(a[0])], TrimEach(a[1..]), TrimEach(b));
    } else {
      assert a + b == b;
    }
  }

  lemma {:induction false} NonEmptyOnlyConcat(a: seq<string>, b: seq<string>)
    ensures NonEmptyOnly(a + b) == NonEmptyOnly(a) + NonEmptyOnly(b)
  {
    if a != [] {
      HeadTailConcat(a, b);
      NonEmptyOnlyConcat(a[1..], b);
      ConcatAssoc(if a[0] != "" then [a[0]] else [], NonEmptyOnly(a[1..]), NonEmptyOnly(b));
    } else {
      assert a + b == b;
    }
  }

  /** Tag order follows the input: the tags of `x,y` are the tags of `x` followed by
      the tags of `y`. */
  lemma ParseTagsConcat(x: string, y: string)
    ensures ParseTags(x + "," + y) == ParseTags(x) + ParseTags(y)
  {
    SplitAround(x, y, ',');
    TrimEachConcat(Split(x, ','), Split(y, ','));
    NonEmptyOnlyConcat(TrimEach(Split(x, ',')), TrimEach(Split(y, ',')));
  }

  /** Text without a comma is one tag, its trimmed self, unless it is blank. */
  lemma ParseTagsSingle(s: string)
    requires ',' !in s
    ensures ParseTags(s) == if IsBlank(s) then [] else [Trim(s)]
  {
    SplitNoSeparator(s, ',');
    assert TrimEach([s]) == [Trim(s)];
    TrimEmptyIffBlank(s);
    assert NonEmptyOnly([Trim(s)]) == if Trim(s) != "" then [Trim(s)] else [] by {
      assert [Trim(s)][1..] == [];
    }
  }

  lemma {:induction false} SplitNoSeparator(s: string, sep: char)
    requires sep !in s
    ensures Split(s, sep) == [s]
  {
    if s != [] {
      assert s[0] != sep && sep !in s[1..];
      SplitNoSeparator(s[1..], sep);
      HeadTail(s);
    }
  }

  /** The object handed to `onSubmit`. */
  datatype Draft = Draft(
    title: string,
    description: string,
    priority: string,
    dueDate: DayInput,
    status: string,
    tags: seq<string>)

  /** One `onChange` event: the input's name and its new value. */
  datatype Edit =
    | SetTitle(text: string)
    | SetDescription(text: string)
    | SetPriority(text: string)
    | SetDueDate(day: DayInput)
    | SetStatus(text: string)
    | SetTags(text: string)
  {
    function Target(): Field {
      match this
      case SetTitle(_) => Title
      case SetDescription(_) => Description
      case SetPriority(_) => Priority
      case SetDueDate(_) => DueDate
      case SetStatus(_) => Status
      case SetTags(_) => Tags
    }
  }

  /** The form's state: `formData` (one field per input) and `errors`. */
  class TaskFormState {
    var title: string
    var description: string
    var priority: string
    var dueDate: DayInput
    var status: string
    var tags: string
    var errors: Errors<Field>

    constructor ()
      ensures title == "" && description == "" && priority == "Medium"
      ensures dueDate == Blank && status == "Pending" && tags == ""
      ensures errors == map[]
    {
      title, description, priority := "", "", "Medium";
      dueDate, status, tags := Blank, "Pending", "";
      errors := map[];
    }

    /** `validateForm`: builds `newErrors` field by field, stores it, and reports
        whether it is empty. */
    method ValidateForm(today: int) returns (valid: bool)
      modifies this`errors
      ensures errors == TaskErrors(title, description, dueDate, today)
      ensures valid <==> errors == map[]
    {
      var newErrors: Errors<Field> := map[];
      if Trim(title) == "" {
        newErrors := newErrors[Title := TitleRequired];
      } else if JsLength(title) > 100 {
        newErrors := newErrors[Title := TitleTooLong];
      }
      ghost var withTitle := newErrors;
      assert withTitle == Put(map[], Title, TitleError(title));
      if JsLength(description) > 500 {
        newErrors := newErrors[Description := DescriptionTooLong];
      }
      ghost var withDescription := newErrors;
      assert withDescription == Put(withTitle, Description, DescriptionError(description));
      match dueDate {
        case Blank =>
          newErrors := newErrors[DueDate := DueDateRequired];
        case OnDay(day) =>
          if day < today {
            newErrors := newErrors[DueDate := DueDateInPast];
          }
        case Unparsable =>
      }
      assert newErrors == Put(withDescription, DueDate, DueDateError(dueDate, today));
      errors := newErrors;
      valid := newErrors == map[];
    }

    /** `handleSubmit`: nothing is submitted unless validation passes; otherwise the
        five form fields go out as they are, with the parsed tags. */
    method HandleSubmit(today: int) returns (submitted: Option<Draft>)
      modifies this`errors
      ensures errors == TaskErrors(title, description, dueDate, today)
      ensures submitted.Some? <==> errors == map[]
      ensures submitted.Some? ==>
        submitted.value == Draft(title, description, priority, dueDate, status, ParseTags(tags))
    {
      var valid := ValidateForm(today);
      if !valid {
        return None;
      }
      var parsed := ParseTags(tags);
      submitted := Some(Draft(title, description, priority, dueDate, status, parsed));
    }

    /** `handleChange`: the named field takes the new value, and that field's error is
        blanked if one is shown. */
    method HandleChange(e: Edit)
      modifies this
      ensures title == (if e.SetTitle? then e.text else old(title))
      ensures description == (if e.SetDescription? then e.text else old(description))
      ensures priority == (if e.SetPriority? then e.text else old(priority))
      ensures dueDate == (if e.SetDueDate? then e.day else old(dueDate))
      ensures status == (if e.SetStatus? then e.text else old(status))
      ensures tags == (if e.SetTags? then e.text else old(tags))
      ensures errors == ClearError(old(errors), e.Target())
    {
      match e {
        case SetTitle(v) => title := v;
        case SetDescription(v) => description := v;
        case SetPriority(v) => priority := v;
        case SetDueDate(d) => dueDate := d;
        case SetStatus(v) => status := v;
        case SetTags(v) => tags := v;
      }
      if HasError(errors, e.Target()) {
        errors := errors[e.Target() := ""];
      }
    }

    /** `isFormValid`, which enables the submit button. */
    function IsFormValid(): (b: bool)
      reads this
      ensures b <==> !IsBlank(title) && JsLength(description) <= 500 && !dueDate.Blank?
    {
      LooksValid(title, description, dueDate)
    }
  }
}
