/** The edit dialog: the form it loads from the task being edited, its validation (the
    create form's rules), the guarded save payload, and its change handler. */
module EditTaskModal {
  import opened Wrappers
  import opened JsStrings
  import opened Tasks
  import opened FormErrors
  import TaskForm

  /** `formData`: the five editable properties, with the due date as a picker value. */
  datatype FormData = FormData(
    title: string,
    description: string,
    priority: string,
    dueDate: DayInput,
    status: string)

  /** The form before any task is loaded. */
  const EmptyForm := FormData("", "", "Medium", Blank, "Pending")

  /** The picker value for a stored date: a valid instant gives its (UTC) calendar day,
      as `toISOString().split('T')[0]` does; a missing or invalid date gives `''`. */
  function FormDate(d: DateValue): (day: DayInput)
    ensures d.At? ==> day == OnDay(DayOf(d.ms))
    ensures !d.At? ==> day == Blank
    ensures !day.Unparsable?
  {
    match d
    case At(ms) => OnDay(DayOf(ms))
    case _ => Blank
  }

  /** Reading a picked day back from the stored task gives the same day. */
  lemma FormDateOfStored(d: DayInput)
    requires !d.Unparsable?
    ensures FormDate(StoredDate(d)) == d
  {
    if d.OnDay? {
      assert DayOf(d.day * MsPerDay) == d.day;
    }
  }

  /** Storing the day of an instant gives back the instant exactly when it is a midnight. */
  lemma StoredFormDate(ms: int)
    ensures StoredDate(FormDate(At(ms))) == At(ms) <==> ms % MsPerDay == 0
  {
    assert ms == DayOf(ms) * MsPerDay + ms % MsPerDay;
  }

  /** The form the effect writes for a task: missing or empty text becomes `''`, a
      missing priority `'Medium'`, a missing status `'Pending'` (`task.x || default`). */
  function FormOf(t: Task): (f: FormData)
    ensures f.title == OrDefault(t.title, "") && f.description == OrDefault(t.description, "")
    ensures f.priority == OrDefault(t.priority, "Medium") && f.status == OrDefault(t.status, "Pending")
    ensures f.dueDate == FormDate(t.dueDate)
    ensures f.priority != "" && f.status != ""
  {
    FormData(
      OrDefault(t.title, ""),
      OrDefault(t.description, ""),
      OrDefault(t.priority, "Medium"),
      FormDate(t.dueDate),
      OrDefault(t.status, "Pending"))
  }

  /** The object handed to `onSave`: `_id` and the five form fields. */
  datatype SavePayload = SavePayload(id: string, form: FormData)

  /** `const { _id, ...updates } = updatedTask`: the update carries exactly the five form
      fields, the date as the stored form of the picked day. */
  function ToPatch(p: SavePayload): (u: Patch)
    ensures u.title == Some(p.form.title) && u.description == Some(p.form.description)
    ensures u.priority == Some(p.form.priority) && u.status == Some(p.form.status)
    ensures u.dueDate == Some(StoredDate(p.form.dueDate))
  {
    Patch(Some(p.form.title), Some(p.form.description), Some(p.form.priority),
          Some(p.form.status), Some(StoredDate(p.form.dueDate)))
  }

  /** Saving a form and loading the saved task into the dialog again shows the same
      form, when priority and status are non-empty and the date is not garbage. */
  lemma SaveThenLoad(t: Task, p: SavePayload)
    requires p.form.priority != "" && p.form.status != "" && !p.form.dueDate.Unparsable?
    ensures FormOf(Merge(t, ToPatch(p))) == p.form
  {
    FormDateOfStored(p.form.dueDate);
  }

  /** A task `_id` that passes `if (!task || !task._id)`. */
  function HasId(task: Option<Task>): (b: bool)
    ensures b <==> task.Some? && OrDefault(task.value.id, "") != ""
  {
    task.Some? && task.value.id.Some? && task.value.id.value != ""
  }

  /** One `onChange` event of the dialog's five inputs. */
  datatype Edit =
    | SetTitle(text: string)
    | SetDescription(text: string)
    | SetPriority(text: string)
    | SetDueDate(day: DayInput)
    | SetStatus(text: string)
  {
    function Target(): TaskForm.Field {
      match this
      case SetTitle(_) => TaskForm.Title
      case SetDescription(_) => TaskForm.Description
      case SetPriority(_) => TaskForm.Priority
      case SetDueDate(_) => TaskForm.DueDate
      case SetStatus(_) => TaskForm.Status
    }

    /** `{...prev, [name]: value}`. */
    function Apply(f: FormData): (g: FormData)
      ensures g.title == (if SetTitle? then text else f.title)
      ensures g.description == (if SetDescription? then text else f.description)
      ensures g.priority == (if SetPriority? then text else f.priority)
      ensures g.dueDate == (if SetDueDate? then day else f.dueDate)
      ensures g.status == (if SetStatus? then text else f.status)
    {
      match this
      case SetTitle(v) => f.(title := v)
      case SetDescription(v) => f.(description := v)
      case SetPriority(v) => f.(priority := v)
      case SetDueDate(d) => f.(dueDate := d)
      case SetStatus(v) => f.(status := v)
    }
  }

  /** The dialog's state: the `task` prop, `formData` and `errors`. */
  class Modal {
    var task: Option<Task>
    var formData: FormData
    var errors: Errors<TaskForm.Field>

    /** The dialog as first rendered for a task, before its effect has run. */
    constructor (t: Option<Task>)
      ensures task == t && formData == EmptyForm && errors == map[]
    {
      task, formData, errors := t, EmptyForm, map[];
    }

    /** The `useEffect` on `[task]`: the prop becomes `t`, and when it is a task the
        form is loaded from it; without one the form is left as it was. */
    method LoadTask(t: Option<Task>)
      modifies this`task, this`formData
      ensures task == t
      ensures formData == if t.Some? then FormOf(t.value) else old(formData)
    {
      task := t;
      if t.Some? {
        var formattedDate: DayInput := Blank;
        if t.value.dueDate.At? {
          formattedDate := OnDay(DayOf(t.value.dueDate.ms));
        }
        formData := FormData(
          OrDefault(t.value.title, ""),
          OrDefault(t.value.description, ""),
          OrDefault(t.value.priority, "Medium"),
          formattedDate,
          OrDefault(t.value.status, "Pending"));
      }
    }

    /** `validateForm`: the create form's three rules, in the same order and with the
        same messages. */
    method ValidateForm(today: int) returns (valid: bool)
      modifies this`errors
      ensures errors == TaskForm.TaskErrors(formData.title, formData.description, formData.dueDate, today)
      ensures valid <==> errors == map[]
    {
      var f := formData;
      var newErrors: Errors<TaskForm.Field> := map[];
      if Trim(f.title) == "" {
        newErrors := newErrors[TaskForm.Title := TaskForm.TitleRequired];
      } else if JsLength(f.title) > 100 {
        newErrors := newErrors[TaskForm.Title := TaskForm.TitleTooLong];
      }
      ghost var withTitle := newErrors;
      assert withTitle == Put(map[], TaskForm.Title, TaskForm.TitleError(f.title));
      if JsLength(f.description) > 500 {
        newErrors := newErrors[TaskForm.Description := TaskForm.DescriptionTooLong];
      }
      ghost var withDescription := newErrors;
      assert withDescription == Put(withTitle, TaskForm.Description, TaskForm.DescriptionError(f.description));
      match f.dueDate {
        case Blank =>
          newErrors := newErrors[TaskForm.DueDate := TaskForm.DueDateRequired];
        case OnDay(day) =>
          if day < today {
            newErrors := newErrors[TaskForm.DueDate := TaskForm.DueDateInPast];
          }
        case Unparsable =>
      }
      assert newErrors == Put(withDescription, TaskForm.DueDate, TaskForm.DueDateError(f.dueDate, today));
      errors := newErrors;
      valid := newErrors == map[];
    }

    /** `handleSubmit`: validation runs first; a payload goes out only when it passes
        and the task has an `_id`, and it is that id with the form as it stands. */
    method HandleSubmit(today: int) returns (saved: Option<SavePayload>)
      modifies this`errors
      ensures errors == TaskForm.TaskErrors(formData.title, formData.description, formData.dueDate, today)
      ensures saved.Some? <==> errors == map[] && HasId(task)
      ensures saved.Some? ==> saved == Some(SavePayload(task.value.id.value, formData))
    {
      var valid := ValidateForm(today);
      if !valid {
        return None;
      }
      if task.None? || task.value.id.None? || task.value.id.value == "" {
        return None;
      }
      saved := Some(SavePayload(task.value.id.value, formData));
    }

    /** `handleChange`: one field takes the new value, and that field's error is blanked
        if one is shown. */
    method HandleChange(e: Edit)
      modifies this`formData, this`errors
      ensures formData == e.Apply(old(formData))
      ensures errors == ClearError(old(errors), e.Target())
    {
      formData := e.Apply(formData);
      if HasError(errors, e.Target()) {
        errors := errors[e.Target() := ""];
      }
    }

    /** `isFormValid`, which enables the save button. */
    function IsFormValid(): (b: bool)
      reads this
      ensures b <==> !IsBlank(formData.title) && JsLength(formData.description) <= 500 && !formData.dueDate.Blank?
    {
      TaskForm.LooksValid(formData.title, formData.description, formData.dueDate)
    }
  }

  /** A form that validates also enables the button; the converse fails on a past day
      (see `TaskForm.LooksValidButPastDue`) and on an overlong title. */
  lemma ValidatedFormLooksValid(f: FormData, today: int)
    requires TaskForm.TaskErrors(f.title, f.description, f.dueDate, today) == map[]
    ensures !IsBlank(f.title) && JsLength(f.description) <= 500 && !f.dueDate.Blank?
  {
    TaskForm.ValidImpliesLooksValid(f.title, f.description, f.dueDate, today);
    TrimEmptyIffBlank(f.title);
  }
}
