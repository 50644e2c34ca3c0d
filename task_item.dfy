/** One task card: the past-due test and day count at day granularity, the due-date
    label cascade, the priority and status shown, and the status toggle. */
module TaskItem {
  import opened Wrappers
  import opened Tasks

  /** `isPastDue(task.dueDate)` with `today` the current day number: both dates are
      truncated to midnight, an invalid date compares false, and a completed task is
      never past due. */
  function IsPastDue(t: Task, today: int): (b: bool)
    ensures b <==> t.dueDate.At? && DayOf(t.dueDate.ms) < today && t.status != Some("Completed")
    ensures t.dueDate.NoDate? || t.dueDate.BadDate? || t.status == Some("Completed") ==> !b
  {
    match t.dueDate
    case NoDate => false
    case BadDate => false
    case At(ms) => DayOf(ms) < today && t.status != Some("Completed")
  }

  /** `daysUntilDue(task.dueDate)`: whole days from today to the due day, 0 without a
      date, and NaN (`None`) for an invalid date. */
  function DaysUntilDue(d: DateValue, today: int): (n: Option<int>)
    ensures d.NoDate? ==> n == Some(0)
    ensures d.BadDate? <==> n.None?
    ensures d.At? ==> n == Some(DayOf(d.ms) - today)
  {
    match d
    case NoDate => Some(0)
    case BadDate => None
    case At(ms) => Some(DayOf(ms) - today)
  }

  /** The texts `getDueDateLabel` produces; `DueOn` is `Due <formatted date>`. */
  datatype Label = Done | Overdue | DueToday | DueTomorrow | DueInDays(days: int) | DueOn(date: DateValue)

  /** `getDueDateLabel`: the first test that holds, in the order completed, overdue,
      0 days, 1 day, under 7 days, otherwise the date. NaN fails every comparison. */
  function DueDateLabel(t: Task, today: int): (l: Label)
    ensures l.DueOn? ==> l.date == t.dueDate && !t.dueDate.NoDate?
    ensures l == Overdue ==> t.dueDate.At?
  {
    var isOverdue := IsPastDue(t, today);
    var daysUntil := DaysUntilDue(t.dueDate, today);
    if t.status == Some("Completed") then Done
    else if isOverdue then Overdue
    else if daysUntil == Some(0) then DueToday
    else if daysUntil == Some(1) then DueTomorrow
    else if daysUntil.Some? && daysUntil.value < 7 then DueInDays(daysUntil.value)
    else DueOn(t.dueDate)
  }

  /** The cascade in terms of the due day: a task that is not completed is overdue
      exactly when its day is before today, due today or tomorrow on those two days,
      counted in days for 2 to 6 days ahead, and shown by date from 7 days on or when
      its date is invalid. */
  lemma LabelByDay(t: Task, today: int)
    requires t.status != Some("Completed")
    ensures t.dueDate.At? ==>
      var n := DayOf(t.dueDate.ms) - today;
      DueDateLabel(t, today) ==
        if n < 0 then Overdue
        else if n == 0 then DueToday
        else if n == 1 then DueTomorrow
        else if n < 7 then DueInDays(n)
        else DueOn(t.dueDate)
    ensures t.dueDate.NoDate? ==> DueDateLabel(t, today) == DueToday
    ensures t.dueDate.BadDate? ==> DueDateLabel(t, today) == DueOn(BadDate)
  {
  }

  /** "Due in N days" is only ever shown for 2 through 6 days, and "Overdue" only for
      a task that is past due. */
  lemma LabelRanges(t: Task, today: int)
    ensures DueDateLabel(t, today).DueInDays? ==> 2 <= DueDateLabel(t, today).days <= 6
    ensures DueDateLabel(t, today) == Overdue <==> IsPastDue(t, today)
    ensures DueDateLabel(t, today) == Done <==> t.status == Some("Completed")
  {
    var n := DaysUntilDue(t.dueDate, today);
    if DueDateLabel(t, today).DueInDays? {
      assert t.dueDate.At? && !IsPastDue(t, today);
      assert n.value >= 0;
    }
  }

  /** The icons of the priority badge. */
  datatype PriorityIcon = HighIcon | MediumIcon | LowIcon | DefaultIcon

  /** `getPriorityIcon`: the three known priorities have their icons; anything else
      has the default one. */
  function PriorityIconOf(priority: string): (i: PriorityIcon)
    ensures i == DefaultIcon <==> priority !in {"High", "Medium", "Low"}
    ensures priority == "High" ==> i == HighIcon
    ensures priority == "Medium" ==> i == MediumIcon
    ensures priority == "Low" ==> i == LowIcon
  {
    if priority == "High" then HighIcon
    else if priority == "Medium" then MediumIcon
    else if priority == "Low" then LowIcon
    else DefaultIcon
  }

  /** The priority the card shows: `task.priority || 'Medium'`. */
  function ShownPriority(t: Task): (p: string)
    ensures p != ""
    ensures t.priority.Some? && t.priority.value != "" ==> p == t.priority.value
    ensures t.priority.None? || t.priority.value == "" ==> p == "Medium"
  {
    OrDefault(t.priority, "Medium")
  }

  /** The status the card shows: `task.status || 'Pending'`. */
  function ShownStatus(t: Task): (s: string)
    ensures s != ""
    ensures t.status.Some? && t.status.value != "" ==> s == t.status.value
    ensures t.status.None? || t.status.value == "" ==> s == "Pending"
  {
    OrDefault(t.status, "Pending")
  }

  /** The badge icon: a task without a priority shows the Medium icon, and a priority
      outside the three known ones the default icon. */
  lemma BadgeIcon(t: Task)
    ensures t.priority.None? ==> PriorityIconOf(ShownPriority(t)) == MediumIcon
    ensures t.priority.Some? && t.priority.value !in {"", "High", "Medium", "Low"} ==>
      PriorityIconOf(ShownPriority(t)) == DefaultIcon
  {
  }

  /** The card's status icon, `getStatusIcon(task.status || 'Pending')`: true for the
      completed icon. The `'Pending'` default never shows it, so it is shown exactly
      for a task whose status is Completed. */
  function StatusIconDone(t: Task): (done: bool)
    ensures done <==> t.status == Some("Completed")
  {
    ShownStatus(t) == "Completed"
  }

  /** The status icon and the due-date label agree: the completed icon is shown
      exactly when the label reads Completed, and toggling shows it exactly for a task
      that was Pending. */
  lemma StatusIconAgrees(t: Task, today: int)
    ensures StatusIconDone(t) <==> DueDateLabel(t, today) == Done
    ensures StatusIconDone(Merge(t, TogglePatch(t))) <==> t.status == Some("Pending")
  {
    LabelRanges(t, today);
  }

  /** `handleStatusToggle`: Pending becomes Completed, and every other status
      (Completed, In Progress, missing) becomes Pending. */
  function ToggledStatus(status: Option<string>): (s: string)
    ensures s == "Completed" <==> status == Some("Pending")
    ensures s != "Completed" ==> s == "Pending"
  {
    if status == Some("Pending") then "Completed" else "Pending"
  }

  /** The `{ status: newStatus }` update passed to `onUpdate`. */
  function TogglePatch(t: Task): (p: Patch)
    ensures p == NoChange.(status := Some(ToggledStatus(t.status)))
  {
    Patch(None, None, None, Some(ToggledStatus(t.status)), None)
  }

  /** Applying the toggle changes the status only, and toggling a Pending or Completed
      task twice brings it back. */
  lemma ToggleTwice(t: Task)
    ensures Merge(t, TogglePatch(t)) == t.(status := Some(ToggledStatus(t.status)))
    ensures t.status in {Some("Pending"), Some("Completed")} ==>
      Merge(Merge(t, TogglePatch(t)), TogglePatch(Merge(t, TogglePatch(t)))) == t
  {
  }
}
