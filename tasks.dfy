/** The task records and their validation rules (pkg/models). */
module Tasks {
  import opened Wrappers

  /** An instant, as a count of clock ticks; ZeroTime is Go's zero
      time.Time, which IsZero reports. */
  type Time = int

  const ZeroTime: Time := 0

  /** t.Before(u) */
  predicate Before(t: Time, u: Time) {
    t < u
  }

  type TaskStatus = string

  const StatusPending: TaskStatus := "pending"
  const StatusInProgress: TaskStatus := "in_progress"
  const StatusCompleted: TaskStatus := "completed"
  const StatusCancelled: TaskStatus := "cancelled"

  datatype Task = Task(
    id: string,
    title: string,
    description: string,
    status: TaskStatus,
    dueDate: Time,
    createdAt: Time,
    updatedAt: Time)

  /** The fields of a creation request, as handed to the repository. */
  datatype TaskData = TaskData(title: string, description: string, status: TaskStatus, dueDate: Time)

  /** An update request: every field is optional. */
  datatype TaskUpdate = TaskUpdate(
    title: Option<string>,
    description: Option<string>,
    status: Option<TaskStatus>,
    dueDate: Option<Time>)

  const TitleRequired := "title is required"
  const InvalidStatus := "invalid status"
  const DueDateRequired := "due date is required"
  const DueDateInPast := "due date must be in the future"

  /** isValidStatus: exactly the four status constants. */
  predicate IsValidStatus(status: TaskStatus) {
    status == StatusPending || status == StatusInProgress
    || status == StatusCompleted || status == StatusCancelled
  }

  lemma ValidStatuses()
    ensures IsValidStatus("pending") && IsValidStatus("in_progress")
    ensures IsValidStatus("completed") && IsValidStatus("cancelled")
    ensures !IsValidStatus("") && !IsValidStatus("Pending") && !IsValidStatus("done")
  {
  }

  /** A creation request; Validate may fill in its status. */
  class TaskCreate {
    var title: string
    var description: string
    var status: TaskStatus
    var dueDate: Time

    constructor (title: string, description: string, status: TaskStatus, dueDate: Time)
      ensures this.title == title && this.description == description
      ensures this.status == status && this.dueDate == dueDate
    {
      this.title := title;
      this.description := description;
      this.status := status;
      this.dueDate := dueDate;
    }

    function Data(): (d: TaskData)
      reads this
      ensures d.title == title && d.description == description && d.status == status && d.dueDate == dueDate
    {
      TaskData(title, description, status, dueDate)
    }

    /** Validate, with `now` the clock reading: checks the title, defaults an
        empty status to pending, then checks the status, the presence of the
        due date and that it is not before now, in that order. The status is
        the only field it changes, and only past the title check. */
    method Validate(now: Time) returns (err: Option<string>)
      modifies this
      ensures title == old(title) && description == old(description) && dueDate == old(dueDate)
      ensures status == (if old(title) != "" && old(status) == "" then StatusPending else old(status))
      ensures old(title) == "" ==> err == Some(TitleRequired)
      ensures old(title) != "" && !IsValidStatus(status) ==> err == Some(InvalidStatus)
      ensures old(title) != "" && IsValidStatus(status) && dueDate == ZeroTime ==> err == Some(DueDateRequired)
      ensures old(title) != "" && IsValidStatus(status) && dueDate != ZeroTime && Before(dueDate, now) ==>
        err == Some(DueDateInPast)
      ensures err == None <==>
        title != "" && IsValidStatus(status) && dueDate != ZeroTime && !Before(dueDate, now)
    {
      if title == "" {
        return Some(TitleRequired);
      }
      if status == "" {
        status := StatusPending;
      }
      if !IsValidStatus(status) {
        return Some(InvalidStatus);
      }
      if dueDate == ZeroTime {
        return Some(DueDateRequired);
      }
      if Before(dueDate, now) {
        return Some(DueDateInPast);
      }
      err := None;
    }
  }

  /** TaskUpdate.Validate: only the fields present are checked, so an empty
      update is valid; nothing is changed. */
  function ValidateUpdate(u: TaskUpdate, now: Time): (err: Option<string>)
    ensures u.status.Some? && !IsValidStatus(u.status.value) ==> err == Some(InvalidStatus)
    ensures (u.status.None? || IsValidStatus(u.status.value)) && u.dueDate.Some? && Before(u.dueDate.value, now) ==>
      err == Some(DueDateInPast)
    ensures err == None <==>
      (u.status.None? || IsValidStatus(u.status.value)) && (u.dueDate.None? || !Before(u.dueDate.value, now))
    ensures err.Some? ==> err == Some(InvalidStatus) || err == Some(DueDateInPast)
  {
    if u.status.Some? && !IsValidStatus(u.status.value) then Some(InvalidStatus)
    else if u.dueDate.Some? && Before(u.dueDate.value, now) then Some(DueDateInPast)
    else None
  }

  /** The title and description of an update are never checked. */
  lemma UpdateIgnoresText(u: TaskUpdate, title: Option<string>, description: Option<string>, now: Time)
    ensures ValidateUpdate(u.(title := title, description := description), now) == ValidateUpdate(u, now)
  {
  }

  lemma EmptyUpdateIsValid(now: Time)
    ensures ValidateUpdate(TaskUpdate(None, None, None, None), now) == None
  {
  }
}
