/** The task service (pkg/service): guards in front of the task repository.

    The repository is an oracle: a value holding, for each of its
    operations, the answer it gives. Each service operation returns its
    answer together with the repository call it made, if any. */
module TaskService {
  import opened Wrappers
  import opened Tasks

  type Error = string

  const IdRequired := "id is required"

  datatype TaskFilter = TaskFilter(status: TaskStatus, page: int, limit: int)

  /** The answers of the repository. */
  datatype Repository = Repository(
    create: TaskData -> Result<Task, Error>,
    getById: string -> Result<Task, Error>,
    update: (string, TaskUpdate) -> Result<Task, Error>,
    delete: string -> Option<Error>,
    list: TaskFilter -> Result<(seq<Task>, int), Error>)

  /** A call made on the repository. */
  datatype RepoCall =
    | Create(data: TaskData)
    | GetById(id: string)
    | Update(id: string, update: TaskUpdate)
    | Delete(id: string)
    | List(filter: TaskFilter)

  /** CreateTask: validates the request (which may default its status) and
      hands it to the repository only when it is valid. */
  method CreateTask(repo: Repository, task: TaskCreate, now: Time) returns (r: Result<Task, Error>, call: Option<RepoCall>)
    modifies task
    ensures task.title == old(task.title) && task.description == old(task.description) && task.dueDate == old(task.dueDate)
    ensures task.status == (if old(task.title) != "" && old(task.status) == "" then StatusPending else old(task.status))
    ensures old(task.title) == "" ==> r == Failure(TitleRequired)
    ensures old(task.title) != "" && !IsValidStatus(task.status) ==> r == Failure(InvalidStatus)
    ensures old(task.title) != "" && IsValidStatus(task.status) && task.dueDate == ZeroTime ==> r == Failure(DueDateRequired)
    ensures old(task.title) != "" && IsValidStatus(task.status) && task.dueDate != ZeroTime && Before(task.dueDate, now) ==>
      r == Failure(DueDateInPast)
    ensures call.None? <==>
      !(task.title != "" && IsValidStatus(task.status) && task.dueDate != ZeroTime && !Before(task.dueDate, now))
    ensures call.None? ==> r.Failure?
    ensures call.Some? ==> call == Some(Create(task.Data())) && r == repo.create(task.Data())
  {
    var err := task.Validate(now);
    if err.Some? {
      return Failure(err.value), None;
    }
    var data := task.Data();
    r, call := repo.create(data), Some(Create(data));
  }

  /** GetTask: an empty id is refused before the repository is asked. */
  function GetTask(repo: Repository, id: string): (r: (Result<Task, Error>, Option<RepoCall>))
    ensures r.1.None? <==> id == ""
    ensures id == "" ==> r.0 == Failure(IdRequired)
    ensures id != "" ==> r.0 == repo.getById(id) && r.1 == Some(GetById(id))
  {
    if id == "" then (Failure(IdRequired), None)
    else (repo.getById(id), Some(GetById(id)))
  }

  /** UpdateTask: the id is checked first, then the update, and only then
      is the repository asked. */
  function UpdateTask(repo: Repository, id: string, u: TaskUpdate, now: Time): (r: (Result<Task, Error>, Option<RepoCall>))
    ensures r.1.None? <==> id == "" || ValidateUpdate(u, now).Some?
    ensures id == "" ==> r.0 == Failure(IdRequired)
    ensures id != "" && ValidateUpdate(u, now).Some? ==> r.0 == Failure(ValidateUpdate(u, now).value)
    ensures r.1.Some? ==> r.0 == repo.update(id, u) && r.1 == Some(Update(id, u))
  {
    if id == "" then (Failure(IdRequired), None)
    else
      var err := ValidateUpdate(u, now);
      if err.Some? then (Failure(err.value), None)
      else (repo.update(id, u), Some(Update(id, u)))
  }

  /** DeleteTask: an empty id is refused before the repository is asked. */
  function DeleteTask(repo: Repository, id: string): (r: (Option<Error>, Option<RepoCall>))
    ensures r.1.None? <==> id == ""
    ensures id == "" ==> r.0 == Some(IdRequired)
    ensures id != "" ==> r.0 == repo.delete(id) && r.1 == Some(Delete(id))
  {
    if id == "" then (Some(IdRequired), None)
    else (repo.delete(id), Some(Delete(id)))
  }

  /** ListTasks: a page below 1 becomes 1 and a limit below 1 becomes 10;
      everything else reaches the repository unchanged. */
  function ListTasks(repo: Repository, status: TaskStatus, page: int, limit: int): (r: (Result<(seq<Task>, int), Error>, RepoCall))
    ensures r.1.List? && r.1.filter.status == status
    ensures r.1.filter.page >= 1 && r.1.filter.limit >= 1
    ensures r.1.filter.page == (if page >= 1 then page else 1)
    ensures r.1.filter.limit == (if limit >= 1 then limit else 10)
    ensures r.0 == repo.list(r.1.filter)
  {
    var p := if page < 1 then 1 else page;
    var l := if limit < 1 then 10 else limit;
    var filter := TaskFilter(status, p, l);
    (repo.list(filter), List(filter))
  }

  /** Listing twice with the clamped values asks the repository the same
      question: the clamps are idempotent. */
  lemma ListClampIdempotent(repo: Repository, status: TaskStatus, page: int, limit: int)
    ensures var f := ListTasks(repo, status, page, limit).1.filter;
      ListTasks(repo, status, f.page, f.limit).1 == ListTasks(repo, status, page, limit).1
  {
  }
}
