/** The board registry of project_board_base.py: a table of boards keyed by
    sequential id, and the lifecycle of one board (its status, end time and
    task list). Every operation is a chain of checks in a fixed order that
    ends either in an error response, with nothing changed, or in one update
    of the state. */
module ProjectBoard {
  import opened Messages
  import opened Ids

  const MaxNameLength := 64
  const MaxDescriptionLength := 128

  const StatusOpen := "OPEN"
  const StatusClosed := "CLOSED"
  const StatusInProgress := "IN_PROGRESS"
  const StatusComplete := "COMPLETE"

  /** A parsed create_board request; each field may be absent. */
  datatype BoardRequest = BoardRequest(
    name: Option<string>,
    description: Option<string>,
    teamId: Option<string>,
    creationTime: Option<string>)

  /** A stored board: the accepted request with its "id" added. */
  datatype Board = Board(
    id: string,
    name: string,
    description: Option<string>,
    teamId: string,
    creationTime: Option<string>)

  /** One entry of the list_boards answer. */
  datatype BoardSummary = BoardSummary(id: string, name: string)

  /** A parsed add_task request. Title and description are measured with
      len() by the source, so they are modelled as present. */
  datatype TaskRequest = TaskRequest(
    title: string,
    description: string,
    userId: Option<string>,
    creationTime: Option<string>)

  datatype Task = Task(
    id: string,
    title: string,
    description: string,
    userId: Option<string>,
    creationTime: Option<string>,
    status: string)

  /** A parsed update_task_status request. */
  datatype StatusRequest = StatusRequest(id: Option<string>, status: Option<string>)

  /** The success answer of close_board. */
  datatype Closure = Closure(status: string, endTime: string)

  /** Membership in {"OPEN", "IN_PROGRESS", "COMPLETE"}; an absent status is not a member. */
  predicate IsTaskStatus(s: Option<string>)
  {
    s == Some(StatusOpen) || s == Some(StatusInProgress) || s == Some(StatusComplete)
  }

  /** are_all_tasks_complete: a scan of the task list that stops at the
      first task not COMPLETE. */
  predicate AllTasksComplete(tasks: seq<Task>)
    ensures AllTasksComplete(tasks) <==> forall i :: 0 <= i < |tasks| ==> tasks[i].status == StatusComplete
  {
    tasks == [] || (tasks[0].status == StatusComplete && AllTasksComplete(tasks[1..]))
  }

  /** is_title_unique: a scan of the task list that stops at the first task
      carrying the title. */
  predicate IsTitleUnique(tasks: seq<Task>, title: string)
    ensures IsTitleUnique(tasks, title) <==> forall i :: 0 <= i < |tasks| ==> tasks[i].title != title
  {
    tasks == [] || (tasks[0].title != title && IsTitleUnique(tasks[1..], title))
  }

  /** The position of the first task whose id is the requested one. */
  function FindTask(tasks: seq<Task>, id: Option<string>): (r: Option<nat>)
    ensures r.Some? ==> r.value < |tasks| && Some(tasks[r.value].id) == id
    ensures r.Some? ==> forall j :: 0 <= j < r.value ==> Some(tasks[j].id) != id
    ensures r.None? <==> forall j :: 0 <= j < |tasks| ==> Some(tasks[j].id) != id
  {
    if tasks == [] then None
    else if Some(tasks[0].id) == id then Some(0)
    else match FindTask(tasks[1..], id)
      case None => None
      case Some(k) => Some(k + 1)
  }

  /** The board table holds the boards "1" .. "n", each stored under its own id. */
  predicate BoardsWellFormed(boards: map<string, Board>)
  {
    && boards.Keys == IdSet(|boards|)
    && forall k :: k in boards ==> boards[k].id == k
  }

  /** The k-th task added carries id str(k), every status is one of the three
      task statuses, and no two tasks share a title. */
  predicate TasksWellFormed(tasks: seq<Task>)
  {
    && (forall i :: 0 <= i < |tasks| ==> tasks[i].id == DecimalString(i + 1))
    && (forall i :: 0 <= i < |tasks| ==> IsTaskStatus(Some(tasks[i].status)))
    && (forall i, j :: 0 <= i < j < |tasks| ==> tasks[i].title != tasks[j].title)
  }

  /** Storing a board under the next sequential id adds a fresh key and keeps the table well formed. */
  lemma {:induction false} InsertBoardWellFormed(boards: map<string, Board>, b: Board)
    requires BoardsWellFormed(boards)
    requires b.id == DecimalString(|boards| + 1)
    ensures b.id !in boards
    ensures |boards[b.id := b]| == |boards| + 1
    ensures BoardsWellFormed(boards[b.id := b])
  {
    IdSetMembership(|boards|, |boards| + 1);
    assert boards[b.id := b].Keys == boards.Keys + {b.id};
  }

  /** The task issued k-th is the one a lookup of id str(k) finds; any other
      decimal id is not found. */
  lemma {:induction false} FindIssuedTask(tasks: seq<Task>, k: nat)
    requires TasksWellFormed(tasks)
    ensures FindTask(tasks, Some(DecimalString(k))) == if 1 <= k <= |tasks| then Some(k - 1) else None
  {
    var id := DecimalString(k);
    assert forall j :: 0 <= j < |tasks| ==> tasks[j].id == DecimalString(j + 1);
    forall j | 0 <= j < |tasks| && j != k - 1
      ensures tasks[j].id != id
    {
      if tasks[j].id == id {
        DecimalStringInjective(j + 1, k);
      }
    }
    var r := FindTask(tasks, Some(id));
    if 1 <= k <= |tasks| {
      assert tasks[k - 1].id == id;
    }
  }


  /** Appending a task with the next sequential id, a valid status and a
      title not yet on the board keeps the task list well formed. */
  lemma {:induction false} AppendTaskWellFormed(tasks: seq<Task>, t: Task)
    requires TasksWellFormed(tasks)
    requires t.id == DecimalString(|tasks| + 1)
    requires IsTaskStatus(Some(t.status))
    requires IsTitleUnique(tasks, t.title)
    ensures TasksWellFormed(tasks + [t])
  {
  }

  /** Giving one task a valid status keeps the task list well formed. */
  lemma {:induction false} SetStatusWellFormed(tasks: seq<Task>, i: nat, status: string)
    requires TasksWellFormed(tasks)
    requires i < |tasks|
    requires IsTaskStatus(Some(status))
    ensures TasksWellFormed(tasks[i := tasks[i].(status := status)])
  {
  }

  class ProjectBoardBase {
    /** Every board created so far, keyed by its id. */
    var boards: map<string, Board>
    /** The one board whose lifecycle the object tracks, and its team. */
    var boardId: string
    var teamId: string
    var status: string
    var endTime: Option<string>
    var tasks: seq<Task>

    ghost predicate Valid()
      reads this
    {
      && BoardsWellFormed(boards)
      && TasksWellFormed(tasks)
      && (status == StatusOpen || status == StatusClosed)
      && (endTime.Some? <==> status == StatusClosed)
    }

    constructor (boardId: string, teamId: string)
      ensures Valid()
      ensures this.boardId == boardId && this.teamId == teamId
      ensures boards == map[] && status == StatusOpen && endTime == None && tasks == []
    {
      this.boardId := boardId;
      this.teamId := teamId;
      boards := map[];
      status := StatusOpen;
      endTime := None;
      tasks := [];
    }

    /** create_board: both "name" and "team_id" must be present, the name at
        most 64 characters and a description, when given, at most 128. No
        check against existing board names is made. */
    method CreateBoard(req: BoardRequest) returns (r: Response<string>)
      requires Valid()
      modifies this`boards
      ensures Valid()
      ensures r.Ok? <==>
        && req.name.Some? && req.teamId.Some?
        && |req.name.value| <= MaxNameLength
        && (req.description.None? || |req.description.value| <= MaxDescriptionLength)
      ensures req.name.None? || req.teamId.None? ==> r == Err("Missing required fields")
      ensures req.name.Some? && req.teamId.Some? && |req.name.value| > MaxNameLength ==>
        r == Err("Board name must be 64 characters or less")
      ensures (req.name.Some? && req.teamId.Some? && |req.name.value| <= MaxNameLength &&
               req.description.Some? && |req.description.value| > MaxDescriptionLength) ==>
        r == Err("Description must be 128 characters or less")
      ensures r.Err? ==> boards == old(boards)
      ensures r.Ok? ==> r.value == DecimalString(|old(boards)| + 1) && r.value !in old(boards)
      ensures r.Ok? ==> boards == old(boards)[r.value := Board(r.value, req.name.value, req.description, req.teamId.value, req.creationTime)]
      ensures r.Ok? ==> |boards| == |old(boards)| + 1
    {
      if req.name.None? || req.teamId.None? {
        return Err("Missing required fields");
      }
      if |req.name.value| > MaxNameLength {
        return Err("Board name must be 64 characters or less");
      }
      if req.description.Some? && |req.description.value| > MaxDescriptionLength {
        return Err("Description must be 128 characters or less");
      }
      var id := DecimalString(|boards| + 1);
      var board := Board(id, req.name.value, req.description, req.teamId.value, req.creationTime);
      InsertBoardWellFormed(boards, board);
      boards := boards[id := board];
      r := Ok(id);
    }

    /** close_board: the request must name this board and every task must be
        COMPLETE; then the board is CLOSED at time now. */
    method CloseBoard(req: IdRequest, now: string) returns (r: Response<Closure>)
      requires Valid()
      modifies this`status, this`endTime
      ensures Valid()
      ensures r.Ok? <==> req.id == Some(boardId) && AllTasksComplete(tasks)
      ensures req.id != Some(boardId) ==> r == Err("Board id doesnot match")
      ensures req.id == Some(boardId) && !AllTasksComplete(tasks) ==> r == Err("Not all tasks are complete")
      ensures r.Err? ==> status == old(status) && endTime == old(endTime)
      ensures r.Ok? ==> status == StatusClosed && endTime == Some(now)
      ensures r.Ok? ==> r.value == Closure("Board closed succesfully", now)
    {
      if req.id != Some(boardId) {
        return Err("Board id doesnot match");
      }
      if !AllTasksComplete(tasks) {
        return Err("Not all tasks are complete");
      }
      status := StatusClosed;
      endTime := Some(now);
      r := Ok(Closure("Board closed succesfully", now));
    }

    /** add_task: only an OPEN board takes tasks; then the title must be new
        on the board, at most 64 characters, and the description at most 128.
        The new task is appended with the next sequential id and status OPEN. */
    method AddTask(req: TaskRequest) returns (r: Response<string>)
      requires Valid()
      modifies this`tasks
      ensures Valid()
      ensures r.Ok? <==>
        && status == StatusOpen
        && IsTitleUnique(old(tasks), req.title)
        && |req.title| <= MaxNameLength
        && |req.description| <= MaxDescriptionLength
      ensures status != StatusOpen ==> r == Err("Cannot add task to a closed board")
      ensures status == StatusOpen && !IsTitleUnique(old(tasks), req.title) ==>
        r == Err("Task title must be unique")
      ensures status == StatusOpen && IsTitleUnique(old(tasks), req.title) && |req.title| > MaxNameLength ==>
        r == Err("Title can be maximum of 64 characters")
      ensures (status == StatusOpen && IsTitleUnique(old(tasks), req.title) && |req.title| <= MaxNameLength &&
               |req.description| > MaxDescriptionLength) ==>
        r == Err("Description can be maximum of 128 characters")
      ensures r.Err? ==> tasks == old(tasks)
      ensures r.Ok? ==> r.value == DecimalString(|old(tasks)| + 1)
      ensures r.Ok? ==> tasks == old(tasks) + [Task(r.value, req.title, req.description, req.userId, req.creationTime, StatusOpen)]
    {
      if status != StatusOpen {
        return Err("Cannot add task to a closed board");
      }
      if !IsTitleUnique(tasks, req.title) {
        return Err("Task title must be unique");
      }
      if |req.title| > MaxNameLength {
        return Err("Title can be maximum of 64 characters");
      }
      if |req.description| > MaxDescriptionLength {
        return Err("Description can be maximum of 128 characters");
      }
      var id := DecimalString(|tasks| + 1);
      var task := Task(id, req.title, req.description, req.userId, req.creationTime, StatusOpen);
      AppendTaskWellFormed(tasks, task);
      tasks := tasks + [task];
      r := Ok(id);
    }

    /** update_task_status: the status must be one of the three task statuses
        (checked first), then the task must exist; only its status changes. */
    method UpdateTaskStatus(req: StatusRequest) returns (r: Response<string>)
      requires Valid()
      modifies this`tasks
      ensures Valid()
      ensures r.Ok? <==> IsTaskStatus(req.status) && FindTask(old(tasks), req.id).Some?
      ensures !IsTaskStatus(req.status) ==> r == Err("Invalid status")
      ensures IsTaskStatus(req.status) && FindTask(old(tasks), req.id).None? ==> r == Err("Task ID not found")
      ensures r.Err? ==> tasks == old(tasks)
      ensures r.Ok? ==> r.value == "Task status updated successfully"
      ensures r.Ok? ==>
        var i := FindTask(old(tasks), req.id).value;
        && |tasks| == |old(tasks)|
        && tasks[i] == old(tasks)[i].(status := req.status.value)
        && forall j :: 0 <= j < |tasks| && j != i ==> tasks[j] == old(tasks)[j]
    {
      if !IsTaskStatus(req.status) {
        return Err("Invalid status");
      }
      var found := FindTask(tasks, req.id);
      if found.None? {
        return Err("Task ID not found");
      }
      var i := found.value;
      SetStatusWellFormed(tasks, i, req.status.value);
      tasks := tasks[i := tasks[i].(status := req.status.value)];
      r := Ok("Task status updated successfully");
    }

    /** list_boards: the request must name this object's team; the answer has
        one {id, name} per stored board, in the order the boards were
        created, with no filtering. */
    method ListBoards(req: IdRequest) returns (r: Response<seq<BoardSummary>>)
      requires Valid()
      ensures r.Ok? <==> req.id == Some(teamId)
      ensures r.Err? ==> r.msg == "Team ID does not match"
      ensures r.Ok? ==> |r.value| == |boards|
      ensures r.Ok? ==> forall i :: 0 <= i < |r.value| ==>
        && r.value[i].id == DecimalString(i + 1)
        && r.value[i].id in boards
        && r.value[i].name == boards[r.value[i].id].name
      ensures r.Ok? ==> forall k :: k in boards ==> exists i :: 0 <= i < |r.value| && r.value[i].id == k
    {
      if req.id != Some(teamId) {
        return Err("Team ID does not match");
      }
      var list: seq<BoardSummary> := [];
      var n := |boards|;
      while |list| < n
        invariant |list| <= n
        invariant forall i :: 0 <= i < |list| ==>
          && list[i].id == DecimalString(i + 1)
          && list[i].id in boards
          && list[i].name == boards[list[i].id].name
      {
        var key := DecimalString(|list| + 1);
        IdSetMembership(n, |list| + 1);
        var board := boards[key];
        list := list + [BoardSummary(board.id, board.name)];
      }
      forall k | k in boards
        ensures exists i :: 0 <= i < |list| && list[i].id == k
      {
        IdSetElements(n, k);
        var j :| 1 <= j <= n && k == DecimalString(j);
        assert list[j - 1].id == k;
      }
      r := Ok(list);
    }
  }

  /** create_board checks no name uniqueness: the same name under the same
      team is accepted twice, under two sequential ids. */
  method SameNameBoards()
  {
    var pb := new ProjectBoardBase("1", "T1");
    var b1 := pb.CreateBoard(BoardRequest(Some("Sprint1"), None, Some("T1"), Some("2024-01-01 00:00:00")));
    assert b1 == Ok("1");
    var b2 := pb.CreateBoard(BoardRequest(Some("Sprint1"), Some("again"), Some("T1"), None));
    assert b2 == Ok("2");
  }

  /** A board cannot be closed while a task is unfinished, and can be once
      that task is COMPLETE. */
  method ClosingWaitsForTasks()
  {
    var pb := new ProjectBoardBase("1", "T1");
    var t := pb.AddTask(TaskRequest("Fix bug", "...", Some("U1"), None));
    assert t == Ok("1");
    assert pb.tasks[0].status[0] != StatusComplete[0];
    var closing := pb.CloseBoard(IdRequest(Some("1")), "2024-01-02 00:00:00");
    assert closing == Err("Not all tasks are complete");
    FindIssuedTask(pb.tasks, 1);
    var u := pb.UpdateTaskStatus(StatusRequest(Some("1"), Some(StatusComplete)));
    assert u.Ok?;
    var closed := pb.CloseBoard(IdRequest(Some("1")), "2024-01-02 00:00:00");
    assert closed == Ok(Closure("Board closed succesfully", "2024-01-02 00:00:00"));
  }

  /** A board without tasks can be closed at once, and a closed board refuses
      a new task before looking at its title. */
  method ClosedBoardRefusesTasks()
  {
    var pb := new ProjectBoardBase("1", "T1");
    var closed := pb.CloseBoard(IdRequest(Some("1")), "2024-01-02 00:00:00");
    assert closed.Ok?;
    var late := pb.AddTask(TaskRequest("Another", "", None, None));
    assert late == Err("Cannot add task to a closed board");
  }
}
