/** The path lookups of `backend/app/api/deps.py`: a board by id, and a task
    by id that is only reachable through its own board. Tables are keyed by
    primary key, as `session.get` reads them. */
module Deps {
  import opened Common
  import opened Models

  /** `get_board_or_404`. */
  function GetBoardOr404(boards: map<Id, Board>, boardId: Id): (r: Result<Board, HttpError>)
    ensures r.Err? <==> boardId !in boards
    ensures r.Err? ==> r.error == HttpError(NotFound, NoDetail)
    ensures r.Ok? ==> r.value == boards[boardId]
  {
    if boardId !in boards then Err(HttpError(NotFound, NoDetail)) else Ok(boards[boardId])
  }

  /** `get_task_or_404`: a missing task and a task of another board give
      the same 404. */
  function GetTaskOr404(tasks: map<Id, Task>, taskId: Id, board: Board): (r: Result<Task, HttpError>)
    ensures r.Err? <==> taskId !in tasks || tasks[taskId].boardId != board.id
    ensures r.Err? ==> r.error == HttpError(NotFound, NoDetail)
    ensures r.Ok? ==> r.value == tasks[taskId] && r.value.boardId == board.id
  {
    if taskId !in tasks || tasks[taskId].boardId != board.id then Err(HttpError(NotFound, NoDetail))
    else Ok(tasks[taskId])
  }

  /** The dependency chain of a `/boards/{board_id}/tasks/{task_id}` route:
      the board first, then the task through it. */
  function BoardTask(boards: map<Id, Board>, tasks: map<Id, Task>, boardId: Id, taskId: Id): (r: Result<Task, HttpError>)
    ensures r.Err? ==> r.error == HttpError(NotFound, NoDetail)
    ensures r.Ok? ==> boardId in boards && taskId in tasks && r.value == tasks[taskId] && r.value.boardId == boards[boardId].id
  {
    match GetBoardOr404(boards, boardId)
    case Err(e) => Err(e)
    case Ok(board) => GetTaskOr404(tasks, taskId, board)
  }

  /** A task is reachable through at most one board (the one whose id it
      carries), and the path fails with the same 404 whichever lookup failed. */
  lemma TaskReachableOnlyThroughItsBoard(boards: map<Id, Board>, tasks: map<Id, Task>, boardId: Id, taskId: Id)
    requires forall b :: b in boards ==> boards[b].id == b
    ensures BoardTask(boards, tasks, boardId, taskId).Ok? <==>
      boardId in boards && taskId in tasks && tasks[taskId].boardId == boardId
    ensures BoardTask(boards, tasks, boardId, taskId).Ok? ==> BoardTask(boards, tasks, boardId, taskId).value == tasks[taskId]
    ensures BoardTask(boards, tasks, boardId, taskId).Err? ==>
      BoardTask(boards, tasks, boardId, taskId).error == HttpError(NotFound, NoDetail)
  {
  }
}
