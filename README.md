# Project boards and users: a verified model

This project models the two in-memory registries of a small Python
project-management back end:

- **The board registry** (`project_board_base.py`, class `ProjectBoardBase`).
  It keeps a table of boards keyed by sequential id ("1", "2", …) and the
  lifecycle of one board: its status (OPEN, then CLOSED), its end time and
  its ordered task list. Its operations are `create_board`, `close_board`,
  `add_task`, `update_task_status` and `list_boards`.
- **The user registry** (`user_base.py`, class `UserManager`). It keeps users
  keyed by user name, each with a sequential id, a display name, a creation
  time and an empty description. Its operations are `create_user` and
  `describe_user`.

Each operation first runs a chain of checks in a fixed order. It then either
answers `Err(msg)`, with the source's exact message and nothing changed, or
makes one update of the table and answers `Ok(...)`. Requests are parsed
records whose fields may be absent (`Option`). Responses are
`Response<T> = Ok(value) | Err(msg)`.

Files:

- `messages.dfy` (module `Messages`): `Option`, `Response` and `IdRequest`, the request that carries only an `id`.
- `ids.dfy` (module `Ids`): `DecimalString(n)`, which is Python's `str(n)`, and `DecimalValue`, which reads it back. It also holds `IdSet(n)`, the set {"1", …, "n"} of ids that n sequential allocations issue. The facts about them are the round trip, injectivity and membership.
- `project_board.dfy` (module `ProjectBoard`): the class `ProjectBoardBase` with its object invariant `Valid()`, the predicates over tasks, the lemmas that keep the invariant, and three client methods. `SameNameBoards`, `ClosingWaitsForTasks` and `ClosedBoardRefusesTasks` show what a caller can prove from the contracts alone.
- `user_registry.dfy` (module `UserRegistry`): the class `UserManager`, its invariant, and two client methods, `SuccessiveRegistrations` and `DescribeByName`.

Invariants the model proves are kept by every operation:

- The board table holds exactly the keys "1" … "n", where n is its size. Each board is stored under its own id. So `create_board`'s id `str(len(boards) + 1)` is always a fresh key.
- The k-th task added has id `str(k)`. Every task status is one of OPEN, IN_PROGRESS and COMPLETE. No two tasks on the board share a title.
- The board status is OPEN or CLOSED, and an end time is recorded exactly when it is CLOSED.
- Every user is stored under its own name. Each user id is one of "1" … "n", and no two users share an id.

Where the code and its design documentation disagree, the model follows the
code:

- `create_board` makes no check of board-name uniqueness, although its docstring asks for one (`project_board_base.py:23`). The model accepts a repeated name, and `SameNameBoards` proves it.
- `list_boards` does not filter by status. It answers one entry per stored board.
- `close_board` and `list_boards` compare the request with the object's own `board_id` and `team_id`. They do not look the board or team up in the table.
- `describe_user` looks users up by NAME, the key of `users` (`user_base.py:52, 73`). It does not use the id that `create_user` returns. Describing by the returned id "1" answers "User not found", and `DescribeByName` proves it.

Initial state. The source never initialises its state:

- `UserManager._init_` (`user_base.py:27`) is a misspelt constructor, so `users` is never set.
- `ProjectBoardBase` has no constructor at all. So `boards` (read at `project_board_base.py:40`), `board_id`, `team_id`, `status` and `tasks` never get an initial value. Of these, only `status` is ever assigned, at `project_board_base.py:86`, when a board closes.

The model's constructors supply that state. A user registry starts with an
empty table. A board registry starts with an empty board table, the given
board and team ids, status OPEN, no end time and no tasks.

## Model

| member | source | states |
|---|---|---|
| `Ids.DecimalString` | project_board_base.py:40 | The id text is non-empty, made of decimal digits, one character exactly for 0..9, and has no leading zero except for 0 itself (Python's str of a non-negative int). |
| `Ids.DecimalValueOfString` | user_base.py:49 | Reading an issued id back as a decimal number gives exactly the count it was made from, so the id spells len(collection) + 1. |
| `Ids.DecimalStringInjective` | user_base.py:49 | Two sequential ids are equal only when the counts they were made from are equal, so ids issued at different sizes differ. |
| `Ids.IdSetMembership` | user_base.py:49-52 | str(k) is among the ids issued by n allocations exactly when 1 <= k <= n; in particular the next id str(n + 1) is not yet issued. |
| `Ids.IdSetElements` | project_board_base.py:40-42 | Every issued id is str(k) for some 1 <= k <= n. |
| `ProjectBoard.AllTasksComplete` | project_board_base.py:84 | are_all_tasks_complete, defined as a scan that stops at the first unfinished task, holds exactly when every task's status is COMPLETE; an empty list qualifies. |
| `ProjectBoard.IsTitleUnique` | project_board_base.py:128 | is_title_unique, defined as a scan that stops at the first task carrying the title, holds exactly when no task on the board has that title. |
| `ProjectBoard.FindTask` | project_board_base.py:162-164 | find_task_by_id answers the position of the FIRST task with the requested id, and answers nothing exactly when no task has that id (an absent id matches no task). |
| `ProjectBoard.InsertBoardWellFormed` | project_board_base.py:39-42 | Storing a board under str(len(boards) + 1) adds a key not yet present, grows the table by one and keeps the keys exactly "1".."n". |
| `ProjectBoard.FindIssuedTask` | project_board_base.py:135-136 | The task added k-th is the one a lookup of id str(k) finds; a decimal id outside 1..len(tasks) is not found. |
| `ProjectBoard.AppendTaskWellFormed` | project_board_base.py:128-135 | Appending a task whose title is unique on the board, with the next id and a valid status, keeps titles pairwise distinct, ids sequential and statuses valid. |
| `ProjectBoard.SetStatusWellFormed` | project_board_base.py:158-166 | Setting one task's status to one of the three task statuses keeps the task list well formed. |
| `ProjectBoard.ProjectBoardBase.constructor` | project_board_base.py:5-8 | A new registry has no boards, no tasks, status OPEN, no end time, and the given board and team ids. |
| `ProjectBoard.ProjectBoardBase.CreateBoard` | project_board_base.py:28-44 | Accepted iff name and team_id are present, the name is at most 64 characters and a present description at most 128. The checks run in that order, each with its own message, and a rejection leaves boards unchanged. On success the id is str(len(boards) + 1), a key not yet present, and boards gains exactly that entry: the request's fields plus the id. No name-uniqueness rejection exists. |
| `ProjectBoard.ProjectBoardBase.CloseBoard` | project_board_base.py:77-88 | Succeeds iff the request id is this board's id and every task is COMPLETE (a board with no tasks qualifies). A mismatch gives "Board id doesnot match" before the task check. A rejection leaves status and end_time unchanged. Success sets status CLOSED and end_time to the given time and answers both. |
| `ProjectBoard.ProjectBoardBase.AddTask` | project_board_base.py:118-136 | A board that is not OPEN refuses before any other check. Then a repeated title, a title over 64 characters and a description over 128 are refused in that order. A refusal leaves tasks unchanged. Success appends exactly one task with the request's fields, id str(len(tasks) + 1) and status OPEN. |
| `ProjectBoard.ProjectBoardBase.UpdateTaskStatus` | project_board_base.py:153-167 | A status outside {OPEN, IN_PROGRESS, COMPLETE} (or absent) is refused before the lookup. An unknown id gives "Task ID not found". A refusal changes nothing. Success changes only the found task's status, and every other task and field stays as it was. |
| `ProjectBoard.ProjectBoardBase.ListBoards` | project_board_base.py:190-201 | A team id other than this object's gives "Team ID does not match". Otherwise the answer has one {id, name} per stored board, as many as there are boards. It follows creation order, so the i-th entry is board str(i + 1), and every board appears. There is no status filter. |
| `UserRegistry.InsertUserWellFormed` | user_base.py:44-58 | Storing a user under a name not yet present with id str(len(users) + 1) grows the table by one, gives an id no existing user has, and keeps every id issued and pairwise distinct. |
| `UserRegistry.UserManager.constructor` | user_base.py:27-28 | A new registry has no users. |
| `UserRegistry.UserManager.CreateUser` | user_base.py:30-61 | Accepted iff the name is present, non-empty and at most 64 characters, the display name is at most 64, and the name is not yet a key. The checks run in that order with their own messages, and a rejection leaves users unchanged. On success the id is str(len(users) + 1), distinct from every existing id. Exactly one entry is added under the name, holding the id, name, display name, the given creation time and description "". Describing that name then answers the name, "" and that creation time. |
| `UserRegistry.UserManager.DescribeUser` | user_base.py:66-85 | Answers a user's record exactly when the requested key is present. The record holds the stored name, description and creation time, and its name equals the key, because the key is the user name. Otherwise it answers "User not found". It reads the table and never changes it. |

## Left out

- JSON parsing and serialisation, including every `JSONDecodeError` branch. Requests are parsed records and responses are a datatype. The malformed `describe_user` error branch, which returns a dict instead of a string (`user_base.py:85`), is part of this.
- The clock. The time of a close and of a user creation is a `now: string` parameter. As written, the clock read cannot succeed. Both files bind the module (`import datetime`, `project_board_base.py:1`, `user_base.py:1`), so `datetime.now()` raises an attribute error. The `from datetime import datetime` at `user_base.py:24` is local to `UserBase.create_user` and does not reach `UserManager`.
- `ProjectBoard.ProjectBoardBase.CloseBoard` models the close as if the clock read worked. As written, `close_board` sets `status` to CLOSED (`project_board_base.py:86`) and then fails on the clock read at line 87. The `except Exception` at line 92 then answers an error while the status stays CLOSED and `end_time` is unchanged. The model's contract instead says an error leaves the status unchanged, and a close that passes both checks succeeds with `end_time` set.
- `UserRegistry.UserManager.CreateUser` models the creation as if the clock read worked. As written, `create_user` fails on the clock read at `user_base.py:56`, while it builds the new record and before storing it. Only `JSONDecodeError` is caught there, so the exception escapes the method and `users` is unchanged. The model instead stores the user and answers its id.
- `ProjectBoard.ProjectBoardBase.CreateBoard` treats a field sent as JSON null like a missing field, because a request field here is either absent or a value. The source tests key presence (`'name' not in details`, `project_board_base.py:30`; `'description' in details`, line 36), so a null field counts as present. Two cases differ. A null `team_id` passes every check, and the source stores the board with `team_id` None, where the model answers "Missing required fields". A null `name` or `description` makes `len(None)` raise an exception that escapes, where the model answers "Missing required fields" for the name and accepts the request for the description.
- `export_board`. It writes a file with a time-stamped name.
- The catch-all `except Exception` branches, and the crashes they would catch or that would escape. Examples are `len(None)` on a missing title, description or display name, and attribute errors on state that was never initialised. Title, description and display name are modelled as present.
- `list_boards` as written iterates the dictionary's keys and reads `.board_id` and `.name` from them, which would raise an attribute error. The model lists the stored boards' ids and names in insertion order, which under the invariant is the order "1", "2", ….
- `add_task` never builds the appended `new_task` or the returned `task_id`. The model appends a task holding the request's fields, the id str(len(tasks) + 1) and status OPEN.
- The bodies of `find_task_by_id`, `is_title_unique` and `are_all_tasks_complete` are not part of this model. They are modelled as a first-match lookup and as scans for "no task has this title" and "every task is COMPLETE".
- The methods after `project_board_base.py:49` are indented under the module-level `if __name__ == "_main_":` block, so they are not methods of the class at run time. The model treats them as the class's methods, as intended.
- `describe_user` is defined twice. The later stub (`user_base.py:101`) shadows the working body at lines 66-85. The model gives the working body.
- The stubs with no behaviour, which are `pass` bodies: `UserBase.create_user`, `list_users`, the second `describe_user`, `update_user` and `get_user_teams`. The example-usage block at `project_board_base.py:48-57` is left out too.
- Python's `len` counts code points. Strings here are sequences of `char`, and no encoding is modelled.
