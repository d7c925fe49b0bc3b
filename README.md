# Task input DTOs — a verified model

This project models the two input data-transfer objects of a small task-management
CRUD API (a Laravel application): `CreateTaskDTO`, built from the validated body of
`POST /api/tasks`, and `UpdateTaskDTO`, built from the validated body of
`PUT /api/tasks/{id}`. Each DTO has two operations:

- `fromArray` reads a string-keyed input array into a typed record. It applies
  defaults, treats a missing key and a key holding `null` alike (PHP `??` and
  `isset`), and parses `status` strictly into the `TaskStatus` enumeration
  (`pending`, `in_progress`, `completed`).
- `toArray` turns the record back into the attribute array that is handed to the
  ORM. The create DTO always writes all four attributes. The update DTO writes
  only the non-null ones, which is what makes an update partial.

Modules:

- `Wrappers` (`wrappers.dfy`): `Option` for a PHP nullable value, `Result` for a
  value or a thrown error.
- `Enums` (`enums.dfy`): `TaskStatus`, its wire values and the strict parse
  `TaskStatus::from`. The enumeration's own file is not part of this model. Its
  backing values come from the feature tests, which expect `pending`,
  `in_progress` and `completed`.
- `TaskInput` (`task_input.dfy`): the input array as
  `map<string, Option<string>>`, so that an absent key and a key holding `null`
  can both be written. Also the four keys, `isset`, `??` and the error kinds.
- `CreateTask` (`create_task_dto.dfy`): pure functions, as in the source.
- `UpdateTask` (`update_task_dto.dfy`): `fromArray` is a pure function. `toArray`
  is a method that builds the array one guarded assignment at a time, as the
  source does. It is proved equal to `AttributesOf`, a declarative description of
  its result.

A missing title in `CreateTaskDTO::fromArray` is modelled as a failure
(`TitleMissing`), not as a precondition. The source reads `$data['title']` with no
default. An absent key reads as `null`, and the constructor then rejects `null`
for its non-nullable `string $title` with a `TypeError`. PHP evaluates the named
arguments in order, so an unknown status throws first (`InvalidStatus`), and the
title check happens only when the status parses. Laravel's error handler turns the
"undefined array key" warning into an exception. Under it, an absent title (as
opposed to a `null` one) fails before the status is read. Either way the call
fails. Request validation keeps both inputs from reaching the DTO.

## Model

| member | source | states |
|---|---|---|
| `Enums.Value` | app/DTOs/Task/CreateTaskDTO.php:39 | every status has one of the three wire values |
| `Enums.From` | app/DTOs/Task/CreateTaskDTO.php:24 | `TaskStatus::from` succeeds exactly on the three wire values, and the status it returns has the given string as its wire value |
| `Enums.FromValue` | tests/Feature/TaskApiTest.php:242-249 | parsing a status's wire value gives that status back |
| `Enums.ValueInjective` | tests/Feature/TaskApiTest.php:37-45 | distinct statuses have distinct wire values |
| `TaskInput.Lookup` | app/DTOs/Task/CreateTaskDTO.php:23 | `$data[k] ?? null` is non-null exactly when `isset($data[k])`, and is then the stored value |
| `CreateTask.FromArray` | app/DTOs/Task/CreateTaskDTO.php:19-27 | succeeds exactly when the title is set and any set status is a wire value; an unknown status fails with that string, otherwise a missing title fails; the title is copied verbatim; description and due date are null exactly when unset and otherwise equal the input; an unset status becomes `Pending`, a set one has the input string as its wire value |
| `CreateTask.ToArray` | app/DTOs/Task/CreateTaskDTO.php:34-42 | the keys are exactly `title`, `description`, `status` and `due_date`, even when description or due date is null; the title, description and due date are the DTO's own; the status is the DTO's status's wire value |
| `CreateTask.RoundTrip` | app/DTOs/Task/CreateTaskDTO.php:19-42 | `fromArray(toArray(dto)) == dto` for every DTO |
| `CreateTask.InputRoundTrip` | app/DTOs/Task/CreateTaskDTO.php:21-41 | for an input that parses, `toArray(fromArray(d))` keeps every set field as given (a valid status string comes back unchanged), writes null for an unset description or due date, and `"pending"` for an unset status |
| `CreateTask.NullIsAbsent` | app/DTOs/Task/CreateTaskDTO.php:22-25 | a key holding null gives the same result, DTO or error, as the absent key |
| `UpdateTask.FromArray` | app/DTOs/Task/UpdateTaskDTO.php:19-27 | fails exactly when a set status is not a wire value, with that string; otherwise each field is null exactly when its key is unset, and otherwise equals the input (the status through its wire value) |
| `UpdateTask.ToArray` | app/DTOs/Task/UpdateTaskDTO.php:34-55 | building the array from empty, one guarded assignment per field, yields `AttributesOf(dto)`: the known keys whose field is non-null, each mapped to that field's value |
| `UpdateTask.AttributesOfShape` | app/DTOs/Task/UpdateTaskDTO.php:38-52 | the keys are a subset of the four known keys; no value is null; each key is present if and only if its field is non-null, and then holds that field's value (the wire value for `status`) |
| `UpdateTask.EmptyUpdate` | app/DTOs/Task/UpdateTaskDTO.php:36-54 | an empty input parses to the all-null DTO, which serialises to the empty array |
| `UpdateTask.RoundTrip` | app/DTOs/Task/UpdateTaskDTO.php:19-55 | `fromArray(toArray(dto)) == dto` for every DTO |
| `UpdateTask.AttributesOfInjective` | app/DTOs/Task/UpdateTaskDTO.php:34-55 | two DTOs with the same attribute array are equal |
| `UpdateTask.InputRoundTrip` | app/DTOs/Task/UpdateTaskDTO.php:19-55 | for an input that parses, `toArray(fromArray(d))` is `d` restricted to the four known keys with non-null values |
| `UpdateTask.IgnoresUnknownAndNull` | app/DTOs/Task/UpdateTaskDTO.php:21-26 | unknown keys and null values in the input do not affect the result |
| `UpdateTask.NullIsAbsent` | app/DTOs/Task/UpdateTaskDTO.php:22-25 | a key holding null gives the same result, DTO or error, as the absent key |
| `UpdateTask.UpdateNeverClears` | app/DTOs/Task/UpdateTaskDTO.php:38-52 | merging the attribute array into a stored row may overwrite a column but never sets one to null; columns whose field is null keep their value; set fields overwrite theirs |
| `UpdateTask.PartialUpdateKeepsTitle` | tests/Feature/TaskApiTest.php:234-251 | an update whose only field is `status: completed` sets the status to `completed` and leaves the stored title as it was |
| `UpdateTask.SuccessiveUpdates` | app/DTOs/Task/UpdateTaskDTO.php:34-55 | two partial updates in a row act as one update that takes each field from the later one where it is set and from the earlier one otherwise (last write wins per column) |

## Left out

- `TaskService`, `TaskController` and `TaskResource`: each is a thin call into the
  ORM, the HTTP layer or the date library (query building, soft deletes,
  pagination, status codes, date formatting). This model covers none of them.
- Persisting an update (`$task->update(...)` followed by `fresh()`) appears only
  in `UpdateNeverClears`, `PartialUpdateKeepsTitle` and `SuccessiveUpdates`. There
  it is the map override `row + attributes`, which ignores which attributes the
  `Task` model accepts for mass assignment. The `Task` model is not part of this model.
- `TaskStatus::label()` and the rest of the enumeration file are not part of this
  model. Only the wire values and the strict parse are.
- Request validation (`StoreTaskRequest`, `UpdateTaskRequest`) is not part of
  this model. Non-empty titles and date syntax are not checked. Every input
  value is taken to be a string or `null`, which is what validation leaves.
- `CreateTask.FromArray`: the order of failure when the title is absent and the
  status is invalid follows plain PHP evaluation (`InvalidStatus` first). It does
  not follow Laravel's error handler, which would fail at the undefined key first.
