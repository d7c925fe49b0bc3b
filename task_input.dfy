/**
 * The string-keyed input array handed to the DTOs' `fromArray` and the
 * attribute arrays their `toArray` produce. A key maps to `None` when it is
 * present with the PHP value `null`; a key that is not in the map is absent.
 */
module TaskInput {
  import opened Wrappers

  type InputMap = map<string, Option<string>>

  /** An attribute array as handed to the model layer; `None` is a null column value. */
  type Attributes = map<string, Option<string>>

  const TitleKey: string := "title"
  const DescriptionKey: string := "description"
  const StatusKey: string := "status"
  const DueDateKey: string := "due_date"

  /** The four keys the DTOs read and write. */
  const Fields: set<string> := {TitleKey, DescriptionKey, StatusKey, DueDateKey}

  /** Why `fromArray` fails instead of producing a DTO. */
  datatype DtoError =
    | InvalidStatus(value: string)  // ValueError from TaskStatus::from
    | TitleMissing                  // TypeError: null passed for the non-nullable title

  /** `isset($data[$key])`: the key is present and its value is not null. */
  predicate IsSet(d: InputMap, key: string) {
    key in d && d[key].Some?
  }

  /** `$data[$key] ?? null`: the value when set, otherwise null. */
  function Lookup(d: InputMap, key: string): (v: Option<string>)
    ensures v.Some? <==> IsSet(d, key)
    ensures IsSet(d, key) ==> v == d[key]
  {
    if key in d then d[key] else None
  }
}
