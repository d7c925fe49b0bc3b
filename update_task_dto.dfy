/**
 * `UpdateTaskDTO`: the validated input of `PUT /tasks/{id}`. Every field is
 * optional, and `toArray` emits only the fields that are not null, which is
 * what makes an update partial.
 */
module UpdateTask {
  import opened Wrappers
  import opened Enums
  import opened TaskInput

  datatype UpdateTaskDTO = UpdateTaskDTO(
    title: Option<string>,
    description: Option<string>,
    status: Option<TaskStatus>,
    dueDate: Option<string>)

  /** `UpdateTaskDTO::fromArray`: every field defaults to null; a set status is parsed strictly. */
  function FromArray(d: InputMap): (r: Result<UpdateTaskDTO, DtoError>)
    ensures r.Ok? <==> (IsSet(d, StatusKey) ==> d[StatusKey].value in WireValues)
    ensures r.Err? ==> r.error == InvalidStatus(d[StatusKey].value)
    ensures r.Ok? ==> (r.value.title.None? <==> !IsSet(d, TitleKey))
    ensures r.Ok? && IsSet(d, TitleKey) ==> r.value.title == d[TitleKey]
    ensures r.Ok? ==> (r.value.description.None? <==> !IsSet(d, DescriptionKey))
    ensures r.Ok? && IsSet(d, DescriptionKey) ==> r.value.description == d[DescriptionKey]
    ensures r.Ok? ==> (r.value.status.None? <==> !IsSet(d, StatusKey))
    ensures r.Ok? && IsSet(d, StatusKey) ==> Value(r.value.status.value) == d[StatusKey].value
    ensures r.Ok? ==> (r.value.dueDate.None? <==> !IsSet(d, DueDateKey))
    ensures r.Ok? && IsSet(d, DueDateKey) ==> r.value.dueDate == d[DueDateKey]
  {
    var status := if IsSet(d, StatusKey) then From(d[StatusKey].value) else None;
    if IsSet(d, StatusKey) && status.None? then Err(InvalidStatus(d[StatusKey].value))
    else Ok(UpdateTaskDTO(Lookup(d, TitleKey), Lookup(d, DescriptionKey), status, Lookup(d, DueDateKey)))
  }

  /** The wire value a DTO holds for one of the four keys; null for any other key. */
  function FieldValue(dto: UpdateTaskDTO, key: string): (v: Option<string>) {
    if key == TitleKey then dto.title
    else if key == DescriptionKey then dto.description
    else if key == StatusKey then (if dto.status.Some? then Some(Value(dto.status.value)) else None)
    else if key == DueDateKey then dto.dueDate
    else None
  }

  /** What `toArray` returns, stated declaratively: the known keys whose field is not null. */
  function AttributesOf(dto: UpdateTaskDTO): (a: Attributes) {
    map k | k in Fields && FieldValue(dto, k).Some? :: FieldValue(dto, k)
  }

  /** `UpdateTaskDTO::toArray`: start from an empty array and add each non-null field in turn. */
  method ToArray(dto: UpdateTaskDTO) returns (data: Attributes)
    ensures data == AttributesOf(dto)
  {
    data := map[];
    if dto.title.Some? {
      data := data[TitleKey := dto.title];
    }
    if dto.description.Some? {
      data := data[DescriptionKey := dto.description];
    }
    if dto.status.Some? {
      data := data[StatusKey := Some(Value(dto.status.value))];
    }
    if dto.dueDate.Some? {
      data := data[DueDateKey := dto.dueDate];
    }
  }

  /**
   * The attribute array holds only known keys, never a null value, and holds
   * a key exactly when the matching field is set, with that field's value.
   */
  lemma AttributesOfShape(dto: UpdateTaskDTO)
    ensures var a := AttributesOf(dto);
      && a.Keys <= Fields
      && (forall k :: k in a ==> a[k].Some?)
      && (TitleKey in a <==> dto.title.Some?) && (TitleKey in a ==> a[TitleKey] == dto.title)
      && (DescriptionKey in a <==> dto.description.Some?) && (DescriptionKey in a ==> a[DescriptionKey] == dto.description)
      && (StatusKey in a <==> dto.status.Some?) && (StatusKey in a ==> a[StatusKey] == Some(Value(dto.status.value)))
      && (DueDateKey in a <==> dto.dueDate.Some?) && (DueDateKey in a ==> a[DueDateKey] == dto.dueDate)
  {
  }

  /** A DTO with every field null serialises to the empty array: an empty update changes nothing. */
  lemma EmptyUpdate()
    ensures FromArray(map[]) == Ok(UpdateTaskDTO(None, None, None, None))
    ensures AttributesOf(UpdateTaskDTO(None, None, None, None)) == map[]
  {
  }

  /** Serialising a DTO and parsing the attributes back gives the same DTO. */
  lemma RoundTrip(dto: UpdateTaskDTO)
    ensures FromArray(AttributesOf(dto)) == Ok(dto)
  {
    if dto.status.Some? {
      FromValue(dto.status.value);
    }
  }

  /** Distinct DTOs serialise to distinct attribute arrays: `toArray` loses nothing. */
  lemma AttributesOfInjective(a: UpdateTaskDTO, b: UpdateTaskDTO)
    ensures AttributesOf(a) == AttributesOf(b) ==> a == b
  {
    RoundTrip(a);
    RoundTrip(b);
  }

  /** The input restricted to the four known keys and to non-null values. */
  function KnownNonNull(d: InputMap): (m: Attributes) {
    map k | k in Fields && IsSet(d, k) :: d[k]
  }

  /** Parsing a valid input and serialising it keeps exactly the set known fields, unchanged. */
  lemma InputRoundTrip(d: InputMap)
    requires FromArray(d).Ok?
    ensures AttributesOf(FromArray(d).value) == KnownNonNull(d)
  {
  }

  /** Only the four known keys with non-null values decide what `fromArray` produces. */
  lemma IgnoresUnknownAndNull(d: InputMap)
    ensures FromArray(d) == FromArray(KnownNonNull(d))
  {
  }

  /** A key that is present with a null value is read exactly as an absent key. */
  lemma NullIsAbsent(d: InputMap, k: string)
    ensures FromArray(d[k := None]) == FromArray(d - {k})
  {
  }

  /**
   * Merging the attribute array into a stored row (`$task->update(...)`) can
   * overwrite a column but never clears one to null, and leaves every column
   * whose field is null as it was.
   */
  lemma UpdateNeverClears(row: Attributes, dto: UpdateTaskDTO)
    ensures var merged := row + AttributesOf(dto);
      && merged.Keys == row.Keys + AttributesOf(dto).Keys
      && (forall k :: k in row && row[k].Some? ==> merged[k].Some?)
      && (forall k :: k in row && k !in AttributesOf(dto) ==> merged[k] == row[k])
      && (forall k :: k in Fields && FieldValue(dto, k).Some? ==> merged[k] == FieldValue(dto, k))
  {
  }

  /** Updating only the status of a stored task leaves its title as it was. */
  lemma PartialUpdateKeepsTitle(row: Attributes)
    requires TitleKey in row
    ensures FromArray(map[StatusKey := Some("completed")]).Ok?
    ensures var merged := row + AttributesOf(FromArray(map[StatusKey := Some("completed")]).value);
      merged[TitleKey] == row[TitleKey] && merged[StatusKey] == Some("completed")
  {
  }

  /** The DTO whose set fields are those of `later`, falling back to `earlier` where `later` is null. */
  function Overlay(earlier: UpdateTaskDTO, later: UpdateTaskDTO): (dto: UpdateTaskDTO) {
    UpdateTaskDTO(
      if later.title.Some? then later.title else earlier.title,
      if later.description.Some? then later.description else earlier.description,
      if later.status.Some? then later.status else earlier.status,
      if later.dueDate.Some? then later.dueDate else earlier.dueDate)
  }

  /**
   * Two successive partial updates of a row have the effect of one update
   * whose fields are the later update's where set and the earlier's otherwise:
   * the last write to each column wins.
   */
  lemma SuccessiveUpdates(row: Attributes, earlier: UpdateTaskDTO, later: UpdateTaskDTO)
    ensures (row + AttributesOf(earlier)) + AttributesOf(later) == row + AttributesOf(Overlay(earlier, later))
  {
    var twice := (row + AttributesOf(earlier)) + AttributesOf(later);
    var once := row + AttributesOf(Overlay(earlier, later));
    forall k | k in Fields
      ensures FieldValue(Overlay(earlier, later), k)
           == if FieldValue(later, k).Some? then FieldValue(later, k) else FieldValue(earlier, k)
    {
    }
    assert twice.Keys == once.Keys;
    forall k | k in twice
      ensures twice[k] == once[k]
    {
    }
  }
}
