/**
 * `CreateTaskDTO`: the validated input of `POST /tasks`. `fromArray` applies the
 * defaults and the strict status parse; `toArray` gives the four attributes of
 * the new row.
 */
module CreateTask {
  import opened Wrappers
  import opened Enums
  import opened TaskInput

  datatype CreateTaskDTO = CreateTaskDTO(
    title: string,
    description: Option<string>,
    status: TaskStatus,
    dueDate: Option<string>)

  /**
   * `CreateTaskDTO::fromArray`. The arguments are evaluated in order: `title`
   * has no default, so an absent or null title reads as null; the status is
   * parsed next and an unknown value throws there; only then does the
   * constructor reject the null title.
   */
  function FromArray(d: InputMap): (r: Result<CreateTaskDTO, DtoError>)
    ensures r.Ok? <==> IsSet(d, TitleKey) && (IsSet(d, StatusKey) ==> d[StatusKey].value in WireValues)
    ensures IsSet(d, StatusKey) && d[StatusKey].value !in WireValues ==> r == Err(InvalidStatus(d[StatusKey].value))
    ensures !IsSet(d, TitleKey) && (IsSet(d, StatusKey) ==> d[StatusKey].value in WireValues) ==> r == Err(TitleMissing)
    ensures r.Ok? ==> r.value.title == d[TitleKey].value
    ensures r.Ok? ==> (r.value.description.None? <==> !IsSet(d, DescriptionKey))
    ensures r.Ok? && IsSet(d, DescriptionKey) ==> r.value.description == d[DescriptionKey]
    ensures r.Ok? ==> (r.value.dueDate.None? <==> !IsSet(d, DueDateKey))
    ensures r.Ok? && IsSet(d, DueDateKey) ==> r.value.dueDate == d[DueDateKey]
    ensures r.Ok? && !IsSet(d, StatusKey) ==> r.value.status == Pending
    ensures r.Ok? && IsSet(d, StatusKey) ==> Value(r.value.status) == d[StatusKey].value
  {
    var title := Lookup(d, TitleKey);
    var status := if IsSet(d, StatusKey) then From(d[StatusKey].value) else Some(Pending);
    if status.None? then Err(InvalidStatus(d[StatusKey].value))
    else if title.None? then Err(TitleMissing)
    else Ok(CreateTaskDTO(title.value, Lookup(d, DescriptionKey), status.value, Lookup(d, DueDateKey)))
  }

  /** `CreateTaskDTO::toArray`: always all four keys, the status as its wire value. */
  function ToArray(dto: CreateTaskDTO): (r: Attributes)
    ensures r.Keys == Fields
    ensures r[TitleKey] == Some(dto.title)
    ensures r[StatusKey] == Some(Value(dto.status)) && r[StatusKey].value in WireValues
    ensures r[DescriptionKey] == dto.description && r[DueDateKey] == dto.dueDate
  {
    map[TitleKey := Some(dto.title),
        DescriptionKey := dto.description,
        StatusKey := Some(Value(dto.status)),
        DueDateKey := dto.dueDate]
  }

  /** Serialising a DTO and parsing the attributes back gives the same DTO. */
  lemma RoundTrip(dto: CreateTaskDTO)
    ensures FromArray(ToArray(dto)) == Ok(dto)
  {
    FromValue(dto.status);
  }

  /**
   * Parsing an input and serialising the DTO keeps every set field as given
   * (the status string unchanged), writes null for an unset description or
   * due date, and `"pending"` for an unset status.
   */
  lemma InputRoundTrip(d: InputMap)
    requires FromArray(d).Ok?
    ensures var out := ToArray(FromArray(d).value);
      && out.Keys == Fields
      && (forall k :: k in Fields && IsSet(d, k) ==> out[k] == d[k])
      && (!IsSet(d, DescriptionKey) ==> out[DescriptionKey] == None)
      && (!IsSet(d, DueDateKey) ==> out[DueDateKey] == None)
      && (!IsSet(d, StatusKey) ==> out[StatusKey] == Some("pending"))
  {
  }

  /** A key that is present with a null value is read exactly as an absent key. */
  lemma NullIsAbsent(d: InputMap, k: string)
    ensures FromArray(d[k := None]) == FromArray(d - {k})
  {
  }
}
