/**
 * Appliance records of GroheApiClasses/BaseAppliance.cs: the type-code classification done by
 * BaseApplianceConverter.Read, the raw values it keeps, and the status dictionary of SetStatus.
 */
module Appliances {
  import opened Wrappers
  import opened Dictionaries

  /** The ApplianceType enum; its numeric codes are given by Code. */
  datatype ApplianceType = Unknown | Sense | SenseGuard

  function Code(t: ApplianceType): int {
    match t
    case Unknown => 0
    case Sense => 101
    case SenseGuard => 103
  }

  /** `Enum.IsDefined(typeof(ApplianceType), v) ? (ApplianceType)v : Unknown`. */
  function Classify(typeValue: int): (t: ApplianceType)
    ensures t == Unknown || Code(t) == typeValue
  {
    if typeValue == Code(Sense) then Sense
    else if typeValue == Code(SenseGuard) then SenseGuard
    else Unknown
  }

  /** Classification is the inverse of the enum codes, and only 101 and 103 are known. */
  lemma ClassifyCodes(t: ApplianceType, v: int)
    ensures Classify(Code(t)) == t
    ensures Classify(v) != Unknown <==> v == 101 || v == 103
    ensures Classify(v) == Sense <==> v == 101
    ensures Classify(v) == SenseGuard <==> v == 103
  {
  }

  const Int32Min: int := -0x8000_0000
  const Int32Max: int := 0x7FFF_FFFF

  predicate IsInt32(v: int) {
    Int32Min <= v <= Int32Max
  }

  /** The value found under the "type" property of an appliance object. */
  datatype TypeProperty =
    | Absent            // GetProperty throws KeyNotFoundException
    | NotNumber         // GetInt32 throws InvalidOperationException
    | Number(value: int) // an integral JSON number; GetInt32 throws FormatException outside 32 bits

  /** One element of the appliances array, standing for its raw text: the properties the gateway reads. */
  datatype ApplianceJson = ApplianceJson(
    id: string,
    name: string,
    lastSeen: Option<int>,
    typeProperty: TypeProperty,
    snoozedUntil: Option<int>) // only bound when the object is read as a SenseGuard appliance

  /** A BaseAppliance as the converter returns it; `json` is the raw element it was read from. */
  datatype BaseAppliance = BaseAppliance(
    id: string,
    name: string,
    lastSeen: Option<int>,
    kind: ApplianceType,
    typeValue: int,
    json: ApplianceJson)

  /**
   * BaseApplianceConverter.Read: the type code is read as a 32-bit integer and classified; the
   * raw code and the raw text are kept even when the type is unknown.
   */
  function Read(j: ApplianceJson): (r: Result<BaseAppliance>)
    ensures r.Ok? <==> j.typeProperty.Number? && IsInt32(j.typeProperty.value)
    ensures r.Ok? ==> r.value.typeValue == j.typeProperty.value && r.value.json == j
    ensures r.Ok? ==> r.value.kind == Classify(r.value.typeValue)
    ensures r.Ok? ==> r.value.id == j.id && r.value.name == j.name && r.value.lastSeen == j.lastSeen
    ensures j.typeProperty.Absent? ==> r == Err(KeyNotFound)
  {
    match j.typeProperty
    case Absent => Err(KeyNotFound)
    case NotNumber => Err(InvalidOperation)
    case Number(v) =>
      if IsInt32(v) then Ok(BaseAppliance(j.id, j.name, j.lastSeen, Classify(v), v, j))
      else Err(Format)
  }

  /** BaseApplianceConverter.Write: serialising through the converter is not supported. */
  function Write(a: BaseAppliance): (r: Result<string>)
    ensures r.Err? && r.error == NotImplemented
  {
    Err(NotImplemented)
  }

  /** A code outside the enum still yields an appliance, of type Unknown, keeping the code. */
  lemma ReadUnknownCode(j: ApplianceJson)
    requires j.typeProperty.Number? && IsInt32(j.typeProperty.value)
    requires j.typeProperty.value != 101 && j.typeProperty.value != 103
    ensures Read(j).Ok? && Read(j).value.kind == Unknown
    ensures Read(j).value.typeValue == j.typeProperty.value
  {
  }

  /** One entry of the status list of an appliance. */
  datatype StatusEntry = StatusEntry(statusType: string, value: int)

  function StatusType(e: StatusEntry): string { e.statusType }
  function StatusValue(e: StatusEntry): int { e.value }

  /** SetStatus: `status.ToDictionary(x => x.Type, x => x.Value)`. */
  function StatusMap(status: seq<StatusEntry>): Result<Dict<string, int>> {
    ToDictionary(status, StatusType, StatusValue)
  }

  /**
   * SetStatus succeeds exactly when no status type repeats; its keys are then exactly the status
   * types, in order, each mapped to its value.
   */
  lemma StatusMapSpec(status: seq<StatusEntry>)
    ensures StatusMap(status).Ok? <==>
      forall i, j :: 0 <= i < j < |status| ==> status[i].statusType != status[j].statusType
    ensures StatusMap(status).Err? ==> StatusMap(status).error == DuplicateKey
    ensures StatusMap(status).Ok? ==>
      var m := StatusMap(status).value;
      UniqueKeys(m) && |m| == |status| &&
      (forall i :: 0 <= i < |status| ==> m[i] == (status[i].statusType, status[i].value))
  {
    ToDictionarySpec(status, StatusType, StatusValue);
    StatusMapError(status, []);
    if StatusMap(status).Ok? {
      var m := StatusMap(status).value;
      assert m == Pairs(status, StatusType, StatusValue);
      forall i | 0 <= i < |status| ensures m[i] == (status[i].statusType, status[i].value) {
      }
      forall i, j | 0 <= i < j < |m| ensures m[i].0 != m[j].0 {
        assert m[i].0 == status[i].statusType && m[j].0 == status[j].statusType;
      }
    }
  }

  lemma {:induction false} StatusMapError(status: seq<StatusEntry>, acc: Dict<string, int>)
    ensures AddAll(acc, Pairs(status, StatusType, StatusValue)).Err? ==>
      AddAll(acc, Pairs(status, StatusType, StatusValue)).error == DuplicateKey
  {
    AddAllError(acc, Pairs(status, StatusType, StatusValue));
  }

  /** Every listed status value can be looked up by its type. */
  lemma StatusMapGet(status: seq<StatusEntry>, i: int)
    requires StatusMap(status).Ok? && 0 <= i < |status|
    ensures Get(StatusMap(status).value, status[i].statusType) == Some(status[i].value)
  {
    StatusMapSpec(status);
    GetAt(StatusMap(status).value, i);
  }

  /** A status list that names a type twice is rejected, wherever the two entries stand. */
  lemma StatusMapDuplicate(status: seq<StatusEntry>, i: int, j: int)
    requires 0 <= i < j < |status| && status[i].statusType == status[j].statusType
    ensures StatusMap(status) == Err(DuplicateKey)
  {
    StatusMapSpec(status);
  }
}
