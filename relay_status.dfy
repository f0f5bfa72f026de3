/** The relay status value (`RelayStatus.kt`), which arrives in two wire
    shapes: a bare string (`"on"`), or an object with `value`,
    `requestedBy`, `requestedByEmail` and `timestamp`. */
module RelayStatuses {
  import opened Wrappers
  import opened RelayCommands

  /** The object shape; every field may be missing. */
  datatype RelayStatusObject = RelayStatusObject(
    value: Option<string>,
    requestedBy: Option<string>,
    requestedByEmail: Option<string>,
    timestamp: Option<int>)
  {
    /** `normalizedValue()`: the object's `value` read as a command. */
    function NormalizedValue(): Option<RelayCommand>
    {
      FromRaw(value)
    }
  }

  /** What the store delivers at the status path, as the SDK converts it:
      nothing, a string, an object, or some other scalar (a number or a
      boolean). */
  datatype StatusSnapshot = Absent | Str(s: string) | Obj(data: RelayStatusObject) | Scalar

  /** `snapshot.getValue(String::class.java)`: the string, if it holds one. */
  function AsString(snapshot: StatusSnapshot): Option<string>
  {
    if snapshot.Str? then Some(snapshot.s) else None
  }

  /** `snapshot.getValue(RelayStatusObject::class.java)`: the object, if it
      holds one. */
  function AsObject(snapshot: StatusSnapshot): Option<RelayStatusObject>
  {
    if snapshot.Obj? then Some(snapshot.data) else None
  }

  /** The string the snapshot carries as its command, in either shape. */
  function WireValue(snapshot: StatusSnapshot): Option<string>
  {
    match snapshot
    case Str(s) => Some(s)
    case Obj(data) => data.value
    case _ => None
  }

  /** The parsed status: the legacy bare command, or the object kept whole. */
  datatype RelayStatus = RawString(command: RelayCommand) | Object(data: RelayStatusObject) {

    /** `valueOrNull()`: the command the status names, if any. */
    function ValueOrNull(): Option<RelayCommand>
    {
      match this
      case RawString(c) => Some(c)
      case Object(d) => d.NormalizedValue()
    }

    /** `timestampOrNull()`: only the object shape carries a time. */
    function TimestampOrNull(): Option<int>
    {
      match this
      case RawString(_) => None
      case Object(d) => d.timestamp
    }
  }

  /** `parse`: the bare-string shape first, then the object shape with a
      non-null `value`, else nothing. The command a parsed status names is
      the command its wire value spells, and a snapshot that parses to
      nothing spells no command: absence is never read as OFF. */
  function Parse(snapshot: StatusSnapshot): (r: Option<RelayStatus>)
    ensures r.Some? ==> r.value.ValueOrNull() == FromRaw(WireValue(snapshot))
    ensures r.None? ==> FromRaw(WireValue(snapshot)).None?
    ensures r.Some? && r.value.Object? ==> snapshot == Obj(r.value.data)
  {
    var asCommand := FromRaw(AsString(snapshot));
    if asCommand.Some? then Some(RawString(asCommand.value))
    else
      var obj := AsObject(snapshot);
      if obj.Some? && obj.value.value.Some? then Some(Object(obj.value))
      else None
  }

  /** A bare string that `fromRaw` accepts parses to the legacy shape with
      that command. */
  lemma ParseAcceptedString(s: string, c: RelayCommand)
    requires FromRaw(Some(s)) == Some(c)
    ensures Parse(Str(s)) == Some(RawString(c))
  {
  }

  /** A bare string that `fromRaw` rejects is not retried as an object: it
      parses to nothing. */
  lemma ParseRejectedString(s: string)
    requires FromRaw(Some(s)).None?
    ensures Parse(Str(s)).None?
  {
    assert FromRaw(AsString(Str(s))) == FromRaw(Some(s));
  }

  /** An object with a non-null `value` keeps the object shape even when
      that value is not a command; its command is then unknown, not OFF. */
  lemma ParseObjectWithValue(d: RelayStatusObject)
    requires d.value.Some?
    ensures Parse(Obj(d)) == Some(Object(d))
    ensures Parse(Obj(d)).value.ValueOrNull() == FromRaw(d.value)
    ensures FromRaw(d.value).None? ==> Parse(Obj(d)).value.ValueOrNull().None?
  {
    assert FromRaw(AsString(Obj(d))) == FromRaw(None) == None;
  }

  /** An object without `value`, no data, or another scalar parses to
      nothing. */
  lemma ParseNothing(snapshot: StatusSnapshot)
    requires snapshot.Absent? || snapshot.Scalar? || (snapshot.Obj? && snapshot.data.value.None?)
    ensures Parse(snapshot).None?
  {
  }

  /** `timestampOrNull` is null for the legacy shape and the object's own
      timestamp otherwise; after a parse that is the snapshot's timestamp. */
  lemma TimestampOfParsed(snapshot: StatusSnapshot)
    requires Parse(snapshot).Some?
    ensures Parse(snapshot).value.TimestampOrNull() ==
            (if Parse(snapshot).value.Object? then snapshot.data.timestamp else None)
  {
  }
}
