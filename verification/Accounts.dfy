/**
 Row decoding and edge accessors of backend/ent/account.go.

 An Entity stands for the Go struct Account (and, as a neighbour, for Group and Proxy, of which
 the loaders read only the ID). Its nullable scalar fields are kept in one map indexed by the
 column constant; an absent key is the Go zero value, or nil for a pointer field.
 */
module Accounts {
  import opened Wrappers

  // The column constants of ent/account/account.go; OtherColumn is any name that is not one of them.
  datatype Column =
    | ID | CreatedAt | UpdatedAt | DeletedAt | Name | Notes | Platform | Type | Credentials | Extra
    | ProxyID | ProxyFallbackOriginID | Concurrency | LoadFactor | Priority | RateMultiplier | Status
    | ErrorMessage | LastUsedAt | ExpiresAt | AutoPauseOnExpired | Schedulable | RateLimitedAt
    | RateLimitResetAt | OverloadUntil | TempUnschedulableUntil | TempUnschedulableReason
    | SessionWindowStart | SessionWindowEnd | SessionWindowStatus | ParentAccountID | QuotaDimension
    | OtherColumn(name: string)

  // The Go types a scan target may have.
  datatype Kind = BytesKind | BoolKind | FloatKind | IntKind | StringKind | TimeKind | UnknownKind

  // A non-NULL value; times are instants counted from some epoch.
  datatype Value = Bool(b: bool) | Float(f: real) | Int(i: int) | Str(s: string) | Time(t: int) | Json(doc: string)

  // One scan target after the driver wrote into it; None is NULL.
  datatype Buffer =
    | RawBytes(bytes: string)
    | NullBool(flag: Option<bool>)
    | NullFloat64(number: Option<real>)
    | NullInt64(int64: Option<int>)
    | NullString(text: Option<string>)
    | NullTime(time: Option<int>)
    | UnknownType(raw: string)
  {
    function Kind(): Kind {
      match this
      case RawBytes(_) => BytesKind
      case NullBool(_) => BoolKind
      case NullFloat64(_) => FloatKind
      case NullInt64(_) => IntKind
      case NullString(_) => StringKind
      case NullTime(_) => TimeKind
      case UnknownType(_) => UnknownKind
    }

    // The value a scalar field receives; None when the database held NULL.
    function Scalar(): Option<Value> {
      match this
      case NullBool(Some(b)) => Some(Bool(b))
      case NullFloat64(Some(f)) => Some(Float(f))
      case NullInt64(Some(i)) => Some(Int(i))
      case NullString(Some(s)) => Some(Str(s))
      case NullTime(Some(t)) => Some(Time(t))
      case _ => None
    }
  }

  datatype DecodeError =
    | NoError | LengthMismatch(values: nat, columns: nat) | UnexpectedType(column: Column) | BadJson(column: Column)

  datatype Edge = GroupsEdge | ProxyEdge | ProxiesEdge | ParentEdge | ChildrenEdge

  datatype Fetched<+T> = Loaded(value: T) | NotFound | NotLoaded

  // json.Unmarshal into the field's present content: None when the bytes are rejected.
  type Unmarshal = (Option<Value>, string) -> Option<Value>

  // The scan target scanValues allocates: its switch groups columns by type.
  function ScanTarget(column: Column): Buffer {
    match column
    case Credentials | Extra => RawBytes("")
    case AutoPauseOnExpired | Schedulable => NullBool(None)
    case RateMultiplier => NullFloat64(None)
    case ID | ProxyID | ProxyFallbackOriginID | Concurrency | LoadFactor | Priority | ParentAccountID => NullInt64(None)
    case Name | Notes | Platform | Type | Status | ErrorMessage | TempUnschedulableReason
      | SessionWindowStatus | QuotaDimension => NullString(None)
    case CreatedAt | UpdatedAt | DeletedAt | LastUsedAt | ExpiresAt | RateLimitedAt | RateLimitResetAt | OverloadUntil
      | TempUnschedulableUntil | SessionWindowStart | SessionWindowEnd => NullTime(None)
    case OtherColumn(_) => UnknownType("")
  }

  // The type assertion assignValues makes: one case per column, in the order of its switch.
  // None is the default case, which stores the buffer as it is.
  function AssertedKind(column: Column): Option<Kind> {
    match column
    case ID => Some(IntKind)
    case CreatedAt => Some(TimeKind)
    case UpdatedAt => Some(TimeKind)
    case DeletedAt => Some(TimeKind)
    case Name => Some(StringKind)
    case Notes => Some(StringKind)
    case Platform => Some(StringKind)
    case Type => Some(StringKind)
    case Credentials => Some(BytesKind)
    case Extra => Some(BytesKind)
    case ProxyID => Some(IntKind)
    case ProxyFallbackOriginID => Some(IntKind)
    case Concurrency => Some(IntKind)
    case LoadFactor => Some(IntKind)
    case Priority => Some(IntKind)
    case RateMultiplier => Some(FloatKind)
    case Status => Some(StringKind)
    case ErrorMessage => Some(StringKind)
    case LastUsedAt => Some(TimeKind)
    case ExpiresAt => Some(TimeKind)
    case AutoPauseOnExpired => Some(BoolKind)
    case Schedulable => Some(BoolKind)
    case RateLimitedAt => Some(TimeKind)
    case RateLimitResetAt => Some(TimeKind)
    case OverloadUntil => Some(TimeKind)
    case TempUnschedulableUntil => Some(TimeKind)
    case TempUnschedulableReason => Some(StringKind)
    case SessionWindowStart => Some(TimeKind)
    case SessionWindowEnd => Some(TimeKind)
    case SessionWindowStatus => Some(StringKind)
    case ParentAccountID => Some(IntKind)
    case QuotaDimension => Some(StringKind)
    case OtherColumn(_) => None
  }

  predicate IsDocument(column: Column) { column.Credentials? || column.Extra? }

  predicate IsScalar(column: Column) { !column.ID? && !IsDocument(column) && !column.OtherColumn? }

  // The buffers a driver may leave behind: it fills the targets scanValues made, and keeps their types.
  predicate Scanned(columns: seq<Column>, values: seq<Buffer>) {
    && |columns| <= |values|
    && forall i :: 0 <= i < |columns| ==> values[i].Kind() == ScanTarget(columns[i]).Kind()
  }

  predicate Mistyped(column: Column, value: Buffer) {
    AssertedKind(column).Some? && value.Kind() != AssertedKind(column).value
  }

  // The two switches agree on every column, so no scanned buffer is ever refused for its type.
  lemma ScannedIsNeverMistyped(column: Column, value: Buffer)
    requires value.Kind() == ScanTarget(column).Kind()
    ensures !Mistyped(column, value)
  {}

  // Which columns are refused what, name by name.
  lemma MistypedMeans(column: Column, value: Buffer)
    ensures Mistyped(column, value) <==>
      || (column in {Credentials, Extra} && !value.RawBytes?)
      || (column in {AutoPauseOnExpired, Schedulable} && !value.NullBool?)
      || (column == RateMultiplier && !value.NullFloat64?)
      || (column in {ID, ProxyID, ProxyFallbackOriginID, Concurrency, LoadFactor, Priority, ParentAccountID}
          && !value.NullInt64?)
      || (column in {Name, Notes, Platform, Type, Status, ErrorMessage, TempUnschedulableReason, SessionWindowStatus,
                     QuotaDimension} && !value.NullString?)
      || (column in {CreatedAt, UpdatedAt, DeletedAt, LastUsedAt, ExpiresAt, RateLimitedAt, RateLimitResetAt,
                     OverloadUntil, TempUnschedulableUntil, SessionWindowStart, SessionWindowEnd} && !value.NullTime?)
  {
    match column
    case ID =>
    case Credentials =>
    case RateMultiplier =>
    case _ =>
  }

  // Which columns are fields holding a scalar, and which hold a document.
  lemma ColumnsAre(column: Column)
    ensures IsDocument(column) <==> column == Credentials || column == Extra
    ensures IsScalar(column) <==> column !in {ID, Credentials, Extra} && forall name :: column != OtherColumn(name)
  {
    if column.OtherColumn? {
      assert column == OtherColumn(column.name);
    }
  }

  // What a scalar field receives: nothing for NULL.
  predicate Receives(value: Buffer, before: Option<Value>, after: Option<Value>) {
    match value
    case NullBool(Some(b)) => after == Some(Bool(b))
    case NullFloat64(Some(f)) => after == Some(Float(f))
    case NullInt64(Some(i)) => after == Some(Int(i))
    case NullString(Some(s)) => after == Some(Str(s))
    case NullTime(Some(t)) => after == Some(Time(t))
    case _ => after == before
  }

  // What a buffer gives a scalar field, and an ID.
  lemma BufferMeans(value: Buffer, before: Option<Value>)
    ensures Receives(value, before, if value.Scalar().Some? then value.Scalar() else before)
    ensures forall v :: value == NullInt64(Some(v)) ==> Int64Of(value) == v
    ensures (forall v :: value != NullInt64(Some(v))) ==> Int64Of(value) == 0
  {
    match value
    case NullInt64(Some(v)) => assert value == NullInt64(Some(v));
    case _ =>
  }

  // Reference definition: the last non-NULL buffer under `column` among the first n, or what was there before.
  ghost function LastScalar(columns: seq<Column>, values: seq<Buffer>, n: nat, column: Column, before: Option<Value>)
    : Option<Value>
    requires n <= |columns| && n <= |values|
  {
    if n == 0 then before
    else if columns[n - 1] == column && values[n - 1].Scalar().Some? then values[n - 1].Scalar()
    else LastScalar(columns, values, n - 1, column, before)
  }

  // The last int64 under the ID column, NULL read as 0; unlike the others it is assigned even when NULL.
  ghost function LastId(columns: seq<Column>, values: seq<Buffer>, n: nat, before: int): int
    requires n <= |columns| && n <= |values|
  {
    if n == 0 then before
    else if columns[n - 1] == ID then Int64Of(values[n - 1])
    else LastId(columns, values, n - 1, before)
  }

  // sql.NullInt64's Int64 member, which is 0 for NULL.
  function Int64Of(value: Buffer): int {
    if value.NullInt64? && value.int64.Some? then value.int64.value else 0
  }

  // Reference definition for the JSON columns: every non-empty document is unmarshalled onto the one before.
  ghost function LastDocument(columns: seq<Column>, values: seq<Buffer>, n: nat, column: Column, before: Option<Value>,
                              unmarshal: Unmarshal): Option<Value>
    requires n <= |columns| && n <= |values|
  {
    if n == 0 then before
    else
      var prior := LastDocument(columns, values, n - 1, column, before, unmarshal);
      if columns[n - 1] == column && values[n - 1].RawBytes? && values[n - 1].bytes != ""
      then unmarshal(prior, values[n - 1].bytes)
      else prior
  }

  // The i-th buffer holds a document that does not unmarshal onto what the documents before it left.
  ghost predicate Rejected(columns: seq<Column>, values: seq<Buffer>, i: nat, before: map<Column, Value>,
                           unmarshal: Unmarshal)
    requires i < |columns| && i < |values|
  {
    && IsDocument(columns[i]) && values[i].RawBytes? && values[i].bytes != ""
    && unmarshal(LastDocument(columns, values, i, columns[i], Field(before, columns[i]), unmarshal),
                 values[i].bytes).None?
  }

  // A column that is no field of the entity keeps the last buffer as it came.
  ghost function LastSelected(columns: seq<Column>, values: seq<Buffer>, n: nat, name: string, before: Option<Buffer>)
    : Option<Buffer>
    requires n <= |columns| && n <= |values|
  {
    if n == 0 then before
    else if columns[n - 1] == OtherColumn(name) then Some(values[n - 1])
    else LastSelected(columns, values, n - 1, name, before)
  }

  // What LastScalar means, by position: the named buffer wins when everything after it is NULL or elsewhere.
  lemma {:induction false} LastScalarIsLast(columns: seq<Column>, values: seq<Buffer>, n: nat, column: Column,
                                            before: Option<Value>, i: nat)
    requires i < n <= |columns| && n <= |values|
    requires columns[i] == column && values[i].Scalar().Some?
    requires forall j :: i < j < n && columns[j] == column ==> values[j].Scalar().None?
    ensures LastScalar(columns, values, n, column, before) == values[i].Scalar()
  {
    if i < n - 1 {
      LastScalarIsLast(columns, values, n - 1, column, before, i);
    }
  }

  // NULL leaves a field untouched.
  lemma {:induction false} NullsLeaveUntouched(columns: seq<Column>, values: seq<Buffer>, n: nat, column: Column,
                                               before: Option<Value>)
    requires n <= |columns| && n <= |values|
    requires forall j :: 0 <= j < n && columns[j] == column ==> values[j].Scalar().None?
    ensures LastScalar(columns, values, n, column, before) == before
  {
    if n != 0 {
      NullsLeaveUntouched(columns, values, n - 1, column, before);
    }
  }

  // A field's present content, None for the zero value or nil.
  function Field<K, V>(fields: map<K, V>, key: K): Option<V> {
    if key in fields then Some(fields[key]) else None
  }

  // A nullable foreign key, as the loaders read it.
  function KeyIn(scalars: map<Column, Value>, column: Column): Option<int> {
    if column in scalars && scalars[column].Int? then Some(scalars[column].i) else None
  }

  class Entity {
    var id: int
    var scalars: map<Column, Value>      // scalar fields that are not the zero value
    var documents: map<Column, Value>    // credentials and extra
    var selectValues: map<string, Buffer>
    var lists: map<Edge, seq<Entity>>    // Edges.Groups, Edges.Proxies, Edges.Children; absent is nil
    var singles: map<Edge, Entity>       // Edges.Proxy, Edges.Parent; absent is nil
    var loadedTypes: set<Edge>

    constructor (loadedTypes: set<Edge>)
      ensures id == 0 && scalars == map[] && documents == map[] && selectValues == map[]
      ensures lists == map[] && singles == map[] && this.loadedTypes == loadedTypes
    {
      id, scalars, documents, selectValues := 0, map[], map[], map[];
      lists, singles, this.loadedTypes := map[], map[], loadedTypes;
    }

    function List(edge: Edge): seq<Entity>
      reads this`lists
    {
      if edge in lists then lists[edge] else []
    }

    // ProxyOrErr and ParentOrErr.
    method SingleOrErr(edge: Edge) returns (r: Fetched<Entity>)
      ensures r.Loaded? <==> edge in singles
      ensures r.Loaded? ==> r.value == singles[edge]
      ensures r.NotFound? <==> edge !in singles && edge in loadedTypes
    {
      if edge in singles {
        return Loaded(singles[edge]);
      } else if edge in loadedTypes {
        return NotFound;
      }
      return NotLoaded;
    }

    // GroupsOrErr, ProxiesOrErr and ChildrenOrErr.
    method ListOrErr(edge: Edge) returns (r: Fetched<seq<Entity>>)
      ensures r.Loaded? <==> edge in loadedTypes
      ensures r.Loaded? ==> r.value == if edge in lists then lists[edge] else []
      ensures !r.NotFound?
    {
      if edge in loadedTypes {
        return Loaded(List(edge));
      }
      return NotLoaded;
    }

    // One case of assignValues' switch.
    method AssignValue(column: Column, value: Buffer, unmarshal: Unmarshal) returns (err: DecodeError)
      modifies this`id, this`scalars, this`documents, this`selectValues
      ensures err == UnexpectedType(column) <==> Mistyped(column, value)
      ensures err.NoError? || err == UnexpectedType(column) || err == BadJson(column)
      ensures err.BadJson? <==>
        && !Mistyped(column, value) && IsDocument(column) && value.bytes != ""
        && unmarshal(Field(old(documents), column), value.bytes).None?
      ensures !err.NoError? ==> id == old(id) && scalars == old(scalars)
      ensures !err.NoError? ==> forall c :: c != column || err.UnexpectedType? ==>
        Field(documents, c) == Field(old(documents), c)
      ensures err.NoError? ==> id == if column == ID then Int64Of(value) else old(id)
      ensures err.NoError? ==> forall c :: IsScalar(c) ==>
        Field(scalars, c) == if c == column && value.Scalar().Some? then value.Scalar() else Field(old(scalars), c)
      ensures err.NoError? ==> forall c :: IsDocument(c) ==>
        Field(documents, c) == if c == column && value.bytes != "" then unmarshal(Field(old(documents), c), value.bytes)
                            else Field(old(documents), c)
      ensures selectValues == if column.OtherColumn? then old(selectValues)[column.name := value] else old(selectValues)
    {
      if column.OtherColumn? {
        selectValues := selectValues[column.name := value];
      } else if Mistyped(column, value) {
        return UnexpectedType(column);
      } else if column == ID {
        id := Int64Of(value);
      } else if IsDocument(column) {
        if |value.bytes| > 0 {
          var doc := unmarshal(Field(documents, column), value.bytes);
          if doc.None? {
            return BadJson(column);
          }
          documents := documents[column := doc.value];
        }
      } else if value.Scalar().Some? {
        scalars := scalars[column := value.Scalar().value];
      }
      return NoError;
    }

    // assignValues: copies a scanned row into the entity.
    method AssignValues(columns: seq<Column>, values: seq<Buffer>, unmarshal: Unmarshal) returns (err: DecodeError)
      modifies this`id, this`scalars, this`documents, this`selectValues
      ensures err.LengthMismatch? <==> |values| < |columns|
      ensures err.UnexpectedType? ==>
        exists i :: 0 <= i < |columns| && columns[i] == err.column && Mistyped(columns[i], values[i])
          && forall j :: 0 <= j < i ==>
            !Mistyped(columns[j], values[j]) && !Rejected(columns, values, j, old(documents), unmarshal)
      ensures err.BadJson? ==>
        exists i :: 0 <= i < |columns| && columns[i] == err.column && !Mistyped(columns[i], values[i])
          && Rejected(columns, values, i, old(documents), unmarshal)
          && forall j :: 0 <= j < i ==>
            !Mistyped(columns[j], values[j]) && !Rejected(columns, values, j, old(documents), unmarshal)
      ensures err.NoError? <==> |columns| <= |values| && forall i :: 0 <= i < |columns| ==>
        !Mistyped(columns[i], values[i]) && !Rejected(columns, values, i, old(documents), unmarshal)
      ensures Scanned(columns, values) ==> err.NoError? || err.BadJson?
      ensures err.NoError? ==> id == LastId(columns, values, |columns|, old(id))
      ensures err.NoError? ==> forall c :: IsScalar(c) ==>
        Field(scalars, c) == LastScalar(columns, values, |columns|, c, Field(old(scalars), c))
      ensures err.NoError? ==> forall c :: IsDocument(c) ==>
        Field(documents, c) == LastDocument(columns, values, |columns|, c, Field(old(documents), c), unmarshal)
      ensures err.NoError? ==> forall name ::
        Field(selectValues, name) == LastSelected(columns, values, |columns|, name, Field(old(selectValues), name))
    {
      if |values| < |columns| {
        return LengthMismatch(|values|, |columns|);
      }
      for i := 0 to |columns|
        invariant forall j :: 0 <= j < i ==>
          !Mistyped(columns[j], values[j]) && !Rejected(columns, values, j, old(documents), unmarshal)
        invariant id == LastId(columns, values, i, old(id))
        invariant forall c :: IsScalar(c) ==>
          Field(scalars, c) == LastScalar(columns, values, i, c, Field(old(scalars), c))
        invariant forall c :: IsDocument(c) ==>
          Field(documents, c) == LastDocument(columns, values, i, c, Field(old(documents), c), unmarshal)
        invariant forall name ::
          Field(selectValues, name) == LastSelected(columns, values, i, name, Field(old(selectValues), name))
      {
        err := AssignValue(columns[i], values[i], unmarshal);
        assert Rejected(columns, values, i, old(documents), unmarshal) && !Mistyped(columns[i], values[i]) <==>
          err.BadJson?;
        if !err.NoError? {
          if Scanned(columns, values) {
            ScannedIsNeverMistyped(columns[i], values[i]);
          }
          return;
        }
      }
      return NoError;
    }
  }

  // scanValues: one fresh target per column.
  method ScanValues(columns: seq<Column>) returns (values: array<Buffer>)
    ensures fresh(values) && values.Length == |columns|
    ensures Scanned(columns, values[..])
  {
    values := new Buffer[|columns|](_ => UnknownType(""));
    for i := 0 to |columns|
      invariant forall j :: 0 <= j < i ==> values[j] == ScanTarget(columns[j])
    {
      values[i] := ScanTarget(columns[i]);
    }
  }
}
