/** Column roles and value types of a time-series table, and their encodings:
    the mapping to and from the Arrow physical types, the numeric tag stored for
    a field type, its display name, and the nullability of a column. */
module ColumnTypes {
  import opened Wrappers

  /** Rust `i32`, the argument of `ColumnType::from_i32`. */
  newtype i32 = x: int | -0x8000_0000 <= x < 0x8000_0000

  /** Rust `u8`, the result of `ColumnType::field_type`. */
  newtype u8 = x: int | 0 <= x < 0x100

  /** Column ids; their width is irrelevant to every operation modelled here. */
  type ColumnId = nat

  datatype ValueType = Unknown | Float | Integer | Unsigned | Boolean | String

  datatype ColumnType = Tag | Time | Field(valueType: ValueType)

  /** The codec a column is stored with; the codec itself is not part of this
      model, only the tag identifying it. */
  datatype Encoding = Encoding(code: nat)

  datatype TableColumn = TableColumn(id: ColumnId, name: string, columnType: ColumnType, encoding: Encoding)

  /** A field type that has a physical representation: every value type but `Unknown`. */
  predicate IsSupportedField(t: ColumnType)
  {
    t.Field? && t.valueType != Unknown
  }

  // ---------------------------------------------------------------- Arrow

  datatype TimeUnit = Second | Millisecond | Microsecond | Nanosecond

  /** The Arrow data types this mapping produces or inspects; every other Arrow
      type is represented by `Other`, which carries its name. */
  datatype ArrowDataType =
    | Null
    | Boolean
    | Int64
    | UInt64
    | Float64
    | Utf8
    | Timestamp(unit: TimeUnit, timezone: Option<string>)
    | Other(name: string)

  /** `From<ColumnType> for ArrowDataType`. */
  function ToArrow(t: ColumnType): (d: ArrowDataType)
    ensures d.Timestamp? <==> t == Time
    ensures d == Null <==> t == Field(Unknown)
    ensures d == Utf8 <==> t == Tag || t == Field(String)
    ensures !d.Other?
  {
    match t
    case Tag => Utf8
    case Time => Timestamp(Nanosecond, None)
    case Field(Float) => Float64
    case Field(Integer) => Int64
    case Field(Unsigned) => UInt64
    case Field(String) => Utf8
    case Field(Boolean) => ArrowDataType.Boolean
    case _ => Null
  }

  const UnsupportedFieldType: string := "Error field type not supported"

  /** `TryFrom<ArrowDataType> for ColumnType`: only the five supported field
      types are recognised, and a recognised type converts back to itself. */
  function TryFromArrow(d: ArrowDataType): (r: Result<ColumnType, string>)
    ensures r.Ok? ==> IsSupportedField(r.value) && ToArrow(r.value) == d
    ensures r.Err? ==> r.error == UnsupportedFieldType
  {
    match d
    case Float64 => Ok(Field(Float))
    case Int64 => Ok(Field(Integer))
    case UInt64 => Ok(Field(Unsigned))
    case Utf8 => Ok(Field(String))
    case Boolean => Ok(Field(ValueType.Boolean))
    case _ => Err(UnsupportedFieldType)
  }

  /** Round trip through the Arrow type: a supported field type comes back
      unchanged, a tag comes back as a string field, and the time column and
      the unknown field type do not come back at all. */
  lemma ArrowRoundTrip(t: ColumnType)
    ensures IsSupportedField(t) ==> TryFromArrow(ToArrow(t)) == Ok(t)
    ensures t == Tag ==> TryFromArrow(ToArrow(t)) == Ok(Field(String))
    ensures t == Time || t == Field(Unknown) ==> TryFromArrow(ToArrow(t)).Err?
  {
  }

  /** Distinct supported field types have distinct Arrow types, so the
      physical type alone identifies the field type. */
  lemma ToArrowInjectiveOnFields(t1: ColumnType, t2: ColumnType)
    requires IsSupportedField(t1) && IsSupportedField(t2)
    requires ToArrow(t1) == ToArrow(t2)
    ensures t1 == t2
  {
    ArrowRoundTrip(t1);
    ArrowRoundTrip(t2);
  }

  // ---------------------------------------------------------------- numeric tag

  /** `ColumnType::field_type`: the numeric tag of a field type; every other
      column type collapses onto tag 0. */
  function FieldType(t: ColumnType): (code: u8)
    ensures code < 5
    ensures code == 0 <==> !IsSupportedField(t) || t == Field(Float)
  {
    match t
    case Field(Float) => 0
    case Field(Integer) => 1
    case Field(Unsigned) => 2
    case Field(Boolean) => 3
    case Field(String) => 4
    case _ => 0
  }

  /** `ColumnType::from_i32`: tags 0 to 4 are the supported field types, 5 is
      the time column, and every other value is the unknown field type. */
  function FromI32(code: i32): (r: ColumnType)
    ensures IsSupportedField(r) <==> 0 <= code <= 4
    ensures r == Time <==> code == 5
    ensures r == Field(Unknown) <==> code < 0 || 5 < code
    ensures 0 <= code <= 4 ==> FieldType(r) as int == code as int
  {
    match code
    case 0 => Field(Float)
    case 1 => Field(Integer)
    case 2 => Field(Unsigned)
    case 3 => Field(ValueType.Boolean)
    case 4 => Field(String)
    case 5 => Time
    case _ => Field(Unknown)
  }

  /** The numeric tag of a supported field type decodes back to that type. */
  lemma FieldTypeRoundTrip(t: ColumnType)
    requires IsSupportedField(t)
    ensures FieldType(t) < 5
    ensures FromI32(FieldType(t) as int as i32) == t
  {
  }

  // ---------------------------------------------------------------- display

  /** The display name of the unknown field type, spelled as the source spells it. */
  const UnsupportedFieldName: string := "Error filed type not supported"

  /** `ColumnType::as_str`, which is also its `Display` form. */
  function AsStr(t: ColumnType): (name: string)
    ensures 0 < |name|
    ensures name == UnsupportedFieldName <==> t == Field(Unknown)
  {
    match t
    case Tag => "tag"
    case Time => "time"
    case Field(Integer) => "i64"
    case Field(Unsigned) => "u64"
    case Field(Float) => "f64"
    case Field(Boolean) => "bool"
    case Field(String) => "string"
    case _ => UnsupportedFieldName
  }

  /** Every column type but the unknown field type has its own display name. */
  lemma AsStrInjective(t1: ColumnType, t2: ColumnType)
    requires t1 != Field(Unknown) && t2 != Field(Unknown)
    requires AsStr(t1) == AsStr(t2)
    ensures t1 == t2
  {
    match t1
    case Tag => assert AsStr(t1)[0] == 't' && AsStr(t1)[1] == 'a';
    case Time => assert AsStr(t1)[0] == 't' && AsStr(t1)[1] == 'i';
    case Field(Integer) => assert AsStr(t1)[0] == 'i';
    case Field(Unsigned) => assert AsStr(t1)[0] == 'u';
    case Field(Float) => assert AsStr(t1)[0] == 'f';
    case Field(Boolean) => assert AsStr(t1)[0] == 'b';
    case Field(String) => assert AsStr(t1)[0] == 's';
  }

  // ---------------------------------------------------------------- nullability

  /** `TableColumn::nullable`: only the time column is declared non-nullable. */
  function Nullable(c: TableColumn): (nullable: bool)
    ensures nullable <==> ToArrow(c.columnType) != Timestamp(Nanosecond, None)
  {
    !c.columnType.Time?
  }

  /** A column is non-nullable exactly when its physical type is the
      nanosecond timestamp, i.e. exactly when it is the time column. */
  lemma NullableUnlessTimestamp(c: TableColumn)
    ensures !Nullable(c) <==> ToArrow(c.columnType) == Timestamp(Nanosecond, None)
    ensures !Nullable(c) <==> c.columnType == Time
  {
  }
}
