/** `SqlParameterFactory`: maps the provider-neutral `DbType` to SQL Server's `SqlDbType`
    and builds parameters. Each `Create` overload builds the base parameter and then sets
    the fields its extra arguments name; here each overload is a function whose result is
    a record update of the base parameter. */
module ParameterFactory {
  import opened Wrappers
  import opened SqlTypes
  import opened Driver

  /** The `DbType`s that have a SQL Server counterpart: all named ones except the signed
      byte, the three unsigned integers and `VarNumeric`. */
  predicate Supported(t: DbType) {
    !(t.Unlisted? || t.SByte? || t.UInt16? || t.UInt32? || t.UInt64? || t.VarNumeric?)
  }

  /** The switch of `ConvertDbTypeToSqlDbType`: the SQL Server type chosen for each
      `DbType`, `None` where the switch throws. */
  function SqlCounterpart(t: DbType): Option<SqlDbType> {
    match t
    case AnsiString => Some(SqlDbType.VarChar)
    case AnsiStringFixedLength => Some(SqlDbType.Char)
    case Binary => Some(SqlDbType.Binary)
    case Boolean => Some(SqlDbType.Bit)
    case Byte => Some(SqlDbType.TinyInt)
    case Currency => Some(SqlDbType.Money)
    case Date => Some(SqlDbType.Date)
    case DateTime => Some(SqlDbType.DateTime)
    case DateTime2 => Some(SqlDbType.DateTime2)
    case DateTimeOffset => Some(SqlDbType.DateTimeOffset)
    case Decimal => Some(SqlDbType.Decimal)
    case Double => Some(SqlDbType.Float)
    case Guid => Some(SqlDbType.UniqueIdentifier)
    case Int16 => Some(SqlDbType.SmallInt)
    case Int32 => Some(SqlDbType.Int)
    case Int64 => Some(SqlDbType.BigInt)
    case Object => Some(SqlDbType.Variant)
    case SByte => None
    case Single => Some(SqlDbType.Real)
    case String => Some(SqlDbType.NVarChar)
    case StringFixedLength => Some(SqlDbType.NChar)
    case Time => Some(SqlDbType.Time)
    case UInt16 => None
    case UInt32 => None
    case UInt64 => None
    case VarNumeric => None
    case Xml => Some(SqlDbType.Xml)
    case Unlisted(_) => None
  }

  /** `ConvertDbTypeToSqlDbType`: succeeds exactly on the supported types; the others
      fail with an `ArgumentException` naming the type. */
  function ConvertDbTypeToSqlDbType(t: DbType): (r: Result<SqlDbType, Error>)
    ensures r.Success? <==> Supported(t)
    ensures r.Failure? ==> r.error == UnsupportedDbType(t)
  {
    match SqlCounterpart(t)
    case Some(sqlType) => Success(sqlType)
    case None => Failure(UnsupportedDbType(t))
  }

  /** The SQL Server type chosen reports the original `DbType` back. */
  lemma ConvertReportsBack(t: DbType)
    requires ConvertDbTypeToSqlDbType(t).Success?
    ensures ReportedDbType(ConvertDbTypeToSqlDbType(t).value) == Some(t)
  {
  }

  /** No two supported `DbType`s map to the same SQL Server type. */
  lemma ConvertIsInjective(a: DbType, b: DbType)
    requires ConvertDbTypeToSqlDbType(a).Success? && ConvertDbTypeToSqlDbType(b).Success?
    requires ConvertDbTypeToSqlDbType(a).value == ConvertDbTypeToSqlDbType(b).value
    ensures a == b
  {
    ConvertReportsBack(a);
    ConvertReportsBack(b);
  }

  /** Every SQL Server type that reports a `DbType` is the one that `DbType` maps to. */
  lemma ConvertInvertsReported(s: SqlDbType)
    requires ReportedDbType(s).Some?
    ensures ConvertDbTypeToSqlDbType(ReportedDbType(s).value) == Success(s)
  {
  }

  /** The factory object that other classes are given (`IParameterCreation`); its `Create`
      overloads are the functions of this module. */
  class SqlParameterFactory {
    constructor ()
    {
    }
  }

  /** What a caller asks of `Create`: the base arguments and the fields an overload sets;
      an overload without a value passes null, one without direction, size or precision
      leaves the client's defaults (input, 0, 0). */
  datatype Request = Request(
    name: string,
    dbType: DbType,
    value: Option<ClrObject>,
    direction: ParameterDirection,
    size: int32,
    precision: byte)

  /** `r` is what the factory must produce for `q`: an `ArgumentException` naming the type
      when it has no SQL Server counterpart; otherwise a parameter with the requested name,
      a SQL Server type that reports the requested `DbType`, the value with null replaced
      by `DBNull`, and the requested direction, size and precision. */
  ghost predicate Fulfils(r: Result<Parameter, Error>, q: Request) {
    && (r.Success? <==> Supported(q.dbType))
    && (r.Failure? ==> r.error == UnsupportedDbType(q.dbType))
    && (r.Success? ==>
          && r.value.name == q.name
          && ReportedDbType(r.value.sqlDbType) == Some(q.dbType)
          && r.value.value == (if q.value.None? then DbNull else Value(q.value.value))
          && r.value.direction == q.direction
          && r.value.size == q.size
          && r.value.precision == q.precision)
  }

  /** A request determines its result: at most one result fulfils it. */
  lemma {:induction false} FulfilsDeterminesResult(r1: Result<Parameter, Error>, r2: Result<Parameter, Error>, q: Request)
    requires Fulfils(r1, q) && Fulfils(r2, q)
    ensures r1 == r2
  {
    if r1.Success? {
      ConvertInvertsReported(r1.value.sqlDbType);
      ConvertInvertsReported(r2.value.sqlDbType);
    }
  }

  /** `Create(name, type, value)`. The type is converted first, so an unsupported type
      fails before any value is assigned. */
  function Create(name: string, dbType: DbType, value: Option<ClrObject>): (r: Result<Parameter, Error>)
    ensures Fulfils(r, Request(name, dbType, value, Input, 0, 0))
    ensures r.Success? ==> r.value.value != Unassigned
  {
    match ConvertDbTypeToSqlDbType(dbType)
    case Failure(e) => Failure(e)
    case Success(sqlType) =>
      ConvertReportsBack(dbType);
      var param := NewParameter(name, sqlType);
      Success(if value.None? then param.(value := DbNull) else param.(value := Value(value.value)))
  }

  /** `Create(name, type, direction)`: no value, so the value is `DBNull`. */
  function CreateWithDirection(name: string, dbType: DbType, direction: ParameterDirection): (r: Result<Parameter, Error>)
    ensures Fulfils(r, Request(name, dbType, None, direction, 0, 0))
  {
    match Create(name, dbType, None)
    case Failure(e) => Failure(e)
    case Success(param) => Success(param.(direction := direction))
  }

  /** `Create(name, type, value, direction)`. */
  function CreateWithValueAndDirection(name: string, dbType: DbType, value: Option<ClrObject>, direction: ParameterDirection): (r: Result<Parameter, Error>)
    ensures Fulfils(r, Request(name, dbType, value, direction, 0, 0))
  {
    match Create(name, dbType, value)
    case Failure(e) => Failure(e)
    case Success(param) => Success(param.(direction := direction))
  }

  /** `Create(name, type, value, size)`. */
  function CreateWithSize(name: string, dbType: DbType, value: Option<ClrObject>, size: int32): (r: Result<Parameter, Error>)
    ensures Fulfils(r, Request(name, dbType, value, Input, size, 0))
  {
    match Create(name, dbType, value)
    case Failure(e) => Failure(e)
    case Success(param) => Success(param.(size := size))
  }

  /** `Create(name, type, value, size, direction)`. */
  function CreateWithSizeAndDirection(name: string, dbType: DbType, value: Option<ClrObject>, size: int32, direction: ParameterDirection): (r: Result<Parameter, Error>)
    ensures Fulfils(r, Request(name, dbType, value, direction, size, 0))
  {
    match Create(name, dbType, value)
    case Failure(e) => Failure(e)
    case Success(param) => Success(param.(direction := direction).(size := size))
  }

  /** `Create(name, type, value, size, precision)`. */
  function CreateWithPrecision(name: string, dbType: DbType, value: Option<ClrObject>, size: int32, precision: byte): (r: Result<Parameter, Error>)
    ensures Fulfils(r, Request(name, dbType, value, Input, size, precision))
  {
    match Create(name, dbType, value)
    case Failure(e) => Failure(e)
    case Success(param) => Success(param.(size := size).(precision := precision))
  }

  /** `Create(name, type, value, size, precision, direction)`. */
  function CreateWithPrecisionAndDirection(name: string, dbType: DbType, value: Option<ClrObject>, size: int32, precision: byte, direction: ParameterDirection): (r: Result<Parameter, Error>)
    ensures Fulfils(r, Request(name, dbType, value, direction, size, precision))
  {
    match Create(name, dbType, value)
    case Failure(e) => Failure(e)
    case Success(param) => Success(param.(direction := direction).(size := size).(precision := precision))
  }

  /** A decimal parameter with size 10 and precision 3 keeps its value, size and precision,
      reports `Decimal` back and is an input parameter; an unsigned 32-bit type is refused. */
  lemma DecimalAndUnsignedExamples(v: ClrObject)
    ensures var r := CreateWithPrecision("@TestParam", DbType.Decimal, Some(v), 10, 3);
      && r.Success?
      && r.value.name == "@TestParam"
      && ReportedDbType(r.value.sqlDbType) == Some(DbType.Decimal)
      && r.value.value == Value(v)
      && r.value.size == 10 && r.value.precision == 3
      && r.value.direction == Input
    ensures Create("@TestParam", DbType.UInt32, Some(v)) == Failure(UnsupportedDbType(DbType.UInt32))
  {
  }
}
