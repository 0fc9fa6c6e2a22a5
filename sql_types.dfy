/** The enumerations of the database client that the data-access layer passes around:
    the provider-neutral `DbType`, SQL Server's own `SqlDbType`, the direction of a
    parameter and the kind of a command. */
module SqlTypes {
  import opened Wrappers

  /** `System.Data.DbType`. The enumeration is an integer underneath, so any other integer
      can be cast to it; `Unlisted(code)` stands for such a value, and is meant only for
      codes that are none of the named members' values. */
  datatype DbType =
    | AnsiString | Binary | Byte | Boolean | Currency | Date | DateTime | Decimal
    | Double | Guid | Int16 | Int32 | Int64 | Object | SByte | Single | String | Time
    | UInt16 | UInt32 | UInt64 | VarNumeric | AnsiStringFixedLength | StringFixedLength
    | Xml | DateTime2 | DateTimeOffset
    | Unlisted(code: int)

  /** `System.Data.SqlDbType`. */
  datatype SqlDbType =
    | BigInt | Binary | Bit | Char | DateTime | Decimal | Float | Image | Int | Money
    | NChar | NText | NVarChar | Real | UniqueIdentifier | SmallDateTime | SmallInt
    | SmallMoney | Text | Timestamp | TinyInt | VarBinary | VarChar | Variant | Xml
    | Udt | Structured | Date | Time | DateTime2 | DateTimeOffset

  /** `System.Data.ParameterDirection`. */
  datatype ParameterDirection = Input | Output | InputOutput | ReturnValue

  /** `System.Data.CommandType`. */
  datatype CommandType = Text | StoredProcedure | TableDirect

  /** The `DbType` a SQL Server parameter reports (`SqlParameter.DbType`), for the SQL
      Server types the parameter factory produces. The nine others also report a `DbType`
      in the client (`Text` reports `AnsiString`, `VarBinary` reports `Binary`, and so on),
      but the factory never produces them, and here they report `None`. */
  function ReportedDbType(t: SqlDbType): Option<DbType> {
    match t
    case VarChar => Some(DbType.AnsiString)
    case Char => Some(DbType.AnsiStringFixedLength)
    case Binary => Some(DbType.Binary)
    case Bit => Some(DbType.Boolean)
    case TinyInt => Some(DbType.Byte)
    case Money => Some(DbType.Currency)
    case Date => Some(DbType.Date)
    case DateTime => Some(DbType.DateTime)
    case DateTime2 => Some(DbType.DateTime2)
    case DateTimeOffset => Some(DbType.DateTimeOffset)
    case Decimal => Some(DbType.Decimal)
    case Float => Some(DbType.Double)
    case UniqueIdentifier => Some(DbType.Guid)
    case SmallInt => Some(DbType.Int16)
    case Int => Some(DbType.Int32)
    case BigInt => Some(DbType.Int64)
    case Variant => Some(DbType.Object)
    case Real => Some(DbType.Single)
    case NVarChar => Some(DbType.String)
    case NChar => Some(DbType.StringFixedLength)
    case Time => Some(DbType.Time)
    case Xml => Some(DbType.Xml)
    case Image | NText | SmallDateTime | SmallMoney | Text | Timestamp | VarBinary | Udt | Structured => None
  }
}
