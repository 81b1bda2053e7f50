/** Values shared by the connection registry, the query pipeline and the
    metadata cursor of sphinxlink: nullable values, raised errors, the
    per-connection record and the classification of a call's result type. */
module SphinxTypes {

  datatype Option<+T> = None | Some(value: T)

  /** The SQLSTATE classes that the extension raises. */
  datatype ErrCode =
    | DuplicateObject         // ERRCODE_DUPLICATE_OBJECT
    | InternalError           // ERRCODE_INTERNAL_ERROR, also what elog(ERROR, ...) reports
    | ConnectionFailure       // ERRCODE_CONNECTION_FAILURE
    | ConnectionDoesNotExist  // ERRCODE_CONNECTION_DOES_NOT_EXIST
    | UndefinedObject         // ERRCODE_UNDEFINED_OBJECT
    | FeatureNotSupported     // ERRCODE_FEATURE_NOT_SUPPORTED
    | DatatypeMismatch        // ERRCODE_DATATYPE_MISMATCH

  /** An error raised with ereport(ERROR, ...): its code and its message text. */
  datatype SqlError = SqlError(code: ErrCode, message: string)

  /** A SQL-callable function either returns a value or raises an error. */
  datatype Result<+T> = Ok(value: T) | Err(error: SqlError)

  /** An opaque MySQL client handle (a MYSQL * of the client library). */
  datatype Handle = Handle(id: nat)

  /** The range of a C int / PostgreSQL int4. */
  type Int32 = x: int | -0x8000_0000 <= x < 0x8000_0000

  /** A remoteConn record: the client handle, the Sphinx port and the host. */
  datatype RemoteConn = RemoteConn(conn: Option<Handle>, port: Int32, host: string)

  /** What get_call_result_type reports about the caller's declared row type:
      TYPEFUNC_COMPOSITE, TYPEFUNC_RECORD, or anything else. */
  datatype ResultType = Composite | Record | Scalar

  const RECORD_CONTEXT_MSG: string :=
    "function returning record called in context that cannot accept type record"

  /** The error sphinx_query raises after its switch on get_call_result_type
      when the caller's type is not a known row type. */
  function ResultTypeError(t: ResultType): (e: Option<SqlError>)
    ensures e.None? <==> t == Composite
    ensures t == Record ==> e == Some(SqlError(FeatureNotSupported, RECORD_CONTEXT_MSG))
    ensures t == Scalar ==> e == Some(SqlError(InternalError, "return type must be a row type"))
  {
    match t
    case Composite => None
    case Record => Some(SqlError(FeatureNotSupported, RECORD_CONTEXT_MSG))
    case Scalar => Some(SqlError(InternalError, "return type must be a row type"))
  }
}
