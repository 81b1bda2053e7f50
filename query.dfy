/** sphinx_query: sends a query over a named connection, checks the shape of
    the stored result against the caller's row type and materialises every
    fetched row, field by field through the encoding adapter, into the
    tuplestore handed back to the executor. */
module SphinxQuery {
  import opened SphinxTypes
  import opened Encoding
  import opened SphinxRegistry

  /** One fetched row (MYSQL_ROW) or one output tuple: None is SQL NULL. */
  type Tuple = seq<Option<string>>

  /** Every row of the result has exactly `nfields` fields. */
  ghost predicate RowsHaveWidth(rows: seq<Tuple>, nfields: nat)
  {
    forall k :: 0 <= k < |rows| ==> |rows[k]| == nfields
  }

  /** A MYSQL_RES as mysql_store_result leaves it: mysql_num_fields and the
      rows that mysql_fetch_row will hand out, each of that width. */
  datatype RawResult = RawResult(nfields: nat, rows: seq<Tuple>)
  type MysqlResult = r: RawResult | RowsHaveWidth(r.rows, r.nfields) witness RawResult(0, [])

  /** The outcome of mysql_query followed by mysql_store_result. */
  datatype Reply = SendFailed(err: string) | StoreFailed(err: string) | Stored(res: MysqlResult)

  /** The remote server: the reply to a query text sent over a handle. */
  type Server = (Handle, string) -> Reply

  /** What the executor supplies through fcinfo: whether a set may be
      returned (rsinfo is a ReturnSetInfo), whether materialize mode is
      allowed, the class of the declared result type and its column count. */
  datatype CallContext = CallContext(returnsSet: bool, materializeAllowed: bool,
                                     resultType: ResultType, natts: nat)

  /** PG_RETURN_NULL(), an empty result (no tuplestore), or a tuplestore. */
  datatype QueryResult = NullResult | EmptySet | Tuplestore(rows: seq<Tuple>)

  const NOT_A_SET_MSG := "set-valued function called in context that cannot accept a set"
  const NO_MATERIALIZE_MSG := "materialize mode required, but it is not allowed in this context"
  const ROWTYPE_MISMATCH_MSG := "remote query result rowtype does not match the specified FROM clause rowtype"

  /** One field: NULL stays NULL, a value goes through toMyDatabaseEncoding. */
  function EncodeField(env: Env, field: Option<string>): (f: Option<string>)
    ensures f.None? <==> field.None?
    ensures field.Some? ==> f.value == ToMyDatabaseEncoding(env, field.value).value
  {
    match field
    case None => None
    case Some(v) => Some(ToMyDatabaseEncoding(env, v).value)
  }

  /** The values array built for one row: exactly `nfields` entries, entry i
      from field i. */
  function MaterializeRow(env: Env, row: Tuple, nfields: nat): (t: Tuple)
    requires |row| >= nfields
    ensures |t| == nfields
    ensures forall i :: 0 <= i < nfields ==> (t[i].None? <==> row[i].None?)
    ensures forall i :: 0 <= i < nfields && row[i].Some? ==>
              t[i] == Some(ToMyDatabaseEncoding(env, row[i].value).value)
  {
    seq(nfields, i requires 0 <= i < nfields => EncodeField(env, row[i]))
  }

  /** The tuplestore after all of `rows` were fetched: one tuple appended per row. */
  function MaterializeRows(env: Env, rows: seq<Tuple>, nfields: nat): seq<Tuple>
    requires RowsHaveWidth(rows, nfields)
  {
    if |rows| == 0 then []
    else MaterializeRows(env, rows[..|rows| - 1], nfields) + [MaterializeRow(env, rows[|rows| - 1], nfields)]
  }

  /** One output tuple per fetched row, in fetch order: tuple k is row k materialised. */
  lemma {:induction false} MaterializeRowsAt(env: Env, rows: seq<Tuple>, nfields: nat)
    requires RowsHaveWidth(rows, nfields)
    ensures |MaterializeRows(env, rows, nfields)| == |rows|
    ensures forall k :: 0 <= k < |rows| ==>
              MaterializeRows(env, rows, nfields)[k] == MaterializeRow(env, rows[k], nfields)
  {
    if |rows| > 0 {
      var init := rows[..|rows| - 1];
      assert RowsHaveWidth(init, nfields) by {
        forall k | 0 <= k < |init| ensures |init[k]| == nfields {
          assert init[k] == rows[k];
        }
      }
      MaterializeRowsAt(env, init, nfields);
    }
  }

  /** Field i of output tuple k is NULL exactly when field i of row k is,
      and otherwise is that field in the database encoding. */
  lemma MaterializedFieldAt(env: Env, rows: seq<Tuple>, nfields: nat, k: nat, i: nat)
    requires RowsHaveWidth(rows, nfields)
    requires k < |rows| && i < nfields
    ensures |MaterializeRows(env, rows, nfields)| == |rows|
    ensures |MaterializeRows(env, rows, nfields)[k]| == nfields
    ensures MaterializeRows(env, rows, nfields)[k][i].None? <==> rows[k][i].None?
    ensures rows[k][i].Some? ==>
              MaterializeRows(env, rows, nfields)[k][i] == Some(ToMyDatabaseEncoding(env, rows[k][i].value).value)
  {
    MaterializeRowsAt(env, rows, nfields);
  }

  /** With a UTF-8 database the tuplestore holds the fetched rows unchanged. */
  lemma {:induction false} Utf8MaterializeIsIdentity(env: Env, rows: seq<Tuple>, nfields: nat)
    requires env.database == PG_UTF8
    requires RowsHaveWidth(rows, nfields)
    ensures MaterializeRows(env, rows, nfields) == rows
  {
    if |rows| > 0 {
      var init := rows[..|rows| - 1];
      assert RowsHaveWidth(init, nfields) by {
        forall k | 0 <= k < |init| ensures |init[k]| == nfields {
          assert init[k] == rows[k];
        }
      }
      Utf8MaterializeIsIdentity(env, init, nfields);
      var last := rows[|rows| - 1];
      assert MaterializeRow(env, last, nfields) == last;
      assert init + [last] == rows;
    }
  }

  /** The shape check and what follows it, once a result is stored and the
      declared type is composite with `natts` columns. */
  function ShapeAndMaterialize(env: Env, res: MysqlResult, natts: nat): (r: Result<QueryResult>)
  {
    if res.nfields != natts then
      if |res.rows| == 0 then Ok(NullResult)
      else Err(SqlError(DatatypeMismatch, ROWTYPE_MISMATCH_MSG))
    else if |res.rows| > 0 then Ok(Tuplestore(MaterializeRows(env, res.rows, res.nfields)))
    else Ok(EmptySet)
  }

  /** The three outcomes of the shape check: a width mismatch is forgiven
      (NULL result) only when no row came back, is an error otherwise, and
      equal widths give one materialised tuple per row. */
  lemma ShapeCheckOutcomes(env: Env, res: MysqlResult, natts: nat)
    ensures res.nfields != natts && |res.rows| == 0 ==> ShapeAndMaterialize(env, res, natts) == Ok(NullResult)
    ensures res.nfields != natts && |res.rows| > 0 ==>
              ShapeAndMaterialize(env, res, natts) == Err(SqlError(DatatypeMismatch, ROWTYPE_MISMATCH_MSG))
    ensures res.nfields == natts ==> ShapeAndMaterialize(env, res, natts).Ok?
    ensures res.nfields == natts && |res.rows| > 0 ==>
              ShapeAndMaterialize(env, res, natts).value.Tuplestore?
              && |ShapeAndMaterialize(env, res, natts).value.rows| == |res.rows|
              && forall k :: 0 <= k < |res.rows| ==>
                   |ShapeAndMaterialize(env, res, natts).value.rows[k]| == natts
  {
    if res.nfields == natts && |res.rows| > 0 {
      MaterializeRowsAt(env, res.rows, res.nfields);
    }
  }

  /** The outcome of one call of sphinx_query against the registry contents `entries`. */
  function QueryOutcome(ctx: CallContext, env: Env, entries: map<string, RemoteConn>,
                        conname: string, query: string, server: Server): (r: Result<QueryResult>)
  {
    if !ctx.returnsSet then Err(SqlError(FeatureNotSupported, NOT_A_SET_MSG))
    else if !ctx.materializeAllowed then Err(SqlError(FeatureNotSupported, NO_MATERIALIZE_MSG))
    else match ConnHandle(entries, conname)
      case None => Err(NotAvailable(conname))
      case Some(h) => QueryOutcomeFor(ctx, env, server(h, ToUTF8Encoding(env, query).value))
  }

  /** A query over a name that the registry does not hold fails with
      "connection ... is not available" and sends nothing. */
  lemma UnknownConnectionFails(ctx: CallContext, env: Env, entries: map<string, RemoteConn>,
                               conname: string, query: string, server: Server)
    requires ctx.returnsSet && ctx.materializeAllowed
    requires TruncateIdentifier(conname) !in entries
    ensures QueryOutcome(ctx, env, entries, conname, query, server) == Err(NotAvailable(conname))
  {
  }

  /** The remote server sees the query text in UTF-8 when it must be converted. */
  lemma QueryIsSentInUtf8(ctx: CallContext, env: Env, entries: map<string, RemoteConn>,
                          conname: string, query: string, server: Server)
    requires ctx.returnsSet && ctx.materializeAllowed
    requires ConnHandle(entries, conname).Some?
    requires env.database != PG_UTF8 && env.client == PG_UTF8
    ensures QueryOutcome(ctx, env, entries, conname, query, server) ==
              QueryOutcomeFor(ctx, env, server(ConnHandle(entries, conname).value,
                                               env.convert(query, env.database, PG_UTF8)))
  {
  }

  /** The part of QueryOutcome that follows dispatch: the reply to the sent text. */
  function QueryOutcomeFor(ctx: CallContext, env: Env, reply: Reply): Result<QueryResult>
  {
    match reply
    case SendFailed(e) => Err(SqlError(ConnectionFailure, "Error when send query to Sphinx: " + e))
    case StoreFailed(e) => Err(SqlError(ConnectionFailure, "Error storing results: " + e))
    case Stored(res) =>
      match ResultTypeError(ctx.resultType)
      case Some(e) => Err(e)
      case None => ShapeAndMaterialize(env, res, ctx.natts)
  }

  /** sphinx_query. `released` tells whether mysql_free_result was called on
      the stored result. */
  method Query(reg: Registry, ctx: CallContext, env: Env, conname: string, query: string, server: Server)
    returns (r: Result<QueryResult>, released: bool)
    requires reg.Valid()
    modifies reg
    ensures reg.Valid() && reg.entries == old(reg.entries)
    ensures ctx.returnsSet && ctx.materializeAllowed ==> reg.created && reg.pconn.Some?
    ensures !(ctx.returnsSet && ctx.materializeAllowed) ==>
              reg.created == old(reg.created) && reg.pconn == old(reg.pconn)
    ensures r == QueryOutcome(ctx, env, old(reg.entries), conname, query, server)
    ensures released <==> r.Ok? && r.value.Tuplestore?
  {
    released := false;
    if !ctx.returnsSet {
      return Err(SqlError(FeatureNotSupported, NOT_A_SET_MSG)), false;
    }
    if !ctx.materializeAllowed {
      return Err(SqlError(FeatureNotSupported, NO_MATERIALIZE_MSG)), false;
    }
    reg.SphinxInit();
    var c := reg.GetConn(conname);
    if c.Err? {
      return Err(c.error), false;
    }
    var conn := c.value.conn.value;
    var encodedQuery := ToUTF8Encoding(env, query);
    var reply := server(conn, encodedQuery.value);
    if reply.SendFailed? {
      return Err(SqlError(ConnectionFailure, "Error when send query to Sphinx: " + reply.err)), false;
    }
    if reply.StoreFailed? {
      return Err(SqlError(ConnectionFailure, "Error storing results: " + reply.err)), false;
    }
    var res := reply.res;
    var ntuples := |res.rows|;
    var nfields := res.nfields;
    var typeError := ResultTypeError(ctx.resultType);
    if typeError.Some? {
      return Err(typeError.value), false;
    }
    if nfields != ctx.natts {
      if ntuples == 0 {
        return Ok(NullResult), false;
      }
      return Err(SqlError(DatatypeMismatch, ROWTYPE_MISMATCH_MSG)), false;
    }
    if ntuples > 0 {
      var tupstore: seq<Tuple> := [];
      var values := new Option<string>[nfields];
      var fetched := 0;
      while fetched < ntuples
        modifies values
        invariant 0 <= fetched <= ntuples
        invariant tupstore == MaterializeRows(env, res.rows[..fetched], nfields)
      {
        var row := res.rows[fetched];
        for i := 0 to nfields
          modifies values
          invariant forall j :: 0 <= j < i ==> values[j] == EncodeField(env, row[j])
        {
          if row[i].None? {
            values[i] := None;
          } else {
            var encvalue := ToMyDatabaseEncoding(env, row[i].value);
            values[i] := Some(encvalue.value);
          }
        }
        assert values[..] == MaterializeRow(env, row, nfields);
        assert res.rows[..fetched + 1][..fetched] == res.rows[..fetched];
        tupstore := tupstore + [values[..]];
        fetched := fetched + 1;
      }
      assert res.rows[..ntuples] == res.rows;
      released := true;
      r := Ok(Tuplestore(tupstore));
    } else {
      r := Ok(EmptySet);
    }
  }

  // ---------------------------------------------------------------------
  // The per-row clean-up as written: after building each tuple the source
  // calls pfree on every slot of the values array, NULL slots included.
  // pfree of a NULL pointer is not allowed in PostgreSQL (it reads the chunk
  // header in front of the pointer), so any NULL field ends the backend.

  /** The fate of one fetched row as the source is written. */
  datatype RowStep = Appended(t: Tuple) | BackendCrash

  /** Row step as written: the tuple is built, then every slot is freed. */
  function MaterializeRowAsWritten(env: Env, row: Tuple, nfields: nat): (s: RowStep)
    requires |row| >= nfields
    ensures s.BackendCrash? <==> exists i :: 0 <= i < nfields && row[i].None?
    ensures s.Appended? ==> s.t == MaterializeRow(env, row, nfields)
  {
    var values := MaterializeRow(env, row, nfields);
    if forall i :: 0 <= i < nfields ==> values[i].Some? then Appended(values) else BackendCrash
  }

  /** A single NULL field is enough: as written the row crashes the backend,
      while the corrected row keeps the NULL. */
  lemma NullFieldCrashesAsWritten(env: Env)
    ensures MaterializeRowAsWritten(env, [None], 1) == BackendCrash
    ensures MaterializeRow(env, [None], 1) == [None]
  {
    assert MaterializeRow(env, [None], 1)[0] == None;
  }
}
