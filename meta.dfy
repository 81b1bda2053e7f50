/** sphinx_meta: a set-returning function that sends SHOW META once, on its
    first call, keeps the stored result across calls and hands out one
    (varname, value) row per call until call_cntr reaches max_calls; the
    call after the last row frees the stored result. */
module SphinxMeta {
  import opened SphinxTypes
  import opened Encoding
  import opened SphinxRegistry

  const SHOW_META := "SHOW META;"

  /** The outcome of mysql_query("SHOW META;") and mysql_store_result: the
      stored (varname, value) rows. */
  datatype MetaReply = MetaSendFailed(err: string) | MetaStoreFailed(err: string)
                     | MetaStored(rows: seq<(string, string)>)

  type MetaServer = (Handle, string) -> MetaReply

  /** What one call returns: a row, the (Datum) 0 row returned when the
      fetch comes back empty before max_calls, or the end of the set. */
  datatype MetaStep = MetaRow(varname: string, value: string) | NullDatum | MetaDone

  /** What the first call establishes: the stored rows, or the error it raises.
      Unlike sphinx_query, every non-composite result type raises the
      record-context error here. */
  function MetaStart(entries: map<string, RemoteConn>, resultType: ResultType,
                     conname: string, server: MetaServer): (r: Result<seq<(string, string)>>)
    ensures TruncateIdentifier(conname) !in entries ==> r == Err(NotAvailable(conname))
    ensures ConnHandle(entries, conname).Some? ==>
              var reply := server(ConnHandle(entries, conname).value, SHOW_META);
              && (reply.MetaSendFailed? ==>
                    r == Err(SqlError(ConnectionFailure, "Error when send query to Sphinx: " + reply.err)))
              && (reply.MetaStoreFailed? ==>
                    r == Err(SqlError(ConnectionFailure, "Error storing results: " + reply.err)))
              && (reply.MetaStored? && resultType != Composite ==>
                    r == Err(SqlError(FeatureNotSupported, RECORD_CONTEXT_MSG)))
              && (reply.MetaStored? && resultType == Composite ==> r == Ok(reply.rows))
    ensures r.Ok? ==> resultType == Composite && ConnHandle(entries, conname).Some?
                      && server(ConnHandle(entries, conname).value, SHOW_META) == MetaStored(r.value)
  {
    match ConnHandle(entries, conname)
    case None => Err(NotAvailable(conname))
    case Some(h) =>
      match server(h, SHOW_META)
      case MetaSendFailed(e) => Err(SqlError(ConnectionFailure, "Error when send query to Sphinx: " + e))
      case MetaStoreFailed(e) => Err(SqlError(ConnectionFailure, "Error storing results: " + e))
      case MetaStored(rows) =>
        if resultType != Composite then Err(SqlError(FeatureNotSupported, RECORD_CONTEXT_MSG))
        else Ok(rows)
  }

  /** The cross-call state of sphinx_meta: the stored result (fctx->res),
      its fetch position, the executor's call_cntr and max_calls, and how
      often mysql_free_result was called on the result. */
  class MetaCursor {
    const rows: seq<(string, string)>
    var fetched: nat
    var callCntr: nat
    const maxCalls: nat
    var releaseCount: nat

    /** max_calls is the row count and every call before the last fetches one row. */
    ghost predicate Valid()
      reads this
    {
      maxCalls == |rows| && fetched == callCntr <= maxCalls && releaseCount <= 1
      && (releaseCount == 1 ==> callCntr == maxCalls)
    }

    /** The first-call set-up: fctx->res = res, max_calls = mysql_num_rows(res). */
    constructor (stored: seq<(string, string)>)
      ensures Valid()
      ensures rows == stored && callCntr == 0 && releaseCount == 0
    {
      rows := stored;
      maxCalls := |stored|;
      fetched, callCntr, releaseCount := 0, 0, 0;
    }

    /** The per-call part: while call_cntr < max_calls fetch a row and return
        it re-encoded; otherwise free the stored result and end the set. */
    method Call(env: Env) returns (s: MetaStep)
      requires Valid()
      requires releaseCount == 0
      modifies this
      ensures Valid()
      ensures old(callCntr) < maxCalls ==>
                s == MetaRow(ToMyDatabaseEncoding(env, rows[old(callCntr)].0).value,
                             ToMyDatabaseEncoding(env, rows[old(callCntr)].1).value)
                && callCntr == old(callCntr) + 1 && releaseCount == 0
      ensures old(callCntr) == maxCalls ==>
                s == MetaDone && callCntr == old(callCntr) && releaseCount == 1
    {
      if callCntr < maxCalls {
        if fetched < |rows| {
          var row := rows[fetched];
          fetched := fetched + 1;
          var name := ToMyDatabaseEncoding(env, row.0);
          var value := ToMyDatabaseEncoding(env, row.1);
          s := MetaRow(name.value, value.value);
        } else {
          s := NullDatum;
        }
        callCntr := callCntr + 1;
      } else {
        releaseCount := releaseCount + 1;
        s := MetaDone;
      }
    }
  }

  /** The first call of sphinx_meta up to its per-call part: SPHINX_GETCONN,
      SHOW META, the cursor set-up and the result type check. */
  method MetaFirstCall(reg: Registry, resultType: ResultType, conname: string, server: MetaServer)
    returns (r: Result<MetaCursor>)
    requires reg.Valid()
    modifies reg
    ensures reg.Valid() && reg.created && reg.pconn.Some? && reg.entries == old(reg.entries)
    ensures r.Err? <==> MetaStart(old(reg.entries), resultType, conname, server).Err?
    ensures r.Err? ==> r.error == MetaStart(old(reg.entries), resultType, conname, server).error
    ensures r.Ok? ==> fresh(r.value) && r.value.Valid() && r.value.callCntr == 0 && r.value.releaseCount == 0
                      && r.value.rows == MetaStart(old(reg.entries), resultType, conname, server).value
  {
    reg.SphinxInit();
    var c := reg.GetConn(conname);
    if c.Err? {
      return Err(c.error);
    }
    var reply := server(c.value.conn.value, SHOW_META);
    if reply.MetaSendFailed? {
      return Err(SqlError(ConnectionFailure, "Error when send query to Sphinx: " + reply.err));
    }
    if reply.MetaStoreFailed? {
      return Err(SqlError(ConnectionFailure, "Error storing results: " + reply.err));
    }
    var cursor := new MetaCursor(reply.rows);
    if resultType != Composite {
      return Err(SqlError(FeatureNotSupported, RECORD_CONTEXT_MSG));
    }
    r := Ok(cursor);
  }

  /** A later call: SPHINX_GETCONN again, then the per-call part. */
  method MetaNextCall(reg: Registry, cursor: MetaCursor, env: Env, conname: string)
    returns (r: Result<MetaStep>)
    requires reg.Valid() && cursor.Valid() && cursor.releaseCount == 0
    modifies reg, cursor
    ensures reg.Valid() && reg.entries == old(reg.entries) && cursor.Valid()
    ensures TruncateIdentifier(conname) !in old(reg.entries) ==>
              r == Err(NotAvailable(conname)) && cursor.callCntr == old(cursor.callCntr)
              && cursor.releaseCount == 0
    ensures TruncateIdentifier(conname) in old(reg.entries) && old(cursor.callCntr) < cursor.maxCalls ==>
              r == Ok(MetaRow(ToMyDatabaseEncoding(env, cursor.rows[old(cursor.callCntr)].0).value,
                              ToMyDatabaseEncoding(env, cursor.rows[old(cursor.callCntr)].1).value))
              && cursor.callCntr == old(cursor.callCntr) + 1 && cursor.releaseCount == 0
    ensures TruncateIdentifier(conname) in old(reg.entries) && old(cursor.callCntr) == cursor.maxCalls ==>
              r == Ok(MetaDone) && cursor.callCntr == old(cursor.callCntr) && cursor.releaseCount == 1
  {
    reg.SphinxInit();
    var c := reg.GetConn(conname);
    if c.Err? {
      return Err(c.error);
    }
    var s := cursor.Call(env);
    r := Ok(s);
  }

  /** The executor's whole scan, first call to end of set, with the registry
      left alone in between: every stored row is returned once, in order,
      and the stored result is freed exactly once. */
  method SphinxMeta(reg: Registry, resultType: ResultType, env: Env, conname: string, server: MetaServer)
    returns (r: Result<seq<(string, string)>>, releases: nat)
    requires reg.Valid()
    modifies reg
    ensures reg.Valid() && reg.entries == old(reg.entries)
    ensures MetaStart(old(reg.entries), resultType, conname, server).Err? ==>
              r == Err(MetaStart(old(reg.entries), resultType, conname, server).error) && releases == 0
    ensures MetaStart(old(reg.entries), resultType, conname, server).Ok? ==>
              var stored := MetaStart(old(reg.entries), resultType, conname, server).value;
              r.Ok? && |r.value| == |stored| && releases == 1
              && forall k :: 0 <= k < |stored| ==>
                   r.value[k] == (ToMyDatabaseEncoding(env, stored[k].0).value,
                                  ToMyDatabaseEncoding(env, stored[k].1).value)
  {
    var first := MetaFirstCall(reg, resultType, conname, server);
    if first.Err? {
      return Err(first.error), 0;
    }
    var cursor := first.value;
    var out: seq<(string, string)> := [];
    var done := false;
    while !done
      modifies cursor
      invariant cursor.Valid() && fresh(cursor)
      invariant cursor.rows == MetaStart(old(reg.entries), resultType, conname, server).value
      invariant |out| == cursor.callCntr
      invariant forall k :: 0 <= k < |out| ==>
                  out[k] == (ToMyDatabaseEncoding(env, cursor.rows[k].0).value,
                             ToMyDatabaseEncoding(env, cursor.rows[k].1).value)
      invariant done <==> cursor.releaseCount == 1
      decreases cursor.maxCalls - cursor.callCntr, if done then 0 else 1
    {
      var s := cursor.Call(env);
      if s.MetaRow? {
        out := out + [(s.varname, s.value)];
      } else {
        done := true;
      }
    }
    r := Ok(out);
    releases := cursor.releaseCount;
  }
}
