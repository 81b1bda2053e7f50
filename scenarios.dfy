/** Call sequences of the SQL-level interface, proved from the contracts of
    the registry and the query pipeline alone. */
module SphinxScenarios {
  import opened SphinxTypes
  import opened Encoding
  import opened SphinxRegistry
  import opened SphinxQuery

  /** Connecting twice under one name: the second call fails as a duplicate
      and the first session keeps its host and port. */
  method ConnectTwice(reg: Registry, name: string, host1: string, port1: Int32, host2: string, port2: Int32,
                      h1: Handle, init2: Option<Handle>, realConnect: RealConnect)
    returns (first: Result<string>, second: Result<string>)
    requires reg.Valid()
    requires TruncateIdentifier(name) !in reg.entries
    requires realConnect(h1, ConnectParams(host1, "", "", "", port1, "UTF8", true)).None?
    modifies reg
    ensures first == Ok("OK") && second == Err(DUPLICATE_NAME)
    ensures reg.entries == old(reg.entries)[TruncateIdentifier(name) := RemoteConn(Some(h1), port1, HostField(host1))]
  {
    var closed;
    first, closed := reg.Connect(name, host1, port1, "", "", "", Some(h1), realConnect);
    second, closed := reg.Connect(name, host2, port2, "", "", "", init2, realConnect);
  }

  /** Connect "s1", query it for three two-column rows, disconnect, query
      again: OK, three tuples of two fields in fetch order, OK, not available. */
  method ConnectQueryDisconnect(reg: Registry, env: Env, h: Handle, realConnect: RealConnect,
                                server: Server, rows: seq<Tuple>)
    returns (connected: Result<string>, answer: Result<QueryResult>,
             disconnected: Result<string>, after: Result<QueryResult>)
    requires reg.Valid() && "s1" !in reg.entries
    requires realConnect(h, ConnectParams("127.0.0.1", "", "", "", 9306, "UTF8", true)).None?
    requires |rows| == 3 && RowsHaveWidth(rows, 2)
    requires forall q :: server(h, q) == Stored(RawResult(2, rows))
    modifies reg
    ensures connected == Ok("OK") && disconnected == Ok("OK")
    ensures answer.Ok? && answer.value.Tuplestore? && |answer.value.rows| == 3
    ensures forall k :: 0 <= k < 3 ==>
              |answer.value.rows[k]| == 2 && answer.value.rows[k] == MaterializeRow(env, rows[k], 2)
    ensures after == Err(NotAvailable("s1"))
    ensures reg.entries == old(reg.entries)
  {
    var ctx := CallContext(true, true, Composite, 2);
    var closed, released;
    connected, closed := reg.Connect("s1", "127.0.0.1", 9306, "", "", "", Some(h), realConnect);
    answer, released := Query(reg, ctx, env, "s1", "SELECT id,title FROM idx", server);
    MaterializeRowsAt(env, rows, 2);
    disconnected, closed := reg.Disconnect("s1");
    after, released := Query(reg, ctx, env, "s1", "SELECT id,title FROM idx", server);
  }
}
