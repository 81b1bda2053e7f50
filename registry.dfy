/** The process-wide named-connection registry of sphinxlink: the hash table
    remoteConnHash (connection name -> remoteConn), created on first use,
    the default record pconn, and the SQL-callable functions sphinx_connect,
    sphinx_disconnect and sphinx_connections that work on them. */
module SphinxRegistry {
  import opened SphinxTypes

  /** PostgreSQL's NAMEDATALEN: identifiers keep at most NAMEDATALEN - 1 bytes.
      Throughout the model a `char` stands for one byte of the C string. */
  const NAMEDATALEN: nat := 64
  /** Size of the host buffer of a remoteConn. */
  const MAXHOSTLEN: nat := 1024

  /** truncate_identifier: a name of NAMEDATALEN or more characters (bytes)
      is cut to its first NAMEDATALEN - 1; shorter names are kept. */
  function TruncateIdentifier(name: string): (key: string)
    ensures |key| < NAMEDATALEN
    ensures key <= name
    ensures |name| < NAMEDATALEN ==> key == name
    ensures |name| >= NAMEDATALEN ==> |key| == NAMEDATALEN - 1
  {
    if |name| >= NAMEDATALEN then name[..NAMEDATALEN - 1] else name
  }

  /** A key is already in normal form. */
  lemma TruncateIdempotent(name: string)
    ensures TruncateIdentifier(TruncateIdentifier(name)) == TruncateIdentifier(name)
  {
  }

  /** snprintf(rconn->host, MAXHOSTLEN - 1, "%s", host) writes at most
      MAXHOSTLEN - 2 characters (bytes) and a terminating NUL. */
  function HostField(host: string): (h: string)
    ensures h <= host
    ensures |h| == if |host| <= MAXHOSTLEN - 2 then |host| else MAXHOSTLEN - 2
  {
    if |host| <= MAXHOSTLEN - 2 then host else host[..MAXHOSTLEN - 2]
  }

  /** hash_search(..., HASH_FIND, ...) on the normalised name. */
  function Find(entries: map<string, RemoteConn>, name: string): (rc: Option<RemoteConn>)
    ensures rc.Some? <==> TruncateIdentifier(name) in entries
    ensures rc.Some? ==> rc.value == entries[TruncateIdentifier(name)]
  {
    var key := TruncateIdentifier(name);
    if key in entries then Some(entries[key]) else None
  }

  /** Two names with the same normal form denote the same entry. */
  lemma SameKeySameEntry(entries: map<string, RemoteConn>, a: string, b: string)
    requires TruncateIdentifier(a) == TruncateIdentifier(b)
    ensures Find(entries, a) == Find(entries, b)
  {
  }

  /** Names that agree on their first NAMEDATALEN - 1 characters collide. */
  lemma LongNamesCollide(a: string, b: string)
    requires |a| >= NAMEDATALEN && |b| >= NAMEDATALEN
    requires a[..NAMEDATALEN - 1] == b[..NAMEDATALEN - 1]
    ensures TruncateIdentifier(a) == TruncateIdentifier(b)
  {
  }

  /** The handle SPHINX_GETCONN obtains: the entry's conn, if there is an entry. */
  function ConnHandle(entries: map<string, RemoteConn>, name: string): (h: Option<Handle>)
    ensures h.Some? ==> TruncateIdentifier(name) in entries
    ensures TruncateIdentifier(name) in entries ==> h == entries[TruncateIdentifier(name)].conn
  {
    match Find(entries, name)
    case Some(rc) => rc.conn
    case None => None
  }

  function NotAvailable(name: string): SqlError
  {
    SqlError(ConnectionDoesNotExist, "connection \"" + name + "\" is not available")
  }

  const DUPLICATE_NAME := SqlError(DuplicateObject, "duplicate connection name")
  const INIT_FAILURE := SqlError(InternalError, "failed to initialise MySQL connection object")

  function ConnectFailure(msg: string): SqlError
  {
    SqlError(ConnectionFailure, "failed to connect to Sphinx: " + msg)
  }

  /** What mysql_real_connect is handed: the arguments of sphinx_connect and
      the options set on the handle before (character set, reconnect flag). */
  datatype ConnectParams = ConnectParams(
    host: string, user: string, password: string, database: string, port: Int32,
    charset: string, reconnect: bool)

  /** mysql_real_connect: None on success, otherwise the text of mysql_error. */
  type RealConnect = (Handle, ConnectParams) -> Option<string>

  /** One row of sphinx_connections: (connname, host, port). */
  datatype ConnRow = ConnRow(connname: string, host: string, port: Int32)

  /** Every stored entry is keyed by its normal form and holds an open handle and a bounded host. */
  ghost predicate WellFormed(entries: map<string, RemoteConn>)
  {
    forall name | name in entries ::
      TruncateIdentifier(name) == name && entries[name].conn.Some? && |entries[name].host| <= MAXHOSTLEN - 2
  }

  class Registry {
    /** pconn: the default record allocated by SPHINX_INIT. */
    var pconn: Option<RemoteConn>
    /** remoteConnHash != NULL */
    var created: bool
    /** The contents of remoteConnHash: entry name -> remoteConn. */
    var entries: map<string, RemoteConn>

    ghost predicate Valid()
      reads this
    {
      && (!created ==> entries == map[])
      && (pconn.Some? ==> pconn.value == RemoteConn(None, 0, ""))
      && WellFormed(entries)
    }

    /** The state at process start: both module variables are NULL. */
    constructor ()
      ensures Valid() && pconn == None && !created && entries == map[]
    {
      pconn, created, entries := None, false, map[];
    }

    /** SPHINX_INIT */
    method SphinxInit()
      requires Valid()
      modifies this`pconn
      ensures Valid() && pconn.Some?
      ensures old(pconn).Some? ==> pconn == old(pconn)
    {
      if pconn.None? {
        pconn := Some(RemoteConn(None, 0, ""));
      }
    }

    /** if (!remoteConnHash) remoteConnHash = createConnHash(); */
    method EnsureConnHash()
      requires Valid()
      modifies this`created
      ensures Valid() && created
      ensures old(created) ==> created == old(created)
    {
      if !created {
        created := true;
      }
    }

    /** getConnectionByName: a lookup, which creates the table if need be and adds no entry. */
    method GetConnectionByName(name: string) returns (rc: Option<RemoteConn>)
      requires Valid()
      modifies this`created
      ensures Valid() && created
      ensures rc == Find(entries, name)
    {
      EnsureConnHash();
      var key := TruncateIdentifier(name);
      if key in entries {
        rc := Some(entries[key]);
      } else {
        rc := None;
      }
    }

    /** createNewConnection: HASH_ENTER under the normalised name, then the
        record is stored (replacing one that was there). */
    method CreateNewConnection(name: string, rconn: RemoteConn)
      requires Valid()
      requires rconn.conn.Some? && |rconn.host| <= MAXHOSTLEN - 2
      modifies this`created, this`entries
      ensures Valid() && created
      ensures entries == old(entries)[TruncateIdentifier(name) := rconn]
    {
      EnsureConnHash();
      var key := TruncateIdentifier(name);
      TruncateIdempotent(name);
      entries := entries[key := rconn];
    }

    /** connectionExists: on a table not yet created, creates it and answers false. */
    method ConnectionExists(name: string) returns (found: bool)
      requires Valid()
      modifies this`created
      ensures Valid() && created
      ensures !old(created) ==> !found
      ensures found <==> TruncateIdentifier(name) in entries
    {
      if !created {
        created := true;
        return false;
      }
      var key := TruncateIdentifier(name);
      found := key in entries;
    }

    /** deleteConnection: HASH_REMOVE under the normalised name; an unknown name is an error. */
    method DeleteConnection(name: string) returns (r: Result<()>)
      requires Valid()
      modifies this`created, this`entries
      ensures Valid() && created
      ensures TruncateIdentifier(name) in old(entries) ==>
                r == Ok(()) && entries == old(entries) - {TruncateIdentifier(name)}
      ensures TruncateIdentifier(name) !in old(entries) ==>
                r == Err(SqlError(UndefinedObject, "undefined connection name")) && entries == old(entries)
    {
      EnsureConnHash();
      var key := TruncateIdentifier(name);
      if key in entries {
        entries := entries - {key};
        r := Ok(());
      } else {
        r := Err(SqlError(UndefinedObject, "undefined connection name"));
      }
    }

    /** SPHINX_GETCONN: the entry's record when it holds a handle, otherwise
        "connection ... is not available" with the name as given. */
    method GetConn(conname: string) returns (r: Result<RemoteConn>)
      requires Valid()
      modifies this`created
      ensures Valid() && created && entries == old(entries)
      ensures r.Ok? <==> TruncateIdentifier(conname) in entries
      ensures r.Ok? ==> r.value == entries[TruncateIdentifier(conname)] && r.value.conn.Some?
      ensures r.Err? ==> r.error == NotAvailable(conname)
    {
      var rconn := GetConnectionByName(conname);
      var conn: Option<Handle> := None;
      if rconn.Some? {
        conn := rconn.value.conn;
      }
      if conn.None? {
        return Err(NotAvailable(conname));
      }
      r := Ok(rconn.value);
    }

    /** sphinx_connect. `init` is what mysql_init returned, `realConnect`
        stands for mysql_real_connect; `closed` is the handle given back to
        mysql_close when the connection attempt fails. */
    method Connect(conname: string, host: string, port: Int32, user: string, password: string,
                   database: string, init: Option<Handle>, realConnect: RealConnect)
      returns (r: Result<string>, closed: Option<Handle>)
      requires Valid()
      modifies this
      ensures Valid() && created && pconn.Some?
      ensures TruncateIdentifier(conname) in old(entries) ==>
                r == Err(DUPLICATE_NAME) && closed == None
      ensures TruncateIdentifier(conname) !in old(entries) && init.None? ==>
                r == Err(INIT_FAILURE) && closed == None
      ensures TruncateIdentifier(conname) !in old(entries) && init.Some?
              && realConnect(init.value, ConnectParams(host, user, password, database, port, "UTF8", true)).Some? ==>
                r == Err(ConnectFailure(realConnect(init.value, ConnectParams(host, user, password, database, port, "UTF8", true)).value))
                && closed == init
      ensures r.Ok? <==> TruncateIdentifier(conname) !in old(entries) && init.Some?
                         && realConnect(init.value, ConnectParams(host, user, password, database, port, "UTF8", true)).None?
      ensures r.Err? ==> entries == old(entries)
      ensures r.Ok? ==> r.value == "OK" && closed == None
                        && entries == old(entries)[TruncateIdentifier(conname) := RemoteConn(init, port, HostField(host))]
    {
      SphinxInit();
      closed := None;
      var found := ConnectionExists(conname);
      if found {
        return Err(DUPLICATE_NAME), None;
      }
      if init.None? {
        return Err(INIT_FAILURE), None;
      }
      var conn := init.value;
      // mysql_options: the UTF8 character set and automatic reconnect
      var failure := realConnect(conn, ConnectParams(host, user, password, database, port, "UTF8", true));
      if failure.Some? {
        return Err(ConnectFailure(failure.value)), Some(conn);
      }
      var rconn := RemoteConn(Some(conn), port, HostField(host));
      CreateNewConnection(conname, rconn);
      r := Ok("OK");
    }

    /** sphinx_disconnect: closes the handle of a known connection and removes
        its entry; `closed` is the handle given to mysql_close. */
    method Disconnect(conname: string) returns (r: Result<string>, closed: Option<Handle>)
      requires Valid()
      modifies this
      ensures Valid() && created && pconn.Some?
      ensures TruncateIdentifier(conname) !in old(entries) ==>
                r == Err(NotAvailable(conname)) && closed == None && entries == old(entries)
      ensures TruncateIdentifier(conname) in old(entries) ==>
                r == Ok("OK") && closed == old(entries)[TruncateIdentifier(conname)].conn
                && closed.Some? && entries == old(entries) - {TruncateIdentifier(conname)}
    {
      SphinxInit();
      var c := GetConn(conname);
      if c.Err? {
        return Err(c.error), None;
      }
      closed := c.value.conn;
      var _ := DeleteConnection(conname);
      r := Ok("OK");
    }

    /** `order` lists every entry exactly once: the order of hash_seq_search. */
    ghost predicate IsScanOrder(order: seq<string>)
      reads this
    {
      && |order| == |entries|
      && (forall k :: 0 <= k < |order| ==> order[k] in entries)
      && (forall j, k :: 0 <= j < k < |order| ==> order[j] != order[k])
    }

    /** sphinx_connections, all calls of one scan: on call number call_cntr the
        table is walked from the start until the call_cntr-th entry. */
    method Connections(resultType: ResultType, order: seq<string>) returns (r: Result<seq<ConnRow>>)
      requires Valid()
      requires IsScanOrder(order)
      ensures r.Err? <==> resultType != Composite
      ensures r.Err? ==> r.error == SqlError(FeatureNotSupported, RECORD_CONTEXT_MSG)
      ensures r.Ok? ==> |r.value| == |entries|
      ensures r.Ok? ==> forall k :: 0 <= k < |r.value| ==>
                r.value[k] == ConnRow(order[k], entries[order[k]].host, entries[order[k]].port)
    {
      var maxCalls := if created then |entries| else 0;
      if resultType != Composite {
        return Err(SqlError(FeatureNotSupported, RECORD_CONTEXT_MSG));
      }
      var rows: seq<ConnRow> := [];
      var callCntr := 0;
      while callCntr < maxCalls
        invariant 0 <= callCntr <= maxCalls == |order|
        invariant |rows| == callCntr
        invariant forall k :: 0 <= k < callCntr ==>
                    rows[k] == ConnRow(order[k], entries[order[k]].host, entries[order[k]].port)
      {
        // hash_seq_init / hash_seq_search until i == call_cntr
        var scanned := 0;
        var i := 0;
        var entry: Option<string> := None;
        while scanned < |order|
          invariant 0 <= i == scanned <= callCntr
          invariant scanned > 0 ==> entry == Some(order[scanned - 1])
          decreases |order| - scanned
        {
          entry := Some(order[scanned]);
          scanned := scanned + 1;
          if i == callCntr {
            break;
          }
          i := i + 1;
        }
        var name := entry.value;
        rows := rows + [ConnRow(name, entries[name].host, entries[name].port)];
        callCntr := callCntr + 1;
      }
      r := Ok(rows);
    }
  }
}
