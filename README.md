# sphinxlink, modelled in Dafny

sphinxlink is a PostgreSQL extension that talks to a Sphinx/Manticore search
daemon over the MySQL wire protocol. This project models its core,
`sphinxlink.c`. The model has four parts:

- **The named-connection registry.** The process-wide hash table
  `remoteConnHash` maps a connection name to a `remoteConn` record, which
  holds the client handle, the port and the host. Its helpers are
  `getConnectionByName`, `createConnHash`, `createNewConnection`,
  `connectionExists` and `deleteConnection`. The SQL-callable functions on
  top of it are `sphinx_connect`, `sphinx_disconnect` and
  `sphinx_connections`. The default record `pconn` belongs here too.
  The registry is the class `SphinxRegistry.Registry`:
  - `created` is whether the table exists yet.
  - `entries` is a `map` from the normalised name to the record.
  - `pconn` is the default record made by `SPHINX_INIT`.
  - Every method states its new state in terms of the old one.
- **`sphinx_query`.** It first runs the result-set context checks and looks
  up the connection. Then it sends the query text, converted to UTF-8, and
  checks the stored result's field count against the caller's row type. A
  width mismatch with zero rows gives a NULL result; a mismatch with rows
  is a datatype-mismatch error. Otherwise it loops over the fetched rows
  and fills a `values` array of `nfields` entries in place for each one:
  a NULL field stays NULL, and any other field goes through
  `toMyDatabaseEncoding`. Each tuple is appended to the tuplestore in fetch
  order. The method `SphinxQuery.Query` keeps that loop, and is proved
  equal to the reference function `SphinxQuery.QueryOutcome`. The lemmas
  state the properties of that function.
- **The encoding adapter.** `toMyDatabaseEncoding` and `toUTF8Encoding`
  choose between returning their argument (`freed = false`) and converting
  it (`freed = true`). The conversion routine is left uninterpreted.
- **The `sphinx_meta` cursor.** Its first call sends `SHOW META;`. Every
  call, the first one included, hands out one row while
  `call_cntr < max_calls`, and the call after the last row frees the stored
  result.

Calls into code outside the core are parameters. The MySQL client is
`init` (what `mysql_init` returned), a `RealConnect` function for
`mysql_real_connect`, and a `Server` function that maps a handle and a sent
query text to the stored reply. The executor's call context is a
`CallContext` value, and the session encodings are an `Env` value.

Constants follow the source:
- `NAMEDATALEN = 64`;
- `MAXHOSTLEN = 1024`;
- `PG_UTF8 = 6`;
- every error message and SQLSTATE class as written in `sphinxlink.c`.

Strings are sequences of `char`, and one `char` stands for one byte of the
C string. Two details are modelled as the source writes them:
- A name is normalised to its first 63 characters.
- A host is stored through `snprintf(rconn->host, MAXHOSTLEN - 1, …)`, so at
  most 1022 of its characters are kept.

## Model

| member | source | states |
|---|---|---|
| SphinxTypes.ResultTypeError | sphinxlink.c:359-375 | sphinx_query's type check: only a composite result type passes; a RECORD type raises FeatureNotSupported "function returning record called in context that cannot accept type record"; any other type raises InternalError "return type must be a row type" |
| Encoding.ToMyDatabaseEncoding | sphinxlink.c:689-706 | `freed` is set exactly when the database encoding is not UTF-8; then the value is converted from UTF-8 to the database encoding, otherwise it is returned unchanged |
| Encoding.ToUTF8Encoding | sphinxlink.c:708-725 | `freed` is set exactly when the database encoding is not UTF-8 and the client encoding is UTF-8; then the value is converted to UTF-8, otherwise it is returned unchanged |
| Encoding.Utf8DatabaseIsIdentity | sphinxlink.c:695-698 | with a UTF-8 database both helpers return their argument and allocate nothing |
| Encoding.RoundTrip | sphinxlink.c:689-725 | with a UTF-8 client, a value the database encoding can represent survives a trip into the database encoding and back |
| Encoding.ClientEncodingShortcut | sphinxlink.c:714-718 | with neither the database nor the client in UTF-8, incoming values are converted but outgoing text is sent unconverted |
| SphinxRegistry.TruncateIdentifier | sphinxlink.c:603-604 | a key is at most NAMEDATALEN - 1 characters (one per byte) long and is a prefix of the name; shorter names are kept whole, longer ones are cut to exactly NAMEDATALEN - 1 characters |
| SphinxRegistry.TruncateIdempotent | sphinxlink.c:637-643 | normalising a key again leaves it unchanged, so the name stored in an entry is its own key |
| SphinxRegistry.HostField | sphinxlink.c:161 | the stored host is a prefix of the given host, of length min(\|host\|, MAXHOSTLEN - 2) characters (one per byte) |
| SphinxRegistry.Find | sphinxlink.c:603-611 | a lookup finds an entry exactly when the normalised name is a key, and returns that entry |
| SphinxRegistry.SameKeySameEntry | sphinxlink.c:603-606 | two names with the same normalised form find the same entry |
| SphinxRegistry.LongNamesCollide | sphinxlink.c:637-640 | two long names that agree on their first NAMEDATALEN - 1 characters have the same key |
| SphinxRegistry.ConnHandle | sphinxlink.c:62-67 | the handle the connection macro obtains exists only for a registered name, and is that entry's handle |
| SphinxRegistry.Registry.constructor | sphinxlink.c:87-89 | at process start there is no table, no default record and no entry |
| SphinxRegistry.Registry.SphinxInit | sphinxlink.c:50-59 | the default record exists afterwards, with no handle, port 0 and an empty host; an existing one is kept |
| SphinxRegistry.Registry.EnsureConnHash | sphinxlink.c:615-624 | the table exists afterwards, and its entries are unchanged |
| SphinxRegistry.Registry.GetConnectionByName | sphinxlink.c:594-612 | creates the table if missing, adds no entry, and returns the entry of the normalised name if there is one |
| SphinxRegistry.Registry.CreateNewConnection | sphinxlink.c:627-644 | creates the table if missing, then maps the normalised name to the record; all other entries are unchanged |
| SphinxRegistry.Registry.ConnectionExists | sphinxlink.c:647-664 | creates the table if missing and then answers false; otherwise answers whether the normalised name is a key; adds no entry |
| SphinxRegistry.Registry.DeleteConnection | sphinxlink.c:667-686 | removes exactly the normalised name's entry; on an unknown name it raises "undefined connection name" and changes nothing |
| SphinxRegistry.Registry.GetConn | sphinxlink.c:62-74 | succeeds exactly when the normalised name is registered, and returns its record, which holds a handle; otherwise it raises "connection "name" is not available" with the name as given; entries are unchanged |
| SphinxRegistry.Registry.Connect | sphinxlink.c:93-166 | raises the duplicate, internal or connection-failure error (with the client's message) when the name exists, mysql_init fails or mysql_real_connect fails, with entries unchanged; mysql_real_connect gets the host, user, password, database and port as given, with the UTF8 character set and automatic reconnect set and the failed handle closed in the last case; otherwise returns "OK" and adds exactly one entry under the normalised name, holding the handle, the port and the bounded host |
| SphinxRegistry.Registry.Disconnect | sphinxlink.c:169-194 | an unknown name raises "connection ... is not available" and changes nothing; a known name has its handle closed and exactly its entry removed, and the call returns "OK" |
| SphinxRegistry.Registry.Connections | sphinxlink.c:197-292 | a non-composite result type raises the record-context error; otherwise there is one row per entry, and row k is the name, host and port of the k-th entry in scan order |
| SphinxQuery.EncodeField | sphinxlink.c:421-430 | a NULL field stays NULL; any other field is passed through toMyDatabaseEncoding |
| SphinxQuery.MaterializeRow | sphinxlink.c:419-431 | the values array of a row has exactly nfields entries; entry i is NULL exactly when field i is, and otherwise is field i in the database encoding |
| SphinxQuery.MaterializeRowsAt | sphinxlink.c:413-441 | the tuplestore has one tuple per fetched row, in fetch order; tuple k is row k materialised |
| SphinxQuery.MaterializedFieldAt | sphinxlink.c:413-441 | field i of output tuple k has NULL exactly where row k has NULL, and otherwise holds row k's field i in the database encoding |
| SphinxQuery.Utf8MaterializeIsIdentity | sphinxlink.c:424-430 | with a UTF-8 database the tuplestore holds exactly the fetched rows |
| SphinxQuery.ShapeCheckOutcomes | sphinxlink.c:383-394 | a width mismatch with zero rows gives a NULL result and no error; a mismatch with rows raises the datatype-mismatch error; equal widths give one tuple of natts fields per row |
| SphinxQuery.UnknownConnectionFails | sphinxlink.c:330-331 | a query over an unregistered name raises "connection ... is not available" |
| SphinxQuery.QueryIsSentInUtf8 | sphinxlink.c:332-338 | with a non-UTF-8 database and a UTF-8 client, the server receives the query text converted to UTF-8 |
| SphinxQuery.Query | sphinxlink.c:297-452 | the fetch loop and the values loop compute exactly QueryOutcome; entries are unchanged; the stored result is freed exactly when a tuplestore is returned |
| SphinxQuery.MaterializeRowAsWritten | sphinxlink.c:433-438 | as written, a row crashes the backend exactly when one of its fields is NULL; otherwise it appends the corrected tuple |
| SphinxQuery.NullFieldCrashesAsWritten | sphinxlink.c:424-438 | the one-field NULL row crashes the source as written, and the corrected row is [NULL] |
| SphinxMeta.MetaStart | sphinxlink.c:470-517 | an unregistered name raises not-available; a failed send or store raises the ConnectionFailure error with the client's message; a stored result with any non-composite result type raises FeatureNotSupported with the record-context message; otherwise the first call yields exactly the rows that SHOW META returned over the entry's handle |
| SphinxMeta.MetaCursor.constructor | sphinxlink.c:504-510 | the cursor holds the stored rows, max_calls is their number, and nothing has been fetched or freed |
| SphinxMeta.MetaCursor.Call | sphinxlink.c:535-590 | below max_calls it returns row call_cntr with both columns passed through toMyDatabaseEncoding, and advances; at max_calls it ends the set and frees the stored result once |
| SphinxMeta.MetaFirstCall | sphinxlink.c:470-533 | the first call's errors are exactly those of MetaStart; on success it makes a fresh cursor over the stored rows |
| SphinxMeta.MetaNextCall | sphinxlink.c:470-471 | a later call looks the connection up again: an unregistered name raises the not-available error and leaves the cursor as it was; otherwise below max_calls it returns the next re-encoded row and advances call_cntr by one, and at max_calls it ends the set, keeps call_cntr and frees the stored result once |
| SphinxMeta.SphinxMeta | sphinxlink.c:457-591 | a full scan returns every stored row once, in order and re-encoded, and frees the stored result exactly once; a first-call error frees nothing |
| SphinxScenarios.ConnectTwice | sphinxlink.c:126-129 | a second connect under the same name fails as a duplicate, and the first entry keeps its host and port |
| SphinxScenarios.ConnectQueryDisconnect | sphinxlink.c:93-194 | connect "s1" returns OK; a query with 3 two-column rows gives 3 two-field tuples in fetch order; disconnect returns OK; a query after that raises not-available |

## Left out

- MySQL client library calls. `mysql_init`, `mysql_options`, `mysql_real_connect`, `mysql_query`, `mysql_store_result`, `mysql_fetch_row`, `mysql_close` and `mysql_free_result` are network I/O in a foreign library. They are parameters: `init`, `RealConnect`, `Server` and `MetaServer`. The `closed`, `released` and `releaseCount` outputs record what is given back to the library.
- PostgreSQL argument marshalling. `PG_GETARG_*`, `text_to_cstring` and `PG_FREE_IF_COPY` are not modelled, and nor is the slip of freeing the password argument under index 3.
- Memory management. `palloc`, `pfree`, `safe_free` and memory contexts are not modelled. Two consequences are not captured:
  - the converted values in the row loop of `sphinx_query` are never freed;
  - the `freed` flag is reported but not acted on.
- The NOTICE that `truncate_identifier(..., true)` emits, in `createNewConnection` and `connectionExists`, is not modelled.
- TruncateIdentifier: a `char` stands for one byte, so the model is exact only for names of single-byte characters; a name of 40 two-byte characters is 80 bytes and is cut by the source but kept whole by the model.
- HostField: a `char` stands for one byte, so the model is exact only for hosts of single-byte characters; `snprintf` would cut a multibyte host of more than 1022 bytes that the model, counting characters, keeps whole.
- TruncateIdentifier: cuts at exactly NAMEDATALEN - 1 characters. `pg_mbcliplen` may cut earlier so that no multibyte character is split. With such a cut, the name that `strlcpy` stores could differ from the hash key; that is not modelled.
- Enumeration order of the dynahash table. It is the `order` parameter of `Registry.Connections`, which must list every key exactly once.
- Registry.Connections: the model runs one whole scan over an unchanged registry. Entries that vanish between two calls of the set-returning function, which would leave the source with a NULL entry, are not modelled.
- Registry.Connections: the port is returned as an integer. Its round trip through `psprintf("%d")` and the int4 input function is not modelled.
- Tuple descriptors, `BuildTupleFromCStrings` and tuplestore internals. A tuple is its values array, and the tuplestore is a sequence.
- Encoding conversion. `pg_do_encoding_conversion` is a total, uninterpreted function, so conversion failure is not modelled.
- SphinxMeta.MetaCursor: `SHOW META` rows are pairs of non-NULL strings. The source reads `row[0]` and `row[1]` without checking for NULL or for a second field, and that case is not modelled.
- SphinxMeta.SphinxMeta: the full-scan driver looks the connection up only on the first call. `MetaNextCall` models the lookup that later calls repeat. A scan the executor abandons early, which never frees the stored result, is not modelled.
- The `else pconn->conn = NULL` branch of `sphinx_disconnect` is not modelled. That branch runs only when no entry is found, and that case raises an error earlier.
- Features missing from `sphinxlink.c`, which the model therefore does not have:
  - the `MATCH(?)` placeholder rewriting;
  - connections named implicitly by host and port;
  - a cancellation check between fetched rows;
  - keeping only the last of several result sets.
- Disconnect before any table exists. `sphinx_disconnect` then raises "connection ... is not available", because the lookup creates an empty table and finds nothing. The model follows the code; it is not a silent success.
- Release of the stored result. `mysql_free_result` runs only when a tuplestore was filled. The NULL-result path, the zero-row path and the error paths after `mysql_store_result` do not free the result. `Query`'s `released` output states this as written.

## Findings

| source | as written | input that shows it | evidently intended | confidence | as-written member | corrected member |
|---|---|---|---|---|---|---|
| sphinxlink.c:437-438 | after building each tuple, `pfree(values[i])` is called for every field, so also for the NULL slots set at line 425; PostgreSQL's `pfree` dereferences the chunk header in front of its argument and cannot take NULL | a Sphinx result with one column whose only row holds NULL (`NullFieldCrashesAsWritten`) | free only the non-NULL slots, so that a NULL field becomes SQL NULL in the tuple | not executed; high | SphinxQuery.MaterializeRowAsWritten | SphinxQuery.MaterializeRow |
