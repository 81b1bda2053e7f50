/** The encoding adapter of sphinxlink: the Sphinx daemon speaks UTF-8 only,
    so field values coming back are converted to the database encoding and
    query text going out is converted to UTF-8. Both helpers return either
    their argument itself or a freshly converted buffer, and report which
    through the `freed` flag (true: the caller owns a new buffer). */
module Encoding {

  /** PG_UTF8 in PostgreSQL's enumeration of server encodings. */
  const PG_UTF8: int := 6

  /** pg_do_encoding_conversion(value, from, to), left uninterpreted. */
  type Converter = (string, int, int) -> string

  /** The session's encodings: GetDatabaseEncoding(), pg_get_client_encoding(),
      and the conversion routine between encodings. */
  datatype Env = Env(database: int, client: int, convert: Converter)

  /** A returned string together with the `freed` out-parameter. */
  datatype Encoded = Encoded(value: string, freed: bool)

  /** toMyDatabaseEncoding: a value received from Sphinx (UTF-8) in the database encoding. */
  function ToMyDatabaseEncoding(env: Env, value: string): (r: Encoded)
    ensures r.freed <==> env.database != PG_UTF8
    ensures !r.freed ==> r.value == value
    ensures r.freed ==> r.value == env.convert(value, PG_UTF8, env.database)
  {
    if env.database == PG_UTF8 then Encoded(value, false)
    else Encoded(env.convert(value, PG_UTF8, env.database), true)
  }

  /** toUTF8Encoding: text to be sent to Sphinx. The conversion is skipped not
      only when the database is UTF-8 but also whenever the client encoding
      is not UTF-8. */
  function ToUTF8Encoding(env: Env, value: string): (r: Encoded)
    ensures r.freed <==> env.database != PG_UTF8 && env.client == PG_UTF8
    ensures !r.freed ==> r.value == value
    ensures r.freed ==> r.value == env.convert(value, env.database, PG_UTF8)
  {
    if env.database == PG_UTF8 || env.client != PG_UTF8 then Encoded(value, false)
    else Encoded(env.convert(value, env.database, PG_UTF8), true)
  }

  /** With a UTF-8 database both directions hand back their argument and allocate nothing. */
  lemma Utf8DatabaseIsIdentity(env: Env, value: string)
    requires env.database == PG_UTF8
    ensures ToMyDatabaseEncoding(env, value) == Encoded(value, false)
    ensures ToUTF8Encoding(env, value) == Encoded(value, false)
  {
  }

  /** `value` survives conversion to the database encoding and back. */
  ghost predicate Representable(env: Env, value: string)
  {
    env.convert(env.convert(value, PG_UTF8, env.database), env.database, PG_UTF8) == value
  }

  /** With a UTF-8 client, a value that the database encoding can represent
      comes back unchanged from a trip into the database encoding and out again. */
  lemma RoundTrip(env: Env, value: string)
    requires env.client == PG_UTF8
    requires Representable(env, value)
    ensures ToUTF8Encoding(env, ToMyDatabaseEncoding(env, value).value).value == value
  {
  }

  /** The asymmetric shortcut: with neither the database nor the client in
      UTF-8, incoming values are converted but outgoing text is not. */
  lemma ClientEncodingShortcut(env: Env, value: string)
    requires env.database != PG_UTF8 && env.client != PG_UTF8
    ensures ToMyDatabaseEncoding(env, value).freed
    ensures ToUTF8Encoding(env, value) == Encoded(value, false)
  {
  }
}
