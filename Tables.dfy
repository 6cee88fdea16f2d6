/** The two Postgres tables the handlers write (`leads` and `comprovantes`), the
    connection-string lookup of api/_db.js, and the once-per-process "table ready" flag
    that guards each handler's `CREATE TABLE IF NOT EXISTS`. */
module Tables {
  import opened Text
  import opened Js

  /** A row of `leads`. Every text column is stored as the handlers coerce it (`x || ""`);
      `amountCents` is what the INTEGER column holds (`JNull` for SQL NULL, else a `JNum`);
      `tracking` is the tracking object whose `JSON.stringify` text the column holds (the
      text is identified with the object, and None stands for the empty text written when
      the handler has no tracking);
      `createdAt` is the ISO form of the `created_at` default. */
  datatype Lead = Lead(
    source: string, cpf: string, nome: string, email: string, phone: string,
    amountCents: Json, title: string, transactionId: string, status: string,
    tracking: Option<Json>, userAgent: string, ip: string, createdAt: string)

  /** A row of `comprovantes` (an uploaded payment receipt). The upload never sets
      `status`, so it starts as SQL NULL (None). */
  datatype Receipt = Receipt(
    transactionId: string, customerName: string, customerCpf: string, customerEmail: string,
    fileUrl: string, fileName: string, sizeBytes: Json, mimetype: string,
    status: Option<string>, userAgent: string, ip: string, createdAt: string)

  /** The bounds of a Postgres INTEGER (32-bit) column. */
  const IntegerMin: int := -0x8000_0000
  const IntegerMax: int := 0x7FFF_FFFF

  predicate InIntegerRange(n: int) {
    IntegerMin <= n <= IntegerMax
  }

  /** What an INTEGER column stores for a value bound by node-postgres, or None when Postgres
      refuses it and the statement throws. `null` and `undefined` are SQL NULL; a number is
      sent as its numeral and a string as itself, and only an optionally signed decimal
      numeral of a 32-bit integer is accepted; a boolean is sent as "true" or "false", an
      object as its JSON text and an array as an array literal, none of which is an integer. */
  function IntegerColumn(v: Json): (r: Option<Json>)
    ensures r.Some? ==> r.value == JNull || (r.value.JNum? && InIntegerRange(r.value.n))
    ensures v == JNull || v == JUndef ==> r == Some(JNull)
    ensures v.JNum? ==> (r.Some? <==> InIntegerRange(v.n)) && (r.Some? ==> r.value == v)
    ensures v.JStr? && (v.s == [] || !(IsDigit(v.s[0]) || v.s[0] == '+' || v.s[0] == '-')) ==> r.None?
    ensures v.JBool? || v.JArr? || v.JObj? ==> r.None?
  {
    match v
    case JUndef => Some(JNull)
    case JNull => Some(JNull)
    case JNum(n) => if InIntegerRange(n) then Some(v) else None
    case JStr(s) =>
      (match SignedInteger(s)
       case Some(n) => if InIntegerRange(n) then Some(JNum(n)) else None
       case None => None)
    case _ => None
  }

  /** The numeral of an integer is stored as that integer exactly when it fits in 32 bits:
      the column reads back what `String(n)` wrote. */
  lemma NumeralColumn(n: int)
    ensures IntegerColumn(JStr(IntToString(n))) == if InIntegerRange(n) then Some(JNum(n)) else None
  {
    var s := IntToString(n);
    if n < 0 {
      NatToStringRoundTrip(-n);
      assert s[1..] == NatToString(-n);
    } else {
      NatToStringRoundTrip(n);
    }
  }

  /** The connection variables `getConnectionString()` tries, in order. */
  const DbVars: seq<string> := ["DATABASE_URL", "POSTGRES_URL", "POSTGRES_URL_NON_POOLING", "DATABASE_URL_UNPOOLED"]

  /** `getConnectionString()`: the first set of the connection variables, else "". */
  function ConnectionString(env: map<string, string>): Json {
    Or(EnvVar(env, DbVars[0]), Or(EnvVar(env, DbVars[1]), Or(EnvVar(env, DbVars[2]),
      Or(EnvVar(env, DbVars[3]), JStr("")))))
  }

  /** The handlers treat the database as configured when the connection string is non-empty. */
  predicate DbConfigured(env: map<string, string>) {
    Truthy(ConnectionString(env))
  }

  /** Any non-empty connection variable configures the database, and nothing else does. */
  lemma DbConfiguredMeans(env: map<string, string>)
    ensures DbConfigured(env) <==> exists i :: 0 <= i < |DbVars| && DbVars[i] in env && env[DbVars[i]] != ""
  {
    if Truthy(EnvVar(env, DbVars[0])) {
      assert 0 < |DbVars|;
    } else if Truthy(EnvVar(env, DbVars[1])) {
      assert 1 < |DbVars|;
    } else if Truthy(EnvVar(env, DbVars[2])) {
      assert 2 < |DbVars|;
    } else if Truthy(EnvVar(env, DbVars[3])) {
      assert 3 < |DbVars|;
    }
  }

  /** A module-level `tableReady` flag with its `ensure...Table()` function: the DDL is sent
      until it succeeds once and is skipped from then on. `dbUp` says whether the database
      answers the DDL; `ddlRuns` counts the attempts. */
  class SchemaFlag {
    var ready: bool
    var ddlRuns: nat

    /** `let tableReady = false` when the module is loaded. */
    constructor ()
      ensures !ready && ddlRuns == 0
    {
      ready := false;
      ddlRuns := 0;
    }

    /** `await ensure...Table()`: true when the table may be used, false when the DDL threw. */
    method Ensure(dbUp: bool) returns (ok: bool)
      modifies this
      ensures old(ready) ==> ok && ready && ddlRuns == old(ddlRuns)
      ensures !old(ready) ==> ok == dbUp && ready == dbUp && ddlRuns == old(ddlRuns) + 1
    {
      if ready {
        return true;
      }
      ddlRuns := ddlRuns + 1;
      if dbUp {
        ready := true;
      }
      ok := dbUp;
    }
  }
}
