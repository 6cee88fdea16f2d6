/** The admin gate and the row-limit clamp shared by the two listing endpoints,
    api/comprovantes/export.js and api/comprovantes/list.js. */
module Admin {
  import opened Text
  import opened Js
  import opened Tables

  /** `req.headers["x-admin-token"] || req.query.token || ""`. */
  function SuppliedToken(req: Request): Json {
    Or(Header(req, "x-admin-token"), Or(Query(req, "token"), JStr("")))
  }

  /** `!(adminToken && token !== adminToken)`, where `adminToken` is `process.env.ADMIN_TOKEN`. */
  predicate Authorized(adminToken: Json, req: Request) {
    !(Truthy(adminToken) && SuppliedToken(req) != adminToken)
  }

  /** With no admin token configured every caller passes; with one configured the caller
      passes exactly when the header token, or failing that the query token, equals it. */
  lemma AuthorizedMeans(env: map<string, string>, req: Request)
    ensures var admin := EnvVar(env, "ADMIN_TOKEN");
      Authorized(admin, req) <==>
        ("ADMIN_TOKEN" !in env || env["ADMIN_TOKEN"] == "" ||
         ("x-admin-token" in req.headers && req.headers["x-admin-token"] != ""
          && req.headers["x-admin-token"] == env["ADMIN_TOKEN"]) ||
         (("x-admin-token" !in req.headers || req.headers["x-admin-token"] == "")
          && Query(req, "token") == JStr(env["ADMIN_TOKEN"])))
  {
  }

  /** `Math.min(Number(req.query.limit || fallback), cap)`. */
  function Limit(req: Request, fallback: int, cap: int): Num {
    Min(ToNumber(Or(Query(req, "limit"), JNum(fallback))), cap)
  }

  /** The limit never exceeds the cap (NaN and minus infinity compare below everything). */
  lemma LimitCapped(req: Request, fallback: int, cap: int)
    ensures var l := Limit(req, fallback, cap);
      !l.PosInf? && (l.Dec? ==> Numerator(l) <= cap * Denominator(l))
  {
    assert Pow10(0) == 1;
  }

  /** Without a `limit` parameter the fallback applies (when it is under the cap). */
  lemma LimitDefault(req: Request, fallback: int, cap: int)
    requires !Truthy(Query(req, "limit")) && fallback <= cap
    ensures Limit(req, fallback, cap) == Int(fallback)
  {
    assert Pow10(0) == 1;
  }

  /** An integer parameter is taken as it is, up to the cap: nothing enforces a lower bound,
      so a negative limit passes through. */
  lemma LimitOfInteger(req: Request, n: int, fallback: int, cap: int)
    requires Query(req, "limit") == JStr(IntToString(n))
    ensures Limit(req, fallback, cap) == if n < cap then Int(n) else Int(cap)
  {
    IntegerToNumber(n);
    assert ToNumber(Or(Query(req, "limit"), JNum(fallback))) == Int(n);
    assert Pow10(0) == 1;
  }

  /** Why a listing endpoint turns a request away before it touches the database. */
  datatype Refusal = WrongMethod | NoDatabase | Unauthorized

  /** The gates both listings apply, in order: GET only, a configured database, then the
      admin token. */
  function ListingGate(env: map<string, string>, req: Request): (r: Option<Refusal>)
    ensures r.None? <==> req.verb == "GET" && DbConfigured(env) && Authorized(EnvVar(env, "ADMIN_TOKEN"), req)
    ensures r == Some(NoDatabase) ==> req.verb == "GET"
    ensures r == Some(Unauthorized) ==> req.verb == "GET" && DbConfigured(env)
  {
    if req.verb != "GET" then Some(WrongMethod)
    else if !DbConfigured(env) then Some(NoDatabase)
    else if !Authorized(EnvVar(env, "ADMIN_TOKEN"), req) then Some(Unauthorized)
    else None
  }

  /** The answer to a refused request. */
  function RefusalResponse(r: Refusal): (res: Response)
    ensures res.status == (match r case WrongMethod => 405 case NoDatabase => 500 case Unauthorized => 403)
  {
    match r
    case WrongMethod => Failure(405, "message", "Method Not Allowed")
    case NoDatabase => Failure(500, "message", "Database not configured")
    case Unauthorized => Failure(403, "message", "Unauthorized")
  }

  /** The row count Postgres takes from the bound `LIMIT $1`: a whole number of at least
      zero. NaN, an infinity, a fraction or a negative number makes the query fail. */
  function LimitRows(l: Num): (r: Option<nat>)
    ensures r.Some? ==> l.Dec? && IsInteger(l) && IntValue(l) == r.value
    ensures l.Dec? && IsInteger(l) && IntValue(l) >= 0 ==> r.Some?
  {
    if l.Dec? && IsInteger(l) && IntValue(l) >= 0 then Some(IntValue(l)) else None
  }

  /** A query that runs reads at most `cap` rows. */
  lemma LimitRowsCapped(req: Request, fallback: int, cap: int)
    requires LimitRows(Limit(req, fallback, cap)).Some?
    ensures LimitRows(Limit(req, fallback, cap)).value <= cap
  {
    var l := Limit(req, fallback, cap);
    LimitCapped(req, fallback, cap);
    WholeBelow(Numerator(l), Denominator(l), cap);
  }

  /** A whole quotient `n / d` with `n <= cap * d` is at most `cap`. */
  lemma WholeBelow(n: int, d: int, cap: int)
    requires d > 0 && n % d == 0 && n <= cap * d
    ensures n / d <= cap
  {
    assert n == n / d * d;
  }

  /** Without a `limit` parameter the query reads `fallback` rows. */
  lemma LimitRowsDefault(req: Request, fallback: nat, cap: int)
    requires !Truthy(Query(req, "limit")) && fallback <= cap
    ensures LimitRows(Limit(req, fallback, cap)) == Some(fallback)
  {
    LimitDefault(req, fallback, cap);
    assert Pow10(0) == 1;
  }

  /** The first `n` rows of a result, or all of them. */
  function FirstRows<T>(rows: seq<T>, n: nat): (r: seq<T>)
    ensures |r| <= n && r <= rows
    ensures |rows| <= n ==> r == rows
  {
    if n <= |rows| then rows[..n] else rows
  }
}
