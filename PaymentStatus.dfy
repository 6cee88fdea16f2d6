/** api/payment/status/status.php.js: asks the payment gateway for the status of one sale
    and relays the answer. */
module PaymentStatus {
  import opened Text
  import opened Js
  import opened Uri

  const DefaultBaseUrl: string := "https://api.blackcatpagamentos.online/api"

  /** `BASE_URL`: the configured gateway address, else the public one. */
  function BaseUrl(env: map<string, string>): (r: string)
    ensures "BLACKCAT_BASE_URL" in env && env["BLACKCAT_BASE_URL"] != "" ==> r == env["BLACKCAT_BASE_URL"]
    ensures !("BLACKCAT_BASE_URL" in env && env["BLACKCAT_BASE_URL"] != "") ==> r == DefaultBaseUrl
  {
    ToStr(Or(EnvVar(env, "BLACKCAT_BASE_URL"), JStr(DefaultBaseUrl)))
  }

  /** `req.query.id || req.query.transaction_id || ""`. */
  function IdValue(req: Request): (v: Json)
    ensures Truthy(Query(req, "id")) ==> v == Query(req, "id")
    ensures !Truthy(Query(req, "id")) && Truthy(Query(req, "transaction_id")) ==> v == Query(req, "transaction_id")
    ensures !Truthy(Query(req, "id")) && !Truthy(Query(req, "transaction_id")) ==> v == JStr("")
  {
    Or(Query(req, "id"), Or(Query(req, "transaction_id"), JStr("")))
  }

  /** `String(...).trim()` of that value. */
  function SaleId(req: Request): (id: string)
    ensures id == [] || (!IsSpace(id[0]) && !IsSpace(id[|id| - 1]))
  {
    var raw := ToStr(IdValue(req));
    TrimEnds(raw);
    Trim(raw)
  }

  /** An `id` of blanks is not replaced by `transaction_id` (it is truthy) but trims to
      nothing, so the request is refused; with neither parameter the id is empty too. */
  lemma BlankIdIsEmpty(req: Request)
    requires (Query(req, "id").JStr? && Query(req, "id").s != "" && AllSpace(Query(req, "id").s))
      || (!Truthy(Query(req, "id")) && !Truthy(Query(req, "transaction_id")))
    ensures SaleId(req) == ""
  {
    var v := IdValue(req);
    if Truthy(Query(req, "id")) {
      assert v == Query(req, "id");
    } else {
      assert v == JStr("");
    }
    TrimEmpty(v.s);
  }

  /** `` `${BASE_URL}/sales/${encodeURIComponent(id)}/status` ``. */
  function StatusUrl(base: string, id: string): string {
    base + "/sales/" + EncodeUriComponent(id) + "/status"
  }

  /** Whatever the id holds, it stays one path segment: the URL is the base, "/sales/", a
      segment with no '/', '?' or '#', and "/status". */
  lemma StatusUrlShape(base: string, id: string)
    ensures var u := StatusUrl(base, id); var seg := EncodeUriComponent(id);
      u == base + "/sales/" + seg + "/status" && '/' !in seg && '?' !in seg && '#' !in seg
  {
    ComponentHasNoDelimiter(id);
  }

  /** What the gateway did: the fetch threw (with its message), or it answered with a
      status and a body that is JSON (`Some`) or not (`None`). */
  datatype Upstream = Threw(message: string) | Answer(status: int, body: Option<Json>)

  /** `response.ok`. */
  predicate Ok(status: int) {
    200 <= status <= 299
  }

  /** `{success: true, status, transaction: txData || data}` for a successful answer. */
  function Reported(data: Json): (r: Json)
    ensures Truthy(Get(r, "status")) && Get(r, "success") == JBool(true)
  {
    var tx := Unwrap(data);
    var status := Or(Get(tx, "status"), Or(Get(data, "status"), Or(Get(data, "payment_status"), JStr("PENDING"))));
    JObj(map["success" := JBool(true), "status" := status, "transaction" := Or(tx, data)])
  }

  /** The transaction is `data.data[0]`, else `data.data`, else `data`; its status wins over
      the envelope's `status`, which wins over `payment_status`, and with none of them the
      sale is "PENDING". */
  lemma ReportedStatus(data: Json)
    ensures var tx := Unwrap(data); var s := Get(Reported(data), "status");
      (Truthy(Get(tx, "status")) ==> s == Get(tx, "status"))
      && (!Truthy(Get(tx, "status")) && Truthy(Get(data, "status")) ==> s == Get(data, "status"))
      && (!Truthy(Get(tx, "status")) && !Truthy(Get(data, "status")) && Truthy(Get(data, "payment_status"))
          ==> s == Get(data, "payment_status"))
      && (!Truthy(Get(tx, "status")) && !Truthy(Get(data, "status")) && !Truthy(Get(data, "payment_status"))
          ==> s == JStr("PENDING"))
  {
  }

  /** An envelope with an empty `data` array reports the envelope itself as the transaction. */
  lemma EmptyDataArray(data: Json)
    requires Get(data, "data") == JArr([])
    ensures Get(Reported(data), "transaction") == data
  {
    assert Unwrap(data) == JUndef;
  }

  /** The handler's answers. */
  datatype StatusReply =
    | NotAllowed
    | NoCredentials
    | MissingId
    | Crashed(message: string)
    | Found(report: Json)
    | Rejected(status: int, data: Json)

  /** The status and body written for each answer. */
  function Render(a: StatusReply): (r: Response)
    ensures a.Found? ==> r == Response(200, a.report)
    ensures a.Rejected? ==> r.status == 502 && Get(Get(r.body, "response"), "status") == JNum(a.status)
  {
    match a
    case NotAllowed => Response(405, JStr("Method Not Allowed"))
    case NoCredentials => Failure(500, "message", "Credenciais da Blackcat não configuradas")
    case MissingId => Failure(400, "message", "id é obrigatório")
    case Crashed(message) =>
      Response(500, JObj(map["success" := JBool(false), "message" := JStr("Erro interno"), "error" := JStr(message)]))
    case Found(report) => Response(200, report)
    case Rejected(status, data) =>
      Response(502, JObj(map["success" := JBool(false), "message" := JStr("Não foi possível consultar status"),
                             "response" := JObj(map["status" := JNum(status), "data" := data])]))
  }

  /** The gateway request: its URL and the `X-API-Key` header. */
  datatype Call = Call(url: string, apiKey: string)

  /** One run: the answer and the gateway request made, if any. */
  datatype StatusRun = StatusRun(reply: StatusReply, call: Option<Call>)

  /** The answer once the gateway has been asked. A body that is not JSON reads as `{}`. */
  function Relay(upstream: Upstream): (r: StatusReply)
    ensures upstream.Answer? && !Ok(upstream.status) ==> r.Rejected? && r.status == upstream.status
    ensures upstream.Answer? && Ok(upstream.status) ==> r.Found?
    ensures upstream.Threw? ==> r == Crashed(upstream.message)
  {
    match upstream
    case Threw(message) => Crashed(message)
    case Answer(status, body) =>
      var data := if body.Some? then body.value else JObj(map[]);
      if Ok(status) then Found(Reported(data)) else Rejected(status, data)
  }

  /** The handler on a request. */
  function StatusHandler(env: map<string, string>, req: Request, upstream: Upstream): (r: StatusRun)
    ensures r.reply == NotAllowed <==> req.verb != "GET"
    ensures r.reply == NoCredentials <==> req.verb == "GET" && !Truthy(EnvVar(env, "BLACKCAT_API_KEY"))
    ensures r.reply == MissingId <==> req.verb == "GET" && Truthy(EnvVar(env, "BLACKCAT_API_KEY")) && SaleId(req) == ""
    ensures r.call.Some? <==> req.verb == "GET" && Truthy(EnvVar(env, "BLACKCAT_API_KEY")) && SaleId(req) != ""
    ensures r.call.Some? ==> r.call.value == Call(StatusUrl(BaseUrl(env), SaleId(req)), env["BLACKCAT_API_KEY"])
                             && r.reply == Relay(upstream)
  {
    if req.verb != "GET" then StatusRun(NotAllowed, None)
    else if !Truthy(EnvVar(env, "BLACKCAT_API_KEY")) then StatusRun(NoCredentials, None)
    else
      var id := SaleId(req);
      if id == "" then StatusRun(MissingId, None)
      else StatusRun(Relay(upstream), Some(Call(StatusUrl(BaseUrl(env), id), env["BLACKCAT_API_KEY"])))
  }
}
