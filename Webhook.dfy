/** api/freepay/webhook.js: the gateway's payment notification. The handler reads the
    transaction out of the notification, and when it is paid marks the matching rows of
    `leads` and `comprovantes` in place and reports the sale to UTMify. */
module Webhook {
  import opened Text
  import opened Js
  import opened Tables

  // ---------------------------------------------------------------------------------
  // Reading the notification

  /** What the handler reads out of a notification body. */
  datatype Notice = Notice(data: Json, status: string, event: Json, id: Json)

  /** `String(data?.status || body?.status || "").toUpperCase()`. */
  function StatusText(data: Json, body: Json): string {
    ToUpperAscii(ToStr(Or(Get(data, "status"), Or(Get(body, "status"), JStr("")))))
  }

  /** `body?.event || body?.type || ""`. */
  function EventOf(body: Json): Json {
    Or(Get(body, "event"), Or(Get(body, "type"), JStr("")))
  }

  /** The operands of the `id` chain, in order; the last is the fallback "". */
  function IdSources(data: Json, body: Json): (vs: seq<Json>)
    ensures |vs| == 7 && vs[6] == JStr("")
  {
    [Get(data, "transactionId"), Get(data, "transaction_id"), Get(data, "id"),
     Get(body, "transactionId"), Get(body, "transaction_id"), Get(body, "id"), JStr("")]
  }

  /** The transaction id the notification names. */
  function IdOf(data: Json, body: Json): Json {
    FirstTruthy(IdSources(data, body))
  }

  /** The id is the first truthy of its six sources, and "" when none of them is truthy. */
  lemma IdIsFirstTruthySource(data: Json, body: Json)
    ensures var id := IdOf(data, body); var vs := IdSources(data, body);
      (Truthy(id) <==> exists i :: 0 <= i < 6 && Truthy(vs[i]))
      && (Truthy(id) ==> exists i :: 0 <= i < 6 && id == vs[i] && forall j :: 0 <= j < i ==> !Truthy(vs[j]))
      && (!Truthy(id) ==> id == JStr(""))
  {
    var vs := IdSources(data, body);
    FirstTruthyIsFirst(vs);
    TruthyChain(vs);
    var k := FirstTruthyIndex(vs);
    if Truthy(IdOf(data, body)) {
      assert k < 6;
    } else {
      assert k == 6;
    }
  }

  /** The notification's payload (`Unwrap`), status, event and id. */
  function Classify(body: Json): Notice {
    var data := Unwrap(body);
    Notice(data, StatusText(data, body), EventOf(body), IdOf(data, body))
  }

  /** `isPaid`: the event is exactly "transaction.paid" or the upper-cased status is "PAID". */
  predicate IsPaid(n: Notice) {
    n.event == JStr("transaction.paid") || n.status == "PAID"
  }

  /** `isPaid && id`: the notification changes the tables and is reported. */
  predicate Applies(n: Notice) {
    IsPaid(n) && Truthy(n.id)
  }

  /** The status is compared without regard to case: "paid" or "Paid" on the payload counts. */
  lemma PaidStatusIgnoresCase(body: Json, s: string)
    requires Get(Unwrap(body), "status") == JStr(s) && s != ""
    requires ToUpperAscii(s) == "PAID"
    ensures IsPaid(Classify(body))
  {
  }

  /** The event is compared exactly: "Transaction.Paid" with no status does not count. */
  lemma EventIsCaseSensitive(body: Json)
    requires Get(body, "event") == JStr("Transaction.Paid")
    requires !Truthy(Get(Unwrap(body), "status")) && !Truthy(Get(body, "status"))
    ensures !IsPaid(Classify(body))
  {
    assert "Transaction.Paid" != "transaction.paid" by {
      assert "Transaction.Paid"[0] != "transaction.paid"[0];
    }
    assert ToUpperAscii("") == "";
  }

  /** Without an `event`, the notification's `type` stands in for it. */
  lemma TypeStandsInForEvent(body: Json)
    requires !Truthy(Get(body, "event")) && Get(body, "type") == JStr("transaction.paid")
    ensures IsPaid(Classify(body))
  {
  }

  // ---------------------------------------------------------------------------------
  // The two UPDATE statements

  /** `UPDATE leads SET status = 'PAID' WHERE transaction_id = id` on one row. */
  function PaidLead(l: Lead, id: string): Lead {
    if l.transactionId == id then l.(status := "PAID") else l
  }

  /** `UPDATE comprovantes SET status = 'paid' WHERE transaction_id = id` on one row. */
  function PaidReceipt(r: Receipt, id: string): Receipt {
    if r.transactionId == id then r.(status := Some("paid")) else r
  }

  /** A table after an UPDATE that rewrites every row with `f`. */
  function Updated<R>(rows: seq<R>, f: R -> R): (r: seq<R>)
    ensures |r| == |rows|
  {
    seq(|rows|, i requires 0 <= i < |rows| => f(rows[i]))
  }

  function PaidLeads(rows: seq<Lead>, id: string): seq<Lead> {
    Updated(rows, l => PaidLead(l, id))
  }

  function PaidReceipts(rows: seq<Receipt>, id: string): seq<Receipt> {
    Updated(rows, r => PaidReceipt(r, id))
  }

  /** The leads UPDATE sets "PAID" on every row with the id, changes no other column, and
      leaves the rows with other ids as they were. */
  lemma PaidLeadsEffect(rows: seq<Lead>, id: string)
    ensures var r := PaidLeads(rows, id);
      |r| == |rows|
      && (forall i :: 0 <= i < |rows| && rows[i].transactionId == id ==> r[i] == rows[i].(status := "PAID"))
      && (forall i :: 0 <= i < |rows| && rows[i].transactionId != id ==> r[i] == rows[i])
  {
  }

  /** The receipts UPDATE, likewise with "paid". */
  lemma PaidReceiptsEffect(rows: seq<Receipt>, id: string)
    ensures var r := PaidReceipts(rows, id);
      |r| == |rows|
      && (forall i :: 0 <= i < |rows| && rows[i].transactionId == id ==> r[i] == rows[i].(status := Some("paid")))
      && (forall i :: 0 <= i < |rows| && rows[i].transactionId != id ==> r[i] == rows[i])
  {
  }

  /** An UPDATE by an idempotent row rewrite is idempotent on the table. */
  lemma UpdatedIdempotent<R>(rows: seq<R>, f: R -> R)
    requires forall x :: f(f(x)) == f(x)
    ensures Updated(Updated(rows, f), f) == Updated(rows, f)
  {
    var once := Updated(rows, f);
    var twice := Updated(once, f);
    forall i | 0 <= i < |rows|
      ensures twice[i] == once[i]
    {
      assert once[i] == f(rows[i]);
      assert twice[i] == f(f(rows[i]));
    }
  }

  /** Two UPDATEs whose row rewrites commute, commute on the table. */
  lemma UpdatedCommute<R>(rows: seq<R>, f: R -> R, g: R -> R)
    requires forall x :: f(g(x)) == g(f(x))
    ensures Updated(Updated(rows, f), g) == Updated(Updated(rows, g), f)
  {
    var fg := Updated(Updated(rows, f), g);
    var gf := Updated(Updated(rows, g), f);
    forall i | 0 <= i < |rows|
      ensures fg[i] == gf[i]
    {
      assert fg[i] == g(f(rows[i]));
      assert gf[i] == f(g(rows[i]));
    }
  }

  /** Marking the same transaction paid twice gives the tables of marking it once. */
  lemma PaidTwice(leads: seq<Lead>, receipts: seq<Receipt>, id: string)
    ensures PaidLeads(PaidLeads(leads, id), id) == PaidLeads(leads, id)
    ensures PaidReceipts(PaidReceipts(receipts, id), id) == PaidReceipts(receipts, id)
  {
    UpdatedIdempotent(leads, l => PaidLead(l, id));
    UpdatedIdempotent(receipts, r => PaidReceipt(r, id));
  }

  /** Notifications for two transactions may arrive in either order. */
  lemma PaidInEitherOrder(leads: seq<Lead>, receipts: seq<Receipt>, a: string, b: string)
    ensures PaidLeads(PaidLeads(leads, a), b) == PaidLeads(PaidLeads(leads, b), a)
    ensures PaidReceipts(PaidReceipts(receipts, a), b) == PaidReceipts(PaidReceipts(receipts, b), a)
  {
    UpdatedCommute(leads, l => PaidLead(l, a), l => PaidLead(l, b));
    UpdatedCommute(receipts, r => PaidReceipt(r, a), r => PaidReceipt(r, b));
  }

  /** One UPDATE statement, row by row in place. */
  method UpdateRows<R>(a: array<R>, f: R -> R)
    modifies a
    ensures a[..] == Updated(old(a[..]), f)
  {
    var i := 0;
    while i < a.Length
      invariant 0 <= i <= a.Length
      invariant forall j :: 0 <= j < i ==> a[j] == f(old(a[j]))
      invariant forall j :: i <= j < a.Length ==> a[j] == old(a[j])
    {
      a[i] := f(a[i]);
      i := i + 1;
    }
  }

  // ---------------------------------------------------------------------------------
  // The UTMify report

  /** The position of the last row with the id, or -1 when there is none. */
  function LastMatch(rows: seq<Lead>, id: string): (k: int)
    ensures -1 <= k < |rows|
    ensures k == -1 <==> forall i :: 0 <= i < |rows| ==> rows[i].transactionId != id
    ensures k >= 0 ==> rows[k].transactionId == id && forall j :: k < j < |rows| ==> rows[j].transactionId != id
  {
    if rows == [] then -1
    else if rows[|rows| - 1].transactionId == id then |rows| - 1
    else LastMatch(rows[..|rows| - 1], id)
  }

  /** `safeGetLeadByTransactionId(id)`: the newest lead with the id, taken here as the last
      such row of the table. */
  function LatestLead(rows: seq<Lead>, id: string): Option<Lead> {
    var k := LastMatch(rows, id);
    if k < 0 then None else Some(rows[k])
  }

  /** `formatUtcDate` on the ISO text of an instant: the first 'T' becomes a space and the
      text is cut to 19 characters. */
  function FormatUtcDate(iso: string): string {
    Take(ReplaceFirst(iso, 'T', ' '), 19)
  }

  /** `Date.prototype.toISOString` output: `YYYY-MM-DDTHH:mm:ss.sssZ`. */
  predicate IsIsoInstant(s: string) {
    |s| == 24 && s[10] == 'T' && s[23] == 'Z'
    && (forall i :: 0 <= i < |s| && i != 10 && i != 23 ==> IsDigit(s[i]) || s[i] in "-:.")
  }

  /** On an ISO instant the formatter keeps the date, puts a space for the 'T', keeps the time
      to the second, and drops the milliseconds and the zone letter. */
  lemma FormatUtcDateOfIso(s: string)
    requires IsIsoInstant(s)
    ensures FormatUtcDate(s) == s[..10] + " " + s[11..19]
    ensures |FormatUtcDate(s)| == 19 && 'T' !in FormatUtcDate(s)
  {
    assert 'T' !in s[..10] by {
      forall i | 0 <= i < 10
        ensures s[i] != 'T'
      {
        assert IsDigit(s[i]) || s[i] in "-:.";
      }
    }
    assert IndexOf(s, 'T') == 10;
    var r := ReplaceFirst(s, 'T', ' ');
    assert r[..19] == s[..10] + " " + s[11..19];
    forall i | 0 <= i < 19
      ensures r[i] != 'T'
    {
      if i != 10 {
        assert IsDigit(s[i]) || s[i] in "-:.";
      }
    }
  }

  /** The tracking object of the lead: `JSON.parse(lead.tracking)` when the column is set,
      else `{}`. */
  function LeadTracking(lead: Option<Lead>): Json {
    if lead.Some? && lead.value.tracking.Some? then lead.value.tracking.value else JObj(map[])
  }

  /** `v || null`. */
  function OrNull(v: Json): (r: Json)
    ensures Truthy(r) || r == JNull
    ensures Truthy(v) ==> r == v
    ensures !Truthy(v) ==> r == JNull
  {
    Or(v, JNull)
  }

  /** The seven tracking parameters UTMify receives. */
  const TrackingKeys: set<string> := {"src", "sck", "utm_source", "utm_campaign", "utm_medium", "utm_content", "utm_term"}

  /** `tracking.utm || {}`: the UTM part of the tracking object. */
  function UtmOf(tracking: Json): Json {
    Or(Get(tracking, "utm"), JObj(map[]))
  }

  /** The values each tracking parameter is read from, in the order `||` tries them. */
  function ParameterSources(tracking: Json, k: string): (vs: seq<Json>)
    ensures vs != []
  {
    var utm := UtmOf(tracking);
    if k == "src" || k == "sck" then [Get(tracking, k), Get(utm, k)]
    else if k == "utm_source" then [Get(utm, "utm_source"), Get(utm, "source")]
    else [Get(utm, k)]
  }

  /** `trackingParameters`: each key from the tracking object or its `utm` part, else null. */
  function TrackingParameters(tracking: Json): (r: map<string, Json>)
    ensures r.Keys == TrackingKeys
  {
    var utm := UtmOf(tracking);
    map[
      "src" := OrNull(Or(Get(tracking, "src"), Get(utm, "src"))),
      "sck" := OrNull(Or(Get(tracking, "sck"), Get(utm, "sck"))),
      "utm_source" := OrNull(Or(Get(utm, "utm_source"), Get(utm, "source"))),
      "utm_campaign" := OrNull(Get(utm, "utm_campaign")),
      "utm_medium" := OrNull(Get(utm, "utm_medium")),
      "utm_content" := OrNull(Get(utm, "utm_content")),
      "utm_term" := OrNull(Get(utm, "utm_term"))]
  }

  /** Every tracking parameter is a truthy value or null. */
  lemma TrackingParametersTruthyOrNull(tracking: Json)
    ensures var r := TrackingParameters(tracking);
      forall k :: k in r ==> Truthy(r[k]) || r[k] == JNull
  {
    var r := TrackingParameters(tracking);
    forall k | k in r
      ensures Truthy(r[k]) || r[k] == JNull
    {
      assert k in TrackingKeys;
    }
  }

  /** Each tracking parameter is its first truthy source, and null exactly when no source
      is truthy. */
  lemma TrackingParameterValue(tracking: Json, k: string)
    requires k in TrackingKeys
    ensures var vs, r := ParameterSources(tracking, k), TrackingParameters(tracking)[k];
      (r == JNull <==> forall i :: 0 <= i < |vs| ==> !Truthy(vs[i]))
      && (r != JNull ==> exists i :: 0 <= i < |vs| && r == vs[i] && forall j :: 0 <= j < i ==> !Truthy(vs[j]))
  {
    var vs, r := ParameterSources(tracking, k), TrackingParameters(tracking)[k];
    if |vs| == 2 {
      assert vs[1..] == [vs[1]];
    }
    assert r == OrNull(FirstTruthy(vs));
    FirstTruthyIsFirst(vs);
    TruthyChain(vs);
  }

  /** `utm_source` falls back to `utm.source` whenever `utm.utm_source` is falsy. */
  lemma UtmSourceFallback(tracking: Json)
    requires !Truthy(Get(UtmOf(tracking), "utm_source"))
    ensures TrackingParameters(tracking)["utm_source"] == OrNull(Get(UtmOf(tracking), "source"))
  {
  }

  /** A lead without tracking reports every parameter as null. */
  lemma NoTrackingAllNull()
    ensures forall k :: k in TrackingParameters(JObj(map[])) ==> TrackingParameters(JObj(map[]))[k] == JNull
  {
  }

  /** The order reported to UTMify, before it is written as JSON. `price` is both the
      product's price and the commission's total. */
  datatype Order = Order(
    orderId: string, createdAt: string, approvedDate: string,
    name: Json, email: Json, phone: Json, document: Json,
    product: Json, price: Json, tracking: map<string, Json>)

  /** The POST to UTMify: its `x-api-token` header and its order. */
  datatype UtmifyPost = UtmifyPost(token: string, order: Order)

  /** The order built from the id, the lead found for it (if any) and the current instant. */
  function OrderOf(id: Json, lead: Option<Lead>, now: string): (o: Order)
    ensures lead.None? ==>
      o.name == JStr("") && o.phone == JNull && o.price == JNum(0) && o.product == JStr("Taxa de Adesão")
    ensures lead.Some? ==> o.createdAt == FormatUtcDate(lead.value.createdAt)
  {
    match lead
    case None =>
      Order(ToStr(id), FormatUtcDate(now), FormatUtcDate(now), JStr(""), JStr(""), JNull, JNull,
            JStr("Taxa de Adesão"), JNum(0), TrackingParameters(LeadTracking(lead)))
    case Some(l) =>
      Order(ToStr(id), FormatUtcDate(l.createdAt), FormatUtcDate(now),
            Or(JStr(l.nome), JStr("")), Or(JStr(l.email), JStr("")), Or(JStr(l.phone), JNull),
            Or(JStr(l.cpf), JNull), Or(JStr(l.title), JStr("Taxa de Adesão")), Or(l.amountCents, JNum(0)),
            TrackingParameters(LeadTracking(lead)))
  }

  /** The JSON body of the POST. */
  function OrderJson(o: Order): Json {
    JObj(map[
      "orderId" := JStr(o.orderId), "platform" := JStr("Blackcat"), "paymentMethod" := JStr("pix"),
      "status" := JStr("paid"), "createdAt" := JStr(o.createdAt), "approvedDate" := JStr(o.approvedDate),
      "refundedAt" := JNull,
      "customer" := JObj(map["name" := o.name, "email" := o.email, "phone" := o.phone,
                             "document" := o.document, "country" := JStr("BR"), "ip" := JNull]),
      "products" := JArr([JObj(map["id" := JStr("taxa_adesao"), "name" := o.product, "planId" := JNull,
                                   "planName" := JNull, "quantity" := JNum(1), "priceInCents" := o.price])]),
      "trackingParameters" := JObj(o.tracking),
      "commission" := JObj(map["totalPriceInCents" := o.price, "gatewayFeeInCents" := JNum(0),
                               "userCommissionInCents" := o.price]),
      "isTest" := JBool(false)])
  }

  /** The whole price is the seller's: no gateway fee, and a commission equal to the total,
      which is also the product's price. */
  lemma CommissionIsTotal(o: Order)
    ensures var c := Get(OrderJson(o), "commission");
      Get(c, "gatewayFeeInCents") == JNum(0)
      && Get(c, "userCommissionInCents") == Get(c, "totalPriceInCents")
      && Get(At(Get(OrderJson(o), "products"), 0), "priceInCents") == Get(c, "totalPriceInCents")
  {
  }

  /** `sendUtmifyPaid`: nothing is sent without a token. What UTMify answers, or whether it
      answers at all, is caught and logged, so it has no bearing on the webhook. */
  function Report(token: Json, id: Json, lead: Option<Lead>, now: string): (r: Option<UtmifyPost>)
    ensures r.None? <==> !Truthy(token)
  {
    if !Truthy(token) then None else Some(UtmifyPost(ToStr(token), OrderOf(id, lead, now)))
  }

  // ---------------------------------------------------------------------------------
  // The handler

  /** The handler's answers. */
  datatype Reply = NotAllowed | Failed | Acknowledged

  /** The status and JSON body written for each answer. */
  function Render(a: Reply): (r: Response)
    ensures r.status == (match a case NotAllowed => 405 case Failed => 500 case Acknowledged => 200)
    ensures Get(r.body, "success") == JBool(a.Acknowledged?)
  {
    match a
    case NotAllowed => Failure(405, "message", "Method Not Allowed")
    case Failed => Response(500, JObj(map["success" := JBool(false)]))
    case Acknowledged => Response(200, JObj(map["success" := JBool(true)]))
  }

  /** One run of the handler: its answer, both tables afterwards, and the UTMify report. */
  datatype WebhookRun = WebhookRun(reply: Reply, leads: seq<Lead>, receipts: seq<Receipt>, report: Option<UtmifyPost>)

  /** The handler on a request. `dbUp` says whether the configured database answers the
      `leads` UPDATE, and `receiptsUp` whether it then answers the `comprovantes` UPDATE (that
      table may not exist yet, or may have been created by the upload without a `status`
      column). */
  function Webhook(env: map<string, string>, req: Request, parse: string -> Option<Json>,
                   leads: seq<Lead>, receipts: seq<Receipt>, dbUp: bool, receiptsUp: bool, now: string): (r: WebhookRun)
    ensures !r.reply.Acknowledged? ==> r.receipts == receipts && r.report.None?
    ensures r.leads != leads ==> DbConfigured(env) && dbUp
    ensures r.reply == Failed && r.leads != leads ==> !receiptsUp
    ensures |r.leads| == |leads| && |r.receipts| == |receipts|
  {
    if req.verb != "POST" then WebhookRun(NotAllowed, leads, receipts, None)
    else match ReadBody(req.body, parse)
      case None => WebhookRun(Failed, leads, receipts, None)
      case Some(body) =>
        var n := Classify(body);
        if !Applies(n) then WebhookRun(Acknowledged, leads, receipts, None)
        else if DbConfigured(env) && !dbUp then WebhookRun(Failed, leads, receipts, None)
        else if DbConfigured(env) && !receiptsUp then WebhookRun(Failed, PaidLeads(leads, ToStr(n.id)), receipts, None)
        else
          var id := ToStr(n.id);
          var leads' := if DbConfigured(env) then PaidLeads(leads, id) else leads;
          var receipts' := if DbConfigured(env) then PaidReceipts(receipts, id) else receipts;
          var lead := if DbConfigured(env) then LatestLead(leads', id) else None;
          WebhookRun(Acknowledged, leads', receipts', Report(EnvVar(env, "UTMIFY_API_TOKEN"), n.id, lead, now))
  }

  /** A notification that is not a paid one, or names no transaction, is acknowledged and
      touches nothing. */
  lemma IgnoredNotice(env: map<string, string>, req: Request, parse: string -> Option<Json>,
                      leads: seq<Lead>, receipts: seq<Receipt>, dbUp: bool, receiptsUp: bool, now: string)
    requires req.verb == "POST" && ReadBody(req.body, parse).Some?
    requires !Applies(Classify(ReadBody(req.body, parse).value))
    ensures Webhook(env, req, parse, leads, receipts, dbUp, receiptsUp, now) == WebhookRun(Acknowledged, leads, receipts, None)
  {
  }

  /** A paid notification with an id, with the database reachable, marks the id's rows in
      both tables and is acknowledged. When only the `comprovantes` UPDATE throws, the leads
      stay marked, the answer is 500 and nothing is reported to UTMify. */
  lemma PaidNotice(env: map<string, string>, req: Request, parse: string -> Option<Json>,
                   leads: seq<Lead>, receipts: seq<Receipt>, dbUp: bool, receiptsUp: bool, now: string)
    requires req.verb == "POST" && ReadBody(req.body, parse).Some?
    requires Applies(Classify(ReadBody(req.body, parse).value))
    requires DbConfigured(env) && dbUp
    ensures var r := Webhook(env, req, parse, leads, receipts, dbUp, receiptsUp, now);
      var id := ToStr(Classify(ReadBody(req.body, parse).value).id);
      r.leads == PaidLeads(leads, id)
      && (receiptsUp ==> r.reply == Acknowledged && r.receipts == PaidReceipts(receipts, id))
      && (!receiptsUp ==> r.reply == Failed && r.receipts == receipts && r.report.None?)
  {
  }

  /** Delivering the same notification again leaves the tables as the first delivery left them. */
  lemma RedeliveryChangesNothing(env: map<string, string>, req: Request, parse: string -> Option<Json>,
                                 leads: seq<Lead>, receipts: seq<Receipt>, dbUp: bool, receiptsUp: bool,
                                 now: string, later: string)
    ensures var first := Webhook(env, req, parse, leads, receipts, dbUp, receiptsUp, now);
      var second := Webhook(env, req, parse, first.leads, first.receipts, dbUp, receiptsUp, later);
      second.leads == first.leads && second.receipts == first.receipts
  {
    var first := Webhook(env, req, parse, leads, receipts, dbUp, receiptsUp, now);
    if req.verb == "POST" && ReadBody(req.body, parse).Some? {
      var n := Classify(ReadBody(req.body, parse).value);
      if Applies(n) && DbConfigured(env) && dbUp {
        PaidTwice(leads, receipts, ToStr(n.id));
      }
    }
  }

  /** An id sent as an empty array is truthy, yet reads as "": the notification then marks
      every lead stored without a transaction id, such as the request leads of the checkout. */
  lemma EmptyArrayIdMatchesBlankRows(leads: seq<Lead>, i: nat)
    requires i < |leads| && leads[i].transactionId == ""
    ensures var body := JObj(map["status" := JStr("PAID"), "id" := JArr([])]);
      Applies(Classify(body)) && PaidLeads(leads, ToStr(Classify(body).id))[i].status == "PAID"
  {
    var body := JObj(map["status" := JStr("PAID"), "id" := JArr([])]);
    assert Unwrap(body) == body;
    assert StatusText(body, body) == "PAID";
    var vs := IdSources(body, body);
    assert vs[5] == JArr([]);
    assert IdOf(body, body) == JArr([]);
    PaidLeadsEffect(leads, "");
  }

  /** `module.exports` in place: the UPDATEs rewrite the stored rows one table after the
      other, and the answer, tables and report are those of `Webhook`. */
  method HandleWebhook(env: map<string, string>, req: Request, parse: string -> Option<Json>,
                       leads: array<Lead>, receipts: array<Receipt>, dbUp: bool, receiptsUp: bool, now: string)
    returns (reply: Reply, report: Option<UtmifyPost>)
    modifies leads, receipts
    ensures WebhookRun(reply, leads[..], receipts[..], report)
      == Webhook(env, req, parse, old(leads[..]), old(receipts[..]), dbUp, receiptsUp, now)
  {
    if req.verb != "POST" {
      return NotAllowed, None;
    }
    var parsed := ReadBody(req.body, parse);
    if parsed.None? {
      return Failed, None;
    }
    var n := Classify(parsed.value);
    if !Applies(n) {
      return Acknowledged, None;
    }
    var lead: Option<Lead> := None;
    var id := ToStr(n.id);
    if DbConfigured(env) {
      if !dbUp {
        return Failed, None;
      }
      UpdateRows(leads, l => PaidLead(l, id));
      if !receiptsUp {
        return Failed, None;
      }
      UpdateRows(receipts, r => PaidReceipt(r, id));
      lead := LatestLead(leads[..], id);
    }
    reply := Acknowledged;
    report := Report(EnvVar(env, "UTMIFY_API_TOKEN"), n.id, lead, now);
  }
}
