/** The PIX checkout handler of api/payment.js: the ordered gates, the customer and tracking
    normalisation, the sale sent to the gateway, the fields read back from its reply, and
    the two leads the handler records (one before the gateway call, one after a complete
    reply). The gateway call itself is an input (`GatewayReply`). */
module Payment {
  import opened Text
  import opened Js
  import opened Amount
  import opened PixQr
  import opened Tables

  /** What `fetch` to the gateway produced: it threw, or it answered with a status and a
      body (`resp.json().catch(() => ({}))`, so an unreadable body is `{}`). */
  datatype GatewayReply = Unreachable | Reply(status: int, data: Json)

  /** `resp.ok`. */
  predicate Ok(status: int) {
    200 <= status < 300
  }

  /** The request body after `JSON.parse`, or None when parsing throws or when the body is
      `null`/`undefined` (destructuring it throws). */
  function ParsedBody(req: Request, parse: string -> Option<Json>): (r: Option<Json>)
    ensures r.Some? ==> r.value != JUndef && r.value != JNull
  {
    match ReadBody(req.body, parse)
    case None => None
    case Some(b) => if b == JUndef || b == JNull then None else Some(b)
  }

  /** `customerFromBody`: the body's `customer` when it is an object (arrays included), else null. */
  function CustomerFromBody(body: Json): (r: Json)
    ensures r == JNull || (IsObjectLike(r) && r == Get(body, "customer"))
  {
    var c := Get(body, "customer");
    if IsObjectLike(c) then c else JNull
  }

  /** `(primary ?? fallback)?.toString().trim()`: None stands for `undefined`. */
  function ValidField(primary: Json, fallback: Json): (r: Option<string>)
    ensures r.None? <==> (primary == JUndef || primary == JNull) && (fallback == JUndef || fallback == JNull)
    ensures r.Some? ==> r.value == Trim(ToStr(if primary == JUndef || primary == JNull then fallback else primary))
    ensures r.Some? ==> Trim(r.value) == r.value
  {
    var v := Coalesce(primary, fallback);
    if v == JUndef || v == JNull then None
    else
      TrimIdempotent(ToStr(v));
      Some(Trim(ToStr(v)))
  }

  /** A validated field that is truthy: present and non-empty. */
  predicate Filled(f: Option<string>) {
    f.Some? && f.value != ""
  }

  /** `??` falls back only on null and undefined: a top-level value of white space alone
      shadows the customer object's, and the field reads as "", which is not filled. */
  lemma BlankShadowsFallback(s: string, fallback: Json)
    requires AllSpace(s)
    ensures ValidField(JStr(s), fallback) == Some("")
    ensures !Filled(ValidField(JStr(s), fallback))
  {
    assert ToStr(JStr(s)) == s;
    TrimEmpty(s);
    assert Trim(s) == [];
  }

  /** The JavaScript value of an optional field (`undefined` when absent). */
  function OptJson(f: Option<string>): Json {
    if f.Some? then JStr(f.value) else JUndef
  }

  function NameOf(body: Json): Option<string> {
    ValidField(Get(body, "nome"), Get(CustomerFromBody(body), "name"))
  }

  function EmailOf(body: Json): Option<string> {
    ValidField(Get(body, "email"), Get(CustomerFromBody(body), "email"))
  }

  function CpfOf(body: Json): Option<string> {
    ValidField(Get(body, "cpf"), Get(CustomerFromBody(body), "taxId"))
  }

  function PhoneOf(body: Json): Option<string> {
    ValidField(Get(body, "phone"), Get(CustomerFromBody(body), "cellphone"))
  }

  /** `normalizeAmountToCents(amount)` with `process.env.FIXED_AMOUNT` as the fallback. */
  function AmountOf(env: map<string, string>, body: Json): Num {
    NormalizeAmountToCents(Get(body, "amount"), EnvVar(env, "FIXED_AMOUNT"))
  }

  /** `FIXED_TITLE = description || title || "Taxa de Adesão"`. */
  function TitleOf(body: Json): (r: Json)
    ensures Truthy(r)
  {
    Or(Get(body, "description"), Or(Get(body, "title"), JStr("Taxa de Adesão")))
  }

  /** The values the handler derives from the parsed body: the validated fields, the
      amount in centavos and `FIXED_TITLE`. */
  datatype Form = Form(body: Json, cpf: Option<string>, nome: Option<string>, email: Option<string>,
                       phone: Option<string>, cents: Num, title: Json)

  function FormOf(env: map<string, string>, body: Json): Form {
    Form(body, CpfOf(body), NameOf(body), EmailOf(body), PhoneOf(body), AmountOf(env, body), TitleOf(body))
  }

  /** What passes the gates: the form and the postback URL. */
  datatype Checkout = Checkout(form: Form, postbackUrl: string)

  /** The handler's answers, before they are written as status and JSON. */
  datatype Answer =
    | Preflight
    | MethodNotAllowed
    | MissingApiKey
    | MissingPostbackUrl
    | Thrown
    | MissingNameOrEmail
    | InvalidAmount
    | GatewayRefused(data: Json)
    | IncompleteReply
    | Created(transactionId: string, pixCode: string, amount: Json, status: string, qr: string)

  function StatusCode(a: Answer): int {
    match a
    case Preflight => 200
    case MethodNotAllowed => 405
    case MissingApiKey => 500
    case MissingPostbackUrl => 500
    case Thrown => 500
    case MissingNameOrEmail => 400
    case InvalidAmount => 400
    case GatewayRefused(_) => 502
    case IncompleteReply => 502
    case Created(_, _, _, _, _) => 200
  }

  /** The status and JSON body the handler writes for each answer. The catch-all answer
      also carries the exception text, which is not modelled. */
  function Render(a: Answer): (r: Response)
    ensures r.status == StatusCode(a)
  {
    match a
    case Preflight => Response(200, JUndef)
    case MethodNotAllowed => Response(405, JObj(map["error" := JStr("Method Not Allowed")]))
    case MissingApiKey => Failure(500, "message", "Credenciais da Blackcat não configuradas")
    case MissingPostbackUrl => Failure(500, "message", "BLACKCAT_POSTBACK_URL não configurada")
    case Thrown => Failure(500, "message", "Erro interno")
    case MissingNameOrEmail => Failure(400, "message", "Nome e Email são obrigatórios")
    case InvalidAmount => Failure(400, "message", "Amount inválido (mínimo 100 centavos)")
    case GatewayRefused(data) =>
      Response(502, JObj(WithOptional(
        map["success" := JBool(false), "message" := Or(Get(data, "error"), JStr("Falha ao criar PIX"))],
        "detalhes", Or(Get(data, "details"), Get(data, "detalhes")))))
    case IncompleteReply => Failure(502, "message", "Gateway não retornou dados esperados")
    case Created(tx, pix, amount, status, qr) =>
      Response(200, JObj(map[
        "success" := JBool(true), "transaction_id" := JStr(tx), "pix_code" := JStr(pix),
        "amount" := amount, "status" := JStr(status), "qr_code" := JStr(qr), "pix_qr_code" := JStr(qr)]))
  }

  /** A 200 with a QR value sends that value twice, under both `qr_code` and `pix_qr_code`. */
  lemma CreatedShowsQrTwice(tx: string, pix: string, amount: Json, status: string, qr: string)
    ensures var b := Render(Created(tx, pix, amount, status, qr)).body;
      b.JObj? && "qr_code" in b.fields && "pix_qr_code" in b.fields
      && b.fields["qr_code"] == b.fields["pix_qr_code"] == JStr(qr)
      && "status" in b.fields && b.fields["status"] == JStr(status)
  {
  }

  /** The answers the gates give, before the gateway is called. */
  predicate EarlyAnswer(a: Answer) {
    a.Preflight? || a.MethodNotAllowed? || a.MissingApiKey? || a.MissingPostbackUrl? || a.Thrown?
    || a.MissingNameOrEmail? || a.InvalidAmount?
  }

  /** An early answer, or the values a stage hands on to the next. */
  datatype Stage<T> = Stop(answer: Answer) | Go(value: T)

  /** The gates, in the handler's order: preflight, method, the two credentials, the body
      (None when reading it throws), name and e-mail, and the amount. */
  function Decide(verb: string, apiKey: Json, postbackUrl: Json, form: Option<Form>): (r: Stage<Checkout>)
    ensures r.Go? <==>
      verb == "POST" && Truthy(apiKey) && Truthy(postbackUrl) && form.Some?
      && Filled(form.value.nome) && Filled(form.value.email) && AmountAccepted(form.value.cents)
    ensures r.Go? ==> r.value.form == form.value
    ensures r.Stop? ==> EarlyAnswer(r.answer)
  {
    if verb == "OPTIONS" then Stop(Preflight)
    else if verb != "POST" then Stop(MethodNotAllowed)
    else if !Truthy(apiKey) then Stop(MissingApiKey)
    else if !Truthy(postbackUrl) then Stop(MissingPostbackUrl)
    else match form
      case None => Stop(Thrown)
      case Some(f) =>
        if !Filled(f.nome) || !Filled(f.email) then Stop(MissingNameOrEmail)
        else if !AmountAccepted(f.cents) then Stop(InvalidAmount)
        else Go(Checkout(f, ToStr(postbackUrl)))
  }

  /** The credentials are checked before the body is looked at. */
  lemma CredentialsFirst(apiKey: Json, postbackUrl: Json, form: Option<Form>)
    requires !Truthy(apiKey) || !Truthy(postbackUrl)
    ensures Decide("POST", apiKey, postbackUrl, form)
         == if !Truthy(apiKey) then Stop(MissingApiKey) else Stop(MissingPostbackUrl)
  {
  }

  /** Name and e-mail are checked before the amount. */
  lemma NameAndEmailBeforeAmount(apiKey: Json, postbackUrl: Json, f: Form)
    requires Truthy(apiKey) && Truthy(postbackUrl)
    ensures Decide("POST", apiKey, postbackUrl, Some(f))
         == if !Filled(f.nome) || !Filled(f.email) then Stop(MissingNameOrEmail)
            else if !AmountAccepted(f.cents) then Stop(InvalidAmount)
            else Go(Checkout(f, ToStr(postbackUrl)))
  {
  }

  /** The gates of `handlePaymentRequest` on a request. */
  function Admit(env: map<string, string>, req: Request, parse: string -> Option<Json>): (r: Stage<Checkout>)
    ensures r.Stop? ==> EarlyAnswer(r.answer)
  {
    Decide(req.verb, EnvVar(env, "BLACKCAT_API_KEY"), EnvVar(env, "BLACKCAT_POSTBACK_URL"),
           match ParsedBody(req, parse)
           case None => None
           case Some(body) => Some(FormOf(env, body)))
  }

  /** The customer sent to the gateway: phone and tax id keep only their digits. */
  datatype Customer = Customer(name: Json, email: Json, cellphone: string, taxId: string)

  function CustomerOf(f: Form): (r: Customer)
    ensures AllDigits(r.cellphone) && AllDigits(r.taxId)
  {
    var cust := CustomerFromBody(f.body);
    Customer(
      Or(Get(cust, "name"), OptJson(f.nome)),
      Or(Get(cust, "email"), OptJson(f.email)),
      DigitsOnly(ToStr(Or(Get(cust, "cellphone"), Or(OptJson(f.phone), JStr(""))))),
      DigitsOnly(ToStr(Or(Get(cust, "taxId"), Or(OptJson(f.cpf), JStr(""))))))
  }

  /** `documentType`: a tax id longer than a CPF's 11 digits is a CNPJ. */
  function DocumentType(taxId: string): (r: string)
    ensures r == "cnpj" <==> |taxId| > 11
    ensures r == "cpf" <==> |taxId| <= 11
  {
    if taxId != "" && |taxId| > 11 then "cnpj" else "cpf"
  }

  /** The normalised tracking object `{utm, src}`. */
  datatype Tracking = Tracking(utm: Json, src: Json)

  function EmptyObject(): Json {
    JObj(map[])
  }

  /** `typeof v === "object" && v ? v : {}`. */
  function ObjectOrEmpty(v: Json): (r: Json)
    ensures IsObjectLike(r)
    ensures IsObjectLike(v) ==> r == v
  {
    if IsObjectLike(v) then v else EmptyObject()
  }

  /** The tracking IIFE: a tracking object brings its own `utm` and `src`; a tracking string
      is the source itself; otherwise the body-level `utm` and `src` are used. The referer
      header is the last source before "". */
  function TrackingOf(body: Json, referer: Json): (t: Tracking)
    ensures IsObjectLike(t.utm)
    ensures var tr := Get(body, "tracking");
      tr.JObj? ==> t == Tracking(ObjectOrEmpty(Get(tr, "utm")), Or(Get(tr, "src"), Or(Get(body, "src"), Or(referer, JStr("")))))
    ensures var tr := Get(body, "tracking");
      tr.JStr? ==> t == Tracking(EmptyObject(), tr)
    ensures var tr := Get(body, "tracking");
      !tr.JObj? && !tr.JStr? ==> t == Tracking(ObjectOrEmpty(Get(body, "utm")), Or(Get(body, "src"), Or(referer, JStr(""))))
  {
    var tr := Get(body, "tracking");
    if Truthy(tr) && IsObjectLike(tr) && !tr.JArr? then
      Tracking(ObjectOrEmpty(Get(tr, "utm")), Or(Get(tr, "src"), Or(Get(body, "src"), Or(referer, JStr("")))))
    else if tr.JStr? then Tracking(EmptyObject(), tr)
    else Tracking(ObjectOrEmpty(Get(body, "utm")), Or(Get(body, "src"), Or(referer, JStr(""))))
  }

  function TrackingJson(t: Tracking): Json {
    JObj(map["utm" := t.utm, "src" := t.src])
  }

  /** A JSON number for a centavos amount. `JSON.stringify` writes a non-finite number as `null`. */
  function AmountJson(c: Num): (r: Json)
    ensures c.Dec? && c.e == 0 ==> r == JNum(c.m)
    ensures !c.Dec? ==> r == JNull
  {
    if c.Dec? && c.e == 0 then JNum(c.m) else JNull
  }

  /** `{...m, [k]: v}` as `JSON.stringify` writes it: an `undefined` value is left out. */
  function WithOptional(m: map<string, Json>, k: string, v: Json): (r: map<string, Json>)
    ensures v != JUndef ==> r == m[k := v]
    ensures v == JUndef ==> r == m
  {
    if v == JUndef then m else m[k := v]
  }

  /** The `utm_*` fields of the sale: each the first truthy candidate, else left out. */
  function UtmFields(t: Tracking): map<string, Json> {
    var u := t.utm;
    var m := WithOptional(map[], "utm_source", Or(Get(u, "utm_source"), Or(Get(u, "source"), Or(t.src, JUndef))));
    var m := WithOptional(m, "utm_medium", Or(Get(u, "utm_medium"), JUndef));
    var m := WithOptional(m, "utm_campaign", Or(Get(u, "utm_campaign"), JUndef));
    var m := WithOptional(m, "utm_content", Or(Get(u, "utm_content"), JUndef));
    WithOptional(m, "utm_term", Or(Get(u, "utm_term"), JUndef))
  }

  /** The `payload` posted to `/sales/create-sale`, less its constant parts. */
  datatype Sale = Sale(amount: Json, title: Json, customer: Customer, postbackUrl: string,
                       utm: map<string, Json>)

  function SaleOf(c: Checkout, referer: Json): (s: Sale)
    ensures s.amount == AmountJson(c.form.cents) && s.customer == CustomerOf(c.form)
  {
    Sale(AmountJson(c.form.cents), c.form.title, CustomerOf(c.form), c.postbackUrl,
         UtmFields(TrackingOf(c.form.body, referer)))
  }

  /** The sale as it is posted (the `utm_*` keys never collide with the others). `metadata` is sent as the JSON text of the object shown here. */
  function SaleJson(s: Sale): Json {
    var cu := s.customer;
    JObj(s.utm + map[
      "amount" := s.amount,
      "currency" := JStr("BRL"),
      "paymentMethod" := JStr("pix"),
      "items" := JArr([JObj(map["title" := s.title, "unitPrice" := s.amount,
                                "quantity" := JNum(1), "tangible" := JBool(false)])]),
      "customer" := JObj(map["name" := cu.name, "email" := cu.email, "phone" := JStr(cu.cellphone),
                             "document" := JObj(map["type" := JStr(DocumentType(cu.taxId)),
                                                    "number" := JStr(cu.taxId)])]),
      "pix" := JObj(map["expiresInDays" := JNum(1)]),
      "postbackUrl" := JStr(s.postbackUrl),
      "externalRef" := JStr("taxa_adesao"),
      "metadata" := JObj(map["source" := JStr("popseal"), "cpf" := JStr(cu.taxId), "email" := cu.email])])
  }

  /** The document posted is the digits-only tax id, typed "cnpj" exactly when it is longer
      than 11 digits. */
  lemma SaleDocument(s: Sale)
    ensures var j := SaleJson(s);
      j.JObj? && "customer" in j.fields && j.fields["customer"].JObj?
      && "document" in j.fields["customer"].fields
      && var doc := j.fields["customer"].fields["document"];
         doc.JObj? && "type" in doc.fields && "number" in doc.fields
         && doc.fields["number"] == JStr(s.customer.taxId)
         && (doc.fields["type"] == JStr("cnpj") <==> |s.customer.taxId| > 11)
  {
  }

  /** The `amount_cents` that `saveLead` receives: a value read from the gateway's reply, or
      the handler's own centavos number. */
  datatype AmountParam = FromReply(v: Json) | Computed(c: Num)

  /** What the INTEGER column `amount_cents` stores for `data.amount_cents || null`, or None
      when Postgres refuses it. node-postgres sends a number as `String(n)`, so a 32-bit
      integer is stored while "Infinity", "-Infinity" and a fraction are refused. */
  function AmountColumn(a: AmountParam): (r: Option<Json>)
    ensures a.FromReply? ==> r == IntegerColumn(Or(a.v, JNull))
    ensures a.Computed? && !NumTruthy(a.c) ==> r == Some(JNull)
    ensures a.Computed? && (a.c.PosInf? || a.c.NegInf?) ==> r.None?
    ensures a.Computed? && a.c.Dec? && a.c.e == 0 && a.c.m != 0 ==>
      (r.Some? <==> InIntegerRange(a.c.m)) && (r.Some? ==> r.value == JNum(a.c.m))
  {
    match a
    case FromReply(v) => IntegerColumn(Or(v, JNull))
    case Computed(c) =>
      if !NumTruthy(c) then Some(JNull)
      else if IsInteger(c) then IntegerColumn(JNum(IntValue(c)))
      else None
  }

  /** The object `saveLead` receives. `tracking` is the tracking object whose JSON text is
      stored, None when the field is absent. */
  datatype LeadData = LeadData(
    source: string, cpf: Json, nome: Json, email: Json, phone: Json, amountCents: AmountParam,
    title: Json, transactionId: Json, status: Json, tracking: Option<Json>, userAgent: Json, ip: Json)

  /** A text column bound as `x || ""`. */
  function TextColumn(v: Json): string {
    ToStr(Or(v, JStr("")))
  }

  /** A string column bound from a string is that string. */
  lemma TextColumnOfString(s: string)
    ensures TextColumn(JStr(s)) == s
  {
  }

  /** The row `saveLead` inserts, with `now` as the `created_at` default, or None when the
      INSERT throws because the amount does not fit the INTEGER column. */
  function LeadRow(d: LeadData, now: string): (l: Option<Lead>)
    ensures l.Some? <==> AmountColumn(d.amountCents).Some?
    ensures l.Some? ==> l.value.source == d.source && l.value.transactionId == TextColumn(d.transactionId)
                        && l.value.status == TextColumn(d.status) && l.value.tracking == d.tracking
                        && l.value.amountCents == AmountColumn(d.amountCents).value
  {
    match AmountColumn(d.amountCents)
    case None => None
    case Some(amount) =>
      Some(Lead(d.source, TextColumn(d.cpf), TextColumn(d.nome), TextColumn(d.email), TextColumn(d.phone),
                amount, TextColumn(d.title), TextColumn(d.transactionId), TextColumn(d.status),
                d.tracking, TextColumn(d.userAgent), TextColumn(d.ip), now))
  }

  /** What `saveLead(data)` inserts: one row when the database is configured and answers and
      the amount fits its column, nothing otherwise (without a connection string it returns
      at once; a failing statement is logged and ignored). */
  function Saved(saves: bool, d: LeadData, now: string): (r: seq<Lead>)
    ensures |r| <= 1 && (r != [] <==> saves && AmountColumn(d.amountCents).Some?)
    ensures r != [] ==> r[0] == LeadRow(d, now).value
  {
    if saves && LeadRow(d, now).Some? then [LeadRow(d, now).value] else []
  }

  /** The lead saved before the gateway is called. */
  function RequestLead(c: Checkout, req: Request): LeadData {
    var f := c.form;
    LeadData("payment_request", Or(OptJson(f.cpf), JStr("")), Or(OptJson(f.nome), JStr("")),
             Or(OptJson(f.email), JStr("")), Or(OptJson(f.phone), JStr("")), Computed(f.cents), f.title,
             JUndef, JUndef, Some(TrackingJson(TrackingOf(f.body, Header(req, "referer")))),
             Or(Get(f.body, "user_agent"), Or(Header(req, "user-agent"), JStr(""))),
             Or(Header(req, "x-forwarded-for"), Or(req.remote, JStr(""))))
  }

  /** The values read out of the gateway's reply. */
  datatype GatewayFields = GatewayFields(txData: Json, tx: Json, pixText: Json, pixQr: Json)

  /** `txData?.paymentData || {}`. */
  function PaymentData(txData: Json): Json {
    Or(Get(txData, "paymentData"), EmptyObject())
  }

  /** The candidates for the transaction id, in the order the handler tries them. */
  function TxSources(txData: Json): (vs: seq<Json>)
    ensures |vs| == 4
  {
    [Get(txData, "transactionId"), Get(txData, "id"), Get(txData, "transaction_id"), Get(txData, "txid")]
  }

  /** The candidates for the PIX copy-and-paste text, ending with "". */
  function PixTextSources(txData: Json): (vs: seq<Json>)
    ensures |vs| == 5 && vs[4] == JStr("")
  {
    var pd := PaymentData(txData);
    [Get(pd, "copyPaste"), Get(pd, "qrCode"), Get(txData, "pix_code"), Get(txData, "qr_code"), JStr("")]
  }

  /** The candidates for the QR value, ending with "". */
  function PixQrSources(txData: Json): (vs: seq<Json>)
    ensures |vs| == 6 && vs[5] == JStr("")
  {
    var pd := PaymentData(txData);
    [Get(pd, "qrCodeBase64"), Get(pd, "qrCode"), Get(txData, "pix_qr_code"), Get(txData, "qr_code_image"),
     Get(txData, "qr_code"), JStr("")]
  }

  /** `txData`, `tx`, `pixText` and `pixQr`: each the `||` chain of its candidates. */
  function FieldsOf(data: Json): (g: GatewayFields)
    ensures g.txData == Unwrap(data)
    ensures !Truthy(g.pixText) ==> g.pixText == JStr("")
    ensures !Truthy(g.pixQr) ==> g.pixQr == JStr("")
  {
    var txData := Unwrap(data);
    var pd := PaymentData(txData);
    GatewayFields(
      txData,
      Or(Get(txData, "transactionId"), Or(Get(txData, "id"), Or(Get(txData, "transaction_id"), Get(txData, "txid")))),
      Or(Get(pd, "copyPaste"), Or(Get(pd, "qrCode"), Or(Get(txData, "pix_code"), Or(Get(txData, "qr_code"), JStr(""))))),
      Or(Get(pd, "qrCodeBase64"), Or(Get(pd, "qrCode"), Or(Get(txData, "pix_qr_code"),
        Or(Get(txData, "qr_code_image"), Or(Get(txData, "qr_code"), JStr("")))))))
  }

  /** Each field read from the reply is the `||` chain of its candidates, in source order. */
  lemma FieldsAreChains(data: Json)
    ensures var g := FieldsOf(data);
      g.tx == FirstTruthy(TxSources(g.txData))
      && g.pixText == FirstTruthy(PixTextSources(g.txData))
      && g.pixQr == FirstTruthy(PixQrSources(g.txData))
  {
    var g := FieldsOf(data);
    var tx, text, qr := TxSources(g.txData), PixTextSources(g.txData), PixQrSources(g.txData);
    OrChain(tx[2..]);
    OrChain(tx[1..]);
    OrChain(tx);
    OrChain(text[3..]);
    OrChain(text[2..]);
    OrChain(text[1..]);
    OrChain(text);
    OrChain(qr[4..]);
    OrChain(qr[3..]);
    OrChain(qr[2..]);
    OrChain(qr[1..]);
    OrChain(qr);
  }

  /** One step of a chain of `||`. */
  lemma OrChain(vs: seq<Json>)
    requires |vs| >= 2
    ensures FirstTruthy(vs) == Or(vs[0], FirstTruthy(vs[1..]))
    ensures |vs| == 2 ==> FirstTruthy(vs[1..]) == vs[1]
  {
  }

  /** A chain of `||` is truthy exactly when a candidate is, then takes the first truthy
      candidate, and otherwise takes the last one. */
  lemma ChainPicksFirst(vs: seq<Json>)
    requires vs != []
    ensures Truthy(FirstTruthy(vs)) <==> exists i :: 0 <= i < |vs| && Truthy(vs[i])
    ensures Truthy(FirstTruthy(vs)) ==>
      exists i :: 0 <= i < |vs| && FirstTruthy(vs) == vs[i] && forall j :: 0 <= j < i ==> !Truthy(vs[j])
    ensures !Truthy(FirstTruthy(vs)) ==> FirstTruthy(vs) == vs[|vs| - 1]
  {
    FirstTruthyIsFirst(vs);
    TruthyChain(vs);
  }

  /** Each field read from the reply is its first truthy candidate; with none truthy the id
      is the last candidate (`txid`) and the PIX text and QR value are "". */
  lemma GatewayFieldsAreFirstTruthy(data: Json)
    ensures var g := FieldsOf(data);
      var tx, text, qr := TxSources(g.txData), PixTextSources(g.txData), PixQrSources(g.txData);
      (Truthy(g.tx) <==> exists i :: 0 <= i < 4 && Truthy(tx[i]))
      && (Truthy(g.tx) ==> exists i :: 0 <= i < 4 && g.tx == tx[i] && forall j :: 0 <= j < i ==> !Truthy(tx[j]))
      && (Truthy(g.pixText) <==> exists i :: 0 <= i < 4 && Truthy(text[i]))
      && (Truthy(g.pixText) ==> exists i :: 0 <= i < 4 && g.pixText == text[i] && forall j :: 0 <= j < i ==> !Truthy(text[j]))
      && (!Truthy(g.pixText) ==> g.pixText == JStr(""))
      && (Truthy(g.pixQr) <==> exists i :: 0 <= i < 5 && Truthy(qr[i]))
      && (Truthy(g.pixQr) ==> exists i :: 0 <= i < 5 && g.pixQr == qr[i] && forall j :: 0 <= j < i ==> !Truthy(qr[j]))
      && (!Truthy(g.pixQr) ==> g.pixQr == JStr(""))
  {
    var g := FieldsOf(data);
    FieldsAreChains(data);
    ChainPicksFirst(TxSources(g.txData));
    ChainPicksFirst(PixTextSources(g.txData));
    ChainPicksFirst(PixQrSources(g.txData));
  }

  /** `String(txData?.status || "PENDING")`. */
  function StatusOf(g: GatewayFields): (r: string)
    ensures !Truthy(Get(g.txData, "status")) ==> r == "PENDING"
  {
    ToStr(Or(Get(g.txData, "status"), JStr("PENDING")))
  }

  /** `txData?.amount || amountCents`. */
  function ChargedAmount(c: Checkout, g: GatewayFields): Json {
    Or(Get(g.txData, "amount"), AmountJson(c.form.cents))
  }

  /** `txData?.amount || amountCents` as `saveLead` binds it: the reply's amount when truthy,
      else the handler's own number. */
  function ChargedParam(c: Checkout, g: GatewayFields): (r: AmountParam)
    ensures Truthy(Get(g.txData, "amount")) ==> r == FromReply(Get(g.txData, "amount"))
    ensures !Truthy(Get(g.txData, "amount")) ==> r == Computed(c.form.cents)
  {
    if Truthy(Get(g.txData, "amount")) then FromReply(Get(g.txData, "amount")) else Computed(c.form.cents)
  }

  /** The lead saved after a complete reply. */
  function ResponseLead(c: Checkout, g: GatewayFields): LeadData {
    var f := c.form;
    LeadData("payment_response", Or(OptJson(f.cpf), JStr("")), Or(OptJson(f.nome), JStr("")),
             Or(OptJson(f.email), JStr("")), Or(OptJson(f.phone), JStr("")), ChargedParam(c, g), f.title,
             JStr(ToStr(g.tx)), JStr(StatusOf(g)), None, JUndef, JUndef)
  }

  /** The answer to an OK gateway reply, and the lead it saves. Building the QR value comes
      first, so a truthy non-string QR value throws even when the reply is incomplete. */
  function Settle(c: Checkout, g: GatewayFields): (r: Stage<(Answer, LeadData)>)
    ensures r.Stop? ==> r.answer == Thrown || r.answer == IncompleteReply
    ensures r.Go? <==> PixQrWithPrefix(g.pixQr).Some? && Truthy(g.tx) && Truthy(g.pixText)
    ensures r.Go? ==> r.value.0 == Created(ToStr(g.tx), ToStr(g.pixText), ChargedAmount(c, g), StatusOf(g),
                                           PixQrWithPrefix(g.pixQr).value)
                      && r.value.1 == ResponseLead(c, g)
  {
    match PixQrWithPrefix(g.pixQr)
    case None => Stop(Thrown)
    case Some(qr) =>
      if !Truthy(g.tx) || !Truthy(g.pixText) then Stop(IncompleteReply)
      else Go((Created(ToStr(g.tx), ToStr(g.pixText), ChargedAmount(c, g), StatusOf(g), qr), ResponseLead(c, g)))
  }

  /** The answer to the gateway call, and the lead a complete reply saves: a failed call
      throws, a non-OK status is refused, and an OK reply is settled. */
  function Respond(c: Checkout, reply: GatewayReply): (r: Stage<(Answer, LeadData)>)
    ensures r.Stop? ==> r.answer == Thrown || r.answer.GatewayRefused? || r.answer == IncompleteReply
    ensures r.Go? <==> reply.Reply? && Ok(reply.status) && Settle(c, FieldsOf(reply.data)).Go?
  {
    match reply
    case Unreachable => Stop(Thrown)
    case Reply(status, data) => if !Ok(status) then Stop(GatewayRefused(data)) else Settle(c, FieldsOf(data))
  }

  /** One run of the handler: its answer, the lead rows it inserted, and the sale it posted
      (None when the gateway was not called). */
  datatype PaymentRun = PaymentRun(answer: Answer, leads: seq<Lead>, sale: Option<Sale>)

  /** The handler past its gates: the request lead `first` is saved, the sale is posted, and
      a complete reply saves the response lead as well. */
  function Proceed(first: seq<Lead>, sale: Sale, outcome: Stage<(Answer, LeadData)>, saves: bool, now: string): (r: PaymentRun)
    ensures r.sale == Some(sale)
    ensures first <= r.leads
    ensures !saves ==> r.leads == first
  {
    match outcome
    case Stop(x) => PaymentRun(x, first, Some(sale))
    case Go(d) => PaymentRun(d.0, first + Saved(saves, d.1, now), Some(sale))
  }

  /** `handlePaymentRequest(req, res)`; `dbUp` says whether the database answers. */
  function Payment(env: map<string, string>, req: Request, parse: string -> Option<Json>,
                   reply: GatewayReply, dbUp: bool, now: string): (r: PaymentRun)
    ensures r.sale.Some? <==> Admit(env, req, parse).Go?
    ensures r.sale.None? ==> r.leads == [] && EarlyAnswer(r.answer)
    ensures !DbConfigured(env) || !dbUp ==> r.leads == []
  {
    var saves := DbConfigured(env) && dbUp;
    match Admit(env, req, parse)
    case Stop(x) => PaymentRun(x, [], None)
    case Go(c) => Proceed(Saved(saves, RequestLead(c, req), now), SaleOf(c, Header(req, "referer")),
                          Respond(c, reply), saves, now)
  }

  /** The gates of a request pass exactly when it is a POST, both credentials are set, the
      body can be read, name and e-mail are filled in and the amount is at least one real. */
  lemma AdmitMeans(env: map<string, string>, req: Request, parse: string -> Option<Json>)
    ensures Admit(env, req, parse).Go? <==>
      req.verb == "POST" && Truthy(EnvVar(env, "BLACKCAT_API_KEY")) && Truthy(EnvVar(env, "BLACKCAT_POSTBACK_URL"))
      && ParsedBody(req, parse).Some?
      && var body := ParsedBody(req, parse).value;
         Filled(NameOf(body)) && Filled(EmailOf(body)) && AmountAccepted(AmountOf(env, body))
  {
    var pb := ParsedBody(req, parse);
    if pb.Some? {
      assert FormOf(env, pb.value).nome == NameOf(pb.value);
    }
  }

  /** With the credentials set, a readable body whose name is not filled in is refused with
      400, whatever its amount. */
  lemma UnnamedRefused(env: map<string, string>, req: Request, parse: string -> Option<Json>)
    requires req.verb == "POST" && Truthy(EnvVar(env, "BLACKCAT_API_KEY")) && Truthy(EnvVar(env, "BLACKCAT_POSTBACK_URL"))
    requires ParsedBody(req, parse).Some? && !Filled(NameOf(ParsedBody(req, parse).value))
    ensures Admit(env, req, parse) == Stop(MissingNameOrEmail)
  {
    var f := FormOf(env, ParsedBody(req, parse).value);
    assert Admit(env, req, parse)
        == Decide("POST", EnvVar(env, "BLACKCAT_API_KEY"), EnvVar(env, "BLACKCAT_POSTBACK_URL"), Some(f));
    assert !Filled(f.nome);
  }

  /** A body such as `{nome: "", customer: {name: "Ana"}}` is refused with 400: the blank
      `nome` is not null, so `customer.name` is never consulted. */
  lemma BlankNameRefused(env: map<string, string>, req: Request, parse: string -> Option<Json>)
    requires req.verb == "POST" && Truthy(EnvVar(env, "BLACKCAT_API_KEY")) && Truthy(EnvVar(env, "BLACKCAT_POSTBACK_URL"))
    requires ParsedBody(req, parse).Some?
    requires var body := ParsedBody(req, parse).value;
      Get(body, "nome") == JStr("") && Get(CustomerFromBody(body), "name") == JStr("Ana")
    ensures Admit(env, req, parse) == Stop(MissingNameOrEmail)
  {
    var body := ParsedBody(req, parse).value;
    var fallback := Get(CustomerFromBody(body), "name");
    BlankShadowsFallback("", fallback);
    assert NameOf(body) == ValidField(JStr(""), fallback);
    assert !Filled(NameOf(body));
    UnnamedRefused(env, req, parse);
  }

  /** An OK reply without a transaction id or PIX text answers 502; the only lead saved is
      the one written before the gateway call. */
  lemma IncompleteReplySavesRequestOnly(c: Checkout, req: Request, status: int, data: Json, saves: bool, now: string)
    requires Ok(status)
    requires PixQrWithPrefix(FieldsOf(data).pixQr).Some?
    requires !Truthy(FieldsOf(data).tx) || !Truthy(FieldsOf(data).pixText)
    ensures var first := Saved(saves, RequestLead(c, req), now);
      var run := Proceed(first, SaleOf(c, Header(req, "referer")), Respond(c, Reply(status, data)), saves, now);
      run.answer == IncompleteReply && run.leads == first
      && |run.leads| <= 1 && forall l :: l in run.leads ==> l.source == "payment_request"
  {
  }

  /** A 200 after the gates comes only from an OK reply with a transaction id, PIX text and a
      QR value that could be normalised; with the database reachable it saves the request
      lead and then the response lead carrying the gateway's transaction id, else nothing. */
  lemma CreatedRun(c: Checkout, req: Request, reply: GatewayReply, saves: bool, now: string)
    requires Proceed(Saved(saves, RequestLead(c, req), now), SaleOf(c, Header(req, "referer")),
                     Respond(c, reply), saves, now).answer.Created?
    ensures reply.Reply? && Ok(reply.status)
    ensures var g := FieldsOf(reply.data);
      Truthy(g.tx) && Truthy(g.pixText) && PixQrWithPrefix(g.pixQr).Some?
    ensures var leads := Proceed(Saved(saves, RequestLead(c, req), now), SaleOf(c, Header(req, "referer")),
                                 Respond(c, reply), saves, now).leads;
      var first, second := RequestLead(c, req), ResponseLead(c, FieldsOf(reply.data));
      leads == Saved(saves, first, now) + Saved(saves, second, now)
      && (saves && AmountColumn(first.amountCents).Some? && AmountColumn(second.amountCents).Some? ==>
            |leads| == 2 && leads[0].source == "payment_request"
            && leads[1].source == "payment_response"
            && leads[1].transactionId == ToStr(FieldsOf(reply.data).tx))
      && (!saves ==> leads == [])
  {
    var g := FieldsOf(reply.data);
    assert Settle(c, g).Go?;
    var first, second := RequestLead(c, req), ResponseLead(c, g);
    var leads := Saved(saves, first, now) + Saved(saves, second, now);
    if saves && AmountColumn(first.amountCents).Some? && AmountColumn(second.amountCents).Some? {
      assert leads[1] == LeadRow(second, now).value;
      TextColumnOfString(ToStr(g.tx));
    }
  }

  /** The request lead of an admitted checkout is stored exactly when its centavos fit a
      32-bit column: an amount read as +Infinity passes the gate, but its lead is never saved. */
  lemma RequestLeadStored(c: Checkout, req: Request, now: string)
    requires AmountAccepted(c.form.cents)
    requires c.form.cents.Dec? ==> c.form.cents.e == 0
    ensures Saved(true, RequestLead(c, req), now) != [] <==> c.form.cents.Dec? && c.form.cents.m <= IntegerMax
  {
    WholeAccepted(c.form.cents);
  }

  /** `saveLead(data)`, with the module's `leadsTableReady` flag: it returns the rows it
      inserted. */
  method SaveLead(flag: SchemaFlag, env: map<string, string>, dbUp: bool, d: LeadData, now: string)
    returns (rows: seq<Lead>)
    modifies flag
    ensures rows == Saved(DbConfigured(env) && dbUp, d, now)
    ensures !DbConfigured(env) ==> flag.ready == old(flag.ready) && flag.ddlRuns == old(flag.ddlRuns)
    ensures DbConfigured(env) ==> flag.ready == (old(flag.ready) || dbUp)
    ensures old(flag.ready) ==> flag.ddlRuns == old(flag.ddlRuns)
  {
    if !DbConfigured(env) {
      return [];
    }
    var ok := flag.Ensure(dbUp);
    var row := LeadRow(d, now);
    if ok && dbUp && row.Some? {
      rows := [row.value];
    } else {
      rows := [];
    }
  }

  /** `handlePaymentRequest`, step by step: the same answer (written as `Render(answer)`),
      rows and sale as `Payment`, with the table flag set once a save has reached the database. */
  method ServePayment(flag: SchemaFlag, env: map<string, string>, req: Request, parse: string -> Option<Json>,
                      reply: GatewayReply, dbUp: bool, now: string)
    returns (answer: Answer, rows: seq<Lead>, sale: Option<Sale>)
    modifies flag
    ensures PaymentRun(answer, rows, sale) == Payment(env, req, parse, reply, dbUp, now)
    ensures old(flag.ready) ==> flag.ready && flag.ddlRuns == old(flag.ddlRuns)
    ensures sale.Some? && DbConfigured(env) && dbUp ==> flag.ready
  {
    var admitted := Admit(env, req, parse);
    if admitted.Stop? {
      return admitted.answer, [], None;
    }
    var c := admitted.value;
    rows := SaveLead(flag, env, dbUp, RequestLead(c, req), now);
    sale := Some(SaleOf(c, Header(req, "referer")));
    var outcome := Respond(c, reply);
    if outcome.Stop? {
      return outcome.answer, rows, sale;
    }
    var more := SaveLead(flag, env, dbUp, outcome.value.1, now);
    rows := rows + more;
    answer := outcome.value.0;
  }
}
