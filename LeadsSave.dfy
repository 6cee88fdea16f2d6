/** api/leads/save.js: the funnel's lead capture. The handler normalises the submitted
    fields, refuses a lead with none of them, merges the mother's name into the tracking
    object and inserts one `leads` row. */
module LeadsSave {
  import opened Text
  import opened Js
  import opened Tables

  /** The four identifying fields and the mother's name, as the handler normalises them. */
  datatype LeadForm = LeadForm(cpf: string, nome: string, email: string, phone: string, nomeMae: string)

  /** `String(v || "")`. */
  function TextOf(v: Json): string {
    OrText(v, "")
  }

  /** `v || fallback`, as the text the insert binds. */
  function OrText(v: Json, fallback: string): (r: string)
    ensures !Truthy(v) ==> r == fallback
    ensures v.JStr? && v.s != "" ==> r == v.s
  {
    ToStr(Or(v, JStr(fallback)))
  }

  /** `String(v || "").replace(/\D/g, "")`. */
  function DigitsOf(v: Json): (r: string)
    ensures AllDigits(r)
  {
    DigitsOnly(TextOf(v))
  }

  /** Neither starts nor ends with white space. */
  predicate Unpadded(s: string) {
    s == [] || (!IsSpace(s[0]) && !IsSpace(s[|s| - 1]))
  }

  /** `String(v || "").trim()`. */
  function TrimmedOf(v: Json): (r: string)
    ensures Unpadded(r)
  {
    TrimEnds(TextOf(v));
    Trim(TextOf(v))
  }

  /** The normalised fields: cpf and phone keep only their digits, names and e-mail are
      trimmed, and `nome_mae` falls back to `nomeMae`. */
  function FormOf(body: Json): (f: LeadForm)
    ensures AllDigits(f.cpf) && AllDigits(f.phone)
    ensures Unpadded(f.nome) && Unpadded(f.email) && Unpadded(f.nomeMae)
  {
    LeadForm(DigitsOf(Get(body, "cpf")), TrimmedOf(Get(body, "nome")), TrimmedOf(Get(body, "email")),
             DigitsOf(Get(body, "phone")), TrimmedOf(Or(Get(body, "nome_mae"), Get(body, "nomeMae"))))
  }

  /** `!cpf && !nome && !email && !phone`; the mother's name alone does not count. */
  predicate Insufficient(f: LeadForm) {
    f.cpf == "" && f.nome == "" && f.email == "" && f.phone == ""
  }

  predicate HasDigit(s: string) {
    exists i :: 0 <= i < |s| && IsDigit(s[i])
  }

  /** Stripping the non-digits leaves nothing exactly when there was no digit. */
  lemma DigitsOnlyEmpty(s: string)
    ensures DigitsOnly(s) == [] <==> !HasDigit(s)
  {
    if HasDigit(s) {
      var i :| 0 <= i < |s| && IsDigit(s[i]);
      assert s[i] in multiset(s);
      assert s[i] in multiset(DigitsOnly(s));
    } else {
      NoDigitsLeft(s);
    }
  }

  lemma {:induction false} NoDigitsLeft(s: string)
    requires !HasDigit(s)
    ensures DigitsOnly(s) == []
  {
    if s != [] {
      assert !IsDigit(s[0]);
      NoDigitsLeft(s[1..]);
    }
  }

  /** A lead is refused exactly when neither the cpf nor the phone holds a digit and the name
      and e-mail are blank; the mother's name plays no part. */
  lemma InsufficientMeans(body: Json)
    ensures Insufficient(FormOf(body)) <==>
      !HasDigit(TextOf(Get(body, "cpf"))) && !HasDigit(TextOf(Get(body, "phone")))
      && AllSpace(TextOf(Get(body, "nome"))) && AllSpace(TextOf(Get(body, "email")))
  {
    DigitsOnlyEmpty(TextOf(Get(body, "cpf")));
    DigitsOnlyEmpty(TextOf(Get(body, "phone")));
    TrimEmpty(TextOf(Get(body, "nome")));
    TrimEmpty(TextOf(Get(body, "email")));
  }

  /** Distinct indexes have distinct numerals. */
  lemma NumeralsDistinct()
    ensures forall a: nat, b: nat :: NatToString(a) == NatToString(b) ==> a == b
  {
    forall a: nat, b: nat | NatToString(a) == NatToString(b)
      ensures a == b
    {
      NatToStringInjective(a, b);
    }
  }

  /** `{...v}`: an object's own properties, or an array's elements under their indexes. */
  function Spread(v: Json): (r: map<string, Json>)
    ensures v.JObj? ==> r == v.fields
    ensures v.JArr? ==> forall i :: 0 <= i < |v.items| ==> NatToString(i) in r && r[NatToString(i)] == v.items[i]
    ensures v.JArr? ==> forall k :: k in r ==> exists i :: 0 <= i < |v.items| && k == NatToString(i)
    ensures !IsObjectLike(v) ==> r == map[]
  {
    match v
    case JObj(fields) => fields
    case JArr(items) =>
      NumeralsDistinct();
      map i | 0 <= i < |items| :: NatToString(i) := items[i]
    case _ => map[]
  }

  /** `{...trackingRaw, nome_mae: nomeMae}`, where `trackingRaw` is the body's `tracking`
      when it is an object or array and `{}` otherwise. */
  function MergedTracking(body: Json, nomeMae: string): (r: map<string, Json>)
    ensures "nome_mae" in r && r["nome_mae"] == JStr(nomeMae)
    ensures var raw := Get(body, "tracking");
      IsObjectLike(raw) ==>
        (r.Keys == Spread(raw).Keys + {"nome_mae"}
         && forall k :: k in Spread(raw) && k != "nome_mae" ==> r[k] == Spread(raw)[k])
    ensures !IsObjectLike(Get(body, "tracking")) ==> r == map["nome_mae" := JStr(nomeMae)]
  {
    var raw := Get(body, "tracking");
    var base := if IsObjectLike(raw) then Spread(raw) else map[];
    base + map["nome_mae" := JStr(nomeMae)]
  }

  /** `body?.amount_cents || null`, the value bound to the INTEGER column `amount_cents`. */
  function AmountParam(body: Json): (r: Json)
    ensures !Truthy(Get(body, "amount_cents")) ==> r == JNull
    ensures Truthy(Get(body, "amount_cents")) ==> r == Get(body, "amount_cents")
  {
    Or(Get(body, "amount_cents"), JNull)
  }

  /** The row the handler inserts, with `amount` as the INTEGER column stores it and `now`
      as the `created_at` default. Absent values take the handler's defaults: source
      "funnel", title "Lead Funil", no transaction id and status "LEAD". */
  function LeadOf(req: Request, body: Json, amount: Json, now: string): (l: Lead)
    ensures var f := FormOf(body);
      l.cpf == f.cpf && l.nome == f.nome && l.email == f.email && l.phone == f.phone
    ensures l.tracking == Some(JObj(MergedTracking(body, FormOf(body).nomeMae)))
    ensures l.amountCents == amount
  {
    var f := FormOf(body);
    Lead(OrText(Get(body, "source"), "funnel"), f.cpf, f.nome, f.email, f.phone,
         amount, OrText(Get(body, "title"), "Lead Funil"),
         TextOf(Get(body, "transaction_id")), OrText(Get(body, "status"), "LEAD"),
         Some(JObj(MergedTracking(body, f.nomeMae))),
         TextOf(Or(Get(body, "user_agent"), Header(req, "user-agent"))),
         TextOf(Or(Header(req, "x-forwarded-for"), req.remote)), now)
  }

  /** Absent or falsy values take the handler's defaults. */
  lemma Defaults(req: Request, body: Json, amount: Json, now: string)
    ensures var l := LeadOf(req, body, amount, now);
      (!Truthy(Get(body, "source")) ==> l.source == "funnel")
      && (!Truthy(Get(body, "title")) ==> l.title == "Lead Funil")
      && (!Truthy(Get(body, "transaction_id")) ==> l.transactionId == "")
      && (!Truthy(Get(body, "status")) ==> l.status == "LEAD")
  {
  }

  /** The handler's answers. */
  datatype SaveReply = Preflight | NotAllowed | NoDatabase | Missing | Failed | Saved

  /** The status and body written for each answer. */
  function Render(a: SaveReply): (r: Response)
    ensures r.status == (match a case Preflight => 200 case NotAllowed => 405 case NoDatabase => 500
                                 case Missing => 400 case Failed => 500 case Saved => 200)
  {
    match a
    case Preflight => Response(200, JUndef)
    case NotAllowed => Failure(405, "message", "Method Not Allowed")
    case NoDatabase => Failure(500, "message", "Database not configured")
    case Missing => Failure(400, "message", "Dados insuficientes")
    case Failed => Failure(500, "message", "Erro interno")
    case Saved => Response(200, JObj(map["success" := JBool(true)]))
  }

  /** One run: the answer and the rows inserted. */
  datatype SaveRun = SaveRun(reply: SaveReply, rows: seq<Lead>)

  /** The handler on a request; `dbUp` says whether the database answers. */
  function SaveLeadRun(env: map<string, string>, req: Request, parse: string -> Option<Json>,
                       dbUp: bool, now: string): (r: SaveRun)
    ensures |r.rows| <= 1 && (r.rows != [] <==> r.reply == Saved)
    ensures r.reply == Saved ==> DbConfigured(env) && dbUp
    ensures r.reply == Saved ==>
      r.rows[0].amountCents == JNull || (r.rows[0].amountCents.JNum? && InIntegerRange(r.rows[0].amountCents.n))
  {
    if req.verb == "OPTIONS" then SaveRun(Preflight, [])
    else if req.verb != "POST" then SaveRun(NotAllowed, [])
    else if !DbConfigured(env) then SaveRun(NoDatabase, [])
    else match ReadBody(req.body, parse)
      case None => SaveRun(Failed, [])
      case Some(body) =>
        if Insufficient(FormOf(body)) then SaveRun(Missing, [])
        else if !dbUp then SaveRun(Failed, [])
        else match IntegerColumn(AmountParam(body))
          case None => SaveRun(Failed, [])
          case Some(amount) => SaveRun(Saved, [LeadOf(req, body, amount, now)])
  }

  /** The gates in order: preflight and method before the database check, which comes
      before the body is read; a lead is refused only when all four fields are missing. */
  lemma SaveGates(env: map<string, string>, req: Request, parse: string -> Option<Json>, dbUp: bool, now: string)
    ensures var r := SaveLeadRun(env, req, parse, dbUp, now);
      (r.reply == Preflight <==> req.verb == "OPTIONS")
      && (r.reply == NotAllowed <==> req.verb != "OPTIONS" && req.verb != "POST")
      && (r.reply == NoDatabase <==> req.verb == "POST" && !DbConfigured(env))
      && (r.reply == Missing <==> req.verb == "POST" && DbConfigured(env) && ReadBody(req.body, parse).Some?
                                  && Insufficient(FormOf(ReadBody(req.body, parse).value)))
  {
  }

  /** Past the gates, with the database answering, the lead is saved exactly when the INTEGER
      column takes its `amount_cents`, and then holds the stored value; a missing amount is
      stored as NULL, while a non-numeral, a boolean or a number beyond 32 bits throws and
      answers 500 without a row. */
  lemma AmountColumnDecides(env: map<string, string>, req: Request, parse: string -> Option<Json>, dbUp: bool, now: string)
    requires req.verb == "POST" && DbConfigured(env) && dbUp && ReadBody(req.body, parse).Some?
    requires !Insufficient(FormOf(ReadBody(req.body, parse).value))
    ensures var body := ReadBody(req.body, parse).value;
      var r := SaveLeadRun(env, req, parse, dbUp, now);
      var stored := IntegerColumn(AmountParam(body));
      (r.reply == Saved <==> stored.Some?)
      && (stored.None? ==> r.reply == Failed && r.rows == [])
      && (r.reply == Saved ==> r.rows[0].amountCents == stored.value)
      && (!Truthy(Get(body, "amount_cents")) ==> r.reply == Saved && r.rows[0].amountCents == JNull)
  {
  }

  /** `module.exports` with the `leadsTableReady` flag: the DDL runs only for a lead that
      passed every gate. */
  method HandleSave(flag: SchemaFlag, env: map<string, string>, req: Request, parse: string -> Option<Json>,
                    dbUp: bool, now: string)
    returns (reply: SaveReply, rows: seq<Lead>)
    modifies flag
    ensures SaveRun(reply, rows) == SaveLeadRun(env, req, parse, dbUp, now)
    ensures reply != Saved && reply != Failed ==> unchanged(flag)
    ensures reply == Saved ==> flag.ready
    ensures old(flag.ready) ==> flag.ready && flag.ddlRuns == old(flag.ddlRuns)
  {
    if req.verb == "OPTIONS" {
      return Preflight, [];
    }
    if req.verb != "POST" {
      return NotAllowed, [];
    }
    if !DbConfigured(env) {
      return NoDatabase, [];
    }
    var body := ReadBody(req.body, parse);
    if body.None? {
      return Failed, [];
    }
    if Insufficient(FormOf(body.value)) {
      return Missing, [];
    }
    var ok := flag.Ensure(dbUp);
    if !ok || !dbUp {
      return Failed, [];
    }
    var amount := IntegerColumn(AmountParam(body.value));
    if amount.None? {
      return Failed, [];
    }
    reply := Saved;
    rows := [LeadOf(req, body.value, amount.value, now)];
  }
}
