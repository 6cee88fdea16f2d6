/** api/comprovantes/export.js: the admin's CSV download of receipts and leads. */
module Export {
  import opened Js
  import opened Tables
  import opened Admin
  import opened Csv

  /** The handler's answers. */
  datatype ExportReply = Refused(why: Refusal) | Failed | Document(csv: string)

  /** The status and body written for each answer; the CSV goes out as text. */
  function Render(a: ExportReply): (r: Response)
    ensures a.Document? ==> r == Response(200, JStr(a.csv))
    ensures a.Failed? ==> r.status == 500
  {
    match a
    case Refused(why) => RefusalResponse(why)
    case Failed => Failure(500, "message", "Erro interno")
    case Document(csv) => Response(200, JStr(csv))
  }

  /** The handler on a request. `ordered` is what the UNION of `comprovantes` and `leads`,
      newest first, yields before the limit; `dbUp` says whether the database answers. */
  function ExportRun(env: map<string, string>, req: Request, dbUp: bool, ordered: seq<map<string, Json>>): (r: ExportReply)
    ensures r.Refused? <==> ListingGate(env, req).Some?
  {
    match ListingGate(env, req)
    case Some(why) => Refused(why)
    case None =>
      if !dbUp then Failed
      else
        match LimitRows(Limit(req, 500, 5000))
        case None => Failed
        case Some(n) => Document(CsvText(Columns, FirstRows(ordered, n)))
  }

  /** A document holds the header and at most 5000 rows, the newest ones, each read back as
      its ten cells; without a `limit` parameter it holds 500 of them. */
  lemma ExportDocument(env: map<string, string>, req: Request, dbUp: bool, ordered: seq<map<string, Json>>)
    requires ExportRun(env, req, dbUp, ordered).Document?
    ensures var n := LimitRows(Limit(req, 500, 5000)).value;
      var rows := FirstRows(ordered, n);
      n <= 5000 && rows <= ordered
      && ReadRecords(ExportRun(env, req, dbUp, ordered).csv) == Some([Columns] + RowCells(Columns, rows))
    ensures !Truthy(Query(req, "limit")) ==> LimitRows(Limit(req, 500, 5000)) == Some(500)
  {
    LimitRowsCapped(req, 500, 5000);
    var n := LimitRows(Limit(req, 500, 5000)).value;
    ExportReadsBack(FirstRows(ordered, n));
    if !Truthy(Query(req, "limit")) {
      LimitRowsDefault(req, 500, 5000);
    }
  }

  /** `module.exports` with its two table flags: the gates run first, then both DDLs, then
      the query. */
  method HandleExport(receiptsReady: SchemaFlag, leadsReady: SchemaFlag, env: map<string, string>,
                      req: Request, dbUp: bool, ordered: seq<map<string, Json>>)
    returns (reply: ExportReply)
    requires receiptsReady != leadsReady
    modifies receiptsReady, leadsReady
    ensures reply == ExportRun(env, req, dbUp, ordered)
    ensures reply.Refused? ==> unchanged(receiptsReady, leadsReady)
    ensures reply.Document? ==> receiptsReady.ready && leadsReady.ready
    ensures old(receiptsReady.ready) ==> receiptsReady.ready && receiptsReady.ddlRuns == old(receiptsReady.ddlRuns)
    ensures old(leadsReady.ready) ==> leadsReady.ready && leadsReady.ddlRuns == old(leadsReady.ddlRuns)
  {
    var why := ListingGate(env, req);
    if why.Some? {
      return Refused(why.value);
    }
    var ok := receiptsReady.Ensure(dbUp);
    if !ok {
      return Failed;
    }
    ok := leadsReady.Ensure(dbUp);
    if !ok {
      return Failed;
    }
    if !dbUp {
      return Failed;
    }
    var n := LimitRows(Limit(req, 500, 5000));
    if n.None? {
      return Failed;
    }
    reply := Document(CsvText(Columns, FirstRows(ordered, n.value)));
  }
}
