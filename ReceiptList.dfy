/** api/comprovantes/list.js: the admin's JSON listing of uploaded receipts. */
module ReceiptList {
  import opened Js
  import opened Tables
  import opened Admin

  /** The handler's answers. */
  datatype ListReply = Refused(why: Refusal) | Failed | Listed(rows: seq<Json>)

  /** The status and body written for each answer. */
  function Render(a: ListReply): (r: Response)
    ensures a.Listed? ==> r.status == 200 && Get(r.body, "data") == JArr(a.rows)
    ensures a.Failed? ==> r.status == 500
  {
    match a
    case Refused(why) => RefusalResponse(why)
    case Failed => Failure(500, "message", "Erro interno")
    case Listed(rows) => Response(200, JObj(map["success" := JBool(true), "data" := JArr(rows)]))
  }

  /** The handler on a request. `ordered` is the `comprovantes` rows, newest first, as the
      SELECT yields them before the limit. */
  function ListRun(env: map<string, string>, req: Request, dbUp: bool, ordered: seq<Json>): (r: ListReply)
    ensures r.Refused? <==> ListingGate(env, req).Some?
  {
    match ListingGate(env, req)
    case Some(why) => Refused(why)
    case None =>
      if !dbUp then Failed
      else
        match LimitRows(Limit(req, 50, 200))
        case None => Failed
        case Some(n) => Listed(FirstRows(ordered, n))
  }

  /** A listing holds the newest receipts, at most 200 of them, and 50 without a `limit`
      parameter (or all of them when there are fewer). */
  lemma ListingBounded(env: map<string, string>, req: Request, dbUp: bool, ordered: seq<Json>)
    requires ListRun(env, req, dbUp, ordered).Listed?
    ensures var rows := ListRun(env, req, dbUp, ordered).rows;
      |rows| <= 200 && rows <= ordered
      && (!Truthy(Query(req, "limit")) ==> rows == FirstRows(ordered, 50))
  {
    LimitRowsCapped(req, 50, 200);
    if !Truthy(Query(req, "limit")) {
      LimitRowsDefault(req, 50, 200);
    }
  }

  /** `module.exports` with the `tableReady` flag: the gates run before the DDL and the query. */
  method HandleList(tableReady: SchemaFlag, env: map<string, string>, req: Request, dbUp: bool, ordered: seq<Json>)
    returns (reply: ListReply)
    modifies tableReady
    ensures reply == ListRun(env, req, dbUp, ordered)
    ensures reply.Refused? ==> unchanged(tableReady)
    ensures reply.Listed? ==> tableReady.ready
    ensures old(tableReady.ready) ==> tableReady.ready && tableReady.ddlRuns == old(tableReady.ddlRuns)
  {
    var why := ListingGate(env, req);
    if why.Some? {
      return Refused(why.value);
    }
    var ok := tableReady.Ensure(dbUp);
    if !ok || !dbUp {
      return Failed;
    }
    var n := LimitRows(Limit(req, 50, 200));
    if n.None? {
      return Failed;
    }
    reply := Listed(FirstRows(ordered, n.value));
  }
}
