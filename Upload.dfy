/** api/comprovantes/upload.php.js: a customer's upload of a payment receipt. The file goes
    to blob storage under a sanitised name and a row describing it goes to `comprovantes`. */
module Upload {
  import opened Text
  import opened Js
  import opened Tables

  /** `MAX_FILE_SIZE`: 10 MiB. */
  const MaxFileSize: nat := 10 * 1024 * 1024

  /** `getFieldValue`: the first element of an array (or "" when it is falsy), else the value
      itself (or "" when it is falsy). */
  function FieldValue(v: Json): (r: Json)
    ensures Truthy(r) || r == JStr("")
    ensures v.JArr? && Truthy(At(v, 0)) ==> r == At(v, 0)
    ensures !v.JArr? && Truthy(v) ==> r == v
    ensures v.JArr? && !Truthy(At(v, 0)) ==> r == JStr("")
    ensures !v.JArr? && !Truthy(v) ==> r == JStr("")
  {
    if v.JArr? then Or(At(v, 0), JStr("")) else Or(v, JStr(""))
  }

  /** A field the form leaves out, or sends empty, is stored as "". */
  lemma FieldValueOfNothing(v: Json)
    requires v == JUndef || v == JNull || v == JStr("") || v == JArr([]) || v == JArr([JStr("")])
    ensures FieldValue(v) == JStr("")
  {
  }

  /** The characters `[a-zA-Z0-9._-]` that the file name keeps. */
  predicate Allowed(c: char) {
    ('a' <= c <= 'z') || ('A' <= c <= 'Z') || ('0' <= c <= '9') || c == '.' || c == '_' || c == '-'
  }

  predicate AllAllowed(s: string) {
    forall i :: 0 <= i < |s| ==> Allowed(s[i])
  }

  /** Code points outside the Basic Multilingual Plane take two UTF-16 code units. */
  function Units(c: char): nat {
    if c as int > 0xFFFF then 2 else 1
  }

  /** The `length` of a JavaScript string: its UTF-16 code units. */
  function Utf16Length(s: string): nat {
    if s == [] then 0 else Units(s[0]) + Utf16Length(s[1..])
  }

  /** `name.replace(/[^a-zA-Z0-9._-]/g, "_")`. The expression has no `u` flag, so it works
      on UTF-16 code units: a character outside the BMP is a surrogate pair and becomes "__". */
  function SafeName(s: string): (r: string)
    ensures |r| == Utf16Length(s)
    ensures AllAllowed(r)
  {
    if s == [] then []
    else
      var head := if Allowed(s[0]) then [s[0]] else if s[0] as int > 0xFFFF then "__" else "_";
      var r := head + SafeName(s[1..]);
      assert forall i :: |head| <= i < |r| ==> r[i] == SafeName(s[1..])[i - |head|];
      r
  }

  /** A name made only of kept characters comes back unchanged, so sanitising twice is
      sanitising once. */
  lemma {:induction false} SafeNameKeepsAllowed(s: string)
    requires AllAllowed(s)
    ensures SafeName(s) == s
  {
    if s != [] {
      SafeNameKeepsAllowed(s[1..]);
    }
  }

  lemma SafeNameIdempotent(s: string)
    ensures SafeName(SafeName(s)) == SafeName(s)
  {
    SafeNameKeepsAllowed(SafeName(s));
  }

  /** On a name within the BMP the result has the same length and, position by position,
      keeps each allowed character and puts '_' for every other one. */
  lemma {:induction false} SafeNamePositions(s: string)
    requires forall i :: 0 <= i < |s| ==> s[i] as int <= 0xFFFF
    ensures |SafeName(s)| == |s|
    ensures forall i :: 0 <= i < |s| ==> SafeName(s)[i] == if Allowed(s[i]) then s[i] else '_'
  {
    if s != [] {
      SafeNamePositions(s[1..]);
      assert SafeName(s) == [if Allowed(s[0]) then s[0] else '_'] + SafeName(s[1..]);
    }
  }

  /** `new Date().toISOString().replace(/[:.]/g, "-")`. */
  function Timestamp(iso: string): (r: string)
    ensures |r| == |iso| && ':' !in r && '.' !in r
    ensures forall i :: 0 <= i < |iso| && iso[i] != ':' && iso[i] != '.' ==> r[i] == iso[i]
  {
    seq(|iso|, i requires 0 <= i < |iso| => if iso[i] == ':' || iso[i] == '.' then '-' else iso[i])
  }

  const Folder: string := "comprovantes/"

  /** `` `comprovantes/${timestamp}_${safeName}` ``. */
  function BlobName(iso: string, name: string): string {
    Folder + Timestamp(iso) + "_" + SafeName(name)
  }

  /** The blob always lands directly in the receipts folder: nothing after the folder
      prefix is a '/', as long as the clock's text has none (an ISO instant never has). */
  lemma BlobStaysInFolder(iso: string, name: string)
    requires '/' !in iso
    ensures var b := BlobName(iso, name);
      b[..|Folder|] == Folder && '/' !in b[|Folder|..]
  {
    var b := BlobName(iso, name);
    var rest := Timestamp(iso) + "_" + SafeName(name);
    assert b == Folder + rest;
    assert b[|Folder|..] == rest;
    forall i | 0 <= i < |rest|
      ensures rest[i] != '/'
    {
      if i < |iso| {
        assert rest[i] == Timestamp(iso)[i];
        assert iso[i] != '/';
      } else if i > |iso| {
        assert rest[i] == SafeName(name)[i - |iso| - 1];
        assert Allowed(SafeName(name)[i - |iso| - 1]);
      }
    }
  }

  /** Everything after the last '/' (the whole text when there is none). */
  function AfterLastSlash(p: string): (r: string)
    ensures |r| <= |p| && r == p[|p| - |r|..] && '/' !in r
    ensures '/' !in p ==> r == p
  {
    if p == [] then []
    else if p[|p| - 1] == '/' then []
    else AfterLastSlash(p[..|p| - 1]) + [p[|p| - 1]]
  }

  /** Drops trailing '/' characters. */
  function StripSlashes(p: string): (r: string)
    ensures r <= p && (r == [] || r[|r| - 1] != '/')
  {
    if p != [] && p[|p| - 1] == '/' then StripSlashes(p[..|p| - 1]) else p
  }

  /** `path.basename(p)` on POSIX: the last segment, trailing separators ignored. */
  function Basename(p: string): string {
    AfterLastSlash(StripSlashes(p))
  }

  /** The stored file name of a blob kept at the path the handler asked for is the
      timestamped, sanitised name without the folder. */
  lemma BasenameOfBlobName(iso: string, name: string)
    requires '/' !in iso
    ensures Basename(BlobName(iso, name)) == BlobName(iso, name)[|Folder|..]
  {
    var b := BlobName(iso, name);
    BlobStaysInFolder(iso, name);
    assert b == Folder + b[|Folder|..];
    assert b[|b| - 1] == b[|Folder|..][|b| - |Folder| - 1];
    assert StripSlashes(b) == b;
    LastSegment(Folder, b[|Folder|..]);
  }

  lemma {:induction false} LastSegment(dir: string, x: string)
    requires dir != [] && dir[|dir| - 1] == '/' && '/' !in x
    ensures AfterLastSlash(dir + x) == x
  {
    if x != [] {
      assert (dir + x)[..|dir + x| - 1] == dir + x[..|x| - 1];
      LastSegment(dir, x[..|x| - 1]);
      assert x == x[..|x| - 1] + [x[|x| - 1]];
    } else {
      assert dir + x == dir;
    }
  }

  /** The uploaded file as the form parser describes it. */
  datatype UploadedFile = UploadedFile(originalFilename: Json, mimetype: Json, kind: Json, size: nat)

  /** The parsed form: its text fields (an object of strings or arrays of strings) and
      `files.comprovante`, if any. */
  datatype Form = Form(fields: Json, file: Option<UploadedFile>)

  /** `comprovante.originalFilename || "comprovante"`. */
  function OriginalName(f: UploadedFile): (r: string)
    ensures Truthy(f.originalFilename) ==> r == ToStr(f.originalFilename)
    ensures !Truthy(f.originalFilename) ==> r == "comprovante"
  {
    ToStr(Or(f.originalFilename, JStr("comprovante")))
  }

  /** `comprovante.mimetype || comprovante.type || fallback`. */
  function ContentType(f: UploadedFile, fallback: string): Json {
    Or(f.mimetype, Or(f.kind, JStr(fallback)))
  }

  /** The call made to the blob store: where and as what content type. */
  datatype Put = Put(pathname: string, contentType: string)

  /** What the store answers: the blob's public URL and its pathname. */
  datatype Blob = Blob(url: string, pathname: string)

  /** The handler's answers. */
  datatype UploadReply = NotAllowed | NoBlobStore | NoPostgres | NoFile | Failed | Stored(url: string)

  /** The status and body written for each answer. */
  function Render(a: UploadReply): (r: Response)
    ensures r.status == (match a case NotAllowed => 405 case NoFile => 400 case Stored(_) => 200 case _ => 500)
    ensures a.Stored? ==> Get(r.body, "url") == JStr(a.url)
  {
    match a
    case NotAllowed => Failure(405, "message", "Method Not Allowed")
    case NoBlobStore => Failure(500, "error", "Blob não configurado")
    case NoPostgres => Failure(500, "error", "Postgres não configurado")
    case NoFile => Failure(400, "error", "Arquivo de comprovante é obrigatório")
    case Failed => Failure(500, "error", "Erro ao salvar comprovante")
    case Stored(url) => Response(200, JObj(map["success" := JBool(true), "url" := JStr(url)]))
  }

  /** `!process.env.POSTGRES_URL && !process.env.POSTGRES_URL_NON_POOLING`: this handler
      looks at two variables only, not at the four the other handlers try. */
  predicate PostgresConfigured(env: map<string, string>) {
    Truthy(EnvVar(env, "POSTGRES_URL")) || Truthy(EnvVar(env, "POSTGRES_URL_NON_POOLING"))
  }

  /** `getFieldValue(fields[key])` as the text the insert binds. */
  function FieldText(fields: Json, key: string): string {
    ToStr(FieldValue(Get(fields, key)))
  }

  /** `req.headers["user-agent"] || ""`. */
  function UserAgent(req: Request): string {
    ToStr(Or(Header(req, "user-agent"), JStr("")))
  }

  /** `req.headers["x-forwarded-for"] || req.socket?.remoteAddress || ""`. */
  function ClientIp(req: Request): string {
    ToStr(Or(Header(req, "x-forwarded-for"), Or(req.remote, JStr(""))))
  }

  /** The `comprovantes` row inserted for a stored blob. `comprovante.size || 0` is the
      size itself, since a size is never another falsy value. */
  function ReceiptOf(req: Request, form: Form, file: UploadedFile, blob: Blob, now: string): Receipt {
    Receipt(FieldText(form.fields, "transaction_id"), FieldText(form.fields, "customer_name"),
            FieldText(form.fields, "customer_cpf"), FieldText(form.fields, "customer_email"),
            blob.url, Basename(blob.pathname), JNum(file.size),
            ToStr(ContentType(file, "")), None, UserAgent(req), ClientIp(req), now)
  }

  /** One run: the answer, the blob write asked for and the rows inserted. */
  datatype UploadRun = UploadRun(reply: UploadReply, put: Option<Put>, rows: seq<Receipt>)

  /** The handler on a request. `parsed` is what the form parser yields (None when it
      fails); `stored` is what the file read and the blob store yield (None when either
      throws); `iso` is the clock's ISO text; `dbUp` says whether the database answers. */
  function UploadHandler(env: map<string, string>, req: Request, parsed: Option<Form>, stored: Option<Blob>,
                         iso: string, dbUp: bool, now: string): (r: UploadRun)
    ensures r.put.Some? ==> r.reply == Failed || r.reply.Stored?
    ensures r.rows != [] <==> r.reply.Stored?
    ensures r.reply.Stored? ==> r.put.Some? && |r.rows| == 1 && r.rows[0].fileUrl == r.reply.url
  {
    if req.verb != "POST" then UploadRun(NotAllowed, None, [])
    else if !Truthy(EnvVar(env, "BLOB_READ_WRITE_TOKEN")) then UploadRun(NoBlobStore, None, [])
    else if !PostgresConfigured(env) then UploadRun(NoPostgres, None, [])
    else match parsed
      case None => UploadRun(Failed, None, [])
      case Some(form) =>
        match form.file
        case None => UploadRun(NoFile, None, [])
        case Some(file) =>
          if file.size > MaxFileSize then UploadRun(Failed, None, [])
          else
            var put := Put(BlobName(iso, OriginalName(file)), ToStr(ContentType(file, "application/octet-stream")));
            match stored
            case None => UploadRun(Failed, Some(put), [])
            case Some(blob) =>
              if !dbUp then UploadRun(Failed, Some(put), [])
              else UploadRun(Stored(blob.url), Some(put), [ReceiptOf(req, form, file, blob, now)])
  }

  /** The configuration and the form are checked, in that order, before anything is
      written: a refused upload neither writes a blob nor inserts a row. */
  lemma UploadGates(env: map<string, string>, req: Request, parsed: Option<Form>, stored: Option<Blob>,
                    iso: string, dbUp: bool, now: string)
    ensures var r := UploadHandler(env, req, parsed, stored, iso, dbUp, now);
      (r.reply == NotAllowed <==> req.verb != "POST")
      && (r.reply == NoBlobStore <==> req.verb == "POST" && !Truthy(EnvVar(env, "BLOB_READ_WRITE_TOKEN")))
      && (r.reply == NoPostgres <==> req.verb == "POST" && Truthy(EnvVar(env, "BLOB_READ_WRITE_TOKEN"))
                                     && !PostgresConfigured(env))
      && (r.reply == NoFile ==> parsed.Some? && parsed.value.file.None?)
      && (r.reply in {NotAllowed, NoBlobStore, NoPostgres, NoFile} ==> r.put.None? && r.rows == [])
  {
  }

  /** An upload that passes every gate, whose blob is stored and whose database answers,
      is acknowledged with the blob's URL; its blob was asked for under the timestamped,
      sanitised name (which `BlobStaysInFolder` keeps in the receipts folder), and exactly one
      row was inserted. */
  lemma StoredUpload(env: map<string, string>, req: Request, form: Form, file: UploadedFile, blob: Blob,
                     iso: string, now: string)
    requires req.verb == "POST" && Truthy(EnvVar(env, "BLOB_READ_WRITE_TOKEN")) && PostgresConfigured(env)
    requires form.file == Some(file) && file.size <= MaxFileSize
    ensures var r := UploadHandler(env, req, Some(form), Some(blob), iso, true, now);
      r.reply == Stored(blob.url)
      && r.put == Some(Put(BlobName(iso, OriginalName(file)), ToStr(ContentType(file, "application/octet-stream"))))
      && r.rows == [ReceiptOf(req, form, file, blob, now)]
  {
  }

  /** The blob is written before the database is touched: when the database is down the
      file stays in the store with no row pointing at it. */
  lemma OrphanBlob(env: map<string, string>, req: Request, form: Form, blob: Blob, iso: string, now: string)
    requires req.verb == "POST" && Truthy(EnvVar(env, "BLOB_READ_WRITE_TOKEN")) && PostgresConfigured(env)
    requires form.file.Some? && form.file.value.size <= MaxFileSize
    ensures var r := UploadHandler(env, req, Some(form), Some(blob), iso, false, now);
      r.reply == Failed && r.put.Some? && r.rows == []
  {
  }

  /** `module.exports` with the `comprovantesTableReady` flag: the DDL runs only once a
      blob has been stored. */
  method HandleUpload(flag: SchemaFlag, env: map<string, string>, req: Request, parsed: Option<Form>,
                      stored: Option<Blob>, iso: string, dbUp: bool, now: string)
    returns (reply: UploadReply, put: Option<Put>, rows: seq<Receipt>)
    modifies flag
    ensures UploadRun(reply, put, rows) == UploadHandler(env, req, parsed, stored, iso, dbUp, now)
    ensures put.None? || stored.None? ==> unchanged(flag)
    ensures reply.Stored? ==> flag.ready
    ensures old(flag.ready) ==> flag.ready && flag.ddlRuns == old(flag.ddlRuns)
  {
    if req.verb != "POST" {
      return NotAllowed, None, [];
    }
    if !Truthy(EnvVar(env, "BLOB_READ_WRITE_TOKEN")) {
      return NoBlobStore, None, [];
    }
    if !PostgresConfigured(env) {
      return NoPostgres, None, [];
    }
    if parsed.None? {
      return Failed, None, [];
    }
    var form := parsed.value;
    if form.file.None? {
      return NoFile, None, [];
    }
    var file := form.file.value;
    if file.size > MaxFileSize {
      return Failed, None, [];
    }
    put := Some(Put(BlobName(iso, OriginalName(file)), ToStr(ContentType(file, "application/octet-stream"))));
    if stored.None? {
      return Failed, put, [];
    }
    var ok := flag.Ensure(dbUp);
    if !ok || !dbUp {
      return Failed, put, [];
    }
    reply := Stored(stored.value.url);
    rows := [ReceiptOf(req, form, file, stored.value, now)];
  }
}
