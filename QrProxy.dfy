/** api/qr.js: a proxy that fetches a QR-code image from the URL given in the query and
    serves it back. */
module QrProxy {
  import opened Text
  import opened Js

  /** `/^https?:\/\//i`: an http or https scheme in any letter case. */
  predicate HttpScheme(target: string) {
    StartsWithIgnoreCase(target, "http://") || StartsWithIgnoreCase(target, "https://")
  }

  /** `raw.trim().split(/\s+/)[0]`: the first white-space separated token of the trimmed
      value ("" for a blank one). */
  function Target(raw: string): (t: string)
    ensures NoSpace(t) && t <= Trim(raw)
    ensures t == Trim(raw) || IsSpace(Trim(raw)[|t|])
  {
    FirstToken(Trim(raw))
  }

  /** Leading white space goes, and so does everything from the first white space after the
      URL on: the proxy fetches only the first token. */
  lemma TargetOfPadded(pad: string, url: string, sep: char, tail: string)
    requires forall i :: 0 <= i < |pad| ==> IsSpace(pad[i])
    requires url != [] && NoSpace(url) && IsSpace(sep)
    ensures Target(pad + url + [sep] + tail) == url
  {
    assert pad + url + [sep] + tail == pad + url + ([sep] + tail);
    TrimOfPadded(pad, url, [sep] + tail);
    var r := TrimEnd([sep] + tail);
    assert r == [] || r[0] == sep by {
      assert r == ([sep] + tail)[..|r|];
    }
    FirstTokenOf(url, r);
  }

  /** Trimming a padded text cuts the padding and trims only what follows the URL. */
  lemma TrimOfPadded(pad: string, url: string, rest: string)
    requires forall i :: 0 <= i < |pad| ==> IsSpace(pad[i])
    requires url != [] && NoSpace(url)
    ensures Trim(pad + url + rest) == url + TrimEnd(rest)
  {
    assert pad + url + rest == pad + (url + rest);
    TrimStartPadded(pad, url + rest);
    TrimEndAfter(url, rest);
  }

  lemma {:induction false} TrimEndAfter(url: string, rest: string)
    requires url != [] && !IsSpace(url[|url| - 1])
    ensures TrimEnd(url + rest) == url + TrimEnd(rest)
    decreases |rest|
  {
    if rest == [] {
      assert url + rest == url;
    } else {
      var s := url + rest;
      assert s[|s| - 1] == rest[|rest| - 1];
      assert s[..|s| - 1] == url + rest[..|rest| - 1];
      TrimEndAfter(url, rest[..|rest| - 1]);
    }
  }

  lemma {:induction false} TrimStartPadded(pad: string, x: string)
    requires forall i :: 0 <= i < |pad| ==> IsSpace(pad[i])
    requires x != [] && !IsSpace(x[0])
    ensures TrimStart(pad + x) == x
  {
    if pad != [] {
      assert (pad + x)[1..] == pad[1..] + x;
      TrimStartPadded(pad[1..], x);
    }
  }

  lemma {:induction false} FirstTokenOf(t: string, rest: string)
    requires NoSpace(t) && (rest == [] || IsSpace(rest[0]))
    ensures FirstToken(t + rest) == t
  {
    if t != [] {
      assert (t + rest)[1..] == t[1..] + rest;
      FirstTokenOf(t[1..], rest);
    }
  }

  /** What the upstream server did: no answer (the fetch threw), or an answer with its status
      and its `content-type` header (`null` when absent). */
  datatype Upstream = Unreachable | Answer(status: int, contentType: Json)

  /** `response.ok`. */
  predicate Ok(status: int) {
    200 <= status <= 299
  }

  /** The handler's answers; `Image` carries the content type the image is served with. */
  datatype QrReply = MissingUrl | InvalidUrl | InternalError | FetchFailed(status: int) | Image(contentType: string)

  /** The status and body written for each answer. */
  function Render(a: QrReply): (r: Response)
    ensures a.FetchFailed? ==> r.status == a.status
    ensures r.status == 400 <==> a == MissingUrl || a == InvalidUrl || a == FetchFailed(400)
  {
    match a
    case MissingUrl => Response(400, JObj(map["error" := JStr("Missing url")]))
    case InvalidUrl => Response(400, JObj(map["error" := JStr("Invalid url")]))
    case InternalError => Response(500, JObj(map["error" := JStr("Internal error")]))
    case FetchFailed(status) => Response(status, JObj(map["error" := JStr("Failed to fetch QR")]))
    case Image(_) => Response(200, JUndef)
  }

  /** One run: the answer and the URL fetched, if any. */
  datatype QrRun = QrRun(reply: QrReply, fetched: Option<string>)

  /** The answer once `target` has been fetched: a failing upstream status is passed
      through, and an image without a content type is served as PNG. */
  function Relay(upstream: Upstream): (r: QrReply)
    ensures upstream.Answer? && !Ok(upstream.status) ==> r == FetchFailed(upstream.status) && Render(r).status == upstream.status
    ensures upstream.Answer? && Ok(upstream.status) && !Truthy(upstream.contentType) ==> r == Image("image/png")
    ensures upstream.Unreachable? ==> Render(r).status == 500
  {
    match upstream
    case Unreachable => InternalError
    case Answer(status, contentType) =>
      if !Ok(status) then FetchFailed(status) else Image(ToStr(Or(contentType, JStr("image/png"))))
  }

  /** The handler from `raw` on: it must be a string, and its first token must be an
      http(s) URL that `URL` accepts. */
  function FromRaw(raw: Json, parses: string -> bool, upstream: Upstream): (r: QrRun)
    ensures !raw.JStr? ==> r == QrRun(InternalError, None)
    ensures raw.JStr? && !(HttpScheme(Target(raw.s)) && parses(Target(raw.s))) ==> r == QrRun(InvalidUrl, None)
    ensures raw.JStr? && HttpScheme(Target(raw.s)) && parses(Target(raw.s)) ==>
      r == QrRun(Relay(upstream), Some(Target(raw.s)))
    ensures r.reply == InvalidUrl ==> r.fetched.None?
    ensures r.fetched.Some? ==> raw.JStr? && r.fetched.value == Target(raw.s) && r.reply == Relay(upstream)
  {
    if !raw.JStr? then QrRun(InternalError, None)
    else
      var target := Target(raw.s);
      if !HttpScheme(target) || !parses(target) then QrRun(InvalidUrl, None)
      else QrRun(Relay(upstream), Some(target))
  }

  /** The handler on a request. `parses` stands for `new URL` not throwing, and `upstream`
      for what the fetch of the target gives. */
  function QrHandler(req: Request, parses: string -> bool, upstream: Upstream): (r: QrRun)
    ensures r.reply == MissingUrl <==> !Truthy(Query(req, "u"))
    ensures r.reply == MissingUrl || r.reply == InvalidUrl ==> r.fetched.None?
    ensures var u := Query(req, "u"); var raw := if u.JArr? then At(u, 0) else u;
      Truthy(u) ==>
        (!raw.JStr? ==> r == QrRun(InternalError, None))
        && (raw.JStr? && !(HttpScheme(Target(raw.s)) && parses(Target(raw.s))) ==> r == QrRun(InvalidUrl, None))
        && (raw.JStr? && HttpScheme(Target(raw.s)) && parses(Target(raw.s)) ==>
              r == QrRun(Relay(upstream), Some(Target(raw.s))))
  {
    var u := Query(req, "u");
    if !Truthy(u) then QrRun(MissingUrl, None)
    else FromRaw(if u.JArr? then At(u, 0) else u, parses, upstream)
  }

  /** Only a value with an http(s) scheme that `URL` accepts is ever fetched, and what is
      fetched is the first token of the trimmed value: it holds no white space. */
  lemma FetchedTarget(req: Request, parses: string -> bool, upstream: Upstream)
    requires QrHandler(req, parses, upstream).fetched.Some?
    ensures var t := QrHandler(req, parses, upstream).fetched.value;
      var u := Query(req, "u");
      var raw := if u.JArr? then At(u, 0) else u;
      raw.JStr? && t == Target(raw.s) && HttpScheme(t) && parses(t) && NoSpace(t)
  {
  }

  /** An array of values behaves as its first element alone. */
  lemma ArrayUsesFirst(many: Request, one: Request, v: string, rest: seq<Json>, parses: string -> bool,
                       upstream: Upstream)
    requires Query(many, "u") == JArr([JStr(v)] + rest) && Query(one, "u") == JStr(v) && v != ""
    ensures QrHandler(many, parses, upstream) == QrHandler(one, parses, upstream)
  {
    assert At(Query(many, "u"), 0) == JStr(v);
  }
}
