/** How api/payment.js turns the gateway's QR value into something an `<img src>` can show:
    `looksLikeBase64`, `normalizeQrUrl` and the nested `pixQrWithPrefix` conditional. */
module PixQr {
  import opened Text
  import opened Js
  import opened Uri

  /** The class `[A-Za-z0-9+/=\s]`. */
  predicate IsBase64Char(c: char) {
    IsAlnum(c) || c == '+' || c == '/' || c == '=' || IsSpace(c)
  }

  /** `looksLikeBase64(value)`: a string of more than 100 characters, all from the base64
      alphabet or white space. */
  predicate LooksLikeBase64(v: Json) {
    v.JStr? && |v.s| > 100 && forall i :: 0 <= i < |v.s| ==> IsBase64Char(v.s[i])
  }

  /** `normalizeQrUrl(value)` on a string: a scheme-less value with a '/' gets "https://",
      and anything starting with "http" is passed through `encodeURI`. */
  function NormalizeQrUrl(value: string): (r: string)
    ensures value == "" ==> r == ""
    ensures "http" <= value ==> r == EncodeUri(value)
    ensures !("http" <= value) && '/' !in value ==> r == value
  {
    if value == "" then value
    else
      var withScheme := if !("http" <= value) && '/' in value then "https://" + value else value;
      if "http" <= withScheme then EncodeUri(withScheme) else withScheme
  }

  /** A scheme-less path gains the "https://" scheme, which `encodeURI` leaves intact. */
  lemma NormalizeQrUrlAddsScheme(value: string)
    requires !("http" <= value) && '/' in value
    ensures NormalizeQrUrl(value) == "https://" + EncodeUri(value)
  {
    var scheme := Https;
    SchemeIsSafe();
    assert "http" <= scheme + value;
    EncodeSafePrefix(scheme, value);
  }

  const Https: string := "https://"

  lemma SchemeIsSafe()
    ensures forall i :: 0 <= i < |Https| ==> UriSafe(Https[i])
  {
  }

  /** `encodeURI` keeps a prefix of safe characters as it is. */
  lemma EncodeSafePrefix(p: string, v: string)
    requires forall i :: 0 <= i < |p| ==> UriSafe(p[i])
    ensures EncodeUri(p + v) == p + EncodeUri(v)
  {
    EncodeAppend(p, v, UriSafe);
    EncodeSafe(p, UriSafe);
  }

  /** The branch of `pixQrWithPrefix` taken for a non-empty string. */
  function QrImage(s: string): (r: string)
    ensures s == "" ==> r == ""
    ensures "data:image" <= s || "http" <= s ==> r == s
    ensures !("data:image" <= s) && !("http" <= s) && "base64," <= s ==> r == "data:image/png;" + s
    ensures !("data:image" <= s) && !("http" <= s) && !("base64," <= s) && LooksLikeBase64(JStr(s))
      ==> r == "data:image/png;base64," + Trim(s)
  {
    if s == "" then ""
    else if "data:image" <= s then s
    else if "http" <= s then s
    else if "base64," <= s then "data:image/png;" + s
    else if LooksLikeBase64(JStr(s)) then "data:image/png;base64," + Trim(s)
    else NormalizeQrUrl(s)
  }

  /** `pixQrWithPrefix`: a falsy value gives "", a string is normalised, and any other truthy
      value has no `startsWith`, so the handler throws (None). */
  function PixQrWithPrefix(v: Json): (r: Option<string>)
    ensures !Truthy(v) <==> r == Some("")
    ensures r.None? <==> Truthy(v) && !v.JStr?
    ensures v.JStr? && v.s != "" ==> r == Some(QrImage(v.s))
  {
    if !Truthy(v) then Some("")
    else if v.JStr? then Some(QrImage(v.s))
    else None
  }

  /** Every normalised image value either starts with "data:image" or "http", or is the
      input itself (a value with no '/' and no recognised prefix). */
  lemma QrImageShape(s: string)
    ensures var r := QrImage(s);
      "data:image" <= r || "http" <= r || (r == s && '/' !in s)
  {
    var r := QrImage(s);
    if s != "" && !("data:image" <= s) && !("http" <= s) {
      if "base64," <= s {
        assert "data:image" <= r;
      } else if LooksLikeBase64(JStr(s)) {
        assert "data:image" <= r;
      } else if '/' in s {
        NormalizeQrUrlAddsScheme(s);
        assert "http" <= r;
      }
    }
  }

  /** Normalising an already normalised QR value changes nothing. */
  lemma QrImageIdempotent(s: string)
    ensures QrImage(QrImage(s)) == QrImage(s)
  {
    QrImageShape(s);
  }

  /** The same for the handler's value: applying `pixQrWithPrefix` to its own output is a no-op. */
  lemma PixQrWithPrefixIdempotent(v: Json)
    requires PixQrWithPrefix(v).Some?
    ensures PixQrWithPrefix(JStr(PixQrWithPrefix(v).value)) == PixQrWithPrefix(v)
  {
    if Truthy(v) {
      QrImageIdempotent(v.s);
    }
  }
}
