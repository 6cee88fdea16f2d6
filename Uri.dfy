/** `encodeURI` and `encodeURIComponent`: every character outside a safe set is written
    as the percent-escaped bytes of its UTF-8 encoding. */
module Uri {
  import opened Text

  predicate IsAlnum(c: char) {
    'A' <= c <= 'Z' || 'a' <= c <= 'z' || '0' <= c <= '9'
  }

  /** What `encodeURIComponent` leaves alone. */
  predicate ComponentSafe(c: char) {
    IsAlnum(c) || c in "-_.!~*'()"
  }

  /** What `encodeURI` leaves alone: the above and the URI delimiters. */
  predicate UriSafe(c: char) {
    ComponentSafe(c) || c in ";,/?:@&=+$#"
  }

  predicate IsUpperHex(c: char) {
    '0' <= c <= '9' || 'A' <= c <= 'F'
  }

  /** The UTF-8 encoding of one Unicode scalar value. */
  function Utf8(c: char): (bytes: seq<nat>)
    ensures 1 <= |bytes| <= 4
    ensures forall i :: 0 <= i < |bytes| ==> bytes[i] < 256
  {
    var cp := c as int;
    if cp < 0x80 then [cp]
    else if cp < 0x800 then [0xC0 + cp / 64, 0x80 + cp % 64]
    else if cp < 0x10000 then [0xE0 + cp / 4096, 0x80 + (cp / 64) % 64, 0x80 + cp % 64]
    else [0xF0 + cp / 262144, 0x80 + (cp / 4096) % 64, 0x80 + (cp / 64) % 64, 0x80 + cp % 64]
  }

  function HexDigit(d: nat): (c: char)
    requires d < 16
    ensures IsUpperHex(c)
  {
    if d < 10 then DigitChar(d) else ('A' as int + d - 10) as char
  }

  /** `%XX` for each byte, with upper-case hexadecimal digits. */
  function PercentBytes(bytes: seq<nat>): (r: string)
    requires forall i :: 0 <= i < |bytes| ==> bytes[i] < 256
    ensures |r| == 3 * |bytes|
    ensures forall i :: 0 <= i < |r| ==> r[i] == '%' || IsUpperHex(r[i])
  {
    if bytes == [] then []
    else ['%', HexDigit(bytes[0] / 16), HexDigit(bytes[0] % 16)] + PercentBytes(bytes[1..])
  }

  /** The escape of one character: itself when safe, else its escaped UTF-8 bytes. */
  function EscapeChar(c: char, safe: char -> bool): string {
    if safe(c) then [c] else PercentBytes(Utf8(c))
  }

  function Encode(s: string, safe: char -> bool): (r: string)
    ensures forall i :: 0 <= i < |r| ==> safe(r[i]) || r[i] == '%' || IsUpperHex(r[i])
  {
    if s == [] then [] else EscapeChar(s[0], safe) + Encode(s[1..], safe)
  }

  /** `encodeURI(s)`. */
  function EncodeUri(s: string): string {
    Encode(s, UriSafe)
  }

  /** `encodeURIComponent(s)`. */
  function EncodeUriComponent(s: string): string {
    Encode(s, ComponentSafe)
  }

  /** Encoding works character by character. */
  lemma {:induction false} EncodeAppend(a: string, b: string, safe: char -> bool)
    ensures Encode(a + b, safe) == Encode(a, safe) + Encode(b, safe)
  {
    if a != [] {
      assert (a + b)[1..] == a[1..] + b;
      EncodeAppend(a[1..], b, safe);
    } else {
      assert a + b == b;
    }
  }

  /** A string of safe characters is left as it is. */
  lemma {:induction false} EncodeSafe(s: string, safe: char -> bool)
    requires forall i :: 0 <= i < |s| ==> safe(s[i])
    ensures Encode(s, safe) == s
  {
    if s != [] {
      EncodeSafe(s[1..], safe);
    }
  }

  /** An encoded component can carry no path, query or fragment delimiter, so it stays
      one path segment. */
  lemma ComponentHasNoDelimiter(s: string)
    ensures '/' !in EncodeUriComponent(s) && '?' !in EncodeUriComponent(s) && '#' !in EncodeUriComponent(s)
  {
    var r := EncodeUriComponent(s);
    forall i | 0 <= i < |r| ensures r[i] != '/' && r[i] != '?' && r[i] != '#' {
      assert ComponentSafe(r[i]) || r[i] == '%' || IsUpperHex(r[i]);
    }
  }
}
