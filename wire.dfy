/** The wire-format steps of `send_event`: the textual dump of a batch, the quote
    substitution of `_prepare_data_to_send`, the no-op `.replace('', "")`, gzip over the
    UTF-8 bytes, and the HMAC-SHA-256 signature of the compressed body. */
module Wire {
  import opened Records

  /** Foreign calls the client makes, injected as functions: Python's `str()` of a
      list of dictionaries, `str.encode()` (UTF-8), gzip compression (RFC 1952),
      HMAC-SHA-256 (RFC 2104 over FIPS 180-4) keyed by its first argument, and Base64
      (section 4 of RFC 4648). Only the way they are wired together is modelled. */
  datatype Codec = Codec(
    repr: seq<Record> -> string,
    utf8: string -> Bytes,
    compress: Bytes -> Bytes,
    hmacSha256: (Bytes, Bytes) -> Bytes,
    base64: Bytes -> string)

  /** The one request the transport receives for a flushed batch. */
  datatype Post = Post(url: string, headers: map<string, string>, params: map<string, Value>, body: Bytes)

  const ContentEncoding: string := "gzip"

  /** Python's `s.replace("'", '"')`: every single quote becomes a double quote. */
  function SwapQuotes(s: string): (r: string)
    ensures |r| == |s|
    ensures forall i :: 0 <= i < |s| ==> r[i] == (if s[i] == '\'' then '"' else s[i])
    ensures '\'' !in r
  {
    if s == [] then []
    else [if s[0] == '\'' then '"' else s[0]] + SwapQuotes(s[1..])
  }

  /** A text without single quotes goes through the substitution unchanged, and only such a text does. */
  lemma SwapQuotesFixesExactlyQuoteFree(s: string)
    ensures SwapQuotes(s) == s <==> '\'' !in s
  {
    if '\'' in s {
      var i :| 0 <= i < |s| && s[i] == '\'';
      assert SwapQuotes(s)[i] != s[i];
    }
  }

  /** Applying the substitution twice is the same as applying it once. */
  lemma SwapQuotesIdempotent(s: string)
    ensures SwapQuotes(SwapQuotes(s)) == SwapQuotes(s)
  {
    SwapQuotesFixesExactlyQuoteFree(SwapQuotes(s));
  }

  /** The substitution is blind: a value that held an apostrophe and one that held a
      double quote in its place reach the wire as the same text. */
  lemma SwapQuotesConflatesQuotes()
    ensures SwapQuotes("it's") == SwapQuotes("it\"s") == "it\"s"
  {
    assert SwapQuotes("it's")[2] == '"';
  }

  /** `_prepare_data_to_send`: `str(x)` with its single quotes turned into double quotes. */
  function PrepareDataToSend(codec: Codec, x: seq<Record>): (r: string)
    ensures |r| == |codec.repr(x)| && '\'' !in r
    ensures forall i :: 0 <= i < |r| ==>
              r[i] == (if codec.repr(x)[i] == '\'' then '"' else codec.repr(x)[i])
  {
    SwapQuotes(codec.repr(x))
  }

  /** Python's `s.replace('', t)`: `t` inserted before every character and at the end. */
  function ReplaceEmpty(s: string, t: string): (r: string)
    ensures |r| == |s| + (|s| + 1) * |t|
    ensures r[..|t|] == t && r[|r| - |t|..] == t
  {
    if s == [] then t else t + [s[0]] + ReplaceEmpty(s[1..], t)
  }

  /** With an empty replacement, `.replace('', "")` leaves every text as it is. */
  lemma {:induction false} ReplaceEmptyWithEmptyIsIdentity(s: string)
    ensures ReplaceEmpty(s, "") == s
  {
    if s != [] {
      calc {
        ReplaceEmpty(s, "");
        "" + [s[0]] + ReplaceEmpty(s[1..], "");
        { ReplaceEmptyWithEmptyIsIdentity(s[1..]); }
        "" + [s[0]] + s[1..];
        s;
      }
    }
  }

  /** `get_gzip_string`: gzip over the UTF-8 encoding of the text. */
  function GetGzipString(codec: Codec, text: string): Bytes
  {
    codec.compress(codec.utf8(text))
  }

  /** `hmac_auth_hash`: Base64 of HMAC-SHA-256 over the body, keyed by the UTF-8 secret. */
  function HmacAuthHash(codec: Codec, body: Bytes, secretKey: string): string
  {
    codec.base64(codec.hmacSha256(codec.utf8(secretKey), body))
  }

  /** `_header`: the signature of the given compressed bytes and the two fixed content headers. */
  function Header(codec: Codec, secretKey: string, gzipData: Bytes): (h: map<string, string>)
    ensures h.Keys == {"authorization", "content-type", "content-encoding"}
    ensures h["authorization"] == HmacAuthHash(codec, gzipData, secretKey)
    ensures h["content-type"] == "application/json" && h["content-encoding"] == "gzip"
  {
    map[
      "authorization" := HmacAuthHash(codec, gzipData, secretKey),
      "content-type" := "application/json",
      "content-encoding" := ContentEncoding
    ]
  }

  /** `_params`: the game key and the interval setting. */
  function Params(gameKey: string, intervalSeconds: int): (p: map<string, Value>)
    ensures p.Keys == {"game_key", "interval_seconds"}
    ensures p["game_key"] == Str(gameKey) && p["interval_seconds"] == Int(intervalSeconds)
  {
    map["game_key" := Str(gameKey), "interval_seconds" := Int(intervalSeconds)]
  }

  /** The request `send_event` posts for a batch. The body is gzip of the
      quote-substituted dump (the empty replace changes nothing), the authorization
      header signs exactly those compressed bytes with the secret key, and the
      remaining headers and the query parameters are the fixed ones. */
  function SendEvent(codec: Codec, eventUrl: string, gameKey: string, secretKey: string,
                     intervalSeconds: int, data: seq<Record>): (p: Post)
    ensures p.url == eventUrl
    ensures p.body == codec.compress(codec.utf8(SwapQuotes(codec.repr(data))))
    ensures p.headers.Keys == {"authorization", "content-type", "content-encoding"}
    ensures p.headers["authorization"] == codec.base64(codec.hmacSha256(codec.utf8(secretKey), p.body))
    ensures p.headers["content-type"] == "application/json" && p.headers["content-encoding"] == "gzip"
    ensures p.params.Keys == {"game_key", "interval_seconds"}
    ensures p.params["game_key"] == Str(gameKey) && p.params["interval_seconds"] == Int(intervalSeconds)
  {
    ReplaceEmptyWithEmptyIsIdentity(PrepareDataToSend(codec, data));
    var text := ReplaceEmpty(PrepareDataToSend(codec, data), "");
    var gzipData := GetGzipString(codec, text);
    Post(eventUrl, Header(codec, secretKey, gzipData), Params(gameKey, intervalSeconds), gzipData)
  }
}
