/** The values the client exchanges with the libraries it calls, and those
    libraries themselves (JSON, form-urlencoding, HMAC-SHA256) as
    uninterpreted functions. A `Library` value fixes one interpretation; every
    result of the model holds for all of them.
 */
module Codecs {

  datatype Option<+T> = None | Some(value: T)

  type byte = b: int | 0 <= b < 256

  /** A decoded JSON value (RFC 8259). Numbers keep their text so that no
      floating point is involved. */
  datatype Json =
    | Null
    | Bool(b: bool)
    | Number(text: string)
    | Str(s: string)
    | Array(items: seq<Json>)
    | Object(members: seq<(string, Json)>)

  /** The keyword arguments of an endpoint call, a Python dict in insertion
      order. Python makes the keys distinct; nothing here relies on it. */
  type Params = seq<(string, Json)>

  /** The foreign functions the request layer calls.
      - jsonDumps: `json.dumps(params)`
      - urlEncode: `urllib.parse.urlencode(params)`
      - hmacHex:   `hmac.new(secret, text, hashlib.sha256).hexdigest()`, the
                   HMAC of RFC 2104 over the SHA-256 of FIPS 180-4
      - jsonLoads: `json.loads(content.decode("utf-8"))`, None when it raises
   */
  datatype Library = Library(
    jsonDumps: Params -> string,
    urlEncode: Params -> string,
    hmacHex: (string, string) -> string,
    jsonLoads: seq<byte> -> Option<Json>
  )
}
