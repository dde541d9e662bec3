/** Values that cross the boundary between the client, the panel and the
    HTTP library: machine integers, byte bodies, form maps, cookies and the
    errors the request executor reports. */
module Wire {

  datatype Option<+T> = None | Some(value: T)

  /** Go's `int64` (and `int` on a 64-bit platform). */
  type Int64 = x: int | -0x8000_0000_0000_0000 <= x <= 0x7fff_ffff_ffff_ffff

  /** `time.Duration`: an int64 count of nanoseconds; zero means "no timeout". */
  type Duration = Int64

  type Byte = x: int | 0 <= x < 256

  /** A response body (`[]byte`); a nil slice is the empty sequence. */
  type Bytes = seq<Byte>

  /** `url.Values`, i.e. `map[string][]string`: each form key carries a list of values. */
  type Form = map<string, seq<string>>

  /** An HTTP cookie as held by the client; its attributes are not inspected. */
  datatype Cookie = Cookie(name: string, value: string)

  /** The errors `btAPI` can return, and the decode error of the operation layer. */
  datatype Error =
    | TransportError(reason: string)  // PostForm failed: no response
    | StatusError(status: string)     // errors.New(resp.Status) for a status code >= 400
    | ReadError                       // reading the response body failed
    | DecodeError                     // json.Unmarshal rejected the body

  /** Go's `string(b)`: one character per byte. */
  function AsString(b: Bytes): (s: string)
    ensures |s| == |b|
    ensures forall i :: 0 <= i < |b| ==> s[i] as int == b[i]
  {
    seq(|b|, i requires 0 <= i < |b| => b[i] as char)
  }
}
