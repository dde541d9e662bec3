/** The token signer: every request proves possession of the API key by
    sending the current Unix time together with a digest of that time and a
    digest of the key. */
module Signing {
  import opened Wire
  import Strconv

  predicate IsLowerHex(c: char) { '0' <= c <= '9' || 'a' <= c <= 'f' }

  /** What `hex.EncodeToString(md5.Sum(...))` produces: 32 lowercase hex digits. */
  type HexDigest = s: string | |s| == 32 && forall i :: 0 <= i < |s| ==> IsLowerHex(s[i])
    witness "00000000000000000000000000000000"

  /** The MD5 helper of the client: an arbitrary but fixed function from strings to
      hex digests. The MD5 algorithm itself is not modelled. */
  const MD5: string -> HexDigest

  const TokenKey := "request_token"
  const TimeKey := "request_time"

  /** The form keys the executor reserves for signing. */
  const Reserved: set<string> := {TokenKey, TimeKey}

  /** request_token for a given request time and key: MD5(nowTime + MD5(key)).
      It is 32 lowercase hex digits, and the key enters it only through its
      digest, so two keys with the same MD5 sign alike. */
  function Token(nowTime: string, key: string): (t: string)
    ensures |t| == 32 && forall i :: 0 <= i < |t| ==> IsLowerHex(t[i])
  {
    MD5(nowTime + MD5(key))
  }

  /** The two signing fields of a request sent at Unix second `now`. */
  function SignedFields(now: Int64, key: string): (f: Form)
    ensures f.Keys == Reserved
    ensures |f[TimeKey]| == 1 && |f[TokenKey]| == 1
  {
    var nowTime := Strconv.FormatInt(now);
    map[TokenKey := [Token(nowTime, key)], TimeKey := [nowTime]]
  }

  /** What the panel checks: it reads the time back as the very second the client
      signed at, and recomputing the token from that time and its own copy of the
      key reproduces the token that was sent. */
  lemma PanelAccepts(now: Int64, key: string)
    ensures var f := SignedFields(now, key);
      && Strconv.Atoi(f[TimeKey][0]) == Some(now)
      && f[TokenKey][0] == Token(f[TimeKey][0], key)
  {
  }

  /** FormatInt is injective on int64: two requests whose `request_time` strings
      are equal were signed in the same second, and with the same key they carry
      identical signing fields (the token depends on nothing but time and key). */
  lemma SameSecondSameFields(now: Int64, now': Int64, key: string)
    requires Strconv.FormatInt(now) == Strconv.FormatInt(now')
    ensures SignedFields(now, key) == SignedFields(now', key)
    ensures now == now'
  {
  }
}
