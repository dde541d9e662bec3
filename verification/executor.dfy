/** The request executor's specification: what request `btAPI` hands to the
    HTTP library, how it classifies what comes back, and how the held session
    cookies evolve from one call to the next. */
module Executor {
  import opened Wire
  import Strconv
  import Signing

  /** What the HTTP library reports for one POST: either no response at all, or a
      response with its status code, status line, Set-Cookie cookies, body, and
      whether reading the body succeeded. */
  datatype Outcome =
    | TransportFail(reason: string)
    | Response(statusCode: int, status: string, cookies: seq<Cookie>, body: Bytes, readOk: bool)

  /** The POST that `btAPI` issues: target URL, form body, the cookies it put in the
      fresh cookie jar (None when it did not call SetCookies), and the timeout. */
  datatype Request = Request(url: string, form: Form, jar: Option<seq<Cookie>>, timeout: Duration)

  /** The `([]byte, error)` pair returned by `btAPI`. */
  datatype Reply = Reply(body: Bytes, err: Option<Error>)

  /** A response that `btAPI` accepts: one with a status code below 400. */
  predicate Accepted(o: Outcome) { o.Response? && o.statusCode < 400 }

  /** The request `btAPI` builds for a client with the given address, key and
      timeout that holds `held` cookies, called with form `data` on `endpoint` at
      Unix second `now`. */
  function Plan(address: string, key: string, timeout: Duration, held: seq<Cookie>,
                data: Form, endpoint: string, now: Int64): (r: Request)
    ensures r.url == address + endpoint && r.timeout == timeout
    ensures r.form.Keys == data.Keys + Signing.Reserved
    ensures forall k :: k in data ==> r.form[k] == data[k]
    ensures Signing.TimeKey !in data ==> r.form[Signing.TimeKey] == [Strconv.FormatInt(now)]
    ensures Signing.TokenKey !in data ==>
      r.form[Signing.TokenKey] == [Signing.Token(Strconv.FormatInt(now), key)]
    ensures r.jar.Some? <==> |held| != 0
    ensures r.jar.Some? ==> r.jar.value == held
  {
    var jar := if |held| != 0 then Some(held) else None;
    Request(address + endpoint, Signing.SignedFields(now, key) + data, jar, timeout)
  }

  /** How `btAPI` turns an outcome into its result. */
  function Classify(o: Outcome): (r: Reply)
    ensures r.err.None? <==> Accepted(o) && o.readOk
    ensures r.err.None? ==> r.body == o.body
    ensures r.err.Some? ==> r.body == []
    ensures o.TransportFail? ==> r.err == Some(TransportError(o.reason))
    ensures o.Response? && o.statusCode >= 400 ==> r.err == Some(StatusError(o.status))
    ensures Accepted(o) && !o.readOk ==> r.err == Some(ReadError)
  {
    match o
    case TransportFail(reason) => Reply([], Some(TransportError(reason)))
    case Response(code, status, _, body, readOk) =>
      if code >= 400 then Reply([], Some(StatusError(status)))
      else if !readOk then Reply([], Some(ReadError))
      else Reply(body, None)
  }

  /** The cookies the client holds after one call that started with `held`. */
  function SessionAfter(held: seq<Cookie>, o: Outcome): (h: seq<Cookie>)
    ensures o.TransportFail? ==> h == held
    ensures o.Response? && o.statusCode >= 400 ==> h == held
    ensures o.Response? && o.statusCode < 400 ==> h == o.cookies
  {
    if Accepted(o) then o.cookies else held
  }

  /** The cookies held after a series of calls, oldest outcome first: either the
      initial cookies or exactly those of one accepted response, never a merge. */
  function SessionAfterAll(held: seq<Cookie>, os: seq<Outcome>): (h: seq<Cookie>)
    ensures h == held || exists i :: 0 <= i < |os| && Accepted(os[i]) && h == os[i].cookies
  {
    if os == [] then held else SessionAfter(SessionAfterAll(held, os[..|os| - 1]), os[|os| - 1])
  }

  /** The position of the last accepted response in a series of outcomes. */
  function LastAccepted(os: seq<Outcome>): (r: Option<nat>)
    ensures r.Some? ==> r.value < |os| && Accepted(os[r.value])
    ensures r.Some? ==> forall j :: r.value < j < |os| ==> !Accepted(os[j])
    ensures r.None? ==> forall j :: 0 <= j < |os| ==> !Accepted(os[j])
  {
    if os == [] then None
    else if Accepted(os[|os| - 1]) then Some(|os| - 1)
    else LastAccepted(os[..|os| - 1])
  }

  /** Last response wins: after any series of calls the client holds exactly the
      cookies of the last accepted response (even an empty set), whatever it
      held before; if no response was accepted it holds what it started with. */
  lemma {:induction false} LastResponseWins(held: seq<Cookie>, os: seq<Outcome>)
    ensures LastAccepted(os).None? ==> SessionAfterAll(held, os) == held
    ensures LastAccepted(os).Some? ==> SessionAfterAll(held, os) == os[LastAccepted(os).value].cookies
  {
    if os != [] {
      var init := os[..|os| - 1];
      LastResponseWins(held, init);
      if !Accepted(os[|os| - 1]) {
        assert LastAccepted(os) == LastAccepted(init);
        if LastAccepted(init).Some? {
          assert os[LastAccepted(init).value] == init[LastAccepted(init).value];
        }
      }
    }
  }

  /** The body of the POST: `base`, with every entry of `data` copied over it in
      whatever order the map is iterated. */
  method MergeForm(base: Form, data: Form) returns (body: Form)
    ensures body.Keys == base.Keys + data.Keys
    ensures forall k :: k in data ==> body[k] == data[k]
    ensures forall k :: k in base && k !in data ==> body[k] == base[k]
  {
    body := base;
    var pending := data.Keys;
    while pending != {}
      invariant pending <= data.Keys
      invariant body.Keys == base.Keys + (data.Keys - pending)
      invariant forall k :: k in data && k !in pending ==> body[k] == data[k]
      invariant forall k :: k in base && k !in data ==> body[k] == base[k]
      decreases pending
    {
      var k :| k in pending;
      body := body[k := data[k]];
      pending := pending - {k};
    }
  }
}
