/** The client object: one per panel, holding the panel address, the API key,
    the timeout and the session cookies of the last accepted response. Time and
    the network are parameters of each call: `now` is the Unix second at which
    the request is signed, and `transport` stands for the HTTP library and the
    panel, answering each request with an outcome. */
module BtClient {
  import opened Wire
  import opened Executor
  import opened Operations

  class Client {
    const BTAddress: string
    const BTKey: string
    const Timeout: Duration
    var cookies: seq<Cookie>

    /** NewClient: the timeout is the first of the optional arguments, and zero
        (no timeout) when none is given. */
    constructor NewClient(address: string, key: string, timeout: seq<Duration>)
      ensures BTAddress == address && BTKey == key
      ensures Timeout == if |timeout| > 0 then timeout[0] else 0
      ensures cookies == []
    {
      BTAddress := address;
      BTKey := key;
      Timeout := if |timeout| > 0 && timeout[0] != 0 then timeout[0] else 0;
      cookies := [];
    }

    /** btAPI: signs and sends `data` to `endpoint`, returns the body or the error,
        and replaces the held cookies with those of an accepted response. */
    method BtAPI(data: Form, endpoint: string, now: Int64, transport: Request -> Outcome)
      returns (resp: Bytes, err: Option<Error>)
      modifies this
      ensures var o := transport(Plan(BTAddress, BTKey, Timeout, old(cookies), data, endpoint, now));
        && Reply(resp, err) == Classify(o)
        && cookies == SessionAfter(old(cookies), o)
    {
      var body := MergeForm(Signing.SignedFields(now, BTKey), data);
      var jar := if |cookies| != 0 then Some(cookies) else None;
      var sent := Request(BTAddress + endpoint, body, jar, Timeout);
      assert sent == Plan(BTAddress, BTKey, Timeout, cookies, data, endpoint, now);
      match transport(sent)
      case TransportFail(reason) =>
        return [], Some(TransportError(reason));
      case Response(statusCode, status, received, payload, readOk) =>
        if statusCode >= 400 {
          return [], Some(StatusError(status));
        }
        cookies := received;
        if !readOk {
          return [], Some(ReadError);
        }
        return payload, None;
    }

    /** Raw: the executor itself, with the caller's form and endpoint. */
    method Raw(data: Form, endpoint: string, now: Int64, transport: Request -> Outcome)
      returns (resp: Bytes, err: Option<Error>)
      modifies this
      ensures var o := transport(Plan(BTAddress, BTKey, Timeout, old(cookies), data, endpoint, now));
        && Reply(resp, err) == Classify(o)
        && cookies == SessionAfter(old(cookies), o)
    {
      resp, err := BtAPI(data, endpoint, now, transport);
    }

    /** GetNetWork: no parameters, structured decode. */
    method GetNetWork<T>(now: Int64, transport: Request -> Outcome, decode: Bytes -> Option<T>)
      returns (res: Result<T>)
      modifies this
      ensures var o := transport(Plan(BTAddress, BTKey, Timeout, old(cookies), map[], NetWorkPath, now));
        && res == Structured(Classify(o), decode)
        && cookies == SessionAfter(old(cookies), o)
    {
      var resp, err := BtAPI(map[], NetWorkPath, now, transport);
      res := Structured(Reply(resp, err), decode);
    }

    /** GetTaskCount: no parameters, the body read as an integer, 0 on any failure. */
    method GetTaskCount(now: Int64, transport: Request -> Outcome) returns (n: Int64)
      modifies this
      ensures var o := transport(Plan(BTAddress, BTKey, Timeout, old(cookies), map[], TaskCountPath, now));
        && n == TaskCount(Classify(o))
        && cookies == SessionAfter(old(cookies), o)
    {
      var resp, err := BtAPI(map[], TaskCountPath, now, transport);
      n := TaskCount(Reply(resp, err));
    }

    /** DeleteSite: id, webname and the set flags; best-effort decode. */
    method DeleteSite<T>(params: ReqDeleteSite, now: Int64, transport: Request -> Outcome,
                         decode: Bytes -> Option<T>)
      returns (res: Result<T>)
      modifies this
      ensures var o := transport(Plan(BTAddress, BTKey, Timeout, old(cookies),
                                      DeleteSiteForm(params), DeleteSitePath, now));
        && res == BestEffort(Classify(o), decode)
        && cookies == SessionAfter(old(cookies), o)
    {
      var resp, _ := BtAPI(DeleteSiteForm(params), DeleteSitePath, now, transport);
      res := BestEffort(Reply(resp, None), decode);
    }

    /** GetSiteDomains: list=true and the optional search keywords; structured decode. */
    method GetSiteDomains<T>(keyWords: seq<string>, now: Int64, transport: Request -> Outcome,
                             decode: Bytes -> Option<T>)
      returns (res: Result<T>)
      modifies this
      ensures var o := transport(Plan(BTAddress, BTKey, Timeout, old(cookies),
                                      SiteDomainsForm(keyWords), SiteDomainsPath, now));
        && res == Structured(Classify(o), decode)
        && cookies == SessionAfter(old(cookies), o)
    {
      var resp, err := BtAPI(SiteDomainsForm(keyWords), SiteDomainsPath, now, transport);
      res := Structured(Reply(resp, err), decode);
    }
  }
}
