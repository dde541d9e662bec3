/** The operation layer: how representative operations shape their form
    parameters and how they turn the executor's `([]byte, error)` pair into
    their result. The JSON decoder is a parameter `decode`; it answers None
    where `json.Unmarshal` returns an error. */
module Operations {
  import opened Wire
  import Strconv
  import Signing
  import opened Executor

  /** `(T, error)` as the operations return it; an `Err` stands for the zero value
      of T together with the error. */
  datatype Result<+T> = Ok(value: T) | Err(error: Error)

  const NetWorkPath := "/system?action=GetNetWork"
  const TaskCountPath := "/ajax?action=GetTaskCount"
  const DeleteSitePath := "/site?action=DeleteSite"
  const SiteDomainsPath := "/data?action=getData&table=domain"

  /** The arguments of DeleteSite: the site, and which of its FTP account,
      database and directory the panel should delete with it. */
  datatype ReqDeleteSite = ReqDeleteSite(id: Int64, webName: string, ftp: bool, database: bool, path: bool)

  /** The form DeleteSite sends: id and webname always, and each flag key, with the
      value "1", only when its flag is set (a cleared flag is left out, not sent as 0). */
  function DeleteSiteForm(p: ReqDeleteSite): (f: Form)
    ensures f.Keys !! Signing.Reserved
    ensures "id" in f && "webname" in f
    ensures f["id"] == [Strconv.FormatInt(p.id)] && f["webname"] == [p.webName]
    ensures ("ftp" in f <==> p.ftp) && ("database" in f <==> p.database) && ("path" in f <==> p.path)
    ensures forall k :: k in f && k != "id" && k != "webname" ==> f[k] == ["1"]
    ensures forall k :: k in f ==> k in {"id", "webname", "ftp", "database", "path"}
  {
    var f := map["id" := [Strconv.FormatInt(p.id)], "webname" := [p.webName]];
    var f := if p.ftp then f["ftp" := ["1"]] else f;
    var f := if p.database then f["database" := ["1"]] else f;
    if p.path then f["path" := ["1"]] else f
  }

  /** The panel reads the site id back exactly as the caller gave it. */
  lemma DeleteSiteIdRoundTrip(p: ReqDeleteSite)
    ensures Strconv.Atoi(DeleteSiteForm(p)["id"][0]) == Some(p.id)
  {
  }

  /** The form GetSiteDomains sends: list=true, plus every keyword as a repeated
      `search` value when at least one keyword is given. */
  function SiteDomainsForm(keyWords: seq<string>): (f: Form)
    ensures f.Keys !! Signing.Reserved
    ensures "list" in f && f["list"] == ["true"]
    ensures "search" in f <==> |keyWords| != 0
    ensures "search" in f ==> f["search"] == keyWords
    ensures forall k :: k in f ==> k == "list" || k == "search"
  {
    var f := map["list" := ["true"]];
    if |keyWords| != 0 then f["search" := keyWords] else f
  }

  /** Structured decode: an executor error is returned as it is; otherwise the body
      is decoded and a body the decoder rejects is a decode error. */
  function Structured<T>(r: Reply, decode: Bytes -> Option<T>): (res: Result<T>)
    ensures r.err.Some? ==> res == Err(r.err.value)
    ensures res.Ok? <==> r.err.None? && decode(r.body).Some?
    ensures res.Ok? ==> decode(r.body) == Some(res.value)
    ensures r.err.None? && res.Err? ==> res.error == DecodeError
  {
    if r.err.Some? then Err(r.err.value)
    else match decode(r.body)
      case Some(v) => Ok(v)
      case None => Err(DecodeError)
  }

  /** Best-effort decode (`resp, _ := c.btAPI(...)`): the executor error is dropped
      and whatever body came back is decoded. */
  function BestEffort<T>(r: Reply, decode: Bytes -> Option<T>): (res: Result<T>)
    ensures res.Ok? <==> decode(r.body).Some?
    ensures res.Ok? ==> decode(r.body) == Some(res.value)
    ensures res.Err? ==> res.error == DecodeError
  {
    match decode(r.body)
    case Some(v) => Ok(v)
    case None => Err(DecodeError)
  }

  /** Since `btAPI` returns no body with any error, a best-effort operation never
      gets to decode the body of a failed call: with a decoder that rejects empty
      input, as json.Unmarshal does, it reports a decode error and the executor's
      own error is lost. */
  lemma BestEffortAfterExecutorError<T>(o: Outcome, decode: Bytes -> Option<T>)
    requires decode([]) == None
    requires Classify(o).err.Some?
    ensures BestEffort(Classify(o), decode) == Err(DecodeError)
  {
  }

  /** When the executor succeeds the two decode strategies agree. */
  lemma BestEffortAgreesOnSuccess<T>(o: Outcome, decode: Bytes -> Option<T>)
    requires Accepted(o) && o.readOk
    ensures BestEffort(Classify(o), decode) == Structured(Classify(o), decode)
  {
  }

  /** GetTaskCount's decode: the body read as a decimal integer, and 0 whenever the
      executor failed or the body is not one. */
  function TaskCount(r: Reply): (n: Int64)
    ensures r.err.Some? ==> n == 0
    ensures Strconv.Atoi(AsString(r.body)).None? ==> n == 0
    ensures n != 0 ==> r.err.None? && Strconv.Atoi(AsString(r.body)) == Some(n)
    ensures r.err.None? && Strconv.Atoi(AsString(r.body)).Some? ==>
      n == Strconv.Atoi(AsString(r.body)).value
  {
    if r.err.Some? then 0
    else match Strconv.Atoi(AsString(r.body))
      case Some(v) => v
      case None => 0
  }

  /** A counter the panel writes in decimal, in a response the executor accepts and
      reads, is the count the client returns. */
  lemma TaskCountReadsCounter(o: Outcome, v: Int64)
    requires Accepted(o) && o.readOk
    requires AsString(o.body) == Strconv.FormatInt(v)
    ensures TaskCount(Classify(o)) == v
  {
  }

  /** A body "3" gives 3 and "03" gives 3; an empty body, "abc" and "3\n" give 0. */
  lemma TaskCountExamples()
    ensures TaskCount(Reply([51], None)) == 3
    ensures TaskCount(Reply([48, 51], None)) == 3
    ensures TaskCount(Reply([], None)) == 0
    ensures TaskCount(Reply([97, 98, 99], None)) == 0
    ensures TaskCount(Reply([51, 10], None)) == 0
  {
  }
}
