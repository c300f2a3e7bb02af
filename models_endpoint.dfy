/** The model endpoints (backend/app/api/v1/endpoints/models.py): which server
    a request is sent to, the model listing and the status report. */
module ModelsEndpoint {
  import opened Common
  import opened Store
  import opened OllamaService
  import opened Health

  /** A server the status and default listing may use. */
  predicate Usable(s: OllamaServer) {
    s.isActive && s.status == Online
  }

  /** The first active, online server in storage order (a LIMIT 1 query
      without ORDER BY). */
  function FirstOnline(servers: seq<OllamaServer>): (r: Option<nat>)
    ensures r.None? <==> forall i :: 0 <= i < |servers| ==> !Usable(servers[i])
    ensures r.Some? ==>
      r.value < |servers| && Usable(servers[r.value]) && forall i :: 0 <= i < r.value ==> !Usable(servers[i])
  {
    if |servers| == 0 then None
    else if Usable(servers[0]) then Some(0)
    else
      match FirstOnline(servers[1..])
      case None => None
      case Some(k) => Some(k + 1)
  }

  /** A query parameter is used only when it is a non-empty string. */
  predicate Given(p: Option<string>) {
    p.Some? && p.value != ""
  }

  const NoOnlineServer: string := "No online Ollama servers available. Please configure a server first."

  /** The URL list_ollama_models asks: the named server, which must exist and
      be active, or else the first online one. */
  function SelectModelServer(servers: seq<OllamaServer>, serverId: Option<ServerId>): (r: Response<string>)
    ensures Given(serverId) ==>
      match IndexOf(servers, ServerKey, serverId.value)
      case None => r == Fail(404, Detail("Server not found"))
      case Some(k) => r == if servers[k].isActive then Ok(servers[k].url) else Fail(400, Detail("Server is not active"))
    ensures !Given(serverId) ==>
      match FirstOnline(servers)
      case None => r == Fail(503, Detail(NoOnlineServer))
      case Some(k) => r == Ok(servers[k].url)
    ensures r.Ok? ==> exists i :: 0 <= i < |servers| && servers[i].url == r.value && servers[i].isActive
  {
    if Given(serverId) then
      match IndexOf(servers, ServerKey, serverId.value)
      case None => Fail(404, Detail("Server not found"))
      case Some(k) => if servers[k].isActive then Ok(servers[k].url) else Fail(400, Detail("Server is not active"))
    else
      match FirstOnline(servers)
      case None => Fail(503, Detail(NoOnlineServer))
      case Some(k) => Ok(servers[k].url)
  }

  const ConnectFailure: ErrorDetail :=
    ErrorBody("Unable to connect to Ollama", "Please ensure Ollama server is running and accessible")

  /** list_ollama_models with the listing the selected server returns. */
  function ListOllamaModels(servers: seq<OllamaServer>, serverId: Option<ServerId>, listing: ModelListing)
    : (r: Response<seq<ModelEntry>>)
    ensures SelectModelServer(servers, serverId).Fail? ==>
      r == Fail(SelectModelServer(servers, serverId).status, SelectModelServer(servers, serverId).detail)
    ensures SelectModelServer(servers, serverId).Ok? ==>
      r == match listing
           case Listed(models) => Ok(models)
           case ListFailed(_) => Fail(503, ConnectFailure)
  {
    match SelectModelServer(servers, serverId)
    case Fail(status, detail) => Fail(status, detail)
    case Ok(_) =>
      match listing
      case Listed(models) => Ok(models)
      case ListFailed(_) => Fail(503, ConnectFailure)
  }

  /** As written the listing is requested as get_models(base_url) although it
      takes no argument: the TypeError lands in the generic handler. */
  function ListOllamaModelsAsWritten(servers: seq<OllamaServer>, serverId: Option<ServerId>)
    : (r: Response<seq<ModelEntry>>)
    ensures r.Fail?
  {
    match SelectModelServer(servers, serverId)
    case Fail(status, detail) => Fail(status, detail)
    case Ok(_) => Fail(500, Detail("Error retrieving models"))
  }

  /** As written, no request that reaches a server ever returns its models. */
  lemma AsWrittenListingAlwaysFails(servers: seq<OllamaServer>, serverId: Option<ServerId>, listing: ModelListing)
    requires SelectModelServer(servers, serverId).Ok? && listing.Listed?
    ensures ListOllamaModels(servers, serverId, listing) == Ok(listing.models)
    ensures ListOllamaModelsAsWritten(servers, serverId) == Fail(500, Detail("Error retrieving models"))
  {
  }

  /** The body of /status. */
  datatype StatusReport = StatusReport(connected: bool, url: string, modelsCount: Option<nat>, error: Option<string>)

  /** `error or "Unknown error"`. */
  function ErrorOrUnknown(e: Option<string>): (r: string)
    ensures r != ""
    ensures (e.Some? && e.value != "") ==> r == e.value
  {
    if e.Some? && e.value != "" then e.value else "Unknown error"
  }

  /** check_ollama_status with the probe of the first online server and the
      listing taken after a healthy probe. It never fails: every error is
      reported in the body. */
  function CheckOllamaStatus(servers: seq<OllamaServer>, probe: Probe, listing: ModelListing): (r: StatusReport)
    ensures r.connected <==> FirstOnline(servers).Some? && probe.Healthy? && listing.Listed?
    ensures r.connected ==>
      r.url == servers[FirstOnline(servers).value].url
      && r.modelsCount == Some(|listing.models|) && r.error == None
    ensures !r.connected ==> r.modelsCount == None && r.error.Some?
    ensures FirstOnline(servers).None? ==>
      r == StatusReport(false, "No servers configured", None, Some("No online Ollama servers available"))
    ensures FirstOnline(servers).Some? && probe.Unhealthy? ==>
      r.url == servers[FirstOnline(servers).value].url && r.error == Some(ErrorOrUnknown(probe.error))
    ensures FirstOnline(servers).Some? && probe.Raised? ==>
      r.url == "" && r.error == Some(if probe.connectionError then probe.text else "Unknown error")
    ensures FirstOnline(servers).Some? && probe.Healthy? && listing.ListFailed? ==>
      r.url == "" && r.error == Some(ErrorText(listing.error))
  {
    match FirstOnline(servers)
    case None => StatusReport(false, "No servers configured", None, Some("No online Ollama servers available"))
    case Some(k) =>
      match probe
      case Healthy =>
        (match listing
         case Listed(models) => StatusReport(true, servers[k].url, Some(|models|), None)
         case ListFailed(e) => StatusReport(false, "", None, Some(ErrorText(e))))
      case Unhealthy(error) => StatusReport(false, servers[k].url, None, Some(ErrorOrUnknown(error)))
      case Raised(connectionError, text) =>
        StatusReport(false, "", None, Some(if connectionError then text else "Unknown error"))
  }

  /** As written the probe is check_health(url) and raises a TypeError, so the
      status of a healthy installation reads "Unknown error". */
  lemma AsWrittenStatusUnknown(servers: seq<OllamaServer>, listing: ModelListing)
    requires FirstOnline(servers).Some?
    ensures CheckOllamaStatus(servers, ProbeAsWritten(servers[FirstOnline(servers).value].url), listing)
         == StatusReport(false, "", None, Some("Unknown error"))
  {
  }
}
