/** The server registry endpoints (backend/app/api/v1/endpoints/ollama_servers.py)
    over the ollama_servers table. A probe that raises escapes the endpoint:
    an OllamaConnectionError is answered with a 503 by the application's
    handler (backend/app/main.py), any other exception with a 500, and the
    session being rolled back, the request changes nothing. */
module OllamaServers {
  import opened Common
  import opened Strings
  import opened Store
  import opened OllamaService
  import opened Health

  const NotFound: Response<OllamaServer> := Fail(404, Detail("Server not found"))
  const DuplicateName: Response<OllamaServer> := Fail(400, Detail("Server with this name already exists"))
  /** The response to an exception no handler catches. */
  const InternalError: Response<OllamaServer> := Fail(500, Detail("Internal Server Error"))

  /** The response when probing `url` raised: the 503 body of main.py's
      OllamaConnectionError handler, carrying str(exc) and the probed URL, or
      the 500 of an exception no handler catches. */
  function RaisedResponse(probe: Probe, url: string): (r: Response<OllamaServer>)
    requires probe.Raised?
    ensures r.Fail? && (r.status == 503 <==> probe.connectionError) && (r.status == 500 <==> !probe.connectionError)
    ensures probe.connectionError ==> r.detail.ConnectionErrorBody? && r.detail.detail == probe.text && r.detail.url == url
    ensures !probe.connectionError ==> r == InternalError
  {
    if probe.connectionError then
      Fail(503, ConnectionErrorBody("Ollama Connection Error", probe.text,
                                    "Ensure Ollama is running locally and accessible", url))
    else InternalError
  }

  /** The unique constraint on ollama_servers.name. */
  predicate UniqueNames(servers: seq<OllamaServer>) {
    forall i, j :: 0 <= i < j < |servers| ==> servers[i].name != servers[j].name
  }

  predicate NameTaken(servers: seq<OllamaServer>, name: string) {
    exists i :: 0 <= i < |servers| && servers[i].name == name
  }

  /** The error a probe reports: none when healthy. */
  function ProbeError(p: Probe): Option<string>
    requires !p.Raised?
  {
    if p.Unhealthy? then p.error else None
  }

  /** A response together with the table it leaves behind. */
  datatype Update<T> = Update(response: Response<T>, servers: seq<OllamaServer>)

  // ---------------------------------------------------------------------------
  // list_servers and get_server

  /** The rows list_servers selects. */
  function VisibleServers(servers: seq<OllamaServer>, includeInactive: bool): (r: seq<OllamaServer>)
    ensures forall s :: s in r <==> s in servers && (includeInactive || s.isActive)
    ensures multiset(r) == multiset(Filter(servers, (s: OllamaServer) => includeInactive || s.isActive))
  {
    Filter(servers, (s: OllamaServer) => includeInactive || s.isActive)
  }

  /** list_servers: the active servers (all of them when include_inactive),
      ordered by name. */
  function ListServers(servers: seq<OllamaServer>, includeInactive: bool): (r: seq<OllamaServer>)
    ensures SortedBy(r, ServerNameLe)
    ensures multiset(r) == multiset(VisibleServers(servers, includeInactive))
    ensures forall s :: s in r <==> s in servers && (includeInactive || s.isActive)
  {
    OrderingsArePreorders();
    var r := Sort(VisibleServers(servers, includeInactive), ServerNameLe);
    assert forall s :: s in r <==> s in multiset(r);
    r
  }

  /** get_server: the row with the id, or 404. */
  function GetServer(servers: seq<OllamaServer>, id: ServerId): (r: Response<OllamaServer>)
    ensures r.Ok? <==> exists i :: 0 <= i < |servers| && servers[i].id == id
    ensures r.Ok? ==> r.value in servers && r.value.id == id
    ensures r.Fail? ==> r == NotFound
  {
    match IndexOf(servers, ServerKey, id)
    case None => NotFound
    case Some(k) => Ok(servers[k])
  }

  // ---------------------------------------------------------------------------
  // create_server

  datatype ServerCreate = ServerCreate(name: string, url: string, description: Option<string>, isActive: bool)

  /** create_server: rejects a taken name; otherwise adds the row, probed at once. */
  function CreateServerSpec(servers: seq<OllamaServer>, id: ServerId, data: ServerCreate,
                            probe: Probe, listing: ModelListing, now: Time): (u: Update<OllamaServer>)
    ensures NameTaken(servers, data.name) ==> u == Update(DuplicateName, servers)
    ensures !NameTaken(servers, data.name) && probe.Raised? ==> u == Update(RaisedResponse(probe, data.url), servers)
    ensures !NameTaken(servers, data.name) && !probe.Raised? ==>
      u.response.Ok? &&
      var s := u.response.value;
      && u.servers == servers + [s]
      && s.id == id && s.name == data.name && s.url == data.url
      && s.description == data.description && s.isActive == data.isActive
      && s.status == (if probe.Healthy? then Online else Offline)
      && s.lastCheckedAt == Some(now)
      && s.lastError == ProbeError(probe)
      && s.modelsCount == (if probe.Healthy? && listing.Listed? then |listing.models| else 0)
      && s.averageResponseTimeMs == None
  {
    if NameTaken(servers, data.name) then Update(DuplicateName, servers)
    else if probe.Raised? then Update(RaisedResponse(probe, data.url), servers)
    else
      var s := OllamaServer(id, data.name, data.url, data.description, data.isActive,
        if probe.Healthy? then Online else Offline, Some(now), ProbeError(probe),
        if probe.Healthy? && listing.Listed? then |listing.models| else 0, None);
      Update(Ok(s), servers + [s])
  }

  lemma CreateKeepsNamesUnique(servers: seq<OllamaServer>, id: ServerId, data: ServerCreate,
                               probe: Probe, listing: ModelListing, now: Time)
    requires UniqueNames(servers)
    ensures UniqueNames(CreateServerSpec(servers, id, data, probe, listing, now).servers)
  {
    var u := CreateServerSpec(servers, id, data, probe, listing, now);
    if u.servers != servers {
      forall i, j | 0 <= i < j < |u.servers| ensures u.servers[i].name != u.servers[j].name {
        if j == |servers| {
          assert u.servers[i] == servers[i];
        }
      }
    }
  }

  method CreateServer(db: Database, id: ServerId, data: ServerCreate,
                      probe: Probe, listing: ModelListing, now: Time)
    returns (response: Response<OllamaServer>)
    modifies db`servers
    ensures Update(response, db.servers) == CreateServerSpec(old(db.servers), id, data, probe, listing, now)
  {
    if NameTaken(db.servers, data.name) {
      return DuplicateName;
    }
    var server := OllamaServer(id, data.name, data.url, data.description, data.isActive,
                               Unknown, None, None, 0, None);
    if probe.Raised? {
      return RaisedResponse(probe, data.url);
    }
    server := server.(status := if probe.Healthy? then Online else Offline);
    server := server.(lastCheckedAt := Some(now));
    if !probe.Healthy? {
      server := server.(lastError := probe.error);
    } else if listing.Listed? {
      server := server.(modelsCount := |listing.models|);
    }
    db.servers := db.servers + [server];
    response := Ok(server);
  }

  // ---------------------------------------------------------------------------
  // update_server

  /** The fields of a PATCH; None means not supplied. */
  datatype ServerUpdate = ServerUpdate(name: Option<string>, url: Option<string>,
                                       description: Option<string>, isActive: Option<bool>)

  /** update_server: 404 for an unknown id; a new name must be free; a new URL
      triggers a probe that sets the status, the error and the check time;
      description and is_active change only when supplied. */
  function UpdateServerSpec(servers: seq<OllamaServer>, id: ServerId, patch: ServerUpdate,
                            probe: Probe, now: Time): (u: Update<OllamaServer>)
    ensures (forall i :: 0 <= i < |servers| ==> servers[i].id != id) ==> u == Update(NotFound, servers)
    ensures u.response.Fail? ==> u.servers == servers
    ensures u.response.Ok? ==>
      exists k :: 0 <= k < |servers| && servers[k].id == id && u.servers == servers[k := u.response.value]
    ensures forall k :: 0 <= k < |servers| && servers[k].id == id && (forall j :: 0 <= j < k ==> servers[j].id != id) ==>
      var renameRefused := patch.name.Some? && patch.name.value != servers[k].name && NameTaken(servers, patch.name.value);
      && (renameRefused ==> u.response == DuplicateName)
      && (!renameRefused && patch.url.Some? && probe.Raised? ==> u.response == RaisedResponse(probe, patch.url.value))
      && (!renameRefused && !(patch.url.Some? && probe.Raised?) ==> u.response == Ok(Patched(servers[k], patch, probe, now)))
  {
    match IndexOf(servers, ServerKey, id)
    case None => Update(NotFound, servers)
    case Some(k) =>
      var s := servers[k];
      if patch.name.Some? && patch.name.value != s.name && NameTaken(servers, patch.name.value) then
        Update(DuplicateName, servers)
      else if patch.url.Some? && probe.Raised? then
        Update(RaisedResponse(probe, patch.url.value), servers)
      else
        var s4 := Patched(s, patch, probe, now);
        Update(Ok(s4), servers[k := s4])
  }

  /** The row after the supplied fields are written, name, url (with its
      probe), description and is_active in turn. */
  function Patched(s: OllamaServer, patch: ServerUpdate, probe: Probe, now: Time): (r: OllamaServer)
    requires patch.url.Some? ==> !probe.Raised?
    ensures r.id == s.id
    ensures r.name == patch.name.GetOr(s.name)
    ensures r.url == patch.url.GetOr(s.url)
    ensures r.description == (if patch.description.Some? then patch.description else s.description)
    ensures r.isActive == patch.isActive.GetOr(s.isActive)
    ensures r.modelsCount == s.modelsCount && r.averageResponseTimeMs == s.averageResponseTimeMs
    ensures patch.url.None? ==> r.status == s.status && r.lastError == s.lastError && r.lastCheckedAt == s.lastCheckedAt
    ensures patch.url.Some? ==> r.status == (if probe.Healthy? then Online else Offline)
                                && r.lastError == ProbeError(probe) && r.lastCheckedAt == Some(now)
  {
    var s1 := if patch.name.Some? then s.(name := patch.name.value) else s;
    var s2 := if patch.url.Some?
      then s1.(url := patch.url.value, status := if probe.Healthy? then Online else Offline,
               lastError := ProbeError(probe), lastCheckedAt := Some(now))
      else s1;
    var s3 := if patch.description.Some? then s2.(description := patch.description) else s2;
    if patch.isActive.Some? then s3.(isActive := patch.isActive.value) else s3
  }

  /** What a successful update does to the row: every field changes only when
      its patch field is supplied, and the health fields only with a new URL. */
  lemma UpdateChangesOnlySuppliedFields(servers: seq<OllamaServer>, id: ServerId, patch: ServerUpdate,
                                        probe: Probe, now: Time, k: nat)
    requires k < |servers| && servers[k].id == id
    requires forall j :: 0 <= j < k ==> servers[j].id != id
    requires UpdateServerSpec(servers, id, patch, probe, now).response.Ok?
    ensures var s := servers[k];
      var r := UpdateServerSpec(servers, id, patch, probe, now).response.value;
      && r.id == s.id
      && r.name == patch.name.GetOr(s.name)
      && r.url == patch.url.GetOr(s.url)
      && r.description == (if patch.description.Some? then patch.description else s.description)
      && r.isActive == patch.isActive.GetOr(s.isActive)
      && r.modelsCount == s.modelsCount && r.averageResponseTimeMs == s.averageResponseTimeMs
      && (patch.url.None? ==> r.status == s.status && r.lastError == s.lastError && r.lastCheckedAt == s.lastCheckedAt)
      && (patch.url.Some? ==> r.status == (if probe.Healthy? then Online else Offline)
                              && r.lastError == ProbeError(probe) && r.lastCheckedAt == Some(now))
  {
    assert IndexOf(servers, ServerKey, id) == Some(k);
    var r := UpdateServerSpec(servers, id, patch, probe, now).response.value;
    assert r == Patched(servers[k], patch, probe, now);
  }

  /** A rename to a name another row holds is refused and changes nothing. */
  lemma UpdateRefusesTakenName(servers: seq<OllamaServer>, id: ServerId, patch: ServerUpdate,
                               probe: Probe, now: Time, k: nat)
    requires k < |servers| && servers[k].id == id
    requires forall j :: 0 <= j < k ==> servers[j].id != id
    requires patch.name.Some? && patch.name.value != servers[k].name && NameTaken(servers, patch.name.value)
    ensures UpdateServerSpec(servers, id, patch, probe, now) == Update(DuplicateName, servers)
  {
    assert IndexOf(servers, ServerKey, id) == Some(k);
  }

  lemma UpdateKeepsNamesUnique(servers: seq<OllamaServer>, id: ServerId, patch: ServerUpdate,
                               probe: Probe, now: Time)
    requires UniqueNames(servers)
    ensures UniqueNames(UpdateServerSpec(servers, id, patch, probe, now).servers)
  {
    var u := UpdateServerSpec(servers, id, patch, probe, now);
    match IndexOf(servers, ServerKey, id)
    case None =>
    case Some(k) =>
      if u.response.Ok? {
        var r := u.response.value;
        assert u.servers == servers[k := r];
        assert r.name == servers[k].name || !NameTaken(servers, r.name);
        forall i, j | 0 <= i < j < |u.servers| ensures u.servers[i].name != u.servers[j].name {
          if i == k && r.name != servers[k].name {
            assert servers[j].name != r.name;
          } else if j == k && r.name != servers[k].name {
            assert servers[i].name != r.name;
          }
        }
      }
  }

  method UpdateServer(db: Database, id: ServerId, patch: ServerUpdate, probe: Probe, now: Time)
    returns (response: Response<OllamaServer>)
    modifies db`servers
    ensures Update(response, db.servers) == UpdateServerSpec(old(db.servers), id, patch, probe, now)
  {
    var found := IndexOf(db.servers, ServerKey, id);
    if found.None? {
      return NotFound;
    }
    var k := found.value;
    var server := db.servers[k];
    if patch.name.Some? && patch.name.value != server.name {
      if NameTaken(db.servers, patch.name.value) {
        return DuplicateName;
      }
      server := server.(name := patch.name.value);
    }
    if patch.url.Some? {
      server := server.(url := patch.url.value);
      if probe.Raised? {
        return RaisedResponse(probe, patch.url.value);
      }
      server := server.(status := if probe.Healthy? then Online else Offline);
      server := server.(lastError := ProbeError(probe));
      server := server.(lastCheckedAt := Some(now));
    }
    if patch.description.Some? {
      server := server.(description := patch.description);
    }
    if patch.isActive.Some? {
      server := server.(isActive := patch.isActive.value);
    }
    db.servers := db.servers[k := server];
    response := Ok(server);
  }

  // ---------------------------------------------------------------------------
  // delete_server

  /** The chats after the foreign key's ON DELETE SET NULL for the server. */
  function DetachServer(chats: seq<Chat>, id: ServerId): (r: seq<Chat>)
    ensures |r| == |chats|
    ensures forall i :: 0 <= i < |chats| ==>
      r[i] == if chats[i].serverId == Some(id) then chats[i].(serverId := None) else chats[i]
  {
    seq(|chats|, i requires 0 <= i < |chats| =>
      if chats[i].serverId == Some(id) then chats[i].(serverId := None) else chats[i])
  }

  /** delete_server: 404 for an unknown id; otherwise the row goes and no chat
      refers to it any more. */
  method DeleteServer(db: Database, id: ServerId) returns (response: Response<()>)
    modifies db`servers, db`chats
    ensures (forall i :: 0 <= i < |old(db.servers)| ==> old(db.servers)[i].id != id) <==> response.Fail?
    ensures response.Fail? ==>
      response == Fail(404, Detail("Server not found")) && db.servers == old(db.servers) && db.chats == old(db.chats)
    ensures response.Ok? ==>
      (exists k :: 0 <= k < |old(db.servers)| && old(db.servers)[k].id == id
                   && db.servers == old(db.servers)[..k] + old(db.servers)[k + 1..])
      && db.chats == DetachServer(old(db.chats), id)
      && forall i :: 0 <= i < |db.chats| ==> db.chats[i].serverId != Some(id)
  {
    var found := IndexOf(db.servers, ServerKey, id);
    if found.None? {
      return Fail(404, Detail("Server not found"));
    }
    var k := found.value;
    db.servers := db.servers[..k] + db.servers[k + 1..];
    db.chats := DetachServer(db.chats, id);
    response := Ok(());
  }

  lemma DeleteKeepsNamesUnique(servers: seq<OllamaServer>, k: nat)
    requires k < |servers| && UniqueNames(servers)
    ensures UniqueNames(servers[..k] + servers[k + 1..])
  {
    var t := servers[..k] + servers[k + 1..];
    forall i, j | 0 <= i < j < |t| ensures t[i].name != t[j].name {
      var i' := if i < k then i else i + 1;
      var j' := if j < k then j else j + 1;
      assert t[i] == servers[i'] && t[j] == servers[j'];
    }
  }

  // ---------------------------------------------------------------------------
  // check_server_health and list_server_models

  /** check_server_health: 404 for an unknown id; otherwise status, check time
      and error from the probe, and, when healthy, the response time and (if
      the listing succeeds) the model count. */
  function CheckServerHealthSpec(servers: seq<OllamaServer>, id: ServerId, probe: Probe,
                                 listing: ModelListing, elapsedMs: int, now: Time): (u: Update<OllamaServer>)
    ensures (forall i :: 0 <= i < |servers| ==> servers[i].id != id) ==> u == Update(NotFound, servers)
    ensures u.response.Fail? ==> u.servers == servers
    ensures (exists i :: 0 <= i < |servers| && servers[i].id == id) ==>
      (u.response.Ok? <==> !probe.Raised?)
      && (probe.Raised? ==> u.response == RaisedResponse(probe, servers[IndexOf(servers, ServerKey, id).value].url))
    ensures u.response.Ok? ==>
      !probe.Raised? &&
      var r := u.response.value;
      exists k :: 0 <= k < |servers| && servers[k].id == id && u.servers == servers[k := r]
        && SameConfiguration(r, servers[k])
        && r.status == (if probe.Healthy? then Online else Offline)
        && r.lastCheckedAt == Some(now) && r.lastError == ProbeError(probe)
        && r.averageResponseTimeMs == (if probe.Healthy? then Some(elapsedMs) else servers[k].averageResponseTimeMs)
        && r.modelsCount == (if probe.Healthy? && listing.Listed? then |listing.models| else servers[k].modelsCount)
  {
    match IndexOf(servers, ServerKey, id)
    case None => Update(NotFound, servers)
    case Some(k) =>
      if probe.Raised? then Update(RaisedResponse(probe, servers[k].url), servers)
      else
        var s := servers[k].(status := if probe.Healthy? then Online else Offline,
                             lastCheckedAt := Some(now), lastError := ProbeError(probe));
        var s' := if !probe.Healthy? then s
                  else if listing.Listed? then s.(averageResponseTimeMs := Some(elapsedMs), modelsCount := |listing.models|)
                  else s.(averageResponseTimeMs := Some(elapsedMs));
        Update(Ok(s'), servers[k := s'])
  }

  method CheckServerHealth(db: Database, id: ServerId, probe: Probe, listing: ModelListing,
                           elapsedMs: int, now: Time)
    returns (response: Response<OllamaServer>)
    modifies db`servers
    ensures Update(response, db.servers) == CheckServerHealthSpec(old(db.servers), id, probe, listing, elapsedMs, now)
  {
    var found := IndexOf(db.servers, ServerKey, id);
    if found.None? {
      return NotFound;
    }
    var k := found.value;
    var server := db.servers[k];
    if probe.Raised? {
      return RaisedResponse(probe, server.url);
    }
    server := server.(status := if probe.Healthy? then Online else Offline);
    server := server.(lastCheckedAt := Some(now));
    server := server.(lastError := ProbeError(probe));
    if probe.Healthy? {
      server := server.(averageResponseTimeMs := Some(elapsedMs));
      if listing.Listed? {
        server := server.(modelsCount := |listing.models|);
      }
    }
    db.servers := db.servers[k := server];
    response := Ok(server);
  }

  /** list_server_models: 404 for an unknown id, 503 when the listing fails. */
  function ListServerModels(servers: seq<OllamaServer>, id: ServerId, listing: ModelListing)
    : (r: Response<seq<ModelEntry>>)
    ensures (forall i :: 0 <= i < |servers| ==> servers[i].id != id) ==> r == Fail(404, Detail("Server not found"))
    ensures (exists i :: 0 <= i < |servers| && servers[i].id == id) ==>
      (listing.Listed? ==> r == Ok(listing.models))
      && (listing.ListFailed? ==> r == Fail(503, Detail("Unable to retrieve models: " + ErrorText(listing.error))))
  {
    match IndexOf(servers, ServerKey, id)
    case None => Fail(404, Detail("Server not found"))
    case Some(_) =>
      match listing
      case Listed(models) => Ok(models)
      case ListFailed(e) => Fail(503, Detail("Unable to retrieve models: " + ErrorText(e)))
  }

  // ---------------------------------------------------------------------------
  // The endpoints as written

  /** As written, every probe of these endpoints is check_health(url), which
      raises the TypeError of Health.ProbeAsWritten; nothing catches it, so
      creating a server under a free name, changing a server's URL and the
      manual health check all answer 500 and change nothing. */
  lemma AsWrittenProbingEndpointsFail(servers: seq<OllamaServer>, id: ServerId, data: ServerCreate,
                                      patch: ServerUpdate, listing: ModelListing, elapsedMs: int, now: Time)
    ensures !NameTaken(servers, data.name) ==>
      CreateServerSpec(servers, id, data, ProbeAsWritten(data.url), listing, now) == Update(InternalError, servers)
    ensures forall k :: 0 <= k < |servers| && servers[k].id == id && (forall j :: 0 <= j < k ==> servers[j].id != id)
                        && patch.url.Some?
                        && !(patch.name.Some? && patch.name.value != servers[k].name && NameTaken(servers, patch.name.value))
                        ==> UpdateServerSpec(servers, id, patch, ProbeAsWritten(patch.url.value), now) == Update(InternalError, servers)
    ensures forall k :: 0 <= k < |servers| && servers[k].id == id ==>
      CheckServerHealthSpec(servers, id, ProbeAsWritten(servers[k].url), listing, elapsedMs, now) == Update(InternalError, servers)
  {
    forall k | 0 <= k < |servers| && servers[k].id == id
      ensures CheckServerHealthSpec(servers, id, ProbeAsWritten(servers[k].url), listing, elapsedMs, now)
           == Update(InternalError, servers)
    {
      var u := CheckServerHealthSpec(servers, id, ProbeAsWritten(servers[k].url), listing, elapsedMs, now);
      assert u.response == RaisedResponse(ProbeAsWritten(servers[k].url), servers[IndexOf(servers, ServerKey, id).value].url);
    }
  }

  /** As written, get_models(url) raises a TypeError just as check_health(url) does. */
  const GetModelsTypeError: string :=
    "OllamaService.get_models() takes 1 positional argument but 2 were given"

  /** list_server_models as written: the TypeError is caught by its generic
      handler, so a known server always answers 503. */
  function ListServerModelsAsWritten(servers: seq<OllamaServer>, id: ServerId): (r: Response<seq<ModelEntry>>)
    ensures (forall i :: 0 <= i < |servers| ==> servers[i].id != id) ==> r == Fail(404, Detail("Server not found"))
    ensures (exists i :: 0 <= i < |servers| && servers[i].id == id) ==>
      r == Fail(503, Detail("Unable to retrieve models: " + GetModelsTypeError))
  {
    match IndexOf(servers, ServerKey, id)
    case None => Fail(404, Detail("Server not found"))
    case Some(_) => Fail(503, Detail("Unable to retrieve models: " + GetModelsTypeError))
  }

  /** As written no known server's models are ever listed, although the
      intended listing returns them whenever get_models succeeds. */
  lemma AsWrittenServerModelsNeverListed(servers: seq<OllamaServer>, id: ServerId, listing: ModelListing)
    requires (exists i :: 0 <= i < |servers| && servers[i].id == id) && listing.Listed?
    ensures ListServerModels(servers, id, listing) == Ok(listing.models)
    ensures ListServerModelsAsWritten(servers, id).Fail? && ListServerModelsAsWritten(servers, id).status == 503
  {
  }
}
