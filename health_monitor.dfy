/** The background health monitor (backend/app/services/health_monitor.py):
    the start/stop flag, one sweep over the active servers, and the status
    transition of a single check. */
module Health {
  import opened Common
  import opened Store
  import opened OllamaService

  /** What checking one server observed: the probe, the model listing taken
      after a healthy probe, the measured response time and the check time. */
  datatype ProbeReport = ProbeReport(probe: Probe, listing: ModelListing, elapsedMs: int, checkedAt: Time)

  /** len(models), or 0 when fetching the models failed. */
  function ModelsCountOrZero(listing: ModelListing): (r: nat)
    ensures listing.Listed? ==> r == |listing.models|
    ensures listing.ListFailed? ==> r == 0
  {
    if listing.Listed? then |listing.models| else 0
  }

  /** True when two rows agree on everything but the health fields. */
  predicate SameConfiguration(a: OllamaServer, b: OllamaServer) {
    a.id == b.id && a.name == b.name && a.url == b.url && a.description == b.description && a.isActive == b.isActive
  }

  /** _check_server: the row after one check. */
  function CheckedServer(s: OllamaServer, report: ProbeReport): (r: OllamaServer)
    ensures SameConfiguration(r, s)
    ensures r.lastCheckedAt == Some(report.checkedAt)
    ensures r.status != Unknown
    ensures r.status == Online <==> report.probe.Healthy?
    ensures report.probe.Healthy? ==>
      r.lastError == None && r.modelsCount == ModelsCountOrZero(report.listing)
      && r.averageResponseTimeMs == Some(report.elapsedMs)
    ensures report.probe.Unhealthy? ==>
      r.status == Offline && r.lastError == report.probe.error
      && r.modelsCount == s.modelsCount && r.averageResponseTimeMs == s.averageResponseTimeMs
    ensures report.probe.Raised? ==>
      r.status == Error && r.lastError == Some(report.probe.text)
      && r.modelsCount == s.modelsCount && r.averageResponseTimeMs == s.averageResponseTimeMs
  {
    match report.probe
    case Healthy =>
      s.(status := Online, lastError := None, modelsCount := ModelsCountOrZero(report.listing),
         lastCheckedAt := Some(report.checkedAt), averageResponseTimeMs := Some(report.elapsedMs))
    case Unhealthy(error) =>
      s.(status := Offline, lastError := error, lastCheckedAt := Some(report.checkedAt))
    case Raised(_, text) =>
      s.(status := Error, lastError := Some(text), lastCheckedAt := Some(report.checkedAt))
  }

  /** The table after a sweep: every active row checked with its report, every
      inactive row as it was. */
  function Swept(servers: seq<OllamaServer>, reports: ServerId -> ProbeReport): (r: seq<OllamaServer>)
    ensures |r| == |servers|
  {
    seq(|servers|, i requires 0 <= i < |servers| =>
      if servers[i].isActive then CheckedServer(servers[i], reports(servers[i].id)) else servers[i])
  }

  /** A sweep touches only the active rows, checks every one of them, and
      changes no row's configuration. */
  lemma SweepEffect(servers: seq<OllamaServer>, reports: ServerId -> ProbeReport, i: nat)
    requires i < |servers|
    ensures SameConfiguration(Swept(servers, reports)[i], servers[i])
    ensures !servers[i].isActive ==> Swept(servers, reports)[i] == servers[i]
    ensures servers[i].isActive ==>
      Swept(servers, reports)[i].status != Unknown
      && Swept(servers, reports)[i].lastCheckedAt == Some(reports(servers[i].id).checkedAt)
  {
    if servers[i].isActive {
      var checked := CheckedServer(servers[i], reports(servers[i].id));
      assert Swept(servers, reports)[i] == checked;
    }
  }

  /** With no active server the sweep changes nothing. */
  lemma SweepWithoutActiveServers(servers: seq<OllamaServer>, reports: ServerId -> ProbeReport)
    requires forall i :: 0 <= i < |servers| ==> !servers[i].isActive
    ensures Swept(servers, reports) == servers
  {
  }

  /** The names a table holds, row by row. */
  function Names(servers: seq<OllamaServer>): (r: seq<string>)
    ensures |r| == |servers|
    ensures forall i :: 0 <= i < |servers| ==> r[i] == servers[i].name
  {
    seq(|servers|, i requires 0 <= i < |servers| => servers[i].name)
  }

  lemma SweepKeepsNames(servers: seq<OllamaServer>, reports: ServerId -> ProbeReport)
    ensures Names(Swept(servers, reports)) == Names(servers)
  {
  }

  /** The state of the background task. */
  datatype TaskState = NoTask | Scheduled | Cancelled

  class HealthMonitor {
    const checkInterval: int
    var running: bool
    var task: TaskState

    /** The flag is set exactly while a task is scheduled. */
    ghost predicate Valid()
      reads this
    {
      running <==> task == Scheduled
    }

    constructor (checkIntervalSeconds: int)
      ensures Valid()
      ensures checkInterval == checkIntervalSeconds && !running && task == NoTask
    {
      checkInterval := checkIntervalSeconds;
      task := NoTask;
      running := false;
    }

    /** start: a no-op while running; otherwise sets the flag and schedules the loop. */
    method Start()
      requires Valid()
      modifies this
      ensures Valid() && running
      ensures old(running) ==> task == old(task)
      ensures !old(running) ==> task == Scheduled
    {
      if running {
        return;
      }
      running := true;
      task := Scheduled;
    }

    /** stop: clears the flag and cancels the task if there is one. */
    method Stop()
      requires Valid()
      modifies this
      ensures Valid() && !running
      ensures task == if old(task) == NoTask then NoTask else Cancelled
    {
      running := false;
      if task != NoTask {
        task := Cancelled;
      }
    }

    /** _check_server on the row at index i. */
    method CheckServer(db: Database, i: nat, report: ProbeReport)
      requires i < |db.servers|
      modifies db`servers
      ensures db.servers == old(db.servers)[i := CheckedServer(old(db.servers)[i], report)]
    {
      var server := db.servers[i];
      match report.probe {
        case Healthy =>
          var modelsCount := 0;
          if report.listing.Listed? {
            modelsCount := |report.listing.models|;
          }
          server := server.(status := Online);
          server := server.(lastError := None);
          server := server.(modelsCount := modelsCount);
          server := server.(lastCheckedAt := Some(report.checkedAt));
          server := server.(averageResponseTimeMs := Some(report.elapsedMs));
        case Unhealthy(error) =>
          server := server.(status := Offline);
          server := server.(lastError := error);
          server := server.(lastCheckedAt := Some(report.checkedAt));
        case Raised(_, text) =>
          server := server.(status := Error);
          server := server.(lastError := Some(text));
          server := server.(lastCheckedAt := Some(report.checkedAt));
      }
      db.servers := db.servers[i := server];
    }

    /** _check_all_servers: the active servers are checked one after another,
        each with the report its probe produced. */
    method CheckAllServers(db: Database, reports: ServerId -> ProbeReport)
      modifies db`servers
      ensures db.servers == Swept(old(db.servers), reports)
    {
      ghost var before := db.servers;
      var i := 0;
      while i < |db.servers|
        invariant 0 <= i <= |db.servers| == |before|
        invariant forall k :: 0 <= k < i ==> db.servers[k] == Swept(before, reports)[k]
        invariant forall k :: i <= k < |before| ==> db.servers[k] == before[k]
      {
        if db.servers[i].isActive {
          CheckServer(db, i, reports(db.servers[i].id));
        }
        i := i + 1;
      }
      assert db.servers == Swept(before, reports);
    }
  }

  /** As written, the checks call check_health with the server URL although it
      takes none, so the call raises a TypeError before any request is made. */
  const CheckHealthTypeError: string :=
    "OllamaService.check_health() takes 1 positional argument but 2 were given"

  function ProbeAsWritten(url: string): (p: Probe)
    ensures p.Raised? && !p.connectionError && p.text == CheckHealthTypeError
  {
    Raised(false, CheckHealthTypeError)
  }

  /** Every check as written marks the server "error", whatever the server does. */
  lemma AsWrittenCheckAlwaysErrors(s: OllamaServer, listing: ModelListing, elapsedMs: int, checkedAt: Time)
    ensures CheckedServer(s, ProbeReport(ProbeAsWritten(s.url), listing, elapsedMs, checkedAt)).status == Error
    ensures CheckedServer(s, ProbeReport(ProbeAsWritten(s.url), listing, elapsedMs, checkedAt)).lastError
         == Some(CheckHealthTypeError)
  {
  }
}
