/** The Elasticsearch wrapper. The tool is built around the instance URL `es`
    (a string); each operation sends one request whose target is `es`
    concatenated with a literal path, and most hand the response text to
    `json.loads`. The model returns the request and, separately, what the
    wrapper makes of the reply. */
module ElasticTool {
  import opened Common
  import opened Text
  import opened Http

  // ---------------------------------------------------------------------------
  // Connection check and reply handling

  /** `validate_connection`: one GET of the instance URL; the URL itself is the
      result when the reply is ok, and `ConnectionError` is raised otherwise. An
      exception of the HTTP library itself propagates unchanged. */
  function ValidateConnection(esInstance: string, reply: Transport): (r: Result<string>)
    ensures r.Success? <==> reply.Answered? && IsOk(reply.response)
    ensures r.Success? ==> r.value == esInstance
    ensures reply.Answered? && !IsOk(reply.response) ==> r == Failure(ConnectionError)
    ensures reply.Raised? ==> r == Failure(RequestException)
  {
    match reply
    case Raised => Failure(RequestException)
    case Answered(response) => if IsOk(response) then Success(esInstance) else Failure(ConnectionError)
  }

  /** The request `validate_connection` sends. */
  function ValidationRequest(esInstance: string): Request {
    Get(esInstance)
  }

  /** The instance URL `EsTool.__init__` validates and keeps as `es`. */
  const PlaceholderInstance := "elasticsearch_url_here"

  /** Validation reads the answer only through `ok`: its status code beyond
      that, and its text, never matter. */
  lemma ValidationSeesOnlyOk(esInstance: string, r1: Response, r2: Response)
    requires IsOk(r1) == IsOk(r2)
    ensures ValidateConnection(esInstance, Answered(r1)) == ValidateConnection(esInstance, Answered(r2))
  {
  }

  /** `Indices.exists` and `Alias.exists`: a HEAD request whose status code is
      compared with 200. */
  function Exists(reply: Transport): (r: Result<bool>)
    ensures r.Success? <==> reply.Answered?
    ensures r.Success? ==> (r.value <==> reply.response.status == 200)
  {
    match reply
    case Raised => Failure(RequestException)
    case Answered(response) => Success(response.status == 200)
  }

  /** Existence is stricter than an ok reply: every existing target answered ok,
      but an ok answer other than 200 counts as absent. */
  lemma ExistsIsStricterThanOk(reply: Transport)
    ensures Exists(reply) == Success(true) ==> IsOk(reply.response)
    ensures Exists(Answered(Response(204, ""))) == Success(false) && IsOk(Response(204, ""))
  {
  }

  // ---------------------------------------------------------------------------
  // The cat API

  /** One method of the `Cat` class. */
  datatype CatEndpoint =
    | Aliases
    | Allocation
    | AnomalyDetectors
    | CountAll
    | Count(index: string)
    | DataframeAnalytics
    | Datafeeds
    | FieldDataAll
    | FieldData(field: string)
    | Health
    | IndicesAll
    | Indices(index: string)
    | Master
    | Nodeattrs
    | Nodes
    | PendingTasks
    | Plugins
    | Recovery
    | Repositories
    | Shards
    | Snapshots(repository: string)
    | Tasks
    | Templates
    | ThreadPool
    | Transforms

  /** The path each cat method appends to `es`, before the query string: the
      index's own `_count` endpoint for `count`, a path under `/_cat/` otherwise. */
  function CatPath(e: CatEndpoint): string {
    if e.Count? then "/" + e.index + "/_count" else "/_cat/" + CatName(e)
  }

  /** What follows `/_cat/` in the path of every cat method but `count`. */
  function CatName(e: CatEndpoint): string
    requires !e.Count?
  {
    match e
    case Aliases => "aliases"
    case Allocation => "allocation"
    case AnomalyDetectors => "anomaly_detectors"
    case CountAll => "count"
    case DataframeAnalytics => "ml/data_frame/analytics"
    case Datafeeds => "ml/datafeeds"
    case FieldDataAll => "fielddata"
    case FieldData(field) => "fielddata/" + field
    case Health => "health"
    case IndicesAll => "indices"
    case Indices(index) => "indices/" + index
    case Master => "master"
    case Nodeattrs => "nodeattrs"
    case Nodes => "nodes"
    case PendingTasks => "pending_tasks"
    case Plugins => "plugins"
    case Recovery => "recovery"
    case Repositories => "repositories"
    case Shards => "shards"
    case Snapshots(repository) => "snapshots/" + repository
    case Tasks => "tasks"
    case Templates => "templates"
    case ThreadPool => "thread_pool"
    case Transforms => "transforms"
  }

  /** `set_request_string`: the format parameter, and the verbosity prefix that
      is present only for a true `verbose`. */
  function SetRequestString(returnFormat: string, verbose: bool): (r: (string, string))
    ensures r.0 == "format=" + returnFormat
    ensures r.1 == (if verbose then "v&" else "")
  {
    ("format=" + returnFormat, if verbose then "v&" else "")
  }

  /** The query string of every cat request: `{verbose}{return_format}&pretty`. */
  function CatQuery(verbose: bool, returnFormat: string): string {
    var (format, verbosity) := SetRequestString(returnFormat, verbose);
    verbosity + format + "&pretty"
  }

  /** The request a cat method sends: a GET of `es + path + "?" + query`. */
  function CatRequest(es: string, e: CatEndpoint, verbose: bool, returnFormat: string): Request {
    Get(es + CatPath(e) + "?" + CatQuery(verbose, returnFormat))
  }

  /** Reads the verbosity and the format back out of a cat query string. */
  function DecodeCatQuery(q: string): (r: Option<(bool, string)>)
    ensures r.Some? ==> CatQuery(r.value.0, r.value.1) == q
  {
    if |q| >= 16 && q[..9] == "v&format=" && q[|q| - 7..] == "&pretty" then
      assert q == q[..9] + q[9..|q| - 7] + q[|q| - 7..];
      Some((true, q[9..|q| - 7]))
    else if |q| >= 14 && q[..7] == "format=" && q[|q| - 7..] == "&pretty" then
      assert q == q[..7] + q[7..|q| - 7] + q[|q| - 7..];
      Some((false, q[7..|q| - 7]))
    else None
  }

  /** The query string determines the verbosity and the format: decoding
      undoes the encoding for every format text. */
  lemma CatQueryRoundTrip(verbose: bool, returnFormat: string)
    ensures DecodeCatQuery(CatQuery(verbose, returnFormat)) == Some((verbose, returnFormat))
  {
    var q := CatQuery(verbose, returnFormat);
    if verbose {
      assert q == "v&format=" + returnFormat + "&pretty";
      assert q[..9] == "v&format=";
      assert q[9..|q| - 7] == returnFormat;
      assert q[|q| - 7..] == "&pretty";
    } else {
      assert q == "format=" + returnFormat + "&pretty";
      assert q[..7] == "format=";
      assert q[7..|q| - 7] == returnFormat;
      assert q[|q| - 7..] == "&pretty";
      assert q[..9] != "v&format=" by { assert q[0] == 'f'; }
    }
  }

  /** Verbose queries start with `v&format=`, others with `format=`, and all end
      with `&pretty`. */
  lemma CatQueryShape(verbose: bool, returnFormat: string)
    ensures verbose ==> StartsWith(CatQuery(verbose, returnFormat), "v&format=")
    ensures !verbose ==> StartsWith(CatQuery(verbose, returnFormat), "format=")
    ensures EndsWith(CatQuery(verbose, returnFormat), "&pretty")
  {
    var q := CatQuery(verbose, returnFormat);
    if verbose {
      assert q == "v&format=" + returnFormat + "&pretty";
    } else {
      assert q == "format=" + returnFormat + "&pretty";
    }
    assert q[|q| - 7..] == "&pretty";
  }

  /** Every cat path lies under `/_cat/`, except `count`, which asks the index's
      own `_count` endpoint. */
  lemma CatPathShape(e: CatEndpoint)
    ensures e.Count? ==> CatPath(e) == "/" + e.index + "/_count"
    ensures !e.Count? ==> StartsWith(CatPath(e), "/_cat/")
  {
    if !e.Count? {
      ConcatStartsWith("/_cat/", CatName(e));
    }
  }

  // ---------------------------------------------------------------------------
  // The other APIs, grouped as the wrapper's nested classes are

  /** `Cluster`; `State(None)` is a call without the `metric` keyword. */
  datatype ClusterOp =
    | ExplainShardAllocation
    | ClusterHealth
    | ClusterPendingTasks
    | RemoteInfo
    | Settings
    | State(metric: Option<string>)
    | ClusterStats
    | XpackInfo
    | XpackUsage

  /** `Cluster.Nodes`. */
  datatype NodesOp = NodesUsage | HotThreads | NodesInfo | NodesStats | DesiredNodes

  /** `Cluster.Nodes.Shutdown`. */
  datatype ShutdownOp =
    | ShutdownStart(nodeId: string, data: string)
    | ShutdownCancel(nodeId: string)
    | ShutdownStatusAll
    | ShutdownStatus(nodeId: string)

  /** `Document`; `data` stands for the object that is `json.dumps`-ed. */
  datatype DocumentOp =
    | DocCreate(index: string, docType: string, data: string)
    | DocGet(index: string, docType: string, docId: string)
    | MultiGet(index: string, docType: string, ids: seq<string>)
    | DocUpdate(index: string, docType: string, id: string, data: string)
    | Bulk(data: string)
    | Reindex(data: string)

  /** `Indices`; `IndexCreate(index, None)` is a call without `data`. */
  datatype IndicesOp =
    | IndexGet(index: string)
    | IndexCreate(index: string, data: Option<string>)
    | IndexDelete(index: string)
    | IndexExists(index: string)
    | IndexStats(index: string)
    | IndexSegments(index: string)
    | IndexRecovery(index: string)
    | IndexClone(index: string, cloneIndex: string)
    | IndexClose(index: string)

  /** `Indices.Alias`. */
  datatype AliasOp =
    | AliasExists(alias: string)
    | AliasGet(alias: string)
    | AliasCreate(index: string, alias: string)
    | AliasDelete(index: string, alias: string)

  /** `Indices.Dangling`. */
  datatype DanglingOp = DanglingList | DanglingDelete(indexUuid: string)

  /** `Snapshot`. */
  datatype SnapshotOp =
    | SnapshotCreate(repositoryName: string, snapshotName: string)
    | SnapshotRestore(repositoryName: string, snapshotName: string)
    | SnapshotDelete(repositoryName: string, snapshotName: string)
    | SnapshotStatus

  /** `Snapshot.Repository`; `data` is passed as the `json=` argument of `create`. */
  datatype RepositoryOp =
    | RepositoryCreate(repositoryName: string, data: string)
    | RepositoryGet(repositoryName: string)
    | RepositoryDelete(repositoryName: string)
    | RepositoryVerify(repositoryName: string)
    | RepositoryCleanup(repositoryName: string)
    | RepositoryAnalysis(repositoryName: string)

  datatype EsOp =
    | Cluster(cluster: ClusterOp)
    | ClusterNodes(nodes: NodesOp)
    | Shutdown(shutdown: ShutdownOp)
    | TaskList
    | Document(document: DocumentOp)
    | IndexOp(indices: IndicesOp)
    | Alias(alias: AliasOp)
    | CacheClear(index: string)
    | Dangling(dangling: DanglingOp)
    | Snapshot(snapshot: SnapshotOp)
    | Repository(repository: RepositoryOp)
    | WatcherStats(metric: string)

  /** The metrics `Cluster.state` accepts. */
  const StateMetrics: set<string> :=
    {"nodes", "routing_table", "routing_nodes", "metadata", "master_node", "_all", "blocks", "version"}

  /** The metrics `Watcher.stats` accepts. */
  const WatcherMetrics: set<string> := {"_all", "current_watches", "queued_watches"}

  function ClusterRoute(es: string, op: ClusterOp): Request {
    match op
    case ExplainShardAllocation => Get(es + "/_cluster/allocation/explain")
    case ClusterHealth => Get(es + "/_cluster/health")
    case ClusterPendingTasks => Get(es + "/_cluster/pending_tasks")
    case RemoteInfo => Get(es + "/_cluster/remote_info")
    case Settings => Get(es + "/_cluster/settings")
    case State(metric) =>
      if metric.Some? && metric.value in StateMetrics then Get(es + "/_cluster/state/" + metric.value)
      else Get(es + "/_cluster/state")
    case ClusterStats => Get(es + "/_cluster/stats")
    case XpackInfo => Get(es + "/_xpack")
    case XpackUsage => Get(es + "/_xpack/usage")
  }

  function NodesRoute(es: string, op: NodesOp): Request {
    match op
    case NodesUsage => Get(es + "/_nodes/usage")
    case HotThreads => Get(es + "/_nodes/hot_threads")
    case NodesInfo => Get(es + "/_nodes/")
    case NodesStats => Get(es + "/_nodes/stats")
    case DesiredNodes => Get(es + "/_nodes/desired_nodes/_latest")
  }

  function ShutdownRoute(es: string, op: ShutdownOp): Request {
    match op
    case ShutdownStart(nodeId, data) => Request(GET, es + "/_nodes/" + nodeId + "/shutdown", Data(data), true)
    case ShutdownCancel(nodeId) => Request(GET, es + "/_nodes/" + nodeId + "/shutdown", NoBody, true)
    case ShutdownStatusAll => Get(es + "/_nodes/shutdown")
    case ShutdownStatus(nodeId) => Get(es + "/_nodes/" + nodeId + "/shutdown")
  }

  function DocumentRoute(es: string, op: DocumentOp): Request {
    match op
    case DocCreate(index, docType, data) =>
      Request(POST, es + "/" + index + "/" + docType + "/", Dumped(data), true)
    case DocGet(index, docType, docId) => Get(es + "/" + index + "/" + docType + "/" + docId)
    case MultiGet(index, docType, ids) =>
      Request(GET, es + "/" + index + "/" + docType + "/_mget", DumpedIds(ids), true)
    case DocUpdate(index, docType, id, data) =>
      Request(POST, es + "/" + index + "/" + docType + "/" + id, Dumped(data), true)
    case Bulk(data) => Request(POST, es + "/_bulk", Dumped(data), true)
    case Reindex(data) => Request(POST, es + "/_reindex", Dumped(data), true)
  }

  function IndicesRoute(es: string, op: IndicesOp): Request {
    match op
    case IndexGet(index) => Get(es + "/" + index)
    case IndexCreate(index, data) =>
      if data.None? then Request(PUT, es + "/" + index, NoBody, false)
      else Request(PUT, es + "/" + index, Data(data.value), false)
    case IndexDelete(index) => Request(DELETE, es + "/" + index, NoBody, false)
    case IndexExists(index) => Request(HEAD, es + "/" + index, NoBody, false)
    case IndexStats(index) => Get(es + "/" + index + "/_stats")
    case IndexSegments(index) => Get(es + "/" + index + "/_segments")
    case IndexRecovery(index) => Get(es + "/" + index + "/_recovery")
    case IndexClone(index, cloneIndex) => Request(PUT, es + "/" + index + "/_clone" + cloneIndex, NoBody, false)
    case IndexClose(index) => Request(POST, es + "/" + index + "/_close", NoBody, false)
  }

  function AliasRoute(es: string, op: AliasOp): Request {
    match op
    case AliasExists(alias) => Request(HEAD, es + "/" + alias, NoBody, false)
    case AliasGet(alias) => Get(es + "/_alias/" + alias)
    case AliasCreate(index, alias) => Request(PUT, es + index + "/_alias/" + alias, NoBody, false)
    case AliasDelete(index, alias) => Request(DELETE, es + index + "/_alias/" + alias, NoBody, false)
  }

  function DanglingRoute(es: string, op: DanglingOp): Request {
    match op
    case DanglingList => Get(es + "/_dangling")
    case DanglingDelete(uuid) => Request(DELETE, es + "/_dangling" + uuid + "?accept_data_loss=true", NoBody, false)
  }

  function SnapshotRoute(es: string, op: SnapshotOp): Request {
    match op
    case SnapshotCreate(repository, snapshot) =>
      Request(PUT, es + "/_snapshot/" + repository + "/" + snapshot, NoBody, false)
    case SnapshotRestore(repository, snapshot) =>
      Request(POST, es + "/_snapshot/" + repository + "/" + snapshot + "/_restore", NoBody, false)
    case SnapshotDelete(repository, snapshot) =>
      Request(DELETE, es + "/_snapshot/" + repository + "/" + snapshot, NoBody, false)
    case SnapshotStatus => Get(es + "/_snapshot/_status")
  }

  function RepositoryRoute(es: string, op: RepositoryOp): Request {
    match op
    case RepositoryCreate(repository, data) => Request(POST, es + "/_snapshot/" + repository, JsonArg(data), true)
    case RepositoryGet(repository) => Get(es + "/_snapshot/" + repository)
    case RepositoryDelete(repository) => Request(DELETE, es + "/_snapshot/" + repository, NoBody, false)
    case RepositoryVerify(repository) => Request(POST, es + "/_snapshot/" + repository + "/_verify", NoBody, false)
    case RepositoryCleanup(repository) =>
      Request(DELETE, es + "/_snapshot/" + repository + "/_cleanup", NoBody, false)
    case RepositoryAnalysis(repository) =>
      Request(POST, es + "/_snapshot/" + repository + "/_analyze", NoBody, false)
  }

  /** `Watcher.stats`, whose `metric` defaults to `_all`. */
  function WatcherRoute(es: string, metric: string): Request {
    if metric in WatcherMetrics then Get(es + "/_watcher/stats/" + metric) else Get(es + "/_watcher/stats")
  }

  /** The request each non-cat operation sends. */
  function Route(es: string, op: EsOp): Request {
    match op
    case Cluster(c) => ClusterRoute(es, c)
    case ClusterNodes(n) => NodesRoute(es, n)
    case Shutdown(s) => ShutdownRoute(es, s)
    case TaskList => Get(es + "/_tasks")
    case Document(d) => DocumentRoute(es, d)
    case IndexOp(i) => IndicesRoute(es, i)
    case Alias(a) => AliasRoute(es, a)
    case CacheClear(index) => Request(POST, es + "/" + index + "/_cache/clear", NoBody, false)
    case Dangling(d) => DanglingRoute(es, d)
    case Snapshot(s) => SnapshotRoute(es, s)
    case Repository(r) => RepositoryRoute(es, r)
    case WatcherStats(metric) => WatcherRoute(es, metric)
  }

  // ---------------------------------------------------------------------------
  // Properties of the routes

  /** `Cluster.state` asks for one metric exactly when a whitelisted metric was
      passed; any other value, or none, silently asks for the whole state. */
  lemma ClusterStateWhitelist(es: string, metric: Option<string>)
    ensures var url := Route(es, Cluster(State(metric))).url;
      metric.Some? ==> (metric.value in StateMetrics <==> url == es + "/_cluster/state/" + metric.value)
    ensures var url := Route(es, Cluster(State(metric))).url;
      !(metric.Some? && metric.value in StateMetrics) <==> url == es + "/_cluster/state"
  {
    var url := Route(es, Cluster(State(metric))).url;
    if metric.Some? {
      assert |es + "/_cluster/state/" + metric.value| > |es + "/_cluster/state"|;
    }
  }

  /** `Watcher.stats` asks for one metric exactly for the three it knows; the
      default `_all` is one of them. */
  lemma WatcherStatsWhitelist(es: string, metric: string)
    ensures var url := Route(es, WatcherStats(metric)).url;
      metric in WatcherMetrics <==> url == es + "/_watcher/stats/" + metric
    ensures var url := Route(es, WatcherStats(metric)).url;
      metric !in WatcherMetrics <==> url == es + "/_watcher/stats"
    ensures Route(es, WatcherStats("_all")).url == es + "/_watcher/stats/_all"
  {
    assert |es + "/_watcher/stats/" + metric| > |es + "/_watcher/stats"|;
  }

  /** `Indices.create` puts to the same index URL with or without data; the body
      is the data when there is some and absent otherwise. */
  lemma IndexCreateBody(es: string, index: string, data: Option<string>)
    ensures var r := Route(es, IndexOp(IndexCreate(index, data)));
      && r.verb == PUT && r.url == Route(es, IndexOp(IndexGet(index))).url
      && (r.body == NoBody <==> data.None?)
      && (data.Some? ==> r.body == Data(data.value))
  {
  }

  /** Creating and deleting an alias address the same URL, in which the index
      name follows the instance URL with no '/' in between. */
  lemma AliasPathHasNoSlash(es: string, index: string, alias: string)
    ensures Route(es, Alias(AliasCreate(index, alias))).url == Route(es, Alias(AliasDelete(index, alias))).url
    ensures var url := Route(es, Alias(AliasCreate(index, alias))).url;
      StartsWith(url, es + index) && url[|es| + |index|..] == "/_alias/" + alias
    ensures Route(es, Alias(AliasCreate(index, alias))).verb == PUT
    ensures Route(es, Alias(AliasDelete(index, alias))).verb == DELETE
  {
    var url := es + index + "/_alias/" + alias;
    assert url == (es + index) + ("/_alias/" + alias);
  }

  /** Cloning appends `/_clone` and the target name with no separator, to the
      index URL that `get` uses. */
  lemma CloneAppendsTargetDirectly(es: string, index: string, cloneIndex: string)
    ensures Route(es, IndexOp(IndexClone(index, cloneIndex))).url
         == Route(es, IndexOp(IndexGet(index))).url + "/_clone" + cloneIndex
  {
  }

  /** Deleting a dangling index appends its UUID directly to the dangling
      list's URL, then switches on `accept_data_loss`. */
  lemma DanglingDeleteAppendsUuid(es: string, uuid: string)
    ensures Route(es, Dangling(DanglingDelete(uuid))).url
         == Route(es, Dangling(DanglingList)).url + uuid + "?accept_data_loss=true"
    ensures Route(es, Dangling(DanglingDelete(uuid))).verb == DELETE
  {
  }

  /** The node shutdown calls are all GETs of one URL per node: `cancel` is
      `status` plus the JSON header, and `start` adds the data as body. */
  lemma ShutdownCallsAreGets(es: string, nodeId: string, data: string)
    ensures var start := Route(es, Shutdown(ShutdownStart(nodeId, data)));
      var cancel := Route(es, Shutdown(ShutdownCancel(nodeId)));
      var status := Route(es, Shutdown(ShutdownStatus(nodeId)));
      && start.verb == GET && cancel.verb == GET && status.verb == GET
      && start.url == cancel.url == status.url
      && cancel == status.(jsonContentType := true)
      && start == cancel.(body := Data(data))
  {
  }

  /** Repository cleanup is sent as a DELETE, to the repository's URL plus
      `/_cleanup`. */
  lemma RepositoryCleanupIsDelete(es: string, repository: string)
    ensures Route(es, Repository(RepositoryCleanup(repository))).verb == DELETE
    ensures Route(es, Repository(RepositoryCleanup(repository))).url
         == Route(es, Repository(RepositoryGet(repository))).url + "/_cleanup"
  {
  }

  /** Every non-cat target is the instance URL followed by a path; the path
      starts with '/' except for alias creation and deletion. */
  lemma RouteUnderInstance(es: string, op: EsOp)
    ensures StartsWith(Route(es, op).url, es)
    ensures !(op.Alias? && (op.alias.AliasCreate? || op.alias.AliasDelete?)) ==>
              StartsWith(Route(es, op).url, es + "/")
  {
    var url := Route(es, op).url;
    if op.Alias? && (op.alias.AliasCreate? || op.alias.AliasDelete?) {
      assert url == es + (op.alias.index + "/_alias/" + op.alias.alias);
    } else {
      SlashAfterInstance(es, op);
      assert url[..|es|] == url[..|es| + 1][..|es|];
    }
  }

  /** The tool keeps what `validate_connection` returned as `es`, so once the
      connection is validated every request it sends, cat or not, lies under
      the instance URL it was given. */
  lemma ValidatedToolTargets(esInstance: string, reply: Transport, op: EsOp,
                             e: CatEndpoint, verbose: bool, returnFormat: string)
    requires ValidateConnection(esInstance, reply).Success?
    ensures var es := ValidateConnection(esInstance, reply).value;
      && StartsWith(Route(es, op).url, esInstance)
      && StartsWith(CatRequest(es, e, verbose, returnFormat).url, esInstance)
  {
    RouteUnderInstance(esInstance, op);
    CatRequestUnderInstance(esInstance, e, verbose, returnFormat);
  }

  lemma CatRequestUnderInstance(es: string, e: CatEndpoint, verbose: bool, returnFormat: string)
    ensures StartsWith(CatRequest(es, e, verbose, returnFormat).url, es)
  {
    var path, query := CatPath(e), CatQuery(verbose, returnFormat);
    assert es + path + "?" + query == es + (path + "?" + query);
    ConcatStartsWith(es, path + "?" + query);
  }

  lemma SlashAfterInstance(es: string, op: EsOp)
    requires !(op.Alias? && (op.alias.AliasCreate? || op.alias.AliasDelete?))
    ensures SlashAfter(Route(es, op).url, es)
  {
    match op
    case Cluster(c) => ClusterSlash(es, c);
    case ClusterNodes(n) => NodesSlash(es, n);
    case Shutdown(s) => ShutdownSlash(es, s);
    case Document(d) => DocumentSlash(es, d);
    case IndexOp(i) => IndicesSlash(es, i);
    case Snapshot(s) => SnapshotSlash(es, s);
    case Repository(r) => RepositorySlash(es, r);
    case _ => OtherSlash(es, op);
  }

  lemma OtherSlash(es: string, op: EsOp)
    requires op.TaskList? || op.Alias? || op.CacheClear? || op.Dangling? || op.WatcherStats?
    requires !(op.Alias? && (op.alias.AliasCreate? || op.alias.AliasDelete?))
    ensures SlashAfter(Route(es, op).url, es)
  {
    var url := Route(es, op).url;
    assert url == es + "/" + url[|es| + 1..];
    SlashAfterConcat(es, url[|es| + 1..]);
  }

  /** `url` continues `es` with a '/'. */
  predicate SlashAfter(url: string, es: string) {
    |url| > |es| && url[..|es| + 1] == es + "/"
  }

  lemma SlashAfterConcat(es: string, tail: string)
    ensures SlashAfter(es + "/" + tail, es)
  {
    assert (es + "/" + tail)[..|es| + 1] == es + "/";
  }

  lemma ClusterSlash(es: string, op: ClusterOp)
    ensures SlashAfter(ClusterRoute(es, op).url, es)
  {
    var url := ClusterRoute(es, op).url;
    assert url == es + "/" + url[|es| + 1..];
    SlashAfterConcat(es, url[|es| + 1..]);
  }

  lemma NodesSlash(es: string, op: NodesOp)
    ensures SlashAfter(NodesRoute(es, op).url, es)
  {
    var url := NodesRoute(es, op).url;
    assert url == es + "/" + url[|es| + 1..];
    SlashAfterConcat(es, url[|es| + 1..]);
  }

  lemma ShutdownSlash(es: string, op: ShutdownOp)
    ensures SlashAfter(ShutdownRoute(es, op).url, es)
  {
    var url := ShutdownRoute(es, op).url;
    assert url == es + "/" + url[|es| + 1..];
    SlashAfterConcat(es, url[|es| + 1..]);
  }

  lemma DocumentSlash(es: string, op: DocumentOp)
    ensures SlashAfter(DocumentRoute(es, op).url, es)
  {
    var url := DocumentRoute(es, op).url;
    assert url == es + "/" + url[|es| + 1..];
    SlashAfterConcat(es, url[|es| + 1..]);
  }

  lemma IndicesSlash(es: string, op: IndicesOp)
    ensures SlashAfter(IndicesRoute(es, op).url, es)
  {
    var url := IndicesRoute(es, op).url;
    assert url == es + "/" + url[|es| + 1..];
    SlashAfterConcat(es, url[|es| + 1..]);
  }

  lemma SnapshotSlash(es: string, op: SnapshotOp)
    ensures SlashAfter(SnapshotRoute(es, op).url, es)
  {
    var url := SnapshotRoute(es, op).url;
    assert url == es + "/" + url[|es| + 1..];
    SlashAfterConcat(es, url[|es| + 1..]);
  }

  lemma RepositorySlash(es: string, op: RepositoryOp)
    ensures SlashAfter(RepositoryRoute(es, op).url, es)
  {
    var url := RepositoryRoute(es, op).url;
    assert url == es + "/" + url[|es| + 1..];
    SlashAfterConcat(es, url[|es| + 1..]);
  }
}
