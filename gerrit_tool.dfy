/** The Gerrit REST wrapper. Every operation names an endpoint under `/a/`
    (Gerrit's authenticated prefix) and hands it to one of four helpers of the
    tool: `get_and_clean`, `post`, `put` or `delete`. The helpers send the request
    to the tool's base URL concatenated with the endpoint, and none of them lets
    an exception of the request escape. */
module GerritTool {
  import opened Common
  import opened Text
  import opened Http

  // ---------------------------------------------------------------------------
  // The four helpers

  /** Which helper an operation calls, with its endpoint and, for `post` and
      `put`, the `data` argument (`None` when the caller omits it). */
  datatype Call =
    | Fetch(endpoint: string)
    | Post(endpoint: string, data: Option<Body>)
    | Put(endpoint: string, data: Option<Body>)
    | Delete(endpoint: string)

  /** The form body `post` sends: an empty dict when no data is given. */
  function PostBody(data: Option<Body>): (b: Body)
    ensures data.None? ==> b == Form([])
    ensures data.Some? ==> b == data.value
  {
    if data.None? then Form([]) else data.value
  }

  /** The exception Python raises when `put` is called without `data`. */
  const MissingPutData := TypeError("put() missing 1 required positional argument: 'data'")

  /** The request a helper sends to the tool whose base URL is `url`. `post` and
      `put` pass the JSON content-type header; `put` without data never gets as
      far as a request. */
  function Send(url: string, call: Call): (r: Result<Request>)
    ensures r.Failure? <==> call.Put? && call.data.None?
    ensures r.Failure? ==> r.error == MissingPutData
    ensures r.Success? ==> r.value.url == url + call.endpoint
    ensures r.Success? && call.Post? ==> r.value.body == PostBody(call.data) && r.value.jsonContentType
  {
    match call
    case Fetch(endpoint) => Success(Request(GET, url + endpoint, NoBody, false))
    case Post(endpoint, data) => Success(Request(POST, url + endpoint, PostBody(data), true))
    case Put(endpoint, data) =>
      if data.None? then Failure(MissingPutData)
      else Success(Request(PUT, url + endpoint, data.value, true))
    case Delete(endpoint) => Success(Request(DELETE, url + endpoint, NoBody, false))
  }

  /** The prefix Gerrit puts in front of every JSON reply against script
      inclusion. */
  const MagicPrefix: string := ")]}'\n"

  /** `get_and_clean`: the reply text without its first five characters, parsed
      as JSON; None when the request raised or the text does not parse. */
  function GetAndClean<J>(reply: Transport, parse: string -> Option<J>): (r: Option<J>)
    ensures reply.Raised? ==> r.None?
    ensures reply.Answered? ==> r == parse(Drop(reply.response.text, 5))
  {
    match reply
    case Raised => None
    case Answered(response) => parse(Drop(response.text, 5))
  }

  /** Whatever five characters come first are dropped; for a reply that starts
      with Gerrit's prefix, the JSON after it is what gets parsed. */
  lemma GetAndCleanStripsPrefix<J>(status: int, prefix: string, json: string, parse: string -> Option<J>)
    requires |prefix| == 5
    ensures GetAndClean(Answered(Response(status, prefix + json)), parse) == parse(json)
    ensures GetAndClean(Answered(Response(status, MagicPrefix + json)), parse) == parse(json)
  {
    assert (prefix + json)[5..] == json;
    assert (MagicPrefix + json)[5..] == json;
  }

  /** A reply of at most five characters is parsed as the empty text. */
  lemma GetAndCleanShortReply<J>(status: int, text: string, parse: string -> Option<J>)
    requires |text| <= 5
    ensures GetAndClean(Answered(Response(status, text)), parse) == parse("")
  {
    assert Drop(text, 5) == "";
  }

  /** `post`, `put` and `delete` return the response, or None when the request
      raised (the exception is printed and swallowed). */
  function Settle(reply: Transport): (r: Option<Response>)
    ensures r.Some? <==> reply.Answered?
    ensures r.Some? ==> r.value == reply.response
  {
    match reply
    case Raised => None
    case Answered(response) => Some(response)
  }

  /** What an operation returns: the parsed JSON of `get_and_clean`, or the raw
      response of the other helpers. */
  datatype Reply<J> = Parsed(json: Option<J>) | Raw(response: Option<Response>)

  /** The value an operation returns, given what happened to its request. */
  function Outcome<J>(call: Call, reply: Transport, parse: string -> Option<J>): (r: Result<Reply<J>>)
    ensures r.Failure? <==> call.Put? && call.data.None?
    ensures r.Failure? ==> r.error == MissingPutData
    ensures call.Fetch? ==> r == Success(Parsed(GetAndClean(reply, parse)))
    ensures !call.Fetch? && r.Success? ==> r == Success(Raw(Settle(reply)))
  {
    match call
    case Fetch(_) => Success(Parsed(GetAndClean(reply, parse)))
    case Put(_, data) => if data.None? then Failure(MissingPutData) else Success(Raw(Settle(reply)))
    case _ => Success(Raw(Settle(reply)))
  }

  /** A failed request never escapes a helper: with a raised request every
      operation that gets to send one returns None. */
  lemma RaisedRequestsYieldNone<J>(call: Call, parse: string -> Option<J>)
    requires !(call.Put? && call.data.None?)
    ensures Outcome(call, Raised, parse) == Success(if call.Fetch? then Parsed(None) else Raw(None))
  {
  }

  // ---------------------------------------------------------------------------
  // The `detailed` flag

  /** A Python value passed as `detailed`: a real bool, or any other value with
      its truthiness (None, 0 and "" are falsy). */
  datatype Flag = Bool(b: bool) | OtherValue(truthy: bool)

  predicate FlagTruthy(d: Flag) {
    if d.Bool? then d.b else d.truthy
  }

  /** `Group.get`: `"/" if detailed is False else "/detail"` — only the bool False
      itself selects "/". */
  function GroupDetails(d: Flag): string {
    if d == Bool(false) then "/" else "/detail"
  }

  /** `Account.get` and both `Change.get_by_*`: `"/" if not detailed else "/detail"`. */
  function Details(d: Flag): string {
    if !FlagTruthy(d) then "/" else "/detail"
  }

  /** For true bools both rules pick "/detail", for False both pick "/"; they part
      only on a falsy value that is not False (None, 0, ""), which `Group.get`
      treats as detailed. */
  lemma DetailSuffixes(d: Flag)
    ensures d.Bool? ==> GroupDetails(d) == Details(d) == (if d.b then "/detail" else "/")
    ensures GroupDetails(d) != Details(d) <==> d == OtherValue(false)
    ensures d == OtherValue(false) ==> GroupDetails(d) == "/detail" && Details(d) == "/"
  {
  }

  // ---------------------------------------------------------------------------
  // The operations, grouped as the wrapper's nested classes are

  datatype ServerOp =
    | Version | Info | StateSummary | Capabilities | TopMenus | DefaultUserPreferences
    | CacheList | CacheGet(cacheName: string) | CacheFlushAll | CacheFlush(cacheName: string)
    | TaskList | TaskGet(taskName: string) | TaskDelete(taskName: string)
    | PluginList | PluginStatus(pluginName: string)

  datatype GroupOp =
    | GroupList
    | GroupGet(groupName: string, detailed: Flag)
    | GroupDescription(groupName: string)
    | GroupOptions(groupName: string)
    | GroupOwner(groupName: string)
    | GroupAuditLog(groupName: string)
    | GroupMembers(groupName: string)

  datatype AccountOp =
    | AccountGet(user: string, detailed: Flag)
    | AccountGroups(user: string)
    | AccountProjects(user: string)
    | SelfSshKeys
    | AccountCapabilities(user: string)
    | SelfCapabilities

  datatype ProjectOp =
    | ProjectList
    | ProjectGet(projectName: string)
    | ProjectDescription(projectName: string)
    | ProjectParent(projectName: string)
    | ProjectHead(projectName: string)
    | ProjectStatistics(projectName: string)
    | ProjectConfig(projectName: string)
    | ProjectAccessRights(projectName: string)
    | BranchList(projectName: string)
    | BranchGet(projectName: string, branchName: string)
    | BranchCreate(projectName: string, branchName: string)
    | BranchDelete(projectName: string, branchName: string)
    | BranchMergeable(projectName: string, branchName: string)
    | BranchReflog(projectName: string, branchName: string)
    | TagList(projectName: string)
    | TagGet(projectName: string, tagName: string)
    | TagDelete(projectName: string, tagName: string)
    | DashboardList(projectName: string)
    | DashboardGet(projectName: string, dashboardName: string)
    | DashboardCreate(projectName: string, dashboardName: string)
    | DashboardDelete(projectName: string, dashboardName: string)

  /** `Change` and its nested classes. A change number is given as the text the
      f-string renders. `assignee`, `topic` and `reviewer` stand for the objects
      that are `json.dumps`-ed. */
  datatype ChangeOp =
    | GetByQuery(query: string)
    | GetById(changeId: string, detailed: Flag)
    | GetByChangeNum(changeNum: string, detailed: Flag)
    | GetEditDetails(changeId: string)
    | AssigneeGet(changeId: string)
    | AssigneeSet(changeId: string, assignee: string)
    | TopicGet(changeId: string)
    | TopicSet(changeId: string, topic: string)
    | TopicDelete(changeId: string)
    | CommentGet(changeId: string)
    | CommentGetById(changeId: string, commentId: string)
    | ReviewerGet(changeId: string)
    | ReviewerSuggest(changeId: string)
    | ReviewerAdd(changeId: string, reviewer: string)
    | ReviewerDelete(changeId: string, reviewer: string)
    | FileGet(changeId: string, revisionId: string)

  datatype GerritOp =
    | Server(server: ServerOp)
    | Group(group: GroupOp)
    | Account(account: AccountOp)
    | Project(project: ProjectOp)
    | Change(change: ChangeOp)
    | DocumentationQuery(keyword: string)

  function ServerCall(op: ServerOp): Call {
    match op
    case Version => Fetch("/a/config/server/version")
    case Info => Fetch("/a/config/server/info")
    case StateSummary => Fetch("/a/config/server/summary")
    case Capabilities => Fetch("/a/config/server/capabilities")
    case TopMenus => Fetch("/a/config/server/top-menus")
    case DefaultUserPreferences => Fetch("/a/config/server/preferences")
    case CacheList => Fetch("/a/config/server/caches")
    case CacheGet(name) => Fetch("/a/config/server/caches/" + name)
    case CacheFlushAll => Post("/a/config/server/caches/", Some(Form([("operation", "FLUSH_ALL")])))
    case CacheFlush(name) => Post("/a/config/server/caches/" + name + "/flush", None)
    case TaskList => Fetch("/a/config/server/tasks")
    case TaskGet(name) => Fetch("/a/config/server/tasks/" + name)
    case TaskDelete(name) => Delete("/a/config/server/tasks/" + name)
    case PluginList => Fetch("/a/plugins")
    case PluginStatus(name) => Fetch("/a/plugins/" + name + "/gerrit~status")
  }

  function GroupCall(op: GroupOp): Call {
    match op
    case GroupList => Fetch("/a/groups")
    case GroupGet(name, detailed) => Fetch("/a/groups/" + name + GroupDetails(detailed))
    case GroupDescription(name) => Fetch("/a/groups/" + name + "/description")
    case GroupOptions(name) => Fetch("/a/groups/" + name + "/options")
    case GroupOwner(name) => Fetch("/a/groups/" + name + "/owner")
    case GroupAuditLog(name) => Fetch("/a/groups/" + name + "/log.audit")
    case GroupMembers(name) => Fetch("/a/groups/" + name + "/members")
  }

  function AccountCall(op: AccountOp): Call {
    match op
    case AccountGet(user, detailed) => Fetch("/a/accounts/" + user + Details(detailed))
    case AccountGroups(user) => Fetch("/a/accounts/" + user + "/groups")
    case AccountProjects(user) => Fetch("/a/accounts/" + user + "/projects")
    case SelfSshKeys => Fetch("/a/accounts/self/sshkeys")
    case AccountCapabilities(user) => Fetch("/a/accounts/" + user + "/capabilities")
    case SelfCapabilities => Fetch("/a/accounts/self/capabilities")
  }

  function ProjectCall(op: ProjectOp): Call {
    match op
    case ProjectList => Fetch("/a/projects")
    case ProjectGet(p) => Fetch("/a/projects/" + p)
    case ProjectDescription(p) => Fetch("/a/projects/" + p + "/description")
    case ProjectParent(p) => Fetch("/a/projects/" + p + "/parent")
    case ProjectHead(p) => Fetch("/a/projects/" + p + "/HEAD")
    case ProjectStatistics(p) => Fetch("/a/projects/" + p + "/statistics.git")
    case ProjectConfig(p) => Fetch("/a/projects/" + p + "/config")
    case ProjectAccessRights(p) => Fetch("/a/projects/" + p + "/access")
    case BranchList(p) => Fetch("/a/projects/" + p + "/branches")
    case BranchGet(p, b) => Fetch("/a/projects/" + p + "/branches/" + b)
    case BranchCreate(p, b) => Put("/a/projects/" + p + "/branches/" + b, None)
    case BranchDelete(p, b) => Delete("/a/projects/" + p + "/branches/" + b)
    case BranchMergeable(p, b) => Fetch("/a/projects/" + p + "/branches/" + b + "/mergeable")
    case BranchReflog(p, b) => Fetch("/a/projects/" + p + "/branches/" + b + "/reflog")
    case TagList(p) => Fetch("/a/projects/" + p + "/tags")
    case TagGet(p, t) => Fetch("/a/projects/" + p + "/tags/" + t)
    case TagDelete(p, t) => Delete("/a/projects/" + p + "/tags/" + t)
    case DashboardList(p) => Fetch("/a/projects/" + p + "/dashboards")
    case DashboardGet(p, d) => Fetch("/a/projects/" + p + "/dashboards/" + d)
    case DashboardCreate(p, d) => Put("/a/projects/" + p + "/dashboards/" + d, None)
    case DashboardDelete(p, d) => Delete("/a/projects/" + p + "/dashboards/" + d)
  }

  function ChangeCall(op: ChangeOp): Call {
    match op
    case GetByQuery(query) => Fetch("/a/changes/?q=" + query)
    case GetById(id, detailed) => Fetch("/a/changes/" + id + Details(detailed))
    case GetByChangeNum(num, detailed) => Fetch("/a/changes/" + num + Details(detailed))
    case GetEditDetails(id) => Fetch("/a/changes/" + id + "/edit")
    case AssigneeGet(id) => Fetch("/a/changes/" + id + "/assignee")
    case AssigneeSet(id, assignee) => Put("/a/changes/" + id + "/assignee", Some(Dumped(assignee)))
    case TopicGet(id) => Fetch("/a/changes/" + id + "/topic")
    case TopicSet(id, topic) => Put("/a/changes/" + id + "/topic", Some(Dumped(topic)))
    case TopicDelete(id) => Delete("/a/changes/" + id + "/topic")
    case CommentGet(id) => Fetch("/a/changes/" + id + "/comments")
    case CommentGetById(id, cid) => Fetch("/a/changes/" + id + "/comments/" + cid)
    case ReviewerGet(id) => Fetch("/a/changes/" + id + "/reviewers")
    case ReviewerSuggest(id) => Fetch("/a/changes/" + id + "/suggest_reviewers?")
    case ReviewerAdd(id, reviewer) => Post("/a/changes/" + id + "/reviewers", Some(Dumped(reviewer)))
    case ReviewerDelete(id, reviewer) => Post("/a/changes/" + id + "/reviewers/" + reviewer + "/delete", None)
    case FileGet(id, revision) => Fetch("/a/changes/" + id + "/revisions/" + revision + "/files")
  }

  /** The helper call each operation makes. */
  function CallOf(op: GerritOp): Call {
    match op
    case Server(s) => ServerCall(s)
    case Group(g) => GroupCall(g)
    case Account(a) => AccountCall(a)
    case Project(p) => ProjectCall(p)
    case Change(c) => ChangeCall(c)
    case DocumentationQuery(keyword) => Fetch("/a/Documentation/?q=" + keyword)
  }

  // ---------------------------------------------------------------------------
  // Properties of the operations

  /** Every endpoint lies under Gerrit's authenticated prefix `/a/`, and every
      request that is sent goes to the base URL followed by that endpoint. */
  lemma EndpointsUnderAuthPrefix(url: string, op: GerritOp)
    ensures StartsWith(CallOf(op).endpoint, "/a/")
    ensures Send(url, CallOf(op)).Success? ==> Send(url, CallOf(op)).value.url == url + CallOf(op).endpoint
  {
    var e := CallOf(op).endpoint;
    assert e == "/a/" + e[3..] by {
      match op
      case Server(s) => ServerUnderPrefix(s);
      case Group(g) => GroupUnderPrefix(g);
      case Account(a) => AccountUnderPrefix(a);
      case Project(p) => ProjectUnderPrefix(p);
      case Change(c) => ChangeUnderPrefix(c);
      case DocumentationQuery(_) =>
    }
  }

  lemma ServerUnderPrefix(op: ServerOp)
    ensures var e := ServerCall(op).endpoint; |e| >= 3 && e == "/a/" + e[3..]
  {
  }

  lemma GroupUnderPrefix(op: GroupOp)
    ensures var e := GroupCall(op).endpoint; |e| >= 3 && e == "/a/" + e[3..]
  {
  }

  lemma AccountUnderPrefix(op: AccountOp)
    ensures var e := AccountCall(op).endpoint; |e| >= 3 && e == "/a/" + e[3..]
  {
  }

  lemma ProjectUnderPrefix(op: ProjectOp)
    ensures var e := ProjectCall(op).endpoint; |e| >= 3 && e == "/a/" + e[3..]
  {
  }

  lemma ChangeUnderPrefix(op: ChangeOp)
    ensures var e := ChangeCall(op).endpoint; |e| >= 3 && e == "/a/" + e[3..]
  {
  }

  /** The detailed variants of the getters differ from the plain ones only in
      the suffix chosen by the flag. */
  lemma DetailedGetters(name: string, d: Flag)
    ensures CallOf(Group(GroupGet(name, d))) == Fetch("/a/groups/" + name + GroupDetails(d))
    ensures CallOf(Account(AccountGet(name, d))) == Fetch("/a/accounts/" + name + Details(d))
    ensures CallOf(Change(GetById(name, d))) == CallOf(Change(GetByChangeNum(name, d)))
    ensures CallOf(Change(GetById(name, Bool(true)))).endpoint == "/a/changes/" + name + "/detail"
    ensures CallOf(Change(GetById(name, Bool(false)))).endpoint == "/a/changes/" + name + "/"
  {
  }

  /** `flush_all` posts the FLUSH_ALL operation to the caches collection, with
      the JSON header; `flush` of one cache posts an empty form. */
  lemma FlushRequests(url: string, name: string)
    ensures Send(url, CallOf(Server(CacheFlushAll)))
         == Success(Request(POST, url + "/a/config/server/caches/", Form([("operation", "FLUSH_ALL")]), true))
    ensures Send(url, CallOf(Server(CacheFlush(name))))
         == Success(Request(POST, url + "/a/config/server/caches/" + name + "/flush", Form([]), true))
  {
    assert url + ("/a/config/server/caches/" + name + "/flush") == url + "/a/config/server/caches/" + name + "/flush";
  }

  /** `Branch.create` and `DashBoard.create` omit `put`'s required `data`, so
      they raise TypeError before any request, whatever the reply would be. */
  lemma CreatesWithoutDataFail<J>(url: string, p: string, name: string, reply: Transport, parse: string -> Option<J>)
    ensures Send(url, CallOf(Project(BranchCreate(p, name)))) == Failure(MissingPutData)
    ensures Send(url, CallOf(Project(DashboardCreate(p, name)))) == Failure(MissingPutData)
    ensures Outcome(CallOf(Project(BranchCreate(p, name))), reply, parse) == Failure(MissingPutData)
    ensures Outcome(CallOf(Project(DashboardCreate(p, name))), reply, parse) == Failure(MissingPutData)
  {
  }

  /** Those two are the only operations that fail: every other one returns a
      value, whatever happens to its request. */
  lemma OnlyDatalessPutsFail<J>(op: GerritOp, reply: Transport, parse: string -> Option<J>)
    ensures Outcome(CallOf(op), reply, parse).Failure? <==>
      op.Project? && (op.project.BranchCreate? || op.project.DashboardCreate?)
  {
    match op
    case Server(s) => assert !ServerCall(s).Put?;
    case Group(g) => assert !GroupCall(g).Put?;
    case Account(a) => assert !AccountCall(a).Put?;
    case Change(c) => assert ChangeCall(c).Put? ==> ChangeCall(c).data.Some?;
    case Project(_) =>
    case DocumentationQuery(_) =>
  }

  /** Adding a reviewer posts the JSON-encoded reviewer; setting a topic or an
      assignee puts the JSON-encoded value. */
  lemma ChangeUpdatesCarryJson(url: string, id: string, value: string)
    ensures Send(url, CallOf(Change(ReviewerAdd(id, value))))
         == Success(Request(POST, url + "/a/changes/" + id + "/reviewers", Dumped(value), true))
    ensures Send(url, CallOf(Change(TopicSet(id, value))))
         == Success(Request(PUT, url + "/a/changes/" + id + "/topic", Dumped(value), true))
    ensures Send(url, CallOf(Change(AssigneeSet(id, value))))
         == Success(Request(PUT, url + "/a/changes/" + id + "/assignee", Dumped(value), true))
  {
    assert url + ("/a/changes/" + id + "/reviewers") == url + "/a/changes/" + id + "/reviewers";
    assert url + ("/a/changes/" + id + "/topic") == url + "/a/changes/" + id + "/topic";
    assert url + ("/a/changes/" + id + "/assignee") == url + "/a/changes/" + id + "/assignee";
  }
}
