/** The Jira REST wrapper. Every call goes through one `requests.Session` whose
    headers carry the JSON content type; the model returns the request each
    call makes, shapes the `Issue.create` result, and filters the issue types
    listed by `createmeta`. `url` below is the tool's configured Jira address. */
module JiraTool {
  import opened Common
  import opened Text
  import opened Http

  // ---------------------------------------------------------------------------
  // URL bases

  /** `Session.api_url`. */
  function ApiUrl(url: string): string {
    url + "/rest/api/2"
  }

  /** `Project.url`. */
  function ProjectBase(url: string): string {
    ApiUrl(url) + "/project"
  }

  /** `Issue.url` and `Comment.url`: ends with a slash. */
  function IssueBase(url: string): string {
    ApiUrl(url) + "/issue/"
  }

  /** `Attachment.url` and `Worklog.url`: glued to the Jira address without a
      separating slash. */
  function LegacyIssueBase(url: string): string {
    url + "rest/api/2/issue/"
  }

  /** The two issue bases never agree. They would agree if the configured address
      carried a trailing slash, but then the REST calls would start with `//rest`. */
  lemma IssueBasesDisagree(url: string)
    ensures LegacyIssueBase(url) != IssueBase(url)
    ensures LegacyIssueBase(url + "/") == IssueBase(url)
  {
    assert |LegacyIssueBase(url)| + 1 == |IssueBase(url)|;
    assert (url + "/") + "rest/api/2/issue/" == url + "/rest/api/2" + "/issue/";
  }

  // ---------------------------------------------------------------------------
  // Comment URLs

  /** A `comment_id` argument: omitted (None), an int, or a str. */
  datatype CommentId = NoCommentId | IntId(n: int) | TextId(s: string)

  /** Python truthiness of the comment id: None, 0 and "" are falsy. */
  predicate CommentIdTruthy(cid: CommentId) {
    match cid
    case NoCommentId => false
    case IntId(n) => n != 0
    case TextId(s) => s != ""
  }

  /** How the f-string renders the comment id. */
  function CommentIdText(cid: CommentId): string {
    match cid
    case NoCommentId => "None"
    case IntId(n) => IntToString(n)
    case TextId(s) => s
  }

  /** The comment collection of an issue, `<Comment.url>/<issue>/comment`. */
  function CommentCollection(url: string, issueId: string): string {
    IssueBase(url) + "/" + issueId + "/comment"
  }

  /** The base already ends in a slash, so the collection URL holds `issue//`. */
  lemma CollectionHasDoubleSlash(url: string, issueId: string)
    ensures CommentCollection(url, issueId) == ApiUrl(url) + "/issue//" + issueId + "/comment"
  {
  }

  /** `comment_url_factory`: asserts a truthy issue id, then the comment
      collection of the issue, or one comment of it for a truthy comment id. */
  function CommentUrl(url: string, issueId: string, cid: CommentId): (r: Result<string>)
    ensures r.Failure? <==> !Truthy(issueId)
    ensures r.Failure? ==> r.error == AssertionError
    ensures r.Success? ==> StartsWith(r.value, CommentCollection(url, issueId))
    ensures r.Success? ==> |r.value| == |CommentCollection(url, issueId)|
                                       + (if CommentIdTruthy(cid) then 1 + |CommentIdText(cid)| else 0)
  {
    if !Truthy(issueId) then Failure(AssertionError)
    else
      var collection := CommentCollection(url, issueId);
      if CommentIdTruthy(cid) then
        ConcatStartsWith(collection, "/" + CommentIdText(cid));
        Success(collection + ("/" + CommentIdText(cid)))
      else
        ConcatStartsWith(collection, "");
        assert collection + "" == collection;
        Success(collection)
  }

  /** A falsy comment id of any type addresses the whole comment collection. */
  lemma FalsyCommentIdIsCollection(url: string, issueId: string, cid: CommentId)
    requires !CommentIdTruthy(cid)
    ensures CommentUrl(url, issueId, cid) == CommentUrl(url, issueId, NoCommentId)
    ensures CommentUrl(url, issueId, IntId(0)) == CommentUrl(url, issueId, TextId(""))
  {
  }

  /** Read back by segments, a comment URL names the issue and the comment: after
      the segments of `<api>/issue` come an empty segment (the doubled slash), the
      issue id, `comment`, and the comment id when one was given. */
  lemma CommentUrlSegments(url: string, issueId: string, cid: CommentId)
    requires issueId != "" && '/' !in issueId
    requires CommentIdTruthy(cid) ==> '/' !in CommentIdText(cid)
    ensures var segments := SplitOn(CommentUrl(url, issueId, cid).value, '/');
      segments == SplitOn(ApiUrl(url) + "/issue", '/') + ["", issueId, "comment"]
                  + (if CommentIdTruthy(cid) then [CommentIdText(cid)] else [])
    ensures CommentIdTruthy(cid) ==> Last(SplitOn(CommentUrl(url, issueId, cid).value, '/')) == CommentIdText(cid)
  {
    var a := ApiUrl(url) + "/issue";
    var c := CommentTail(issueId);
    CommentTailSegments(issueId);
    CommentUrlParts(url, issueId, cid);
    if CommentIdTruthy(cid) {
      var t := CommentIdText(cid);
      SplitOnAtSep(c, '/', t);
      SplitOnWithoutSep(t, '/');
      SplitOnAtSep(a, '/', c + ['/'] + t);
    } else {
      SplitOnAtSep(a, '/', c);
    }
  }

  /** The part of a comment URL after `<api>/issue/`. */
  function CommentTail(issueId: string): string {
    "/" + issueId + "/comment"
  }

  lemma CommentTailSegments(issueId: string)
    requires '/' !in issueId
    ensures SplitOn(CommentTail(issueId), '/') == ["", issueId, "comment"]
  {
    assert '/' !in "comment";
    assert CommentTail(issueId) == [] + ['/'] + issueId + ['/'] + "comment";
    ThreeSegments([], issueId, "comment");
  }

  lemma ThreeSegments(x: string, y: string, z: string)
    requires '/' !in x && '/' !in y && '/' !in z
    ensures SplitOn(x + ['/'] + y + ['/'] + z, '/') == [x, y, z]
  {
    SplitOnAtSep(x + ['/'] + y, '/', z);
    SplitOnAtSep(x, '/', y);
    SplitOnWithoutSep(x, '/');
    SplitOnWithoutSep(y, '/');
    SplitOnWithoutSep(z, '/');
  }

  lemma CommentUrlParts(url: string, issueId: string, cid: CommentId)
    requires issueId != ""
    ensures var a := ApiUrl(url) + "/issue";
      CommentUrl(url, issueId, cid).value
        == if CommentIdTruthy(cid) then a + ['/'] + (CommentTail(issueId) + ['/'] + CommentIdText(cid))
           else a + ['/'] + CommentTail(issueId)
  {
    var a := ApiUrl(url) + "/issue";
    var tail := CommentTail(issueId);
    assert IssueBase(url) == a + ['/'];
    assert CommentCollection(url, issueId) == a + ['/'] + tail;
    var t := CommentIdText(cid);
    assert CommentCollection(url, issueId) + ("/" + t) == a + ['/'] + (tail + ['/'] + t);
  }

  // ---------------------------------------------------------------------------
  // Requests

  /** A call through the shared session, which sends the JSON content type. */
  function SessionRequest(verb: Method, url: string, body: Body): Request {
    Request(verb, url, body, true)
  }

  datatype ProjectOp = ProjectGet(projectKey: string) | ProjectGetAll | ProjectCreateMeta

  datatype IssueOp =
    | IssueGet(issueId: string)
    | IssueGetType(issueId: string)
    | IssueCreateMeta
    | IssueCreate(data: string)
    | IssueUpdate(issueId: string, data: string)

  /** The comment calls; `delete`, `edit` and `get_by_id` pass their comment id
      to the URL factory, `get_all` and `post` pass none. */
  datatype CommentOp =
    | CommentGetAll(issueId: string)
    | CommentPost(issueId: string, comment: string)
    | CommentDelete(issueId: string, commentId: CommentId)
    | CommentEdit(issueId: string, commentId: CommentId, comment: string)
    | CommentGetById(issueId: string, commentId: CommentId)

  /** The attachment and worklog calls, on the glued base. */
  datatype IssueFileOp =
    | AttachmentGetAll(issueId: string)
    | AttachmentPost(issueId: string, filePath: string)
    | AddWorklog(issueId: string, worklog: string)

  function ProjectRequest(url: string, op: ProjectOp): Request {
    match op
    case ProjectGet(key) => SessionRequest(GET, ProjectBase(url) + "/" + key, NoBody)
    case ProjectGetAll => SessionRequest(GET, ProjectBase(url), NoBody)
    case ProjectCreateMeta => SessionRequest(GET, ProjectBase(url) + "createmeta", NoBody)
  }

  function IssueRequest(url: string, op: IssueOp): Request {
    match op
    case IssueGet(id) => SessionRequest(GET, IssueBase(url) + id, NoBody)
    case IssueGetType(id) => SessionRequest(GET, IssueBase(url) + id, NoBody)
    case IssueCreateMeta => SessionRequest(GET, IssueBase(url) + "createmeta", NoBody)
    case IssueCreate(data) => SessionRequest(POST, IssueBase(url), JsonArg(data))
    case IssueUpdate(id, data) => SessionRequest(PUT, IssueBase(url) + id, JsonArg(data))
  }

  function CommentIssue(op: CommentOp): string {
    match op
    case CommentGetAll(id) => id
    case CommentPost(id, _) => id
    case CommentDelete(id, _) => id
    case CommentEdit(id, _, _) => id
    case CommentGetById(id, _) => id
  }

  /** The comment id a call hands to the URL factory. */
  function CommentTarget(op: CommentOp): CommentId {
    match op
    case CommentGetAll(_) => NoCommentId
    case CommentPost(_, _) => NoCommentId
    case CommentDelete(_, cid) => cid
    case CommentEdit(_, cid, _) => cid
    case CommentGetById(_, cid) => cid
  }

  /** A comment call: the URL factory's assertion fails before any request. */
  function CommentRequest(url: string, op: CommentOp): (r: Result<Request>)
    ensures r.Failure? <==> CommentIssue(op) == ""
    ensures r.Failure? ==> r.error == AssertionError
    ensures r.Success? ==> Success(r.value.url) == CommentUrl(url, CommentIssue(op), CommentTarget(op))
    ensures r.Success? ==> r.value.jsonContentType
    ensures r.Success? ==> (r.value.body != NoBody <==> op.CommentPost? || op.CommentEdit?)
  {
    match CommentUrl(url, CommentIssue(op), CommentTarget(op))
    case Failure(e) => Failure(e)
    case Success(target) =>
      match op
      case CommentGetAll(_) => Success(SessionRequest(GET, target, NoBody))
      case CommentPost(_, comment) => Success(SessionRequest(POST, target, JsonArg(comment)))
      case CommentDelete(_, _) => Success(SessionRequest(DELETE, target, NoBody))
      case CommentEdit(_, _, comment) => Success(SessionRequest(PUT, target, JsonArg(comment)))
      case CommentGetById(_, _) => Success(SessionRequest(GET, target, NoBody))
  }

  /** `Attachment.post` passes its own multipart header, which replaces the
      session's JSON content type. */
  function IssueFileRequest(url: string, op: IssueFileOp): Request {
    match op
    case AttachmentGetAll(id) => SessionRequest(GET, LegacyIssueBase(url) + id + "/attachment", NoBody)
    case AttachmentPost(id, path) => Request(POST, LegacyIssueBase(url) + id + "/attachments", FileUpload(path), false)
    case AddWorklog(id, worklog) => SessionRequest(POST, LegacyIssueBase(url) + id + "/worklog", Data(worklog))
  }

  /** Project and issue calls live under the REST API; the two `createmeta`
      calls differ: the project one glues `createmeta` to `/project`. */
  lemma RequestsUnderApi(url: string, pop: ProjectOp, iop: IssueOp)
    ensures StartsWith(ProjectRequest(url, pop).url, ProjectBase(url))
    ensures StartsWith(IssueRequest(url, iop).url, IssueBase(url))
    ensures ProjectRequest(url, ProjectCreateMeta).url == ApiUrl(url) + "/projectcreatemeta"
    ensures IssueRequest(url, IssueCreateMeta).url == ApiUrl(url) + "/issue/createmeta"
  {
    var pbase := ProjectBase(url);
    var ibase := IssueBase(url);
    match pop
    case ProjectGet(key) => ConcatStartsWith(pbase, "/" + key); assert pbase + "/" + key == pbase + ("/" + key);
    case ProjectGetAll => ConcatStartsWith(pbase, ""); assert pbase + "" == pbase;
    case ProjectCreateMeta => ConcatStartsWith(pbase, "createmeta");
    match iop
    case IssueGet(id) => ConcatStartsWith(ibase, id);
    case IssueGetType(id) => ConcatStartsWith(ibase, id);
    case IssueCreateMeta => ConcatStartsWith(ibase, "createmeta");
    case IssueCreate(_) => ConcatStartsWith(ibase, ""); assert ibase + "" == ibase;
    case IssueUpdate(id, _) => ConcatStartsWith(ibase, id);
    assert ApiUrl(url) + "/project" + "createmeta" == ApiUrl(url) + "/projectcreatemeta";
    assert ApiUrl(url) + "/issue/" + "createmeta" == ApiUrl(url) + "/issue/createmeta";
  }

  /** Attachment and worklog calls name the issue right after the glued base,
      and only the upload goes out without the JSON content type. */
  lemma IssueFileRequests(url: string, op: IssueFileOp)
    ensures StartsWith(IssueFileRequest(url, op).url, LegacyIssueBase(url) + op.issueId + "/")
    ensures IssueFileRequest(url, op).jsonContentType <==> !op.AttachmentPost?
    ensures op.AddWorklog? ==> IssueFileRequest(url, op).url == LegacyIssueBase(url) + op.issueId + "/worklog"
  {
    var base := LegacyIssueBase(url) + op.issueId + "/";
    match op
    case AttachmentGetAll(id) =>
      assert LegacyIssueBase(url) + id + "/attachment" == base + "attachment";
      ConcatStartsWith(base, "attachment");
    case AttachmentPost(id, _) =>
      assert LegacyIssueBase(url) + id + "/attachments" == base + "attachments";
      ConcatStartsWith(base, "attachments");
    case AddWorklog(id, _) =>
      assert LegacyIssueBase(url) + id + "/worklog" == base + "worklog";
      ConcatStartsWith(base, "worklog");
  }

  // ---------------------------------------------------------------------------
  // Issue.create

  /** What `create` returns: the created issue's JSON, or an Exception object
      holding the response text, which is returned and not raised. */
  datatype Created<J> = CreatedIssue(json: J) | ReturnedException(error: PyError)

  function CreateIssue<J>(reply: Transport, parse: string -> Option<J>): (r: Result<Created<J>>)
    ensures reply.Raised? ==> r == Failure(RequestException)
    ensures reply.Answered? && !IsOk(reply.response) ==>
      r == Success(ReturnedException(Exception(reply.response.text)))
    ensures reply.Answered? && IsOk(reply.response) ==>
      (r.Success? <==> parse(reply.response.text).Some?)
    ensures r.Success? && r.value.CreatedIssue? ==>
      IsOk(reply.response) && Some(r.value.json) == parse(reply.response.text)
  {
    match reply
    case Raised => Failure(RequestException)
    case Answered(response) =>
      if IsOk(response) then
        match JsonReply(reply, parse)
        case Success(j) => Success(CreatedIssue(j))
        case Failure(e) => Failure(e)
      else Success(ReturnedException(Exception(response.text)))
  }

  /** A rejected creation never raises, whatever its body holds. */
  lemma RejectedCreateReturns<J>(status: int, text: string, parse: string -> Option<J>)
    requires 400 <= status < 600
    ensures CreateIssue(Answered(Response(status, text)), parse).Success?
    ensures CreateIssue(Answered(Response(status, text)), parse).value.ReturnedException?
  {
  }

  // ---------------------------------------------------------------------------
  // get_all_issue_types

  datatype IssueType = IssueType(name: string, id: string, description: string)

  /** One project of the `createmeta` answer. */
  datatype MetaProject = MetaProject(key: string, issueTypes: seq<IssueType>)

  /** The line printed for an issue type. */
  function TypeLine(t: IssueType): string {
    t.name + " - " + t.id + " - " + t.description
  }

  function TypeLines(ts: seq<IssueType>): (lines: seq<string>)
    ensures |lines| == |ts|
    ensures forall j :: 0 <= j < |ts| ==> lines[j] == TypeLine(ts[j])
  {
    seq(|ts|, j requires 0 <= j < |ts| => TypeLine(ts[j]))
  }

  /** The lines `get_all_issue_types` prints, in order: the issue types of every
      project whose key is the configured project. */
  function IssueTypeLines(projects: seq<MetaProject>, project: string): seq<string> {
    if projects == [] then []
    else
      (if projects[0].key == project then TypeLines(projects[0].issueTypes) else [])
      + IssueTypeLines(projects[1..], project)
  }

  /** The listing of a concatenation is the concatenation of the listings. */
  lemma {:induction false} IssueTypeLinesAppend(p1: seq<MetaProject>, p2: seq<MetaProject>, project: string)
    ensures IssueTypeLines(p1 + p2, project) == IssueTypeLines(p1, project) + IssueTypeLines(p2, project)
  {
    if p1 == [] {
      assert p1 + p2 == p2;
    } else {
      assert (p1 + p2)[0] == p1[0];
      assert (p1 + p2)[1..] == p1[1..] + p2;
      IssueTypeLinesAppend(p1[1..], p2, project);
    }
  }

  /** Projects with another key contribute nothing. */
  lemma {:induction false} OtherProjectsSilent(projects: seq<MetaProject>, project: string)
    requires forall i :: 0 <= i < |projects| ==> projects[i].key != project
    ensures IssueTypeLines(projects, project) == []
  {
    if projects != [] {
      assert forall i :: 0 <= i < |projects| - 1 ==> projects[1..][i] == projects[i + 1];
      OtherProjectsSilent(projects[1..], project);
    }
  }

  /** With exactly one project of the configured key, the listing is that
      project's issue types, in their order. */
  lemma OnlyMatchingProjectListed(projects: seq<MetaProject>, project: string, k: nat)
    requires k < |projects| && projects[k].key == project
    requires forall i :: 0 <= i < |projects| && i != k ==> projects[i].key != project
    ensures IssueTypeLines(projects, project) == TypeLines(projects[k].issueTypes)
  {
    var before := projects[..k];
    var after := projects[k + 1..];
    assert projects == before + [projects[k]] + after;
    IssueTypeLinesAppend(before + [projects[k]], after, project);
    IssueTypeLinesAppend(before, [projects[k]], project);
    assert forall i :: 0 <= i < |before| ==> before[i] == projects[i];
    OtherProjectsSilent(before, project);
    assert forall i :: 0 <= i < |after| ==> after[i] == projects[k + 1 + i];
    OtherProjectsSilent(after, project);
    assert [projects[k]][1..] == [];
    assert IssueTypeLines([projects[k]], project) == TypeLines(projects[k].issueTypes) + [];
  }

  /** A printed line always comes from an issue type of a matching project. */
  lemma {:induction false} ListedLinesMatch(projects: seq<MetaProject>, project: string, line: string)
    requires line in IssueTypeLines(projects, project)
    ensures exists i, j :: 0 <= i < |projects| && projects[i].key == project
                        && 0 <= j < |projects[i].issueTypes| && line == TypeLine(projects[i].issueTypes[j])
  {
    var head := if projects[0].key == project then TypeLines(projects[0].issueTypes) else [];
    if line in head {
      var j :| 0 <= j < |head| && head[j] == line;
      assert line == TypeLine(projects[0].issueTypes[j]);
    } else {
      ListedLinesMatch(projects[1..], project, line);
      var i, j :| 0 <= i < |projects[1..]| && projects[1..][i].key == project
                 && 0 <= j < |projects[1..][i].issueTypes| && line == TypeLine(projects[1..][i].issueTypes[j]);
      assert projects[1..][i] == projects[i + 1];
    }
  }
}
