/** The strategies the command-line tool can run. The clients they drive are the
    tool models; what the servers answer is given as data: job information as a
    function of the job name, the outcome of each successive poll, the reply to
    each request. */
module Strategies {
  import opened Common
  import opened Text
  import opened Http
  import StrategyExecutor
  import Jenkins = JenkinsTool
  import Gerrit = GerritTool
  import Jira = JiraTool
  import Elastic = ElasticTool
  import Karaf = KarafTool

  // ---------------------------------------------------------------------------
  // ViewHealthReport

  predicate HasHealthReport(info: Jenkins.JobInfo) {
    info.healthReport.Some?
  }

  /** `ViewHealthReport.execute`: the health report of every job of the view
      whose info holds a `healthReport`, in view order. The filter guarantees
      that `health_report` finds the key. */
  function ViewHealthReport(view: seq<string>, info: string -> Jenkins.JobInfo): seq<Option<Jenkins.HealthSummary>> {
    if view == [] then []
    else
      var job := view[0];
      (if HasHealthReport(info(job)) then [Jenkins.HealthReport(job, info(job)).value] else [])
      + ViewHealthReport(view[1..], info)
  }

  /** The jobs of a view that carry a health report, in view order. */
  function JobsWithHealth(view: seq<string>, info: string -> Jenkins.JobInfo): (jobs: seq<string>)
    ensures forall j :: j in jobs ==> j in view && HasHealthReport(info(j))
    ensures forall j :: j in view && HasHealthReport(info(j)) ==> j in jobs
  {
    if view == [] then []
    else
      assert forall j :: j in view[1..] ==> j in view;
      assert forall j :: j in view ==> j == view[0] || j in view[1..];
      (if HasHealthReport(info(view[0])) then [view[0]] else []) + JobsWithHealth(view[1..], info)
  }

  /** The report lists exactly one entry per job with a health report, and that
      entry is the job's own health report. */
  lemma {:induction false} ViewHealthReportPerJob(view: seq<string>, info: string -> Jenkins.JobInfo)
    ensures var reports := ViewHealthReport(view, info);
      var jobs := JobsWithHealth(view, info);
      && |reports| == |jobs|
      && forall k :: 0 <= k < |jobs| ==> Jenkins.HealthReport(jobs[k], info(jobs[k])) == Success(reports[k])
  {
    if view != [] {
      ViewHealthReportPerJob(view[1..], info);
      var rest := ViewHealthReport(view[1..], info);
      var restJobs := JobsWithHealth(view[1..], info);
      if HasHealthReport(info(view[0])) {
        var reports := ViewHealthReport(view, info);
        var jobs := JobsWithHealth(view, info);
        assert reports == [Jenkins.HealthReport(view[0], info(view[0])).value] + rest;
        assert jobs == [view[0]] + restJobs;
        forall k | 0 <= k < |jobs|
          ensures Jenkins.HealthReport(jobs[k], info(jobs[k])) == Success(reports[k])
        {
          if k > 0 {
            assert jobs[k] == restJobs[k - 1] && reports[k] == rest[k - 1];
          }
        }
      } else {
        assert ViewHealthReport(view, info) == [] + rest;
        assert JobsWithHealth(view, info) == [] + restJobs;
      }
    }
  }

  /** An entry of the view report is empty exactly for a job whose
      `healthReport` list is empty; any other entry is the job's first health
      entry, under the job's name. */
  lemma ViewHealthReportEntries(view: seq<string>, info: string -> Jenkins.JobInfo)
    ensures var reports := ViewHealthReport(view, info);
      var jobs := JobsWithHealth(view, info);
      && |reports| == |jobs|
      && forall k :: 0 <= k < |jobs| ==>
           var entries := info(jobs[k]).healthReport.value;
           && (reports[k].None? <==> entries == [])
           && (reports[k].Some? ==>
                 reports[k].value == Jenkins.HealthSummary(jobs[k], entries[0].description, entries[0].score))
  {
    ViewHealthReportPerJob(view, info);
    var jobs := JobsWithHealth(view, info);
    forall k | 0 <= k < |jobs|
      ensures HasHealthReport(info(jobs[k]))
    {
      assert jobs[k] in jobs;
    }
  }

  /** Splitting a view splits its report. */
  lemma {:induction false} ViewHealthReportAppend(v1: seq<string>, v2: seq<string>, info: string -> Jenkins.JobInfo)
    ensures ViewHealthReport(v1 + v2, info) == ViewHealthReport(v1, info) + ViewHealthReport(v2, info)
  {
    if v1 == [] {
      assert v1 + v2 == v2;
    } else {
      var job := v1[0];
      var head := if HasHealthReport(info(job)) then [Jenkins.HealthReport(job, info(job)).value] else [];
      assert (v1 + v2)[0] == job;
      assert (v1 + v2)[1..] == v1[1..] + v2;
      ViewHealthReportAppend(v1[1..], v2, info);
      assert ViewHealthReport(v1 + v2, info) == head + ViewHealthReport(v1[1..] + v2, info);
      assert ViewHealthReport(v1, info) == head + ViewHealthReport(v1[1..], info);
    }
  }

  // ---------------------------------------------------------------------------
  // Argument coercions

  /** `json.loads(str(optional_verbose_output).lower())`: the default `False`
      renders as `False`; the JSON literals `true` and `false` are read in any
      letter case. */
  function VerboseOutput(arg: Arg): (r: Result<bool>)
    ensures arg.Default? ==> r == Success(false)
    ensures arg.Given? ==> (r == Success(true) <==> Lower(arg.text) == "true")
    ensures arg.Given? ==> (r == Success(false) <==> Lower(arg.text) == "false")
    ensures r.Failure? ==> r.error == JsonDecodeError
  {
    var text := match arg case Default => "False" case Given(t) => t;
    var lowered := Lower(text);
    assert Lower("False") == "false";
    if lowered == "true" then Success(true)
    else if lowered == "false" then Success(false)
    else Failure(JsonDecodeError)
  }

  /** The flag does not depend on letter case. */
  lemma VerboseOutputIgnoresCase(text: string)
    ensures VerboseOutput(Given(text)) == VerboseOutput(Given(Lower(text)))
  {
    LowerIdempotent(text);
  }

  lemma VerboseSpellings()
    ensures VerboseOutput(Given("True")) == Success(true)
    ensures VerboseOutput(Given("true")) == Success(true)
    ensures VerboseOutput(Given("FALSE")) == Success(false)
  {
    assert Lower("True") == "true";
    assert Lower("true") == "true";
    assert Lower("FALSE") == "false";
  }

  /** `auto_add_suggested_reviewers`: the default is False; a value from the
      command line is a string, truthy unless empty. */
  predicate AutoAdd(arg: Arg) {
    arg.Given? && Truthy(arg.text)
  }

  /** Even the text `False` switches auto-add on. */
  lemma FalseTextIsTruthy()
    ensures AutoAdd(Given("False")) && !AutoAdd(Default)
  {
  }

  // ---------------------------------------------------------------------------
  // Polling loops

  datatype Action = Polled | Slept

  /** How a polling loop ends: an exception from a poll or from `sleep` is
      printed and breaks the loop (`Caught`); Ctrl-C runs the signal handler,
      which exits the program (`Exited`). */
  datatype LoopEnd = Caught(error: PyError) | Exited(exit: PyError)

  datatype PollRun = PollRun(actions: seq<Action>, end: LoopEnd)

  const SIGINT := 2

  /** What `time.sleep` raises for a negative interval. */
  const NegativeSleep := ValueError("sleep length must be non-negative")

  /** The loop `while True: try: poll(); sleep(interval) except: break`, given
      what each successive poll raises (None: it returned) until Ctrl-C. */
  function Polling(raised: seq<Option<PyError>>, interval: int): PollRun
    decreases |raised|
  {
    if raised == [] then PollRun([], Exited(StrategyExecutor.Handler(SIGINT)))
    else if raised[0].Some? then PollRun([Polled], Caught(raised[0].value))
    else if interval < 0 then PollRun([Polled], Caught(NegativeSleep))
    else
      var rest := Polling(raised[1..], interval);
      PollRun([Polled, Slept] + rest.actions, rest.end)
  }

  /** `k` rounds of poll-then-sleep. */
  function Cycles(k: nat): seq<Action> {
    if k == 0 then [] else [Polled, Slept] + Cycles(k - 1)
  }

  /** `k` polls that return. */
  function Quiet(k: nat): seq<Option<PyError>> {
    if k == 0 then [] else [None] + Quiet(k - 1)
  }

  lemma {:induction false} CyclesCount(k: nat)
    ensures multiset(Cycles(k))[Polled] == k && multiset(Cycles(k))[Slept] == k
  {
    if k > 0 {
      CyclesCount(k - 1);
      assert multiset([Polled, Slept] + Cycles(k - 1)) == multiset([Polled, Slept]) + multiset(Cycles(k - 1));
    }
  }

  /** `k` successful polls and then a raising one: `k` rounds of poll-then-sleep,
      one more poll, and the loop ends on that exception. */
  lemma {:induction false} FailureAfterSuccesses(k: nat, e: PyError, later: seq<Option<PyError>>, interval: int)
    requires interval >= 0
    ensures Polling(Quiet(k) + ([Some(e)] + later), interval) == PollRun(Cycles(k) + [Polled], Caught(e))
  {
    if k > 0 {
      var tail := [Some(e)] + later;
      assert (Quiet(k) + tail)[1..] == Quiet(k - 1) + tail;
      FailureAfterSuccesses(k - 1, e, later, interval);
      assert [Polled, Slept] + (Cycles(k - 1) + [Polled]) == Cycles(k) + [Polled];
    } else {
      assert Quiet(k) + ([Some(e)] + later) == [Some(e)] + later;
    }
  }

  /** Such a run polls `k + 1` times and sleeps `k` times. */
  lemma FailureRunCounts(k: nat)
    ensures multiset(Cycles(k) + [Polled])[Polled] == k + 1
    ensures multiset(Cycles(k) + [Polled])[Slept] == k
  {
    CyclesCount(k);
  }

  /** Polls that keep returning go on until Ctrl-C, which exits with status 0. */
  lemma {:induction false} InterruptedAfterSuccesses(k: nat, interval: int)
    requires interval >= 0
    ensures Polling(Quiet(k), interval) == PollRun(Cycles(k), Exited(SystemExit(0)))
  {
    if k > 0 {
      assert Quiet(k)[1..] == Quiet(k - 1);
      InterruptedAfterSuccesses(k - 1, interval);
    }
  }

  /** With a negative interval the first `sleep` raises: one poll, no sleep. */
  lemma NegativeIntervalPollsOnce(raised: seq<Option<PyError>>, interval: int)
    requires interval < 0 && raised != []
    ensures Polling(raised, interval).actions == [Polled]
    ensures Polling(raised, interval).end == Caught(if raised[0].Some? then raised[0].value else NegativeSleep)
  {
  }

  /** The polling loop itself. */
  method PollUntilFailure(raised: seq<Option<PyError>>, interval: int) returns (actions: seq<Action>, end: LoopEnd)
    ensures PollRun(actions, end) == Polling(raised, interval)
  {
    actions := [];
    var i := 0;
    while i < |raised|
      invariant 0 <= i <= |raised|
      invariant Polling(raised, interval)
             == PollRun(actions + Polling(raised[i..], interval).actions, Polling(raised[i..], interval).end)
      decreases |raised| - i
    {
      assert raised[i..][0] == raised[i];
      actions := actions + [Polled];
      if raised[i].Some? {
        end := Caught(raised[i].value);
        return;
      }
      if interval < 0 {
        end := Caught(NegativeSleep);
        return;
      }
      assert raised[i..][1..] == raised[i + 1..];
      var rest := Polling(raised[i + 1..], interval);
      assert actions + [Slept] + rest.actions == (actions[..|actions| - 1]) + ([Polled, Slept] + rest.actions);
      actions := actions + [Slept];
      i := i + 1;
    }
    assert raised[i..] == [];
    assert actions + [] == actions;
    end := Exited(StrategyExecutor.Handler(SIGINT));
  }

  /** What a monitoring strategy does: the poll it repeats and how the loop ran. */
  datatype Monitoring<P> = Monitoring(poll: P, actions: seq<Action>, end: LoopEnd)

  /** `MonitorElasticClusterHealth`: the interval is coerced with `int()` and
      the verbose flag decoded at construction; each poll is `cat.health` with
      that flag and the default text format. */
  method MonitorElasticClusterHealth(es: string, intervalSeconds: string, verboseOutput: Arg,
                                     raised: seq<Option<PyError>>) returns (r: Result<Monitoring<Request>>)
    ensures ParseInt(intervalSeconds).Failure? ==> r == Failure(ParseInt(intervalSeconds).error)
    ensures ParseInt(intervalSeconds).Success? && VerboseOutput(verboseOutput).Failure? ==> r == Failure(JsonDecodeError)
    ensures r.Success? <==> ParseInt(intervalSeconds).Success? && VerboseOutput(verboseOutput).Success?
    ensures r.Success? ==>
      && r.value.poll == Elastic.CatRequest(es, Elastic.Health, VerboseOutput(verboseOutput).value, "text")
      && PollRun(r.value.actions, r.value.end) == Polling(raised, ParseInt(intervalSeconds).value)
  {
    var interval := ParseInt(intervalSeconds);
    if interval.Failure? {
      return Failure(interval.error);
    }
    var verbose := VerboseOutput(verboseOutput);
    if verbose.Failure? {
      return Failure(verbose.error);
    }
    var actions, end := PollUntilFailure(raised, interval.value);
    r := Success(Monitoring(Elastic.CatRequest(es, Elastic.Health, verbose.value, "text"), actions, end));
  }

  /** `MonitorKarafBundleList`: each poll runs the `bundle:list` line. The
      poll is `os.system`, which reports failure as an exit status and does not
      raise, so for this strategy `raised` holds only None and the loop runs
      until Ctrl-C (InterruptedAfterSuccesses). */
  method MonitorKarafBundleList(tool: Karaf.KarafTool, intervalSeconds: string,
                                raised: seq<Option<PyError>>) returns (r: Result<Monitoring<string>>)
    ensures r.Failure? <==> ParseInt(intervalSeconds).Failure?
    ensures r.Failure? ==> r.error == ParseInt(intervalSeconds).error
    ensures r.Success? ==>
      && r.value.poll == Karaf.CommandLine(tool.client, Karaf.CommandText(Karaf.List))
      && PollRun(r.value.actions, r.value.end) == Polling(raised, ParseInt(intervalSeconds).value)
  {
    var interval := ParseInt(intervalSeconds);
    if interval.Failure? {
      return Failure(interval.error);
    }
    var actions, end := PollUntilFailure(raised, interval.value);
    var line := Karaf.RunCommand(tool, Karaf.CommandText(Karaf.List));
    r := Success(Monitoring(line, actions, end));
  }

  // ---------------------------------------------------------------------------
  // ElasticClusterState

  /** `ElasticClusterState`: always passes `metric`, `_all` unless given. */
  function ClusterStateRequest(es: string, metric: Arg): Request {
    Elastic.Route(es, Elastic.Cluster(Elastic.State(Some(if metric.Given? then metric.text else "_all"))))
  }

  /** The default asks for `_all` explicitly; a metric outside the whitelist asks
      for the whole state without naming one. */
  lemma ClusterStateMetric(es: string, metric: Arg)
    ensures metric.Default? ==> ClusterStateRequest(es, metric).url == es + "/_cluster/state/_all"
    ensures metric.Given? && metric.text !in Elastic.StateMetrics ==>
      ClusterStateRequest(es, metric).url == es + "/_cluster/state"
  {
    Elastic.ClusterStateWhitelist(es, Some(if metric.Given? then metric.text else "_all"));
  }

  // ---------------------------------------------------------------------------
  // Gerrit project selection

  /** The strategy attributes that hold a Gerrit client per project. */
  datatype GerritSlot = XdnGerritTool | EcnGerritTool

  function SlotName(slot: GerritSlot): string {
    match slot
    case XdnGerritTool => "xdn_gerrit_tool"
    case EcnGerritTool => "ecn_gerrit_tool"
  }

  /** The two strategies that select a client by project. */
  datatype Purpose = SuggestReviewers | AddTopic

  /** The project test: case-insensitive; `xdn` selects the xdn client; `ecn`
      selects the xdn client for reviewer suggestions and the ecn client for
      topics; anything else raises ValueError before any Gerrit call. */
  function SelectGerritTool(project: string, purpose: Purpose): (r: Result<GerritSlot>)
    ensures r.Success? <==> Lower(project) == "xdn" || Lower(project) == "ecn"
    ensures r.Failure? ==> r.error == ValueError("Invalid project: " + project)
    ensures r.Success? && (Lower(project) == "xdn" || purpose == SuggestReviewers) ==> r.value == XdnGerritTool
    ensures r.Success? && Lower(project) == "ecn" && purpose == AddTopic ==> r.value == EcnGerritTool
  {
    var p := Lower(project);
    if p == "xdn" then Success(XdnGerritTool)
    else if p == "ecn" then Success(if purpose == SuggestReviewers then XdnGerritTool else EcnGerritTool)
    else Failure(ValueError("Invalid project: " + project))
  }

  /** Selection depends only on the lower-cased project name (the error message
      keeps the spelling given). */
  lemma SelectionIgnoresCase(project: string, purpose: Purpose)
    ensures SelectGerritTool(project, purpose).Success? == SelectGerritTool(Lower(project), purpose).Success?
    ensures SelectGerritTool(project, purpose).Success? ==>
      SelectGerritTool(project, purpose).value == SelectGerritTool(Lower(project), purpose).value
  {
    LowerIdempotent(project);
  }

  /** Reading a slot: an attribute that was never assigned raises AttributeError. */
  function ResolveSlot(slot: GerritSlot, filled: set<GerritSlot>): (r: Result<GerritSlot>)
    ensures r.Success? <==> slot in filled
    ensures r.Success? ==> r.value == slot
    ensures r.Failure? ==> r.error == AttributeError(SlotName(slot))
  {
    if slot in filled then Success(slot) else Failure(AttributeError(SlotName(slot)))
  }

  /** The slots the strategy constructor assigns: none (it assigns only the
      single `gerrit_tool`). */
  const ConstructedSlots: set<GerritSlot> := {}

  // ---------------------------------------------------------------------------
  // Strategy construction

  /** The credentials the clients read from the environment, in the order the
      constructor builds them: Jenkins, then Jira, then Gerrit. */
  const CredentialVariables := ["jenkins_script_user", "jenkins_script_token",
                                "jira_script_user", "jira_script_token",
                                "gerrit_script_user", "gerrit_script_token"]

  /** The Karaf client path, read after the Elasticsearch client is built. */
  const KarafVariable := "KARAF_CLIENT"

  /** The index of the first name that the environment does not define. */
  function FirstUnset(names: seq<string>, env: map<string, string>): (i: nat)
    ensures i <= |names|
    ensures i < |names| ==> names[i] !in env
    ensures forall j :: 0 <= j < i ==> names[j] in env
  {
    if names == [] || names[0] !in env then 0 else 1 + FirstUnset(names[1..], env)
  }

  /** What a constructed strategy holds that the model reads: the validated
      Elasticsearch instance, the raw `KARAF_CLIENT` text (the Karaf tool keeps
      `Path(...)` of it, whose POSIX spelling is `KarafTool.client`) and the
      filled Gerrit slots. */
  datatype Clients = Clients(es: string, karafVariable: string, gerritSlots: set<GerritSlot>)

  /** `Strategy.__init__`, run by every strategy: the clients are built in
      order, each `os.environ[...]` raising KeyError for a missing variable,
      and the Elasticsearch client validating its instance URL on the way. */
  function ConstructStrategy(env: map<string, string>, esReply: Transport): (r: Result<Clients>)
    ensures r.Success? <==>
      && (forall v :: v in CredentialVariables ==> v in env)
      && esReply.Answered? && IsOk(esReply.response)
      && KarafVariable in env
    ensures FirstUnset(CredentialVariables, env) < |CredentialVariables| ==>
      r == Failure(KeyError(CredentialVariables[FirstUnset(CredentialVariables, env)]))
    ensures FirstUnset(CredentialVariables, env) == |CredentialVariables| && esReply.Raised? ==>
      r == Failure(RequestException)
    ensures (FirstUnset(CredentialVariables, env) == |CredentialVariables|
             && esReply.Answered? && !IsOk(esReply.response)) ==> r == Failure(ConnectionError)
    ensures (FirstUnset(CredentialVariables, env) == |CredentialVariables|
             && esReply.Answered? && IsOk(esReply.response) && KarafVariable !in env) ==>
            r == Failure(KeyError(KarafVariable))
    ensures r.Success? ==> r.value == Clients(Elastic.PlaceholderInstance, env[KarafVariable], ConstructedSlots)
  {
    var i := FirstUnset(CredentialVariables, env);
    if i < |CredentialVariables| then Failure(KeyError(CredentialVariables[i]))
    else
      assert forall v :: v in CredentialVariables ==> v in env by {
        forall v | v in CredentialVariables ensures v in env {
          var j :| 0 <= j < |CredentialVariables| && CredentialVariables[j] == v;
        }
      }
      match Elastic.ValidateConnection(Elastic.PlaceholderInstance, esReply)
      case Failure(e) => Failure(e)
      case Success(es) =>
        if KarafVariable !in env then Failure(KeyError(KarafVariable))
        else Success(Clients(es, env[KarafVariable], ConstructedSlots))
  }

  /** No strategy at all, whatever it does, can be constructed unless the
      Elasticsearch instance answers ok; a missing credential is reported
      before the connection is even tried. */
  lemma ConstructionNeedsElastic(env: map<string, string>, esReply: Transport, other: Transport)
    ensures !(esReply.Answered? && IsOk(esReply.response)) ==> ConstructStrategy(env, esReply).Failure?
    ensures FirstUnset(CredentialVariables, env) < |CredentialVariables| ==>
      ConstructStrategy(env, esReply) == ConstructStrategy(env, other)
  {
  }

  /** A constructed strategy has no per-project Gerrit client, so both Gerrit
      strategies fail on their first selection. */
  lemma ConstructedStrategyHasNoProjectGerrit(env: map<string, string>, esReply: Transport,
                                              project: string, purpose: Purpose)
    requires ConstructStrategy(env, esReply).Success?
    ensures ToolFor(project, purpose, ConstructStrategy(env, esReply).value.gerritSlots).Failure?
  {
    ConstructedToolsFail(project, purpose);
  }

  function ToolFor(project: string, purpose: Purpose, filled: set<GerritSlot>): Result<GerritSlot> {
    match SelectGerritTool(project, purpose)
    case Failure(e) => Failure(e)
    case Success(slot) => ResolveSlot(slot, filled)
  }

  /** As constructed, both strategies fail before any Gerrit call: with
      ValueError for an unknown project, AttributeError otherwise. */
  lemma ConstructedToolsFail(project: string, purpose: Purpose)
    ensures ToolFor(project, purpose, ConstructedSlots).Failure?
    ensures ToolFor(project, purpose, ConstructedSlots).error.AttributeError?
            <==> (Lower(project) == "xdn" || Lower(project) == "ecn")
  {
  }

  // ---------------------------------------------------------------------------
  // SuggestAddGerritReviewers

  /** The `account` of a suggested reviewer. */
  datatype Reviewer = Reviewer(username: string, name: string, email: string)

  const NotIterable := TypeError("'NoneType' object is not iterable")

  /** What `response.ok` raises when a helper returned None. */
  const NoOk := AttributeError("ok")

  /** `SuggestAddGerritReviewers.execute`. `suggested` is what `suggest` returned
      (None when its request raised or its body did not parse); `addReply(i)` is
      what happened to the i-th `add` request. `calls` lists the Gerrit calls made. */
  method SuggestAddGerritReviewers(project: string, changeId: string, autoAdd: Arg, filled: set<GerritSlot>,
                                   suggested: Option<seq<Reviewer>>, addReply: nat -> Transport)
    returns (calls: seq<Gerrit.ChangeOp>, r: Result<Option<seq<Reviewer>>>)
    ensures ToolFor(project, SuggestReviewers, filled).Failure? ==>
      calls == [] && r == Failure(ToolFor(project, SuggestReviewers, filled).error)
    ensures ToolFor(project, SuggestReviewers, filled).Success? ==>
      |calls| >= 1 && calls[0] == Gerrit.ReviewerSuggest(changeId)
    ensures ToolFor(project, SuggestReviewers, filled).Success? && !AutoAdd(autoAdd) ==>
      calls == [Gerrit.ReviewerSuggest(changeId)] && r == Success(suggested)
    ensures ToolFor(project, SuggestReviewers, filled).Success? && AutoAdd(autoAdd) && suggested.None? ==>
      calls == [Gerrit.ReviewerSuggest(changeId)] && r == Failure(NotIterable)
    ensures ToolFor(project, SuggestReviewers, filled).Success? && AutoAdd(autoAdd) && suggested.Some? ==>
      var reviewers := suggested.value;
      && |calls| - 1 <= |reviewers|
      && (forall j :: 0 <= j < |calls| - 1 ==> calls[j + 1] == Gerrit.ReviewerAdd(changeId, reviewers[j].username))
      && (forall j :: 0 <= j < |calls| - 2 ==> addReply(j).Answered?)
      && (r.Success? <==> forall j :: 0 <= j < |reviewers| ==> addReply(j).Answered?)
      && (r.Success? ==> |calls| == |reviewers| + 1 && r.value == suggested)
      && (r.Failure? ==> |calls| >= 2 && r.error == NoOk && addReply(|calls| - 2).Raised?)
  {
    calls := [];
    var tool := ToolFor(project, SuggestReviewers, filled);
    if tool.Failure? {
      return calls, Failure(tool.error);
    }
    calls := [Gerrit.ReviewerSuggest(changeId)];
    if !AutoAdd(autoAdd) {
      return calls, Success(suggested);
    }
    if suggested.None? {
      return calls, Failure(NotIterable);
    }
    var reviewers := suggested.value;
    var i := 0;
    while i < |reviewers|
      invariant 0 <= i <= |reviewers|
      invariant |calls| == i + 1 && calls[0] == Gerrit.ReviewerSuggest(changeId)
      invariant forall j :: 0 <= j < i ==> calls[j + 1] == Gerrit.ReviewerAdd(changeId, reviewers[j].username)
      invariant forall j :: 0 <= j < i ==> addReply(j).Answered?
    {
      calls := calls + [Gerrit.ReviewerAdd(changeId, reviewers[i].username)];
      if Gerrit.Settle(addReply(i)).None? {
        return calls, Failure(NoOk);
      }
      i := i + 1;
    }
    r := Success(suggested);
  }

  // ---------------------------------------------------------------------------
  // AddTopicToGerritChange

  /** The Gerrit calls a strategy made and what it returned or raised. */
  datatype Attempt<T> = Attempt(calls: seq<Gerrit.ChangeOp>, result: Result<T>)

  /** `AddTopicToGerritChange.execute`: one `topic.set`, whose response is
      returned; a raised request leaves None, on which `.ok` raises. */
  function AddTopicToGerritChange(project: string, changeId: string, topic: string, filled: set<GerritSlot>,
                                  reply: Transport): (a: Attempt<Response>)
    ensures ToolFor(project, AddTopic, filled).Failure? ==>
      a == Attempt([], Failure(ToolFor(project, AddTopic, filled).error))
    ensures ToolFor(project, AddTopic, filled).Success? ==>
      && a.calls == [Gerrit.TopicSet(changeId, topic)]
      && (a.result.Success? <==> reply.Answered?)
      && (a.result.Success? ==> a.result.value == reply.response)
      && (a.result.Failure? ==> a.result.error == NoOk)
  {
    match ToolFor(project, AddTopic, filled)
    case Failure(e) => Attempt([], Failure(e))
    case Success(_) =>
      var calls := [Gerrit.TopicSet(changeId, topic)];
      match Gerrit.Settle(reply)
      case None => Attempt(calls, Failure(NoOk))
      case Some(response) => Attempt(calls, Success(response))
  }

  // ---------------------------------------------------------------------------
  // CreateJiraFromLastJobsExecution

  const NightlyJobs: seq<string> := ["ACC3_RTA_DWH_NIGHTLY", "ACC4_RTA_DWH_NIGHTLY", "ACC5CDCS_RTA_DWH_NIGHTLY"]

  /** The Jenkins view the job comments link to. */
  const NightlyView := "http://10.44.62.37:8080/jenkins/view/Leprechauns/view/Leprechauns_Nightly"

  function NightlyBuild(job: string, n: nat): string {
    NightlyView + "/job/" + job + "/" + NatToString(n)
  }

  function ReportLink(job: string, n: nat): string {
    NightlyBuild(job, n) + "/robot/report/report_all.html"
  }

  function LogLink(job: string, n: nat): string {
    NightlyBuild(job, n) + "/robot/report/log_all.html"
  }

  function JobHeader(job: string, n: nat): string {
    "====================\n" + job + " build " + NatToString(n) + "\n\n"
  }

  function JobLinks(job: string, n: nat): string {
    "TEST RESULTS: " + NightlyBuild(job, n) + "/robot/\n"
    + "REPORT: " + ReportLink(job, n) + "\n"
    + "LOG: " + LogLink(job, n) + "\n"
    + "CONSOLE: " + NightlyBuild(job, n) + "/console"
  }

  /** The comment posted for one nightly job and its last build number. */
  function JobComment(job: string, n: nat): string {
    JobHeader(job, n) + JobLinks(job, n)
  }

  /** A job comment opens with the job and its build number. */
  lemma JobCommentHeader(job: string, n: nat)
    ensures StartsWith(JobComment(job, n), JobHeader(job, n))
  {
    ConcatStartsWith(JobHeader(job, n), JobLinks(job, n));
  }

  /** The report and log links of a job comment are the addresses the Jenkins
      Robot downloads fetch for that build with their default file names. */
  lemma JobCommentLinks(job: string, n: nat)
    ensures ReportLink(job, n) == Jenkins.DownloadRobotReport(NightlyView, job, NatToString(n), None).url
    ensures LogLink(job, n) == Jenkins.DownloadRobotLog(NightlyView, job, NatToString(n), None).url
  {
    var build := Jenkins.BuildPath(NightlyView, job, NatToString(n));
    assert NightlyBuild(job, n) == build;
    assert "/robot/report/report_all.html" == "/robot/report/" + "report_all.html";
    assert "/robot/report/log_all.html" == "/robot/report/" + "log_all.html";
  }

  /** The part of the create answer the strategy reads. */
  datatype IssueJson = IssueJson(key: Option<string>)

  /** `created_jira['key']`: an Exception object is not subscriptable, and a
      dict without `key` raises KeyError. */
  function IssueKey(created: Jira.Created<IssueJson>): (r: Result<string>)
    ensures r.Success? <==> created.CreatedIssue? && created.json.key.Some?
    ensures r.Success? ==> r.value == created.json.key.value
    ensures created.ReturnedException? ==> r == Failure(TypeError("'Exception' object is not subscriptable"))
    ensures created.CreatedIssue? && created.json.key.None? ==> r == Failure(KeyError("key"))
  {
    match created
    case ReturnedException(_) => Failure(TypeError("'Exception' object is not subscriptable"))
    case CreatedIssue(json) =>
      match json.key
      case None => Failure(KeyError("key"))
      case Some(k) => Success(k)
  }

  /** The comment request for a post on an existing issue; `body` stands for
      the JSON payload `{"body": <text>}`. */
  function PostComment(jira: string, key: string, body: string): Request
    requires key != ""
  {
    Jira.CommentRequest(jira, Jira.CommentPost(key, body)).value
  }

  /** `posted` are the comments for the first `|posted|` nightly jobs, in order,
      each with the job's last build number. */
  predicate JobCommentsPosted(jira: string, key: string, info: string -> Jenkins.JobInfo, posted: seq<Request>)
    requires key != ""
  {
    && |posted| <= |NightlyJobs|
    && forall j :: 0 <= j < |posted| ==>
         Jenkins.LastBuildNumber(info(NightlyJobs[j])).Success?
         && posted[j] == PostComment(jira, key, JobComment(NightlyJobs[j], Jenkins.LastBuildNumber(info(NightlyJobs[j])).value))
  }

  /** The loop over the nightly jobs: one comment per job until a job without a
      last build stops it with the error subscripting raised. */
  method PostJobComments(jira: string, key: string, info: string -> Jenkins.JobInfo)
    returns (posted: seq<Request>, failure: Option<PyError>)
    requires key != ""
    ensures JobCommentsPosted(jira, key, info, posted)
    ensures failure.None? <==> forall j :: 0 <= j < |NightlyJobs| ==> Jenkins.LastBuildNumber(info(NightlyJobs[j])).Success?
    ensures failure.None? ==> |posted| == |NightlyJobs|
    ensures failure.Some? ==>
      |posted| < |NightlyJobs| && Jenkins.LastBuildNumber(info(NightlyJobs[|posted|])) == Failure(failure.value)
  {
    posted := [];
    var i := 0;
    while i < |NightlyJobs|
      invariant 0 <= i <= |NightlyJobs|
      invariant |posted| == i
      invariant JobCommentsPosted(jira, key, info, posted)
    {
      var job := NightlyJobs[i];
      var lastBuild := Jenkins.LastBuildNumber(info(job));
      if lastBuild.Failure? {
        return posted, Some(lastBuild.error);
      }
      posted := posted + [PostComment(jira, key, JobComment(job, lastBuild.value))];
      i := i + 1;
    }
    failure := None;
  }

  /** `CreateJiraFromLastJobsExecution.execute`: build the `ViewHealthReport`
      strategy, create the issue, post the view health as its first comment,
      then one comment per nightly job in order. Building that strategy runs
      the strategy constructor once more, so it needs `env` and a second
      Elasticsearch answer, `reportEsReply`, and raises before any Jira request
      when that construction fails. The view health is the `ViewHealthReport`
      of `view`, computed before the issue is created; `render` stands for
      `json.dumps(str(...))` of it. `issueData` stands for the issue fields;
      `info` is what Jenkins says of a job. `requests` lists the Jira requests
      in the order they are sent. */
  method CreateJiraFromLastJobsExecution(jira: string, issueData: string, view: seq<string>,
                                         render: seq<Option<Jenkins.HealthSummary>> -> string,
                                         env: map<string, string>, reportEsReply: Transport,
                                         createReply: Transport, parse: string -> Option<IssueJson>,
                                         info: string -> Jenkins.JobInfo)
    returns (r: Result<Jira.Created<IssueJson>>, requests: seq<Request>)
    ensures ConstructStrategy(env, reportEsReply).Failure? ==>
      r == Failure(ConstructStrategy(env, reportEsReply).error) && requests == []
    ensures ConstructStrategy(env, reportEsReply).Success? ==>
      |requests| >= 1 && requests[0] == Jira.IssueRequest(jira, Jira.IssueCreate(issueData))
    ensures var created := Jira.CreateIssue(createReply, parse);
      ConstructStrategy(env, reportEsReply).Success? && created.Failure? ==> r == created && |requests| == 1
    ensures var created := Jira.CreateIssue(createReply, parse);
      ConstructStrategy(env, reportEsReply).Success? && created.Success? && IssueKey(created.value).Failure? ==>
        r == Failure(IssueKey(created.value).error) && |requests| == 1
    ensures var created := Jira.CreateIssue(createReply, parse);
      ConstructStrategy(env, reportEsReply).Success? && created.Success? && IssueKey(created.value) == Success("") ==>
        r == Failure(AssertionError) && |requests| == 1
    ensures var created := Jira.CreateIssue(createReply, parse);
      ConstructStrategy(env, reportEsReply).Success? && created.Success?
      && IssueKey(created.value).Success? && IssueKey(created.value).value != "" ==>
        var key := IssueKey(created.value).value;
        && |requests| >= 2
        && requests[1] == PostComment(jira, key, render(ViewHealthReport(view, info)))
        && JobCommentsPosted(jira, key, info, requests[2..])
        && (r.Success? <==> forall j :: 0 <= j < |NightlyJobs| ==> Jenkins.LastBuildNumber(info(NightlyJobs[j])).Success?)
        && (r.Success? ==> r == created && |requests| == 2 + |NightlyJobs|)
        && (r.Failure? ==> |requests| - 2 < |NightlyJobs|
                           && Jenkins.LastBuildNumber(info(NightlyJobs[|requests| - 2])) == Failure(r.error))
  {
    var report := ConstructStrategy(env, reportEsReply);
    if report.Failure? {
      return Failure(report.error), [];
    }
    var viewHealth := render(ViewHealthReport(view, info));
    requests := [Jira.IssueRequest(jira, Jira.IssueCreate(issueData))];
    var created := Jira.CreateIssue(createReply, parse);
    if created.Failure? {
      return created, requests;
    }
    var key := IssueKey(created.value);
    if key.Failure? {
      return Failure(key.error), requests;
    }
    if key.value == "" {
      return Failure(AssertionError), requests;
    }
    var posted, failure := PostJobComments(jira, key.value, info);
    requests := requests + [PostComment(jira, key.value, viewHealth)] + posted;
    assert requests[2..] == posted;
    match failure
    case None => r := created;
    case Some(e) => r := Failure(e);
  }

  // ---------------------------------------------------------------------------
  // PullACCxDEVANYTESTBuildArtifacts and PullBuildArtifactsAndRobotReports

  const AnyTestJob := "DEV_ACCx-ANYTEST"

  /** The Robot file names, built from the build number as given. */
  function RobotLogName(buildNumber: string): string {
    "log-" + buildNumber + ".html"
  }

  function RobotReportName(buildNumber: string): string {
    "report-" + buildNumber + ".html"
  }

  /** Different builds get different file names, and a log is never named like
      a report. */
  lemma RobotNamesDistinct(a: string, b: string)
    ensures RobotLogName(a) == RobotLogName(b) <==> a == b
    ensures RobotReportName(a) == RobotReportName(b) <==> a == b
    ensures RobotLogName(a) != RobotReportName(b)
  {
    if RobotLogName(a) == RobotLogName(b) {
      assert |a| == |b|;
      assert a == RobotLogName(a)[4..4 + |a|];
      assert b == RobotLogName(b)[4..4 + |b|];
    }
    if RobotReportName(a) == RobotReportName(b) {
      assert |a| == |b|;
      assert a == RobotReportName(a)[7..7 + |a|];
      assert b == RobotReportName(b)[7..7 + |b|];
    }
    assert RobotLogName(a)[0] == 'l' && RobotReportName(b)[0] == 'r';
  }

  /** What a download strategy fetched before it raised. */
  datatype Pulled = Pulled(downloads: seq<Jenkins.Download>, error: PyError)

  /** `PullACCxDEVANYTESTBuildArtifacts.execute`: the full archive is fetched;
      the Robot downloads are looked up on the builds object, which does not
      have them, so the strategy raises there. */
  function PullACCxDEVANYTESTBuildArtifacts(server: string, buildNumber: string): (p: Pulled)
    ensures p.downloads == [Jenkins.DownloadFullArchive(server, AnyTestJob, buildNumber)]
    ensures p.error == AttributeError("download_robot_log")
  {
    var archive := Jenkins.DownloadBuildArtifact(server, AnyTestJob, buildNumber, None, true);
    Pulled([archive.value], AttributeError("download_robot_log"))
  }

  /** The Jenkins job whose console names the nightly build to fetch. */
  datatype ConsoleFetch = ConsoleFetch(jobName: string, buildNumber: int)

  /** How far `PullBuildArtifactsAndRobotReports` gets: the console it asked
      Jenkins for, if any, and the error it raises. */
  datatype Pull = Pull(fetched: Option<ConsoleFetch>, error: PyError)

  /** `PullBuildArtifactsAndRobotReports`: the build number is coerced with
      `int()` at construction; `execute` then fetches the job's console, and
      calls a console-parser method that does not exist, so nothing is
      downloaded. `console` is what Jenkins answers: the console text, or the
      error the fetch raises. */
  function PullBuildArtifactsAndRobotReports(jobName: string, buildNumber: string, console: Result<string>): (p: Pull)
    ensures ParseInt(buildNumber).Failure? ==>
      p == Pull(None, ParseInt(buildNumber).error) && p.error.ValueError?
    ensures ParseInt(buildNumber).Success? ==> p.fetched == Some(ConsoleFetch(jobName, ParseInt(buildNumber).value))
    ensures ParseInt(buildNumber).Success? && console.Failure? ==> p.error == console.error
    ensures ParseInt(buildNumber).Success? && console.Success? ==> p.error == AttributeError("find_accx_build")
  {
    match ParseInt(buildNumber)
    case Failure(e) => Pull(None, e)
    case Success(n) =>
      var fetch := Some(ConsoleFetch(jobName, n));
      match console
      case Failure(e) => Pull(fetch, e)
      case Success(_) => Pull(fetch, AttributeError("find_accx_build"))
  }

  /** The outcome does not depend on the console text: a console that was
      fetched always ends in the missing parser method, and otherwise the error
      is the coercion's. */
  lemma PullNeverDownloads(jobName: string, buildNumber: string, text: string, other: string)
    ensures PullBuildArtifactsAndRobotReports(jobName, buildNumber, Success(text))
         == PullBuildArtifactsAndRobotReports(jobName, buildNumber, Success(other))
    ensures var e := PullBuildArtifactsAndRobotReports(jobName, buildNumber, Success(text)).error;
      e.ValueError? || e == AttributeError("find_accx_build")
  {
  }
}
