# dev_tools in Dafny

`dev_tools` is a set of Python command-line helpers for a development team.
It has thin clients for Elasticsearch, Gerrit, Jenkins, Jira, a Karaf shell and a
Git checkout. It also has a "strategy" tool that runs one named task on top of
those clients.

Almost every method of the clients builds a request target and hands it to an
HTTP library, `python-jenkins` or the shell. This model keeps the deterministic
logic inside those methods:

- the URL, path and query-string builders and their whitelists;
- the Karaf command line;
- the Git path arithmetic;
- the build-number extractor;
- the strategy executor;
- the control flow of the strategies.

A call to the outside becomes a value: a `Request` (verb, URL, body, whether the
JSON content-type header is sent), a `Download` (URL and local path) or a shell
line. What comes back is given as data:

- a `Transport` that either raised or answered with a status and a text;
- a parse function for JSON;
- job information as a function of the job name;
- the outcome of each successive poll.

Python exceptions are values of `Common.PyError`. Optional command-line
arguments and Python truthiness are modelled explicitly. For example, the text
`False` typed on the command line is truthy.

Modules, one per source file:

| module | file | what it holds |
|---|---|---|
| `Common` | common.dfy | `Option`, `Result`, `PyError`, `Arg` |
| `Http` | http.dfy | requests and replies, the JSON reading of a reply |
| `Text` | text.dfy | `str.split()`, `split(sep)`, `join`, `strip`, `lower`, `startswith`, `int()`, `str()` of numbers |
| `ElasticTool` | elastic_tool.dfy | `elastic_tool/elastic_tool.py` |
| `GerritTool` | gerrit_tool.dfy | `gerrit_tool/gerrit_tool.py` |
| `JenkinsTool` | jenkins_tool.dfy | `jenkins_tool/jenkins_tool.py` |
| `JiraTool` | jira_tool.dfy | `jira_tool/jira_tool.py` |
| `KarafTool` | karaf_tool.dfy | `karaf_tool/karaf_tool.py` |
| `GitTool` | git_tool.dfy | `WIP_tools/git_tool.py` |
| `ConsoleParser` | console_parser.dfy | `strategy_tool/console_parser.py` |
| `StrategyExecutor` | strategy_executor.dfy | `strategy_tool/strategies/StrategyExecutor.py` and the executor use in `strategy_tool/main.py` |
| `Strategies` | strategies.dfy | `strategy_tool/strategies/strategies.py` |

Model shapes:

- **`Executor`** is a class with a mutable `strategy` field.
- **Loops:**
  - the polling loops, the reviewer loop and the job-comment loop are methods
    with `while` loops;
  - each is proved against a specification function, or states in its
    `ensures` exactly which calls are made, in which order, and where it stops.
- **Karaf `run_command`** is a method that performs the two list insertions
  before joining.
- **Everything else** is a function, as in the source.

## Model

| member | source | states |
|---|---|---|
| ConsoleParser.FindBuild | strategy_tool/console_parser.py:13-14 | succeeds exactly when some `#` is followed by four ASCII digits; the value comes from the leftmost such tag, is below 10000, and the error for no match is AttributeError on `group` |
| ConsoleParser.LeadingZerosAccepted | strategy_tool/console_parser.py:14 | `#0042` gives 42 |
| ConsoleParser.OnlyFourDigitsCount | strategy_tool/console_parser.py:14 | `#12345` gives 1234 |
| ConsoleParser.ShortTagSkipped | strategy_tool/console_parser.py:14 | `#12 #3456` gives 3456: an earlier `#` without four digits is skipped |
| ConsoleParser.NoTagIsError | strategy_tool/console_parser.py:14 | a console without a four-digit tag is an error |
| GitTool.GitPathSegments | WIP_tools/git_tool.py:7 | the slash-segments of `git_path` are those of `path` plus `.git` |
| GitTool.QueriesNoneOutsideRepo | WIP_tools/git_tool.py:28-89 | every repo query returns None when `path/.git` does not exist |
| GitTool.QueriesSomeInsideRepo | WIP_tools/git_tool.py:28-89 | every repo query returns a value inside a repo; the repo path is `path + "/.git"` |
| GitTool.RepoNameIsLastSegment | WIP_tools/git_tool.py:32-33 | the repo name is the text after the last `/`: the whole path without a `/`, empty for a path ending in `/` |
| GitTool.RepoUrlIsRepoName | WIP_tools/git_tool.py:46-53 | the "url" (second-to-last segment of `git_path`) always equals the repo name |
| GitTool.BranchAndCommitAreDotGit | WIP_tools/git_tool.py:55-89 | inside a repo, branch, commit id and short commit id are all `.git`, and the long id equals the commit id |
| KarafTool.RunCommand | karaf_tool/karaf_tool.py:10-14 | the line is the client, `--`, then the command's whitespace-split tokens, joined by single spaces; it splits back into that list when the client has no whitespace |
| KarafTool.CommandLineShape | karaf_tool/karaf_tool.py:11-14 | the line is the client verbatim, ` --`, then the space-joined tokens |
| KarafTool.EmptyCommand | karaf_tool/karaf_tool.py:11-14 | an empty or all-whitespace command gives `<client> --` |
| KarafTool.CommandLineSplits | karaf_tool/karaf_tool.py:11-14 | for a whitespace-free client, splitting the line gives `[client, "--"]` plus the command's tokens |
| KarafTool.SpacedClientIsNotOneWord | karaf_tool/karaf_tool.py:12-13 | a client path with a space stays one list item but the line splits into its two halves |
| KarafTool.TrailingSpaceVanishes | karaf_tool/karaf_tool.py:11 | trailing whitespace of a command never reaches the line |
| KarafTool.DefaultArgumentVanishes | karaf_tool/karaf_tool.py:35-89 | a builder called with the default empty `bundle_id` sends the same line as one with no argument |
| KarafTool.CommandTokens | karaf_tool/karaf_tool.py:26-89 | every builder's command splits into `bundle:<verb>`, the `-v` flag for `tree` with versions, then the argument's tokens |
| KarafTool.TreeWithVersionsWords | karaf_tool/karaf_tool.py:87-89 | `tree` with versions contributes the token `-v` |
| KarafTool.TreeWithoutVersionsWords | karaf_tool/karaf_tool.py:87-89 | `tree` without versions leaves no token for the empty placeholder |
| KarafTool.RunBundleCommand | karaf_tool/karaf_tool.py:26-89 | a builder's line is the client, `--`, `bundle:<verb>`, the flags and the argument's tokens |
| ElasticTool.ExistsIsStricterThanOk | elastic_tool/elastic_tool.py:619 | existing implies an ok reply, but an ok 204 counts as absent |
| ElasticTool.ValidationSeesOnlyOk | elastic_tool/elastic_tool.py:22-34 | validation reads an answer only through `ok`: two answers with the same `ok` validate alike, whatever their status or text |
| ElasticTool.ValidatedToolTargets | elastic_tool/elastic_tool.py:10-34 | once the connection is validated, every request the tool sends, cat or not, lies under the instance URL it was given |
| ElasticTool.DecodeCatQuery | elastic_tool/elastic_tool.py:52-54 | whatever it decodes re-encodes to the same query string |
| ElasticTool.CatQueryRoundTrip | elastic_tool/elastic_tool.py:52-61 | decoding a cat query gives back the verbosity and the format, for every format text |
| ElasticTool.CatQueryShape | elastic_tool/elastic_tool.py:52-61 | verbose queries start `v&format=`, others `format=`, and all end `&pretty` |
| ElasticTool.CatPathShape | elastic_tool/elastic_tool.py:47-307 | every cat path lies under `/_cat/` except `count`, which is `/<index>/_count` |
| ElasticTool.ClusterStateWhitelist | elastic_tool/elastic_tool.py:359-380 | `/_cluster/state/<metric>` exactly for a whitelisted metric, otherwise `/_cluster/state` |
| ElasticTool.WatcherStatsWhitelist | elastic_tool/elastic_tool.py:847-855 | `/_watcher/stats/<metric>` exactly for the three known metrics, including the default `_all` |
| ElasticTool.IndexCreateBody | elastic_tool/elastic_tool.py:595-603 | a PUT to the index URL in both cases; no body exactly when `data` is None |
| ElasticTool.AliasPathHasNoSlash | elastic_tool/elastic_tool.py:684-698 | alias create and delete use the same URL, with the index glued to the instance URL |
| ElasticTool.CloneAppendsTargetDirectly | elastic_tool/elastic_tool.py:645-651 | the clone URL is the index URL plus `/_clone` plus the target, without a separator |
| ElasticTool.DanglingDeleteAppendsUuid | elastic_tool/elastic_tool.py:722-737 | the delete URL is the dangling list URL, the UUID, then `?accept_data_loss=true` |
| ElasticTool.ShutdownCallsAreGets | elastic_tool/elastic_tool.py:462-504 | start, cancel and status are GETs of one URL; cancel adds the JSON header and start the data |
| ElasticTool.RepositoryCleanupIsDelete | elastic_tool/elastic_tool.py:823-830 | cleanup is a DELETE of the repository URL plus `/_cleanup` |
| ElasticTool.RouteUnderInstance | elastic_tool/elastic_tool.py:309-855 | every target starts with the instance URL, followed by `/` for all but alias create and delete |
| Http.JsonReplyIgnoresStatus | elastic_tool/elastic_tool.py:379-380 | the reading does not depend on the status code |
| GerritTool.Send | gerrit_tool/gerrit_tool.py:49-67 | every request goes to base URL plus endpoint; `put` without data raises TypeError before any request |
| GerritTool.GetAndCleanStripsPrefix | gerrit_tool/gerrit_tool.py:42 | a reply with any five-character prefix, Gerrit's `)]}'` line included, parses as the text after it |
| GerritTool.GetAndCleanShortReply | gerrit_tool/gerrit_tool.py:42 | a reply of at most five characters parses as the empty text |
| GerritTool.RaisedRequestsYieldNone | gerrit_tool/gerrit_tool.py:39-67 | a raised request never escapes: the operation returns None |
| GerritTool.DetailSuffixes | gerrit_tool/gerrit_tool.py:152-177 | both suffix rules agree on bools; they differ exactly on a falsy non-bool, which `Group.get` treats as detailed |
| GerritTool.DetailedGetters | gerrit_tool/gerrit_tool.py:289-295 | the detailed getters differ from the plain ones only in the chosen suffix; `/detail` for True and `/` for False |
| GerritTool.EndpointsUnderAuthPrefix | gerrit_tool/gerrit_tool.py:76-367 | every endpoint starts with `/a/`, and the request URL is the base URL followed by it |
| GerritTool.FlushRequests | gerrit_tool/gerrit_tool.py:110-114 | `flush_all` posts `operation=FLUSH_ALL` to the caches collection; `flush` posts an empty form |
| GerritTool.CreatesWithoutDataFail | gerrit_tool/gerrit_tool.py:236-272 | branch and dashboard creation always raise TypeError |
| GerritTool.OnlyDatalessPutsFail | gerrit_tool/gerrit_tool.py:57-61 | those two are the only operations that raise |
| GerritTool.ChangeUpdatesCarryJson | gerrit_tool/gerrit_tool.py:313-350 | adding a reviewer, setting a topic or an assignee send the JSON-encoded value with the JSON header |
| JenkinsTool.DownloadBuildArtifact | jenkins_tool/jenkins_tool.py:201-207 | succeeds exactly when one of a truthy file name and the archive flag is given; otherwise raises the both-or-neither Exception |
| JenkinsTool.DownloadModes | jenkins_tool/jenkins_tool.py:209-221 | both modes fetch from under `<build>/artifact/`, and the two URLs differ |
| JenkinsTool.RobotNaming | jenkins_tool/jenkins_tool.py:247-261 | log and report URLs end `/robot/report/<name>` and land in `output/<name>`; None and "" behave alike |
| JenkinsTool.LogAndReportDifferOnlyByDefault | jenkins_tool/jenkins_tool.py:247-261 | with a custom name the two downloads coincide; without one they use their own defaults |
| JenkinsTool.VisitPassedTest | jenkins_tool/jenkins_tool.py:237-241 | one `longname | PASS` line for a passed test, none otherwise |
| JenkinsTool.Addresses | jenkins_tool/jenkins_tool.py:36 | exactly the addresses of the entries that have one |
| JenkinsTool.FirstAddressIsFirstEntry | jenkins_tool/jenkins_tool.py:36 | the first collected address belongs to the first entry with an address |
| JenkinsTool.GetUserDetails | jenkins_tool/jenkins_tool.py:31-37 | IndexError exactly when no entry has an address; otherwise name and id are copied and the email is one of the addresses |
| JenkinsTool.UserEmailIsFirstAddress | jenkins_tool/jenkins_tool.py:31-37 | the email is the address of the first entry that has one |
| JiraTool.IssueBasesDisagree | jira_tool/jira_tool.py:122 | the attachment/worklog base never equals the issue base; it would for a Jira address ending in `/` |
| JiraTool.CollectionHasDoubleSlash | jira_tool/jira_tool.py:96-102 | the comment collection URL contains `issue//` |
| JiraTool.CommentUrl | jira_tool/jira_tool.py:98-102 | AssertionError exactly for a falsy issue id; the URL starts with the collection, and is exactly it for a falsy comment id |
| JiraTool.FalsyCommentIdIsCollection | jira_tool/jira_tool.py:100 | None, 0 and "" as comment id give the same URL |
| JiraTool.CommentUrlSegments | jira_tool/jira_tool.py:98-102 | read back by `/`-segments, the URL names the issue, `comment` and the comment id |
| JiraTool.CommentUrlParts | jira_tool/jira_tool.py:96-102 | the exact comment URL: the issue base, the issue id and `comment`, then `/` and the comment id only for a truthy id |
| JiraTool.CommentRequest | jira_tool/jira_tool.py:104-117 | AssertionError exactly for an empty issue id; otherwise a request to the comment URL with the JSON header, with a body exactly for post and edit |
| JiraTool.RequestsUnderApi | jira_tool/jira_tool.py:30-91 | project and issue calls lie under their bases; the project create-meta URL lacks the slash |
| JiraTool.IssueFileRequests | jira_tool/jira_tool.py:119-149 | attachment and worklog URLs name the issue right after the glued base; only the upload drops the JSON header |
| JiraTool.RejectedCreateReturns | jira_tool/jira_tool.py:84-86 | a 4xx/5xx reply never raises, whatever its body |
| JiraTool.IssueTypeLinesAppend | jira_tool/jira_tool.py:46-49 | the listing of a concatenation is the concatenation of the listings |
| JiraTool.OtherProjectsSilent | jira_tool/jira_tool.py:46-49 | projects with another key print nothing |
| JiraTool.OnlyMatchingProjectListed | jira_tool/jira_tool.py:46-49 | with one matching project, the listing is its issue types in order |
| JiraTool.ListedLinesMatch | jira_tool/jira_tool.py:46-49 | every printed line comes from an issue type of a matching project |
| StrategyExecutor.LoadModuleFromFile | strategy_tool/strategies/StrategyExecutor.py:13-21 | exactly one side of the pair is present: the module on success, the error otherwise |
| StrategyExecutor.Executor.constructor | strategy_tool/strategies/StrategyExecutor.py:26-27 | holds the given strategy, with an empty run history |
| StrategyExecutor.Executor.Strategy | strategy_tool/strategies/StrategyExecutor.py:29-31 | the getter returns the held strategy |
| StrategyExecutor.Executor.SetStrategy | strategy_tool/strategies/StrategyExecutor.py:33-35 | the setter replaces the strategy and nothing else |
| StrategyExecutor.Executor.ExecuteStrategy | strategy_tool/strategies/StrategyExecutor.py:37-38 | returns the held strategy's result unchanged, runs it once, keeps it |
| StrategyExecutor.RunStrategy | strategy_tool/main.py:46-49 | a fresh executor around the chosen strategy runs it exactly once and yields its result |
| Text.Words | karaf_tool/karaf_tool.py:11 | `split()` yields whitespace-free tokens |
| Text.WordsOfJoin | karaf_tool/karaf_tool.py:11-14 | splitting a space-join of tokens gives the tokens back |
| Text.SplitOn | WIP_tools/git_tool.py:33 | `split("/")` yields at least one piece, none containing `/` |
| Text.LastPieceIsTail | WIP_tools/git_tool.py:33 | the last piece is the text after the last separator |
| Text.LowerLeavesNoCapital | strategy_tool/strategies/strategies.py:343 | after `lower()` no ASCII capital is left, and every character that was not one is unchanged |
| Text.LowerIdempotent | strategy_tool/strategies/strategies.py:343 | lowering twice is lowering once |
| Text.IntRoundTrip | strategy_tool/strategies/strategies.py:262 | `int(str(i)) == i` for every integer |
| Text.NatToStringRoundTrip | strategy_tool/strategies/strategies.py:217 | the rendered build number reads back as the number |
| Strategies.JobsWithHealth | strategy_tool/strategies/strategies.py:41-43 | exactly the jobs of the view whose info has `healthReport` |
| Strategies.ViewHealthReportPerJob | strategy_tool/strategies/strategies.py:38-43 | the report has one entry per such job, in view order, each that job's own health report |
| Strategies.ViewHealthReportAppend | strategy_tool/strategies/strategies.py:38-43 | splitting a view splits its report |
| Strategies.ViewHealthReportEntries | jenkins_tool/jenkins_tool.py:111-117 | an entry of the view report is None exactly for a job whose `healthReport` list is empty; any other entry is that job's first health entry under its name |
| Strategies.VerboseOutput | strategy_tool/strategies/strategies.py:263 | false by default; `true`/`false` in any letter case; JSONDecodeError otherwise |
| Strategies.VerboseOutputIgnoresCase | strategy_tool/strategies/strategies.py:263 | the flag does not depend on letter case |
| Strategies.VerboseSpellings | strategy_tool/strategies/strategies.py:263 | `True` and `true` give true, `FALSE` gives false |
| Strategies.FalseTextIsTruthy | strategy_tool/strategies/strategies.py:350 | auto-add is off by default, but the text `False` switches it on |
| Strategies.PollUntilFailure | strategy_tool/strategies/strategies.py:268-274 | the loop's actions and end are exactly those of the polling specification |
| Strategies.FailureAfterSuccesses | strategy_tool/strategies/strategies.py:268-274 | k returning polls and then a raising one: k poll-sleep rounds, one more poll, and the loop ends on that exception |
| Strategies.FailureRunCounts | strategy_tool/strategies/strategies.py:268-274 | such a run has k+1 polls and k sleeps |
| Strategies.InterruptedAfterSuccesses | strategy_tool/strategies/strategies.py:265-274 | polls that keep returning run until Ctrl-C, which exits with status 0 |
| Strategies.NegativeIntervalPollsOnce | strategy_tool/strategies/strategies.py:271 | with a negative interval the first sleep raises: one poll, no sleep |
| Strategies.MonitorElasticClusterHealth | strategy_tool/strategies/strategies.py:260-274 | `int()` and flag errors raise at construction; otherwise it repeats `cat.health` with that flag and follows the polling specification |
| Strategies.MonitorKarafBundleList | strategy_tool/strategies/strategies.py:385-398 | an `int()` error raises at construction; otherwise it repeats the `bundle:list` line and follows the polling specification |
| Strategies.ClusterStateMetric | strategy_tool/strategies/strategies.py:284-289 | the default asks for `_all` explicitly; a metric outside the whitelist asks for the whole state |
| Strategies.SelectGerritTool | strategy_tool/strategies/strategies.py:343-348 | case-insensitive; xdn selects xdn; ecn selects xdn for reviewers and ecn for topics; ValueError for anything else |
| Strategies.SelectionIgnoresCase | strategy_tool/strategies/strategies.py:368-373 | selection depends only on the lower-cased project |
| Strategies.ConstructStrategy | strategy_tool/strategies/StrategyExecutor.py:43-61 | succeeds exactly when the six credentials and `KARAF_CLIENT` are set and the Elasticsearch instance answers ok; the first missing credential, in construction order, is the KeyError, and a missing `KARAF_CLIENT` after a good connection is its own KeyError |
| Strategies.ConstructionNeedsElastic | strategy_tool/strategies/StrategyExecutor.py:56-60 | no strategy of any kind can be built unless the Elasticsearch instance answers ok; a missing credential fails the same way whatever the instance answers |
| Strategies.ConstructedStrategyHasNoProjectGerrit | strategy_tool/strategies/StrategyExecutor.py:58 | every strategy that was built fails its per-project Gerrit selection |
| Strategies.ConstructedToolsFail | strategy_tool/strategies/StrategyExecutor.py:56-61 | as constructed, both Gerrit strategies raise before any call: AttributeError for a valid project, ValueError otherwise |
| Strategies.SuggestAddGerritReviewers | strategy_tool/strategies/strategies.py:342-355 | no call when selection fails; otherwise one suggest, then with auto-add one add per reviewer in order until a raised add; the suggestions are returned unchanged |
| Strategies.AddTopicToGerritChange | strategy_tool/strategies/strategies.py:367-377 | no call when selection fails; otherwise one topic set, whose response is returned, and AttributeError when the request raised |
| Strategies.JobCommentHeader | strategy_tool/strategies/strategies.py:217 | a job comment opens with the job and its build number |
| Strategies.JobCommentLinks | strategy_tool/strategies/strategies.py:221-222 | the report and log links are the Jenkins Robot download URLs of that build with the default names |
| Strategies.PostJobComments | strategy_tool/strategies/strategies.py:214-225 | one comment per nightly job in order, until a job without a last build stops the loop with its error |
| Strategies.CreateJiraFromLastJobsExecution | strategy_tool/strategies/strategies.py:178-226 | first builds the `ViewHealthReport` strategy, raising its construction error before any Jira request; then create; each error path stops after it; then the comment carrying the view's `ViewHealthReport`, and the job comments in order; returns the created issue when all jobs have a build |
| Strategies.RobotNamesDistinct | strategy_tool/strategies/strategies.py:150-151 | `log-<n>.html` and `report-<n>.html` are injective in n and never collide |
| Strategies.PullACCxDEVANYTESTBuildArtifacts | strategy_tool/strategies/strategies.py:153-168 | fetches the full archive, then raises AttributeError on `download_robot_log` |
| Strategies.PullBuildArtifactsAndRobotReports | strategy_tool/strategies/strategies.py:123-140 | `int()` errors raise at construction, before any call; otherwise it fetches the job's console for that build number, then raises the fetch's error or AttributeError on `find_accx_build`, before any download |
| Strategies.PullNeverDownloads | strategy_tool/strategies/strategies.py:132-140 | the outcome does not depend on the console text: a fetched console always ends in the missing `find_accx_build` |

## Left out

- All I/O is left out. HTTP, `python-jenkins`, file writes, `os.system`, `os.popen`, `webbrowser` and stdout are replaced by returned requests, downloads and command lines. Replies are given as `Transport` values.
- JSON encoding and decoding are abstract: a `parse` function parameter, and payload texts given as parameters. A JSON body is represented by its text.
- Authentication headers are left out. Environment variables are read only in strategy construction.
- Strategies.ConstructStrategy: keeps the raw `KARAF_CLIENT` text. The Karaf tool stores `Path(...)` of it and sends its `as_posix()` spelling, which collapses repeated `/`, drops `.` segments and a trailing `/`, and turns `""` into `.`. That normalisation is not modelled; the Karaf model takes `client` to be the POSIX spelling already.
- Strategies.MonitorKarafBundleList: a poll is `os.system`, which reports a failed command through its exit status and does not raise. So the `raised` outcomes of this strategy are all None in practice, and the model does not enforce this.
- Strategy construction is modelled as Strategies.ConstructStrategy, which every strategy runs first. It reads the Jenkins, Jira and Gerrit credentials and `KARAF_CLIENT` from the environment (KeyError when one is missing). It validates the Elasticsearch placeholder instance, so every strategy raises when that URL does not answer ok, the Jira, Jenkins and Karaf ones included. It fills only the single `gerrit_tool` slot (`ConstructedSlots`). The strategy models begin after a successful construction. Dynamic module loading and the `python-jenkins` login are left out.
- `strategy_tool/main.py` is left out (argparse, signature inspection, `getattr`). Only the executor use at lines 46-49 is modelled.
- `WIP_tools/openshift_tool.py` is not part of this model.
- `get_commit_details` in the Git tool is left out: it only collects the lines of a shell command's output.
- Robot Framework result parsing and the printing visitors are left out.
- `signal`, real time and asynchronous interrupts are left out. A Ctrl-C is modelled as arriving after the given poll outcomes. `sleep` only contributes its ValueError for a negative interval.
- The pass-through strategies are left out: Test, AllJobsInView, CloneJob, BuildJob, JobInfo, JobHealthReport, LastBuildConsoleOutput, GetJiraIssue, LogWorkInJira, ElasticClusterHealth, ElasticClusterStats, AllCurrentElasticTasks and ElasticIndexInfo. Each is one library call.
- The Jenkins pass-through methods are left out (they only call `python-jenkins`). The same goes for the Gerrit, Jira and Elasticsearch getters that only return a reply.
- JenkinsTool.RobotDownload: the server prefix of the Robot downloads is taken as text. In the source, that prefix is what an f-string renders for the `python-jenkins` object.
- Strategies.CreateJiraFromLastJobsExecution: `json.dumps(str(...))` of the view health is the abstract `render` parameter. The replies to the comment posts are not modelled. A comment post that raises, or answers non-JSON, would end the strategy early. The issue fields are the `issueData` parameter, and today's date is not modelled.
- Strategies.SuggestAddGerritReviewers: the KeyErrors that a reviewer dict without `account`, `username`, `name` or `email` would raise are not modelled.
- Strategies.VerboseOutput: only the literals `true` and `false` are accepted. `json.loads` would also accept numbers, `null` and whitespace-padded literals, and would give values other than bools.
- Text.ParseInt: only ASCII digits with an optional sign and surrounding whitespace are accepted. Python's `int()` also accepts Unicode digits and underscores, and the model does not cover them. The error message quotes the text, but `repr`'s escaping is not modelled.
- ConsoleParser.FindBuild: `\d` is modelled as the ASCII digits. Python's `str` regex also matches every other Unicode decimal digit, and `int()` converts those. So a console such as `#١٢٣٤` gives 1234 in Python but an AttributeError in the model.
- The `python-jenkins` calls are taken never to raise. Job information is a total function of the job name, so `get_job_info` raising for an unknown job is not modelled, and neither are the KeyErrors of a job-info or `whoami` dict that lacks `fullName`, `id`, `property`, `description` or `score`. So Strategies.PostJobComments and Strategies.CreateJiraFromLastJobsExecution stop early only on a job without a last build. The one Jenkins call whose failure decides a strategy's error, the console fetch of Strategies.PullBuildArtifactsAndRobotReports, is given as a result.
- Text.Lower: only ASCII letters are lowered.
- JiraTool.IssueRequest: the `get_type` navigation into `fields.issuetype.name` is not modelled.
- The commented-out strategies at the end of `strategies.py` are not code and are left out.
