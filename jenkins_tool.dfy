/** The Jenkins wrapper. Most of it passes calls straight to the python-jenkins
    library; the logic modelled here is the naming of artifact and Robot report
    downloads, the "exactly one of" argument check, and the shaping of job and
    user information the library returns. A download is returned as the URL to
    fetch and the local path the content is written to. */
module JenkinsTool {
  import opened Common
  import opened Text

  /** One `requests.get(url)` whose content is written to `outputPath`. */
  datatype Download = Download(url: string, outputPath: string)

  /** `/job/{job_name}/{number}` behind the server text; `number` is the build
      number as the f-string renders it. */
  function BuildPath(server: string, jobName: string, number: string): string {
    server + "/job/" + jobName + "/" + number
  }

  // ---------------------------------------------------------------------------
  // Builds: artifact downloads. `server` is the text the f-strings render for
  // `self.server.server`, the server attribute of the python-jenkins object.

  /** `download_one_file_from_artifact`: the file under the build's
      `artifact/output/`, written under its own name. */
  function DownloadOneFile(server: string, fileName: string, jobName: string, number: string): Download {
    Download(BuildPath(server, jobName, number) + "/artifact/output/" + fileName, fileName)
  }

  /** `download_full_archive`: the zip of all artifacts, written to `output/archive.zip`. */
  function DownloadFullArchive(server: string, jobName: string, number: string): Download {
    var outputFile := "archive.zip";
    Download(BuildPath(server, jobName, number) + "/artifact/*zip*/" + outputFile, "output/" + outputFile)
  }

  const BothOrNeither := Exception("Cannot have both or neither file_name and full_archive")

  /** `download_build_artifact`: exactly one of a (truthy) file name and the
      full-archive flag must be given. */
  function DownloadBuildArtifact(server: string, jobName: string, number: string,
                                 fileName: Option<string>, fullArchive: bool): (r: Result<Download>)
    ensures r.Success? <==> OptTruthy(fileName) != fullArchive
    ensures r.Failure? ==> r.error == BothOrNeither
    ensures r.Success? && fullArchive ==> r.value == DownloadFullArchive(server, jobName, number)
    ensures r.Success? && !fullArchive ==>
      r.value == DownloadOneFile(server, fileName.value, jobName, number) && r.value.outputPath == fileName.value
  {
    if (!OptTruthy(fileName) && !fullArchive) || (OptTruthy(fileName) && fullArchive) then
      Failure(BothOrNeither)
    else if fullArchive then
      Success(DownloadFullArchive(server, jobName, number))
    else
      Success(DownloadOneFile(server, fileName.value, jobName, number))
  }

  /** Both download modes fetch from under the build's `artifact/` path; the
      full archive always lands in `output/`, a single file under its own name. */
  lemma DownloadModes(server: string, jobName: string, number: string, fileName: string)
    ensures StartsWith(DownloadOneFile(server, fileName, jobName, number).url, BuildPath(server, jobName, number) + "/artifact/")
    ensures StartsWith(DownloadFullArchive(server, jobName, number).url, BuildPath(server, jobName, number) + "/artifact/")
    ensures DownloadOneFile(server, fileName, jobName, number).url != DownloadFullArchive(server, jobName, number).url
  {
    var base := BuildPath(server, jobName, number) + "/artifact/";
    var one := "output/" + fileName;
    var all := "*zip*/archive.zip";
    assert DownloadOneFile(server, fileName, jobName, number).url == base + one;
    assert DownloadFullArchive(server, jobName, number).url == base + all;
    ConcatStartsWith(base, one);
    ConcatStartsWith(base, all);
    assert (base + one)[|base|] == 'o' && (base + all)[|base|] == '*';
  }

  // ---------------------------------------------------------------------------
  // Builds.Robot: report downloads. Here `server` is the text rendered for the
  // Robot object's `self.server.server`.

  /** The file a Robot download uses: the default unless a truthy custom name
      is given. */
  function RobotFileName(custom: Option<string>, default: string): (name: string)
    ensures OptTruthy(custom) ==> name == custom.value
    ensures !OptTruthy(custom) ==> name == default
  {
    if !OptTruthy(custom) then default else custom.value
  }

  function RobotDownload(server: string, jobName: string, number: string, outputFile: string): Download {
    Download(BuildPath(server, jobName, number) + "/robot/report/" + outputFile, "output/" + outputFile)
  }

  /** `download_robot_log`, default `log_all.html`. */
  function DownloadRobotLog(server: string, jobName: string, number: string, custom: Option<string>): Download {
    RobotDownload(server, jobName, number, RobotFileName(custom, "log_all.html"))
  }

  /** `download_robot_report`, default `report_all.html`. */
  function DownloadRobotReport(server: string, jobName: string, number: string, custom: Option<string>): Download {
    RobotDownload(server, jobName, number, RobotFileName(custom, "report_all.html"))
  }

  /** Both Robot downloads fetch `/robot/report/<name>` into `output/<name>`,
      where `<name>` is the custom name when it is non-empty and the default
      otherwise (None and "" alike). */
  lemma RobotNaming(server: string, jobName: string, number: string, custom: Option<string>)
    ensures var name := if OptTruthy(custom) then custom.value else "log_all.html";
      var d := DownloadRobotLog(server, jobName, number, custom);
      EndsWith(d.url, "/robot/report/" + name) && d.outputPath == "output/" + name
    ensures var name := if OptTruthy(custom) then custom.value else "report_all.html";
      var d := DownloadRobotReport(server, jobName, number, custom);
      EndsWith(d.url, "/robot/report/" + name) && d.outputPath == "output/" + name
    ensures !OptTruthy(custom) ==> DownloadRobotLog(server, jobName, number, custom)
                                   == DownloadRobotLog(server, jobName, number, None)
  {
    var base := BuildPath(server, jobName, number);
    var logName := RobotFileName(custom, "log_all.html");
    var reportName := RobotFileName(custom, "report_all.html");
    assert base + "/robot/report/" + logName == base + ("/robot/report/" + logName);
    assert base + "/robot/report/" + reportName == base + ("/robot/report/" + reportName);
  }

  /** With the same custom name, the log and the report are the same download;
      without one they differ. */
  lemma LogAndReportDifferOnlyByDefault(server: string, jobName: string, number: string, custom: Option<string>)
    ensures OptTruthy(custom) ==>
      DownloadRobotLog(server, jobName, number, custom) == DownloadRobotReport(server, jobName, number, custom)
    ensures !OptTruthy(custom) ==>
      DownloadRobotLog(server, jobName, number, custom).outputPath == "output/log_all.html"
      && DownloadRobotReport(server, jobName, number, custom).outputPath == "output/report_all.html"
  {
  }

  // ---------------------------------------------------------------------------
  // Robot result visitor

  datatype TestCase = TestCase(longname: string, status: string)

  /** `PassedTests.visit_test`: a one-line report for a passed test, nothing
      for any other status. */
  function VisitPassedTest(test: TestCase): (lines: seq<string>)
    ensures |lines| <= 1
    ensures lines != [] <==> test.status == "PASS"
    ensures lines != [] ==> lines[0] == test.longname + " | PASS"
  {
    var result := [];
    if test.status == "PASS" then result + [test.longname + " | " + test.status] else result
  }

  // ---------------------------------------------------------------------------
  // Jobs: shaping `get_job_info`

  datatype HealthEntry = HealthEntry(description: string, score: int)

  /** The parts of a job-info dict that are read. `healthReport` is None when the
      key is missing; `lastBuild` is None when Jenkins reports it as null (a job
      that never ran). */
  datatype JobInfo = JobInfo(healthReport: Option<seq<HealthEntry>>, lastBuild: Option<nat>)

  datatype HealthSummary = HealthSummary(name: string, description: string, score: int)

  /** `Jobs.health_report`: the first health entry under the job's name when
      there is one; nothing (the implicit None) for an empty list. */
  function HealthReport(name: string, info: JobInfo): (r: Result<Option<HealthSummary>>)
    ensures info.healthReport.None? <==> r.Failure?
    ensures r.Failure? ==> r.error == KeyError("healthReport")
    ensures r.Success? ==> (r.value.Some? <==> |info.healthReport.value| > 0)
    ensures r.Success? && r.value.Some? ==>
      var first := info.healthReport.value[0];
      r.value.value == HealthSummary(name, first.description, first.score)
  {
    match info.healthReport
    case None => Failure(KeyError("healthReport"))
    case Some(entries) =>
      if |entries| > 0 then Success(Some(HealthSummary(name, entries[0].description, entries[0].score)))
      else Success(None)
  }

  /** `Jobs.last_build_number_by_name`: subscripting a null `lastBuild` fails. */
  function LastBuildNumber(info: JobInfo): (r: Result<nat>)
    ensures r.Success? <==> info.lastBuild.Some?
    ensures r.Success? ==> r.value == info.lastBuild.value
    ensures r.Failure? ==> r.error.TypeError?
  {
    match info.lastBuild
    case None => Failure(TypeError("'NoneType' object is not subscriptable"))
    case Some(n) => Success(n)
  }

  // ---------------------------------------------------------------------------
  // User: shaping `get_whoami`

  /** One entry of the `property` list; `address` is None when the dict has no
      `address` key. */
  datatype Property = Property(address: Option<string>)

  datatype WhoAmI = WhoAmI(fullName: string, id: string, property: seq<Property>)

  datatype UserDetails = UserDetails(fullname: string, id: string, email: string)

  /** `[value['address'] for value in property if 'address' in value]`. */
  function Addresses(props: seq<Property>): (r: seq<string>)
    ensures |r| <= |props|
    ensures forall a :: a in r <==> exists i :: 0 <= i < |props| && props[i].address == Some(a)
    ensures r == [] <==> forall i :: 0 <= i < |props| ==> props[i].address.None?
  {
    if props == [] then []
    else
      var rest := Addresses(props[1..]);
      assert forall i :: 1 <= i < |props| ==> props[i] == props[1..][i - 1];
      assert forall i :: 0 <= i < |props| - 1 ==> props[1..][i] == props[i + 1];
      if props[0].address.Some? then [props[0].address.value] + rest else rest
  }

  /** The first address of the comprehension is the one of the first entry that
      has one. */
  lemma {:induction false} FirstAddressIsFirstEntry(props: seq<Property>, i: nat)
    requires i < |props| && props[i].address.Some?
    requires forall j :: 0 <= j < i ==> props[j].address.None?
    ensures Addresses(props) != [] && Addresses(props)[0] == props[i].address.value
  {
    if i > 0 {
      assert props[1..][i - 1] == props[i];
      FirstAddressIsFirstEntry(props[1..], i - 1);
    }
  }

  /** `User.get_user_details`: the email is the first address found; with none
      the `[0]` raises IndexError. */
  function GetUserDetails(me: WhoAmI): (r: Result<UserDetails>)
    ensures r.Failure? <==> forall i :: 0 <= i < |me.property| ==> me.property[i].address.None?
    ensures r.Failure? ==> r.error == IndexError
    ensures r.Success? ==> r.value.fullname == me.fullName && r.value.id == me.id
    ensures r.Success? ==> exists i :: 0 <= i < |me.property| && me.property[i].address == Some(r.value.email)
  {
    var addresses := Addresses(me.property);
    if |addresses| == 0 then Failure(IndexError)
    else
      assert addresses[0] in addresses;
      Success(UserDetails(me.fullName, me.id, addresses[0]))
  }

  /** The email is taken from the first property entry with an address. */
  lemma UserEmailIsFirstAddress(me: WhoAmI, i: nat)
    requires i < |me.property| && me.property[i].address.Some?
    requires forall j :: 0 <= j < i ==> me.property[j].address.None?
    ensures GetUserDetails(me) == Success(UserDetails(me.fullName, me.id, me.property[i].address.value))
  {
    FirstAddressIsFirstEntry(me.property, i);
  }
}
