/** The Karaf client wrapper: every operation becomes one shell line,
    `<client> -- <tokens of the command>`, handed to `os.system`. The model
    returns that line instead of running it. */
module KarafTool {
  import opened Text

  /** The tool holds the client executable's path in its POSIX spelling. */
  datatype KarafTool = KarafTool(client: string)

  /** The line `run_command` hands to the shell. */
  function CommandLine(client: string, command: string): string {
    Join([client, "--"] + Words(command))
  }

  /** `run_command`: split the command on whitespace, insert the client path
      in front and "--" after it, then join with single spaces. */
  method RunCommand(tool: KarafTool, command: string) returns (line: string)
    ensures line == CommandLine(tool.client, command)
    ensures line == tool.client + " --" + (if Words(command) == [] then "" else " " + Join(Words(command)))
    ensures IsToken(tool.client) ==> Words(line) == [tool.client, "--"] + Words(command)
  {
    var tokens := Words(command);
    tokens := [tool.client] + tokens;
    tokens := tokens[..1] + ["--"] + tokens[1..];
    assert tokens == [tool.client, "--"] + Words(command);
    line := Join(tokens);
    CommandLineShape(tool.client, command);
    if IsToken(tool.client) {
      CommandLineSplits(tool.client, command);
    }
  }

  /** The client path is kept verbatim as the first item, whatever characters it
      holds, followed by " --" and then the command's tokens. */
  lemma CommandLineShape(client: string, command: string)
    ensures CommandLine(client, command)
         == client + " --" + (if Words(command) == [] then "" else " " + Join(Words(command)))
  {
    var ws := Words(command);
    assert [client, "--"] + ws == [client] + (["--"] + ws);
    JoinCons(client, ["--"] + ws);
    JoinCons("--", ws);
  }

  /** An empty (or all-whitespace) command still runs the bare client. */
  lemma EmptyCommand(client: string, command: string)
    requires Words(command) == []
    ensures CommandLine(client, command) == client + " --"
  {
    CommandLineShape(client, command);
  }

  /** When the client path has no whitespace, splitting the line gives back the
      token list that was joined: client, "--", then the command's tokens. */
  lemma CommandLineSplits(client: string, command: string)
    requires IsToken(client)
    ensures Words(CommandLine(client, command)) == [client, "--"] + Words(command)
  {
    var ts := [client, "--"] + Words(command);
    assert ts[0] == client && ts[1] == "--";
    assert forall k :: 2 <= k < |ts| ==> ts[k] == Words(command)[k - 2];
    WordsOfJoin(ts);
  }

  /** A client path with a space is still one item of the joined list, but the
      shell line no longer splits back into it: the shell sees its two halves. */
  lemma SpacedClientIsNotOneWord(a: string, b: string, command: string)
    requires IsToken(a) && IsToken(b)
    ensures Words(CommandLine(a + " " + b, command)) == [a, b, "--"] + Words(command)
  {
    SpacedClientLine(a, b, command);
    WordsAtSpace(a, ' ', CommandLine(b, command));
    WordsOfToken(a);
    CommandLineSplits(b, command);
  }

  lemma SpacedClientLine(a: string, b: string, command: string)
    ensures CommandLine(a + " " + b, command) == a + [' '] + CommandLine(b, command)
  {
    var rest := ["--"] + Words(command);
    assert [a + " " + b, "--"] + Words(command) == [a + " " + b] + rest;
    assert [b, "--"] + Words(command) == [b] + rest;
    JoinCons(a + " " + b, rest);
    JoinCons(b, rest);
  }

  // ---------------------------------------------------------------------------
  // The bundle:<verb> builders of Bundle.Action and Bundle.Info

  /** One builder call with its argument. The `bundle_id` parameters default to
      the empty string; a caller that omits one passes "" here. */
  datatype BundleCommand =
    | Install(bundleName: string)
    | Diagnose
    | Refresh
    | Resolve(bundleId: string)
    | Start(bundleId: string)
    | Stop(bundleId: string)
    | Uninstall(bundleId: string)
    | Update(bundleId: string)
    | Watch(bundleId: string)
    | Info(bundleId: string)
    | List
    | Capabilities(bundleId: string)
    | Classes(bundleId: string)
    | FindClassInBundles(className: string)
    | Headers(bundleId: string)
    | GetIdByName(bundleFullName: string)
    | Services(bundleId: string)
    | StartLevel(bundleId: string)
    | Status(bundleId: string)
    | Tree(bundleId: string, showBundleVersions: bool)

  /** The command string each builder passes to `run_command`: the literal
      `bundle:<verb>`, and for a builder that takes an argument a space and the
      argument; `tree` puts its `-v` placeholder and a second space in between. */
  function CommandText(c: BundleCommand): string {
    if c.Tree? then Head(c) + " " + (if c.showBundleVersions then "-v" else "") + " " + c.bundleId
    else if TakesArgument(c) then Head(c) + " " + Argument(c)
    else Head(c)
  }

  /** The Karaf sub-command each builder names. */
  function Verb(c: BundleCommand): string {
    match c
    case Install(_) => "install"
    case Diagnose => "diag"
    case Refresh => "refresh"
    case Resolve(_) => "resolve"
    case Start(_) => "start"
    case Stop(_) => "stop"
    case Uninstall(_) => "uninstall"
    case Update(_) => "update"
    case Watch(_) => "watch"
    case Info(_) => "info"
    case List => "list"
    case Capabilities(_) => "capabilities"
    case Classes(_) => "classes"
    case FindClassInBundles(_) => "find-class"
    case Headers(_) => "headers"
    case GetIdByName(_) => "id"
    case Services(_) => "services"
    case StartLevel(_) => "start-level"
    case Status(_) => "status"
    case Tree(_, _) => "tree-show"
  }

  /** The caller's argument text, empty for the builders without one. */
  function Argument(c: BundleCommand): string {
    match c
    case Diagnose => ""
    case Refresh => ""
    case List => ""
    case Install(name) => name
    case FindClassInBundles(name) => name
    case GetIdByName(name) => name
    case Tree(id, _) => id
    case Resolve(id) => id
    case Start(id) => id
    case Stop(id) => id
    case Uninstall(id) => id
    case Update(id) => id
    case Watch(id) => id
    case Info(id) => id
    case Capabilities(id) => id
    case Classes(id) => id
    case Headers(id) => id
    case Services(id) => id
    case StartLevel(id) => id
    case Status(id) => id
  }

  /** Only `tree` with versions requested adds a flag. */
  function Flags(c: BundleCommand): seq<string> {
    if c.Tree? && c.showBundleVersions then ["-v"] else []
  }

  /** The fixed first token of a builder's command. */
  function Head(c: BundleCommand): string {
    "bundle:" + Verb(c)
  }

  predicate TakesArgument(c: BundleCommand) {
    !(c.Diagnose? || c.Refresh? || c.List?)
  }

  lemma HeadIsToken(c: BundleCommand)
    ensures IsToken(Head(c))
  {
    VerbIsPlain(c);
    assert IsToken(Verb(c)) by {
      forall i | 0 <= i < |Verb(c)| ensures !IsSpace(Verb(c)[i]) {
        assert PlainChar(Verb(c)[i]);
      }
    }
    assert IsToken("bundle:");
    TokenConcat("bundle:", Verb(c));
  }

  /** A lower-case letter or a hyphen. */
  predicate PlainChar(ch: char) {
    'a' <= ch <= 'z' || ch == '-'
  }

  lemma VerbIsPlain(c: BundleCommand)
    ensures forall i :: 0 <= i < |Verb(c)| ==> PlainChar(Verb(c)[i])
  {
  }

  lemma TokenConcat(a: string, b: string)
    requires IsToken(a) && IsToken(b)
    ensures IsToken(a + b)
  {
    forall i | 0 <= i < |a + b| ensures !IsSpace((a + b)[i]) {
      if i < |a| { assert (a + b)[i] == a[i]; } else { assert (a + b)[i] == b[i - |a|]; }
    }
  }

  lemma HeadThenArgument(head: string, arg: string)
    requires IsToken(head)
    ensures Words(head + " " + arg) == [head] + Words(arg)
  {
    assert head + " " + arg == head + [' '] + arg;
    WordsAtSpace(head, ' ', arg);
    WordsOfToken(head);
  }

  /** Every builder yields the fixed `bundle:<verb>` token, then the `-v` flag of
      `tree` when versions are shown, then the words of the argument. The empty
      placeholder of `tree` and an empty argument leave no token. */
  lemma CommandTokens(c: BundleCommand)
    ensures Words(CommandText(c)) == [Head(c)] + Flags(c) + Words(Argument(c))
  {
    HeadIsToken(c);
    if c.Tree? && c.showBundleVersions {
      TreeWithVersionsWords(Head(c), c.bundleId);
    } else if c.Tree? {
      TreeWithoutVersionsWords(Head(c), c.bundleId);
    } else if TakesArgument(c) {
      HeadThenArgument(Head(c), Argument(c));
    } else {
      WordsOfToken(Head(c));
    }
  }

  /** `tree` with versions: the placeholder is the token `-v`. */
  lemma TreeWithVersionsWords(head: string, id: string)
    requires IsToken(head)
    ensures Words(head + " " + "-v" + " " + id) == [head, "-v"] + Words(id)
  {
    assert IsToken("-v");
    TwoTokensThenArgument(head, "-v", id);
  }

  lemma TwoTokensThenArgument(head: string, flag: string, id: string)
    requires IsToken(head) && IsToken(flag)
    ensures Words(head + " " + flag + " " + id) == [head, flag] + Words(id)
  {
    var rest := flag + " " + id;
    assert head + " " + flag + " " + id == head + " " + rest;
    HeadThenArgument(head, rest);
    HeadThenArgument(flag, id);
  }

  /** `tree` without versions: the empty placeholder leaves two spaces, which
      split as one. */
  lemma TreeWithoutVersionsWords(head: string, id: string)
    requires IsToken(head)
    ensures Words(head + " " + "" + " " + id) == [head] + Words(id)
  {
    var rest := [' '] + id;
    assert head + " " + "" + " " + id == head + " " + rest;
    HeadThenArgument(head, rest);
    assert rest == [] + [' '] + id;
    WordsAtSpace([], ' ', id);
  }

  /** Whitespace at the end of a command never reaches the shell line. */
  lemma TrailingSpaceVanishes(client: string, command: string, c: char)
    requires IsSpace(c)
    ensures CommandLine(client, command + [c]) == CommandLine(client, command)
  {
    assert command + [c] == command + [c] + [];
    WordsAtSpace(command, c, []);
    assert Words([]) == [];
    assert Words(command) + [] == Words(command);
  }

  /** Omitting a `bundle_id` (its default "") sends the same line as a builder
      without any argument: only the head token and `tree`'s flag remain. */
  lemma DefaultArgumentVanishes(client: string, c: BundleCommand)
    requires Argument(c) == ""
    ensures CommandLine(client, CommandText(c)) == Join([client, "--", Head(c)] + Flags(c))
  {
    CommandTokens(c);
    assert [client, "--"] + Words(CommandText(c)) == [client, "--", Head(c)] + Flags(c);
  }

  /** A builder call: `run_command` on the builder's command string. */
  method RunBundleCommand(tool: KarafTool, c: BundleCommand) returns (line: string)
    ensures line == Join([tool.client, "--", Head(c)] + Flags(c) + Words(Argument(c)))
    ensures IsToken(tool.client) ==>
      Words(line) == [tool.client, "--", Head(c)] + Flags(c) + Words(Argument(c))
  {
    line := RunCommand(tool, CommandText(c));
    CommandTokens(c);
    assert [tool.client, "--"] + Words(CommandText(c))
        == [tool.client, "--", Head(c)] + Flags(c) + Words(Argument(c));
  }
}
