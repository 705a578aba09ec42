/** `and-cli-deploy-azure-storage`: copies the frontend build to an Azure
    Storage container. The script validates its flags (collecting every
    error), makes sure the Azure CLI is installed, optionally publishes the
    frontend, logs in, copies, and logs out. The parsed options and the
    answers of the external tools are inputs; what the script does is a
    trace. */
module DeployAzureStorage {
  import opened Wrappers
  import opened Shell
  import FrontendPath

  /** The options as commander parsed them: an option or flag that was not
      given is `None` (or `false` for the two plain flags). */
  datatype Program = Program(
    clientId: Option<string>,
    destination: Option<string>,
    publicUrl: Option<string>,
    publish: bool,
    recursive: Option<bool>,
    secret: Option<string>,
    source: Option<string>,
    tenantId: Option<string>,
    username: Option<string>,
    webpack: bool)

  /** What the external tools answer when the script calls them. */
  datatype Tools = Tools(
    azFound: bool,           // shell.which("az")
    pipFound: bool,          // shell.which("pip")
    pipInstallCode: int,     // exit code of `pip install azure-cli`
    webpackPublishOk: bool,  // result of webpackPublish.run()
    copyCode: int)           // exit code of the copy command

  const PythonInstallerUrl := "https://www.python.org/ftp/python/3.7.4/python-3.7.4-amd64.exe"

  const CredentialsMissing := "when --client-id or --tenant-id not provided, --username is required"
  const SecretMissing := "--secret is required"
  const DestinationMissing := "--destination is required"

  const PipRequired := "PIP is required - " + PythonInstallerUrl
  const PipInstall := "pip install azure-cli"
  const PipInstallFailed := "Failed to install azure cli via pip"
  const AzureCliInstalled := " - Successfully installed Azure CLI"
  const CopyFailed := " - Failed to deploy to Azure Storage"
  const Deployed := "Application successfully deployed to Azure Storage!"

  // ---------------------------------------------------------------------------
  // Defaults
  // ---------------------------------------------------------------------------

  /** The initial value of `sourcePath`: everything in the frontend release
      folder. */
  function DefaultSourcePath(platform: FrontendPath.Platform): string
  {
    FrontendPath.PublishDir(platform) + "/*"
  }

  /** The default is the same on every platform: everything in
      `frontend/build`. */
  lemma DefaultSourcePathValue(platform: FrontendPath.Platform)
    ensures DefaultSourcePath(platform) == "frontend/build/*"
  {
    FrontendPath.PublishDirOnEveryPlatform(platform, platform);
  }

  /** The path copied: `--source` when given, else `defaultSource`, the
      initial value of the `sourcePath` variable. */
  function SourcePath(defaultSource: string, p: Program): string
  {
    p.source.GetOr(defaultSource)
  }

  /** Whether the copy is recursive: `--recursive` when given, else false. */
  function Recursive(p: Program): bool
  {
    p.recursive.GetOr(false)
  }

  // ---------------------------------------------------------------------------
  // The copy command
  // ---------------------------------------------------------------------------

  const CopyPrefix := "az storage copy -s "
  const DestinationOption := " -d "
  const RecursiveFlag := " --recursive"

  /** deployAzureStorage.cmd(): the copy command. Neither path is quoted; the
      recursive flag is appended exactly when `recursive` holds. */
  function CopyCommand(sourcePath: string, destination: string, recursive: bool): string
  {
    var command := CopyPrefix + sourcePath + DestinationOption + destination;
    if recursive then command + RecursiveFlag else command
  }

  /** The command starts with the copy of `sourcePath` to `destination`, and
      the recursive flag follows exactly when `recursive` holds. */
  lemma CopyCommandFlag(sourcePath: string, destination: string, recursive: bool)
    ensures var base := CopyPrefix + sourcePath + DestinationOption + destination;
            var r := CopyCommand(sourcePath, destination, recursive);
            && base <= r
            && (recursive <==> |r| > |base|)
            && r[|base|..] == if recursive then RecursiveFlag else ""
  {
  }

  /** The copy command spelled out word by word. */
  lemma CopyCommandSpelled(sourcePath: string, destination: string, recursive: bool)
    ensures CopyCommand(sourcePath, destination, recursive)
            == Unwords(["az", "storage", "copy", "-s", sourcePath, "-d", destination]
                       + (if recursive then ["--recursive"] else []))
  {
    var last := if recursive then [destination, "--recursive"] else [destination];
    var tail := if recursive then RecursiveFlag else "";
    assert Unwords(last) == destination + tail by {
      if recursive {
        UnwordsCons(destination, ["--recursive"]);
        RecursiveFlagSpelled();
      }
    }
    var words := ["az", "storage", "copy", "-s", sourcePath, "-d", destination]
                 + (if recursive then ["--recursive"] else []);
    assert words == ["az", "storage", "copy", "-s", sourcePath, "-d"] + last;
    UnwordsCopyWords(sourcePath, last);
    CopyCommandText(sourcePath, destination + tail);
  }

  /** The recursive flag is a space followed by the `--recursive` word. */
  lemma RecursiveFlagSpelled()
    ensures " " + "--recursive" == RecursiveFlag
  {
    var r := " " + "--recursive";
    forall i | 0 <= i < |r|
      ensures r[i] == RecursiveFlag[i]
    {
      if i > 0 {
        assert r[i] == "--recursive"[i - 1];
      }
    }
  }

  /** Unwords of the copy command's fixed words followed by `last`. */
  lemma UnwordsCopyWords(sourcePath: string, last: seq<string>)
    requires last != []
    ensures Unwords(["az", "storage", "copy", "-s", sourcePath, "-d"] + last)
            == "az" + " " + ("storage" + " " + ("copy" + " " + ("-s" + " " + (sourcePath + " " + ("-d" + " " + Unwords(last))))))
  {
    var w0 := ["az", "storage", "copy", "-s", sourcePath, "-d"] + last;
    var w1 := w0[1..];
    var w2 := w1[1..];
    var w3 := w2[1..];
    var w4 := w3[1..];
    var w5 := w4[1..];
    assert w5[1..] == last;
    assert Unwords(w5) == "-d" + " " + Unwords(last);
    assert Unwords(w4) == sourcePath + " " + Unwords(w5);
    assert Unwords(w3) == "-s" + " " + Unwords(w4);
    assert Unwords(w2) == "copy" + " " + Unwords(w3);
    assert Unwords(w1) == "storage" + " " + Unwords(w2);
    assert Unwords(w0) == "az" + " " + Unwords(w1);
  }

  lemma CopyCommandText(sourcePath: string, rest: string)
    ensures CopyPrefix + sourcePath + DestinationOption + rest
            == "az" + " " + ("storage" + " " + ("copy" + " " + ("-s" + " " + (sourcePath + " " + ("-d" + " " + rest)))))
  {
  }

  /** When both paths are plain words, a Posix shell passes `az` exactly the
      intended words: the source, the destination, and the flag only when
      recursive. */
  lemma CopyCommandWords(sourcePath: string, destination: string, recursive: bool)
    requires PlainWord(sourcePath) && PlainWord(destination)
    ensures Words(CopyCommand(sourcePath, destination, recursive))
            == ["az", "storage", "copy", "-s", sourcePath, "-d", destination]
               + (if recursive then ["--recursive"] else [])
  {
    var ws := ["az", "storage", "copy", "-s", sourcePath, "-d", destination]
              + (if recursive then ["--recursive"] else []);
    PlainWordHasNoSpace(sourcePath);
    PlainWordHasNoSpace(destination);
    CopyCommandSpelled(sourcePath, destination, recursive);
    WordsUnwords(ws);
  }

  /** Because the source is not quoted, a source path made of two plain words
      and a space reaches `az` as two words: `-s` takes only the first. */
  lemma UnquotedSourceSplits(first: string, second: string, destination: string)
    requires PlainWord(first) && PlainWord(second) && PlainWord(destination)
    ensures Words(CopyCommand(first + " " + second, destination, false))
            == ["az", "storage", "copy", "-s", first, second, "-d", destination]
  {
    PlainWordHasNoSpace(first);
    PlainWordHasNoSpace(second);
    PlainWordHasNoSpace(destination);
    var fs := first + " " + second;
    var r := ["-d", destination];
    var s2 := [second] + r;
    var a4 := [fs] + r;
    var b4 := [first] + s2;
    UnwordsCons(fs, r);
    UnwordsCons(second, r);
    UnwordsCons(first, s2);
    assert Unwords(a4) == Unwords(b4);
    var prefix := ["az", "storage", "copy", "-s"];
    UnwordsAppend(prefix, a4);
    UnwordsAppend(prefix, b4);
    CopyCommandSpelled(fs, destination, false);
    assert ["az", "storage", "copy", "-s", fs, "-d", destination] + [] == prefix + a4;
    var words := ["az", "storage", "copy", "-s", first, second, "-d", destination];
    assert words == prefix + b4;
    WordsUnwords(words);
  }

  /** The default source is not a plain word: its `*` is a pattern that a
      Posix shell expands into the entries of `frontend/build` when it
      matches some, and leaves as it is when it matches none, so
      `CopyCommandWords` says nothing about the default copy. */
  lemma DefaultSourceIsPattern(platform: FrontendPath.Platform)
    ensures !PlainWord(DefaultSourcePath(platform))
    ensures DefaultSourcePath(platform)[|DefaultSourcePath(platform)| - 1] == '*'
  {
    DefaultSourcePathValue(platform);
    var d := "frontend/build/*";
    assert d[15] == '*';
    assert d[15] in " \t\n'\"`$~*?[]{}\\#;&|<>()";
  }

  // ---------------------------------------------------------------------------
  // Flag validation and preflight
  // ---------------------------------------------------------------------------

  /** Neither a username nor both service-principal ids were given. */
  predicate CredentialsAbsent(p: Program)
  {
    p.username.None? && (p.clientId.None? || p.tenantId.None?)
  }

  /** The order in which validateOrExit checks its rules. */
  function Rank(message: string): nat
  {
    if message == CredentialsMissing then 0
    else if message == SecretMissing then 1
    else 2
  }

  /** The errors validateOrExit collects, in the order it checks its rules. */
  function ValidationErrors(p: Program): seq<string>
  {
    (if CredentialsAbsent(p) then [CredentialsMissing] else [])
    + (if p.secret.None? then [SecretMissing] else [])
    + (if p.destination.None? then [DestinationMissing] else [])
  }

  /** Every rule is checked and each broken one adds its own message: the
      credential rule, the secret and the destination, in that order, each at
      most once. The flags are acceptable exactly when there is a username or
      both service-principal ids, a secret and a destination. */
  lemma ValidationErrorsCollected(p: Program)
    ensures var errors := ValidationErrors(p);
            && (CredentialsMissing in errors <==> CredentialsAbsent(p))
            && (SecretMissing in errors <==> p.secret.None?)
            && (DestinationMissing in errors <==> p.destination.None?)
            && (forall i :: 0 <= i < |errors| ==>
                  errors[i] == CredentialsMissing || errors[i] == SecretMissing
                  || errors[i] == DestinationMissing)
            && (forall i, j :: 0 <= i < j < |errors| ==> Rank(errors[i]) < Rank(errors[j]))
            && (errors == [] <==>
                  (p.username.Some? || (p.clientId.Some? && p.tenantId.Some?))
                  && p.secret.Some? && p.destination.Some?)
  {
  }

  /** The Azure CLI is usable after the preflight: found, or installed
      through pip. */
  predicate PreflightPasses(tools: Tools)
  {
    tools.azFound || (tools.pipFound && tools.pipInstallCode == 0)
  }

  /** What validateOrExit does after the flags passed: look for `az`, and
      without it look for pip and install the Azure CLI with it. */
  function PreflightTrace(tools: Tools): Trace
  {
    [Which("az")] +
    if tools.azFound then []
    else
      [Which("pip")] +
      if !tools.pipFound then [ReportError(PipRequired), Exit(1)]
      else
        [Exec(PipInstall)] +
        if tools.pipInstallCode != 0 then [ReportError(PipInstallFailed), Exit(1)]
        else [ReportSuccess(AzureCliInstalled)]
  }

  /** The preflight looks for `az` first; with `az` present it does nothing
      more; it exits, with code 1, exactly when neither `az` is found nor
      pip is found and installs the Azure CLI, and only as its last step. */
  lemma PreflightOutcomes(tools: Tools)
    ensures var t := PreflightTrace(tools);
            && |t| > 0 && t[0] == Which("az")
            && (tools.azFound ==> t == [Which("az")])
            && (Exited(t) <==> !PreflightPasses(tools))
            && (Exited(t) ==> t[|t| - 1] == Exit(1))
            && (!tools.azFound && !tools.pipFound ==> Exec(PipInstall) !in t)
            && ExitsOnlyAtEnd(t)
  {
  }

  /** What validateOrExit does: report every flag error at once and exit, or
      run the preflight. */
  function ValidateTrace(p: Program, tools: Tools): Trace
  {
    var errors := ValidationErrors(p);
    if |errors| > 0 then [ReportErrors(errors), Exit(1)] else PreflightTrace(tools)
  }

  // ---------------------------------------------------------------------------
  // The run sequence
  // ---------------------------------------------------------------------------

  /** `program.publicUrl` is truthy: given and not empty. */
  predicate PublicUrlGiven(p: Program)
  {
    p.publicUrl.Some? && p.publicUrl.value != ""
  }

  /** The local webpack publish is requested. */
  predicate PublishRequested(p: Program)
  {
    p.publish && p.webpack
  }

  /** The login that run performs: with the username when there is one,
      otherwise as the service principal. */
  function Login(p: Program): Action
    requires ValidationErrors(p) == []
  {
    if p.username.Some? then LoginUser(p.username.value, p.secret.value)
    else LoginServicePrincipal(p.clientId.value, p.tenantId.value, p.secret.value)
  }

  /** The steps of run before the login: the public-url configuration, and
      the webpack publish when it is requested. */
  function PrepareTrace(p: Program): Trace
  {
    (if PublicUrlGiven(p) then [ConfigurePublicUrl(p.publicUrl.value)] else [])
    + (if PublishRequested(p) then [WebpackPublish] else [])
  }

  /** The copy command run by the script. */
  function CopyAction(defaultSource: string, p: Program): Action
    requires ValidationErrors(p) == []
  {
    Exec(CopyCommand(SourcePath(defaultSource, p), p.destination.value, Recursive(p)))
  }

  /** The steps of run after the copy: on failure an error, the logout and an
      exit with 1; on success the logout and the success report. */
  function CopyTail(tools: Tools): Trace
  {
    if tools.copyCode != 0 then [ReportError(CopyFailed), Logout, Exit(1)]
    else [Logout, ReportSuccess(Deployed)]
  }

  /** The steps of run from the login on. */
  function SessionTrace(defaultSource: string, p: Program, tools: Tools): Trace
    requires ValidationErrors(p) == []
  {
    [Login(p)] + [CopyAction(defaultSource, p)] + CopyTail(tools)
  }

  /** What run does once validateOrExit has returned. */
  function DeployTrace(defaultSource: string, p: Program, tools: Tools): Trace
    requires ValidationErrors(p) == []
  {
    var prepared := PrepareTrace(p);
    if PublishRequested(p) && !tools.webpackPublishOk then prepared + [Exit(1)]
    else prepared + SessionTrace(defaultSource, p, tools)
  }

  /** What deployAzureStorage.run() does, from the parsed options and the
      answers of the tools. */
  function RunTrace(defaultSource: string, p: Program, tools: Tools): Trace
  {
    var validation := ValidateTrace(p, tools);
    if Exited(validation) then validation else validation + DeployTrace(defaultSource, p, tools)
  }

  /** Lines 130-144 of validateOrExit: look for `az`, and without it look for
      pip and install the Azure CLI with it. */
  method CheckAzureCli(tools: Tools) returns (trace: Trace)
    ensures trace == PreflightTrace(tools)
  {
    trace := [Which("az")];
    if !tools.azFound {
      trace := trace + [Which("pip")];
      if !tools.pipFound {
        trace := trace + [ReportError(PipRequired), Exit(1)];
        return;
      }
      trace := trace + [Exec(PipInstall)];
      if tools.pipInstallCode != 0 {
        trace := trace + [ReportError(PipInstallFailed), Exit(1)];
        return;
      }
      trace := trace + [ReportSuccess(AzureCliInstalled)];
    }
  }

  // ---------------------------------------------------------------------------
  // Properties of run
  // ---------------------------------------------------------------------------

  /** The flags are valid, the Azure CLI is usable and any requested publish
      succeeded: run goes on to log in and copy. */
  predicate Proceeds(p: Program, tools: Tools)
  {
    && ValidationErrors(p) == []
    && PreflightPasses(tools)
    && !(PublishRequested(p) && !tools.webpackPublishOk)
  }

  /** No external tool is called: no lookup, command, publish, login or
      logout. */
  predicate TouchesNoTool(t: Trace)
  {
    forall i :: 0 <= i < |t| ==>
      !t[i].Which? && !t[i].Exec? && !t[i].WebpackPublish? && !t[i].ConfigurePublicUrl?
      && !IsLogin(t[i]) && !t[i].Logout?
  }

  /** run unfolded case by case, for the proofs below: the flag errors and
      their exit; the preflight alone when it exits; the preparation and an
      exit when the publish fails; and otherwise the preflight, the
      preparation and the session. */
  lemma RunTraceCases(defaultSource: string, p: Program, tools: Tools)
    ensures var t := RunTrace(defaultSource, p, tools);
            && (ValidationErrors(p) != [] ==> t == [ReportErrors(ValidationErrors(p)), Exit(1)])
            && (ValidationErrors(p) == [] && !PreflightPasses(tools) ==> t == PreflightTrace(tools))
            && (ValidationErrors(p) == [] && PreflightPasses(tools)
                && PublishRequested(p) && !tools.webpackPublishOk
                ==> t == PreflightTrace(tools) + (PrepareTrace(p) + [Exit(1)]))
            && (Proceeds(p, tools)
                ==> t == PreflightTrace(tools) + (PrepareTrace(p) + SessionTrace(defaultSource, p, tools)))
  {
    PreflightOutcomes(tools);
  }

  /** Neither a login nor a logout nor the report of flag errors. */
  predicate OutsideSession(a: Action)
  {
    !IsLogin(a) && !a.Logout? && !a.ReportErrors?
  }

  /** The preflight only looks for tools and installs the Azure CLI: it does
      not log in or out, publish, or report flag errors. */
  lemma PreflightSteps(tools: Tools)
    ensures var t := PreflightTrace(tools);
            forall i :: 0 <= i < |t| ==>
              OutsideSession(t[i]) && t[i] != WebpackPublish
              && (t[i].Exec? ==> t[i] == Exec(PipInstall))
  {
  }

  /** The preparation only configures the public url and runs the webpack
      publish, the latter exactly when it is requested. */
  lemma PrepareSteps(p: Program)
    ensures var t := PrepareTrace(p);
            && (forall i :: 0 <= i < |t| ==> t[i].ConfigurePublicUrl? || t[i] == WebpackPublish)
            && (WebpackPublish in t <==> PublishRequested(p))
  {
  }

  /** The copy command is not the pip install. */
  lemma CopyIsNotPipInstall(defaultSource: string, p: Program)
    requires ValidationErrors(p) == []
    ensures CopyAction(defaultSource, p) != Exec(PipInstall)
  {
    var command := CopyCommand(SourcePath(defaultSource, p), p.destination.value, Recursive(p));
    assert PipInstall[0] == 'p';
    assert command[0] == 'a';
  }

  /** The session in order: the login, the copy, the logout, and then an exit
      with 1 exactly when the copy failed, or else the success report. */
  lemma SessionOrder(login: Action, copy: Action, tools: Tools)
    ensures var s := [login] + [copy] + CopyTail(tools);
            && s[0] == login && s[1] == copy
            && (Exited(s) <==> tools.copyCode != 0)
            && (Exited(s) ==> s[|s| - 1] == Exit(1) && Precedes(s, Logout, Exit(1)))
            && (!Exited(s) ==> s[|s| - 1] == ReportSuccess(Deployed))
            && Precedes(s, login, copy) && Precedes(s, copy, Logout)
  {
    var s := [login] + [copy] + CopyTail(tools);
    if tools.copyCode != 0 {
      assert s[3] == Logout && s[4] == Exit(1);
    } else {
      assert s[2] == Logout;
    }
  }

  /** After the login, the session does not log in again, run another
      command, publish or report flag errors, and it exits only at its end. */
  lemma SessionKinds(login: Action, copy: Action, tools: Tools)
    requires IsLogin(login) && copy.Exec?
    ensures var s := [login] + [copy] + CopyTail(tools);
            && (forall i :: 0 < i < |s| ==>
                  !IsLogin(s[i]) && !s[i].ReportErrors? && !s[i].Which?
                  && s[i] != WebpackPublish && (s[i].Exec? ==> i == 1))
            && ExitsOnlyAtEnd(s)
  {
  }

  /** The session logs in once and logs out once. */
  lemma SessionCounts(login: Action, copy: Action, tools: Tools)
    requires IsLogin(login) && copy.Exec?
    ensures var s := [login] + [copy] + CopyTail(tools);
            Logins(s) == 1 && multiset(s)[Logout] == 1
  {
    SessionLogins(login, copy, CopyTail(tools));
    SessionLogouts(login, copy, tools);
  }

  /** A login, a step that is not one, then steps without logins: one login. */
  lemma SessionLogins(login: Action, copy: Action, tail: Trace)
    requires IsLogin(login) && !IsLogin(copy)
    requires forall i :: 0 <= i < |tail| ==> !IsLogin(tail[i])
    ensures Logins([login] + [copy] + tail) == 1
  {
    NoLogins(tail);
    LoginsAppend([login] + [copy], tail);
    LoginsAppend([login], [copy]);
    assert Logins([login]) == 1 && Logins([copy]) == 0;
  }

  /** The session logs out once. */
  lemma SessionLogouts(login: Action, copy: Action, tools: Tools)
    requires IsLogin(login) && copy.Exec?
    ensures multiset([login] + [copy] + CopyTail(tools))[Logout] == 1
  {
    assert multiset([login] + [copy])[Logout] == 0;
  }

  /** With any flag error, every error is reported in one go and the script
      exits with 1 before it looks for `az`, installs, publishes, logs in,
      copies or logs out. */
  lemma FlagErrorsExitFirst(defaultSource: string, p: Program, tools: Tools)
    requires ValidationErrors(p) != []
    ensures var t := RunTrace(defaultSource, p, tools);
            && t == [ReportErrors(ValidationErrors(p)), Exit(1)]
            && TouchesNoTool(t)
  {
  }

  /** Flag errors are reported at most once and only as the first step, so
      the second error check of validateOrExit never adds to the trace. */
  lemma FlagErrorsReportedOnlyFirst(defaultSource: string, p: Program, tools: Tools)
    ensures var t := RunTrace(defaultSource, p, tools);
            forall i :: 0 < i < |t| ==> !t[i].ReportErrors?
  {
    var t := RunTrace(defaultSource, p, tools);
    RunTraceCases(defaultSource, p, tools);
    if ValidationErrors(p) == [] {
      var v := PreflightTrace(tools);
      PreflightSteps(tools);
      if PreflightPasses(tools) {
        var prepared := PrepareTrace(p);
        PrepareSteps(p);
        var rest := if Proceeds(p, tools) then SessionTrace(defaultSource, p, tools) else [Exit(1)];
        if Proceeds(p, tools) {
          SessionKinds(Login(p), CopyAction(defaultSource, p), tools);
        }
        assert t == v + (prepared + rest);
        forall i | 0 < i < |t|
          ensures !t[i].ReportErrors?
        {
          if |v| <= i < |v| + |prepared| {
            assert t[i] == prepared[i - |v|];
          } else if |v| + |prepared| <= i {
            assert t[i] == rest[i - |v| - |prepared|];
          }
        }
      }
    }
  }

  /** The preflight: with `az` present nothing is installed; with neither
      `az` nor pip, or with a failed `pip install azure-cli`, the script
      exits with 1 before publishing or logging in. */
  lemma PreflightGuardsRun(defaultSource: string, p: Program, tools: Tools)
    requires ValidationErrors(p) == []
    ensures var t := RunTrace(defaultSource, p, tools);
            && t[0] == Which("az")
            && (tools.azFound ==> Which("pip") !in t && Exec(PipInstall) !in t)
            && (!tools.azFound && !tools.pipFound ==> Exec(PipInstall) !in t)
            && (!PreflightPasses(tools) ==>
                  && Exited(t) && t[|t| - 1] == Exit(1)
                  && WebpackPublish !in t && Logins(t) == 0)
  {
    var t := RunTrace(defaultSource, p, tools);
    var v := PreflightTrace(tools);
    RunTraceCases(defaultSource, p, tools);
    PreflightOutcomes(tools);
    PreflightSteps(tools);
    NoLogins(v);
    if tools.azFound {
      AzFoundInstallsNothing(defaultSource, p, tools);
    }
  }

  /** With `az` already on the path, neither pip nor `pip install` is used. */
  lemma AzFoundInstallsNothing(defaultSource: string, p: Program, tools: Tools)
    requires ValidationErrors(p) == [] && tools.azFound
    ensures var t := RunTrace(defaultSource, p, tools);
            Which("pip") !in t && Exec(PipInstall) !in t
  {
    var t := RunTrace(defaultSource, p, tools);
    RunTraceCases(defaultSource, p, tools);
    PreflightOutcomes(tools);
    var prepared := PrepareTrace(p);
    PrepareSteps(p);
    assert Which("pip") !in prepared && Exec(PipInstall) !in prepared;
    if Proceeds(p, tools) {
      var s := SessionTrace(defaultSource, p, tools);
      SessionKinds(Login(p), CopyAction(defaultSource, p), tools);
      CopyIsNotPipInstall(defaultSource, p);
      assert Which("pip") !in s && Exec(PipInstall) !in s;
      assert t == [Which("az")] + (prepared + s);
    } else {
      assert t == [Which("az")] + (prepared + [Exit(1)]);
    }
  }

  /** The webpack publish never runs unless both `--publish` and `--webpack`
      are set. */
  lemma PublishNeedsRequest(defaultSource: string, p: Program, tools: Tools)
    ensures WebpackPublish in RunTrace(defaultSource, p, tools) ==> PublishRequested(p)
  {
    var t := RunTrace(defaultSource, p, tools);
    RunTraceCases(defaultSource, p, tools);
    if ValidationErrors(p) == [] {
      var v := PreflightTrace(tools);
      PreflightSteps(tools);
      if PreflightPasses(tools) && !PublishRequested(p) {
        var prepared := PrepareTrace(p);
        PrepareSteps(p);
        var s := SessionTrace(defaultSource, p, tools);
        SessionKinds(Login(p), CopyAction(defaultSource, p), tools);
        assert WebpackPublish !in s;
        assert t == v + (prepared + s);
      }
    }
  }

  /** Once validation and the preflight pass, a requested publish always
      runs. */
  lemma RequestedPublishRuns(defaultSource: string, p: Program, tools: Tools)
    requires ValidationErrors(p) == [] && PreflightPasses(tools) && PublishRequested(p)
    ensures WebpackPublish in RunTrace(defaultSource, p, tools)
  {
    RunTraceCases(defaultSource, p, tools);
    PrepareSteps(p);
  }

  /** A failed publish makes the script exit with 1 before it logs in. */
  lemma FailedPublishStops(defaultSource: string, p: Program, tools: Tools)
    requires ValidationErrors(p) == [] && PreflightPasses(tools) && PublishRequested(p)
    requires !tools.webpackPublishOk
    ensures var t := RunTrace(defaultSource, p, tools);
            Exited(t) && t[|t| - 1] == Exit(1) && Logins(t) == 0
  {
    RunTraceCases(defaultSource, p, tools);
    PreflightOutsideSession(tools);
    PrepareOutsideSession(p);
    StopsAfterPrelude(PreflightTrace(tools), PrepareTrace(p));
  }

  /** An exit with 1 after steps that do not log in ends a trace without a
      login. */
  lemma StopsAfterPrelude(v: Trace, prepared: Trace)
    requires Logins(v) == 0 && Logins(prepared) == 0
    ensures var t := v + (prepared + [Exit(1)]);
            Exited(t) && t[|t| - 1] == Exit(1) && Logins(t) == 0
  {
    LoginsAppend(prepared, [Exit(1)]);
    LoginsAppend(v, prepared + [Exit(1)]);
  }

  /** Steps without logins and logouts in front of a trace change neither
      count. */
  lemma CountsAfterPrelude(v: Trace, prepared: Trace, rest: Trace)
    requires Logins(v) == 0 && Logins(prepared) == 0
    requires multiset(v)[Logout] == 0 && multiset(prepared)[Logout] == 0
    ensures Logins(v + (prepared + rest)) == Logins(rest)
    ensures multiset(v + (prepared + rest))[Logout] == multiset(rest)[Logout]
  {
    LoginsAppend(prepared, rest);
    LoginsAppend(v, prepared + rest);
  }

  /** The preflight neither logs in nor logs out. */
  lemma PreflightOutsideSession(tools: Tools)
    ensures Logins(PreflightTrace(tools)) == 0 && multiset(PreflightTrace(tools))[Logout] == 0
  {
    var t := PreflightTrace(tools);
    PreflightSteps(tools);
    NoLogins(t);
    assert Logout !in t;
  }

  /** The preparation neither logs in nor logs out. */
  lemma PrepareOutsideSession(p: Program)
    ensures Logins(PrepareTrace(p)) == 0 && multiset(PrepareTrace(p))[Logout] == 0
  {
    var t := PrepareTrace(p);
    PrepareSteps(p);
    NoLogins(t);
    assert Logout !in t;
  }

  /** A preflight that lets the script go on never exits. */
  lemma PreflightNeverExits(tools: Tools)
    requires PreflightPasses(tools)
    ensures NeverExits(PreflightTrace(tools))
  {
  }

  /** The preparation never exits; a failed publish exits after it. */
  lemma PrepareNeverExits(p: Program)
    ensures NeverExits(PrepareTrace(p))
  {
  }

  /** Steps that never exit in front of a trace that exits only at its end:
      the whole exits only at its end, and ends as that trace does. */
  lemma ExitsOnlyAtEndAfter(v: Trace, prepared: Trace, rest: Trace)
    requires NeverExits(v) && NeverExits(prepared)
    requires ExitsOnlyAtEnd(rest) && rest != []
    ensures ExitsOnlyAtEnd(v + (prepared + rest))
    ensures (v + (prepared + rest))[|v + (prepared + rest)| - 1] == rest[|rest| - 1]
  {
    ExitsOnlyAtEndAppend(prepared, rest);
    ExitsOnlyAtEndAppend(v, prepared + rest);
  }

  /** run, when it gets to log in, exits only as its last step, and then
      with code 1. */
  lemma ProceedingRunExitsAtEnd(defaultSource: string, p: Program, tools: Tools)
    requires Proceeds(p, tools)
    ensures var t := RunTrace(defaultSource, p, tools);
            && ExitsOnlyAtEnd(t)
            && (Exited(t) ==> t[|t| - 1] == Exit(1))
  {
    RunTraceCases(defaultSource, p, tools);
    PreflightNeverExits(tools);
    PrepareNeverExits(p);
    SessionOrder(Login(p), CopyAction(defaultSource, p), tools);
    SessionKinds(Login(p), CopyAction(defaultSource, p), tools);
    ExitsOnlyAtEndAfter(PreflightTrace(tools), PrepareTrace(p), SessionTrace(defaultSource, p, tools));
  }

  /** run exits only as its last step, and then with code 1. */
  lemma RunExitsAtEnd(defaultSource: string, p: Program, tools: Tools)
    ensures var t := RunTrace(defaultSource, p, tools);
            && ExitsOnlyAtEnd(t)
            && (Exited(t) ==> t[|t| - 1] == Exit(1))
  {
    if Proceeds(p, tools) {
      ProceedingRunExitsAtEnd(defaultSource, p, tools);
    } else {
      RunTraceCases(defaultSource, p, tools);
      PreflightOutcomes(tools);
      if ValidationErrors(p) == [] && PreflightPasses(tools) {
        PreflightNeverExits(tools);
        PrepareNeverExits(p);
        ExitsOnlyAtEndAfter(PreflightTrace(tools), PrepareTrace(p), [Exit(1)]);
      }
    }
  }

  /** run logs in once exactly when it gets past validation, preflight and
      publish, and logs out as often as it logs in. */
  lemma RunLogsOutAfterLogin(defaultSource: string, p: Program, tools: Tools)
    ensures var t := RunTrace(defaultSource, p, tools);
            && (Logins(t) == 1 <==> Proceeds(p, tools))
            && Logins(t) == multiset(t)[Logout] <= 1
  {
    if Proceeds(p, tools) {
      ProceedingRunCounts(defaultSource, p, tools);
    } else {
      StoppedRunCounts(defaultSource, p, tools);
    }
  }

  /** A run that gets to the login logs in once and logs out once. */
  lemma ProceedingRunCounts(defaultSource: string, p: Program, tools: Tools)
    requires Proceeds(p, tools)
    ensures var t := RunTrace(defaultSource, p, tools);
            Logins(t) == 1 && multiset(t)[Logout] == 1
  {
    RunTraceCases(defaultSource, p, tools);
    PreflightOutsideSession(tools);
    PrepareOutsideSession(p);
    SessionCounts(Login(p), CopyAction(defaultSource, p), tools);
    CountsAfterPrelude(PreflightTrace(tools), PrepareTrace(p), SessionTrace(defaultSource, p, tools));
  }

  /** A run that stops before the login neither logs in nor logs out. */
  lemma StoppedRunCounts(defaultSource: string, p: Program, tools: Tools)
    requires !Proceeds(p, tools)
    ensures var t := RunTrace(defaultSource, p, tools);
            Logins(t) == 0 && multiset(t)[Logout] == 0
  {
    if ValidationErrors(p) != [] {
      FlagErrorsNoSession(defaultSource, p, tools);
    } else if !PreflightPasses(tools) {
      RunTraceCases(defaultSource, p, tools);
      PreflightOutsideSession(tools);
    } else {
      FailedPublishNoSession(defaultSource, p, tools);
    }
  }

  /** With a flag error the run neither logs in nor logs out. */
  lemma FlagErrorsNoSession(defaultSource: string, p: Program, tools: Tools)
    requires ValidationErrors(p) != []
    ensures var t := RunTrace(defaultSource, p, tools);
            Logins(t) == 0 && multiset(t)[Logout] == 0
  {
    var t := RunTrace(defaultSource, p, tools);
    FlagErrorsNoLogin(defaultSource, p, tools);
    NoLogins(t);
  }

  /** A failed publish ends the run before any login or logout. */
  lemma FailedPublishNoSession(defaultSource: string, p: Program, tools: Tools)
    requires ValidationErrors(p) == [] && PreflightPasses(tools)
    requires PublishRequested(p) && !tools.webpackPublishOk
    ensures var t := RunTrace(defaultSource, p, tools);
            Logins(t) == 0 && multiset(t)[Logout] == 0
  {
    RunTraceCases(defaultSource, p, tools);
    PreflightOutsideSession(tools);
    PrepareOutsideSession(p);
    CountsAfterPrelude(PreflightTrace(tools), PrepareTrace(p), [Exit(1)]);
  }

  /** Every login of run is the one `Login` chooses from the flags. */
  lemma RunLogsInAsChosen(defaultSource: string, p: Program, tools: Tools)
    ensures var t := RunTrace(defaultSource, p, tools);
            forall i :: 0 <= i < |t| && IsLogin(t[i]) ==>
              ValidationErrors(p) == [] && t[i] == Login(p)
  {
    var t := RunTrace(defaultSource, p, tools);
    if Proceeds(p, tools) {
      ProceedingRunLogsInAsChosen(defaultSource, p, tools);
    } else {
      RunTraceCases(defaultSource, p, tools);
      if ValidationErrors(p) == [] {
        PreflightSteps(tools);
        if PreflightPasses(tools) {
          PrepareSteps(p);
          OnlyLoginAfterPrelude(PreflightTrace(tools), PrepareTrace(p), [Exit(1)], Login(p));
        }
      } else {
        FlagErrorsNoLogin(defaultSource, p, tools);
      }
    }
  }

  /** With a flag error the run holds no login. */
  lemma FlagErrorsNoLogin(defaultSource: string, p: Program, tools: Tools)
    requires ValidationErrors(p) != []
    ensures var t := RunTrace(defaultSource, p, tools);
            forall i :: 0 <= i < |t| ==> !IsLogin(t[i])
  {
    RunTraceCases(defaultSource, p, tools);
  }

  /** A run that gets to the login logs in only as `Login` chooses. */
  lemma ProceedingRunLogsInAsChosen(defaultSource: string, p: Program, tools: Tools)
    requires Proceeds(p, tools)
    ensures var t := RunTrace(defaultSource, p, tools);
            forall i :: 0 <= i < |t| && IsLogin(t[i]) ==> t[i] == Login(p)
  {
    RunTraceCases(defaultSource, p, tools);
    PreflightSteps(tools);
    PrepareSteps(p);
    SessionLogsInOnce(Login(p), CopyAction(defaultSource, p), tools);
    OnlyLoginAfterPrelude(PreflightTrace(tools), PrepareTrace(p),
                          SessionTrace(defaultSource, p, tools), Login(p));
  }

  /** The session's only login is its first step. */
  lemma SessionLogsInOnce(login: Action, copy: Action, tools: Tools)
    requires IsLogin(login) && copy.Exec?
    ensures var s := [login] + [copy] + CopyTail(tools);
            forall i :: 0 <= i < |s| && IsLogin(s[i]) ==> s[i] == login
  {
    SessionKinds(login, copy, tools);
  }

  /** Logins after steps without any are logins of the rest. */
  lemma OnlyLoginAfterPrelude(v: Trace, prepared: Trace, rest: Trace, login: Action)
    requires forall i :: 0 <= i < |v| ==> !IsLogin(v[i])
    requires forall i :: 0 <= i < |prepared| ==> !IsLogin(prepared[i])
    requires forall i :: 0 <= i < |rest| && IsLogin(rest[i]) ==> rest[i] == login
    ensures var t := v + (prepared + rest);
            forall i :: 0 <= i < |t| && IsLogin(t[i]) ==> t[i] == login
  {
    var t := v + (prepared + rest);
    forall i | 0 <= i < |t| && IsLogin(t[i])
      ensures t[i] == login
    {
      if |v| + |prepared| <= i {
        assert t[i] == rest[i - |v| - |prepared|];
      }
    }
  }

  /** Logins that are all the one `Login` chooses carry the flags' credentials. */
  lemma ChosenLoginsUseFlags(t: Trace, p: Program)
    requires forall i :: 0 <= i < |t| && IsLogin(t[i]) ==>
               ValidationErrors(p) == [] && t[i] == Login(p)
    ensures forall i :: 0 <= i < |t| && t[i].LoginUser? ==>
              p.username == Some(t[i].username) && p.secret == Some(t[i].secret)
    ensures forall i :: 0 <= i < |t| && t[i].LoginServicePrincipal? ==>
              && p.username.None?
              && p.clientId == Some(t[i].clientId) && p.tenantId == Some(t[i].tenantId)
              && p.secret == Some(t[i].secret)
  {
    forall i | 0 <= i < |t| && IsLogin(t[i])
      ensures p.secret == Some(Login(p).secret)
      ensures Login(p).LoginServicePrincipal? ==> p.clientId.Some? && p.tenantId.Some?
    {
      ValidationErrorsCollected(p);
    }
  }

  /** The login gets `(username, secret)` when a username was given and
      `(clientId, tenantId, secret)` otherwise, and happens at most once. */
  lemma LoginUsesGivenCredentials(defaultSource: string, p: Program, tools: Tools)
    ensures var t := RunTrace(defaultSource, p, tools);
            && (forall i :: 0 <= i < |t| && t[i].LoginUser? ==>
                  p.username == Some(t[i].username) && p.secret == Some(t[i].secret))
            && (forall i :: 0 <= i < |t| && t[i].LoginServicePrincipal? ==>
                  && p.username.None?
                  && p.clientId == Some(t[i].clientId) && p.tenantId == Some(t[i].tenantId)
                  && p.secret == Some(t[i].secret))
            && Logins(t) <= 1
  {
    RunLogsInAsChosen(defaultSource, p, tools);
    RunLogsOutAfterLogin(defaultSource, p, tools);
    ChosenLoginsUseFlags(RunTrace(defaultSource, p, tools), p);
  }

  /** When the copy fails, the script logs out exactly once and then exits
      with 1, whatever code the copy returned. */
  lemma CopyFailureLogsOutThenExits(defaultSource: string, p: Program, tools: Tools)
    requires Proceeds(p, tools) && tools.copyCode != 0
    ensures var t := RunTrace(defaultSource, p, tools);
            var copy := CopyAction(defaultSource, p);
            && t[|t| - 1] == Exit(1)
            && multiset(t)[Logout] == 1
            && Precedes(t, Login(p), copy)
            && Precedes(t, copy, Logout)
            && Precedes(t, Logout, Exit(1))
  {
    var t := RunTrace(defaultSource, p, tools);
    var copy := CopyAction(defaultSource, p);
    var v := PreflightTrace(tools);
    var prepared := PrepareTrace(p);
    var s := SessionTrace(defaultSource, p, tools);
    RunTraceCases(defaultSource, p, tools);
    PreflightOutsideSession(tools);
    PrepareOutsideSession(p);
    SessionCounts(Login(p), copy, tools);
    CountsAfterPrelude(v, prepared, s);
    SessionOrder(Login(p), copy, tools);
    assert t == v + (prepared + s);
    PrecedesAppend(prepared, s, Login(p), copy);
    PrecedesAppend(v, prepared + s, Login(p), copy);
    PrecedesAppend(prepared, s, copy, Logout);
    PrecedesAppend(v, prepared + s, copy, Logout);
    PrecedesAppend(prepared, s, Logout, Exit(1));
    PrecedesAppend(v, prepared + s, Logout, Exit(1));
  }

  /** When the copy succeeds, the script logs out exactly once, never exits,
      and reports success as its last step. */
  lemma CopySuccessLogsOutThenReports(defaultSource: string, p: Program, tools: Tools)
    requires Proceeds(p, tools) && tools.copyCode == 0
    ensures var t := RunTrace(defaultSource, p, tools);
            var copy := CopyAction(defaultSource, p);
            && NeverExits(t)
            && t[|t| - 1] == ReportSuccess(Deployed)
            && multiset(t)[Logout] == 1
            && Precedes(t, Login(p), copy)
            && Precedes(t, copy, Logout)
  {
    var t := RunTrace(defaultSource, p, tools);
    var copy := CopyAction(defaultSource, p);
    var v := PreflightTrace(tools);
    var prepared := PrepareTrace(p);
    var s := SessionTrace(defaultSource, p, tools);
    RunTraceCases(defaultSource, p, tools);
    PreflightOutsideSession(tools);
    PrepareOutsideSession(p);
    SessionCounts(Login(p), copy, tools);
    CountsAfterPrelude(v, prepared, s);
    SessionOrder(Login(p), copy, tools);
    RunExitsAtEnd(defaultSource, p, tools);
    PrecedesAppend(prepared, s, Login(p), copy);
    PrecedesAppend(v, prepared + s, Login(p), copy);
    PrecedesAppend(prepared, s, copy, Logout);
    PrecedesAppend(v, prepared + s, copy, Logout);
  }

  /** The copy takes `--source` when given and the frontend release folder
      otherwise, and is recursive only when `--recursive` was given. */
  lemma CopyUsesDefaults(platform: FrontendPath.Platform, p: Program, tools: Tools)
    requires Proceeds(p, tools)
    ensures var t := RunTrace(DefaultSourcePath(platform), p, tools);
            var source := if p.source.Some? then p.source.value else "frontend/build/*";
            var recursive := p.recursive.Some? && p.recursive.value;
            Exec(CopyCommand(source, p.destination.value, recursive)) in t
  {
    DefaultSourcePathValue(platform);
    RunCopies(DefaultSourcePath(platform), p, tools);
  }

  /** A run that gets to the login copies the chosen source. */
  lemma RunCopies(defaultSource: string, p: Program, tools: Tools)
    requires Proceeds(p, tools)
    ensures CopyAction(defaultSource, p) in RunTrace(defaultSource, p, tools)
  {
    var s := SessionTrace(defaultSource, p, tools);
    RunTraceCases(defaultSource, p, tools);
    SessionOrder(Login(p), CopyAction(defaultSource, p), tools);
    assert CopyAction(defaultSource, p) in s;
  }

  /** One fixed deployment: username `u`, secret `s` and a destination, and
      no other option; `az` installed, pip absent, and a successful copy.
      The run looks for `az`, logs in with the username, copies the release
      folder, logs out and reports success. */
  lemma UsernameDeployment(platform: FrontendPath.Platform, destination: string)
    ensures var p := UsernameProgram(destination);
            RunTrace(DefaultSourcePath(platform), p, Tools(true, false, 0, false, 0))
            == [Which("az"), LoginUser("u", "s"),
                Exec(CopyPrefix + "frontend/build/*" + DestinationOption + destination),
                Logout, ReportSuccess(Deployed)]
  {
    DefaultSourcePathValue(platform);
    UsernameRun(DefaultSourcePath(platform), destination);
  }

  /** The username deployment copying from any default source path. */
  lemma UsernameRun(defaultSource: string, destination: string)
    ensures RunTrace(defaultSource, UsernameProgram(destination), Tools(true, false, 0, false, 0))
            == [Which("az"), LoginUser("u", "s"),
                Exec(CopyPrefix + defaultSource + DestinationOption + destination),
                Logout, ReportSuccess(Deployed)]
  {
    var p := UsernameProgram(destination);
    var tools := Tools(true, false, 0, false, 0);
    UsernameProgramValid(destination);
    RunTraceCases(defaultSource, p, tools);
    PreflightOutcomes(tools);
    assert PrepareTrace(p) == [];
    UsernameSession(defaultSource, destination);
    var copy := Exec(CopyCommand(defaultSource, destination, false));
    var session := [LoginUser("u", "s"), copy, Logout, ReportSuccess(Deployed)];
    assert [Which("az")] + ([] + session)
        == [Which("az"), LoginUser("u", "s"), copy, Logout, ReportSuccess(Deployed)];
  }

  /** Flags naming a username `u`, a secret `s` and a destination. */
  function UsernameProgram(destination: string): Program
  {
    Program(None, Some(destination), None, false, None, Some("s"), None, None, Some("u"), false)
  }

  /** The username deployment's flags pass validation. */
  lemma UsernameProgramValid(destination: string)
    ensures ValidationErrors(UsernameProgram(destination)) == []
  {
  }

  /** The username deployment's session after a successful copy. */
  lemma UsernameSession(defaultSource: string, destination: string)
    requires ValidationErrors(UsernameProgram(destination)) == []
    ensures SessionTrace(defaultSource, UsernameProgram(destination), Tools(true, false, 0, false, 0))
            == [LoginUser("u", "s"), Exec(CopyCommand(defaultSource, destination, false)),
                Logout, ReportSuccess(Deployed)]
  {
  }

  // ---------------------------------------------------------------------------
  // The script's state
  // ---------------------------------------------------------------------------

  /** The script's module-level variables, which validateOrExit assigns and
      cmd and run read. */
  class Deployment {
    var clientId: Option<string>
    var destination: Option<string>
    var recursive: bool
    var secret: Option<string>
    var sourcePath: string
    var tenantId: Option<string>
    var username: Option<string>

    /** The variables as the script initialises them. */
    predicate Initial(platform: FrontendPath.Platform)
      reads this
    {
      && clientId.None? && destination.None? && secret.None?
      && tenantId.None? && username.None?
      && !recursive
      && sourcePath == DefaultSourcePath(platform)
    }

    constructor (platform: FrontendPath.Platform)
      ensures Initial(platform)
    {
      clientId := None;
      destination := None;
      recursive := false;
      secret := None;
      sourcePath := DefaultSourcePath(platform);
      tenantId := None;
      username := None;
    }

    /** deployAzureStorage.validateOrExit(): copies the options into the
        variables, collects every flag error, and exits on errors or on a
        failed preflight. */
    method ValidateOrExit(p: Program, tools: Tools) returns (trace: Trace)
      modifies this
      ensures trace == ValidateTrace(p, tools)
      ensures clientId == p.clientId && tenantId == p.tenantId && username == p.username
      ensures secret == p.secret && destination == p.destination
      ensures sourcePath == p.source.GetOr(old(sourcePath))
      ensures recursive == p.recursive.GetOr(old(recursive))
    {
      var errors: seq<string> := [];

      clientId := p.clientId;
      tenantId := p.tenantId;
      username := p.username;
      var missingServicePrincipalArgs := clientId.None? || tenantId.None?;
      errors := errors + if username.None? && missingServicePrincipalArgs then [CredentialsMissing] else [];

      secret := p.secret;
      errors := errors + if secret.None? then [SecretMissing] else [];

      destination := p.destination;
      errors := errors + if destination.None? then [DestinationMissing] else [];

      sourcePath := p.source.GetOr(sourcePath);
      recursive := p.recursive.GetOr(recursive);

      assert errors == ValidationErrors(p);
      if |errors| > 0 {
        trace := [ReportErrors(errors), Exit(1)];
        return;
      }

      trace := CheckAzureCli(tools);
      if Exited(trace) {
        return;
      }

      // The second error check: `errors` has not changed since the first one,
      // so the verifier proves this branch is never taken.
      if |errors| > 0 {
        assert false;
        trace := trace + [ReportErrors(errors), Exit(1)];
        return;
      }
    }

    /** Lines 53-90 of run, after validateOrExit has returned: the optional
        public-url configuration and webpack publish, the login, the copy and
        the logout. */
    method Deploy(ghost defaultSource: string, p: Program, tools: Tools) returns (trace: Trace)
      requires ValidationErrors(p) == []
      requires clientId == p.clientId && tenantId == p.tenantId && username == p.username
      requires secret == p.secret && destination == p.destination
      requires sourcePath == SourcePath(defaultSource, p) && recursive == Recursive(p)
      ensures trace == DeployTrace(defaultSource, p, tools)
    {
      var prepared: Trace := [];
      if p.publicUrl.Some? && p.publicUrl.value != "" {
        prepared := [ConfigurePublicUrl(p.publicUrl.value)];
      }
      if p.publish && p.webpack {
        prepared := prepared + [WebpackPublish];
        assert prepared == PrepareTrace(p);
        if !tools.webpackPublishOk {
          trace := prepared + [Exit(1)];
          return;
        }
      }

      var session: Trace;
      if username.Some? {
        session := [LoginUser(username.value, secret.value)];
      } else {
        session := [LoginServicePrincipal(clientId.value, tenantId.value, secret.value)];
      }
      var copyCommand := CopyCommand(sourcePath, destination.value, recursive);
      session := session + [Exec(copyCommand)];
      if tools.copyCode != 0 {
        session := session + [ReportError(CopyFailed), Logout, Exit(1)];
      } else {
        session := session + [Logout, ReportSuccess(Deployed)];
      }
      assert prepared == PrepareTrace(p);
      assert session == SessionTrace(defaultSource, p, tools);
      trace := prepared + session;
    }

    /** deployAzureStorage.run(), on the script's freshly initialised
        variables. */
    method Run(ghost platform: FrontendPath.Platform, p: Program, tools: Tools) returns (trace: Trace)
      requires Initial(platform)
      modifies this
      ensures trace == RunTrace(DefaultSourcePath(platform), p, tools)
      ensures clientId == p.clientId && tenantId == p.tenantId && username == p.username
      ensures secret == p.secret && destination == p.destination
      ensures sourcePath == SourcePath(DefaultSourcePath(platform), p)
      ensures recursive == Recursive(p)
    {
      trace := ValidateOrExit(p, tools);
      if Exited(trace) {
        return;
      }
      var deploy := Deploy(DefaultSourcePath(platform), p, tools);
      trace := trace + deploy;
    }
  }
}
