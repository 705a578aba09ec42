/** `dotnetPublish`: publishes the dotnet solution into a release directory.
    The release and solution directories (`dotnetPath`) and the exit codes of
    `shell.rm` and `shell.exec` are inputs; `dir.pushd`/`dir.popd` act on a
    `DirectoryStack`; `shell.exit` ends the trace. */
module DotnetPublish {
  import opened Wrappers
  import opened Shell

  const PublishCommand := "dotnet publish"
  const OutputOption := " -o \""

  /** dotnetPublish.cmd(outputDirectory): the bare publish command, or the
      publish command directed at `outputDirectory`, quoted. */
  function Cmd(outputDirectory: Option<string>): (r: string)
    ensures PublishCommand <= r
    ensures outputDirectory.None? <==> r == PublishCommand
  {
    match outputDirectory
    case None => PublishCommand
    case Some(d) => PublishCommand + OutputOption + d + "\""
  }

  /** Reads back what a publish command was asked to do: `Some(o)` when `c` is
      `Cmd(o)`, `None` for any other string. */
  function ParseCmd(c: string): Option<Option<string>>
  {
    var prefix := PublishCommand + OutputOption;
    if c == PublishCommand then Some(None)
    else if |prefix| < |c| && c[..|prefix|] == prefix && c[|c| - 1] == '"' then
      Some(Some(c[|prefix|..|c| - 1]))
    else None
  }

  /** The command string names its output directory unambiguously, whatever
      characters (quotes included) the directory holds. */
  lemma CmdRoundTrip(outputDirectory: Option<string>)
    ensures ParseCmd(Cmd(outputDirectory)) == Some(outputDirectory)
  {
    if outputDirectory.Some? {
      var prefix := PublishCommand + OutputOption;
      var d := outputDirectory.value;
      var c := Cmd(outputDirectory);
      assert c == prefix + d + "\"";
      assert c[..|prefix|] == prefix;
      assert c[|prefix|..|c| - 1] == d;
    }
  }

  /** Different output directories give different commands. */
  lemma CmdInjective(o1: Option<string>, o2: Option<string>)
    ensures Cmd(o1) == Cmd(o2) ==> o1 == o2
  {
    CmdRoundTrip(o1);
    CmdRoundTrip(o2);
  }

  /** dotnetPath.releaseDir() and dotnetPath.solutionDir(). */
  datatype DotnetPaths = DotnetPaths(releaseDir: string, solutionDir: string)

  /** Exit codes of `shell.rm("-rf", …)` and of the publish `shell.exec`. */
  datatype PublishOutcomes = PublishOutcomes(rmCode: int, execCode: int)

  const CleanFailed := "Failed to delete output directory"
  const Cleaned := " - Successfully cleaned released directory"
  const PublishFailed := "Failed to publish dotnet project"
  const Published := " - Dotnet solution published"

  /** The directory `run` cleans and publishes into: the one supplied, else
      the solution's release directory. */
  function OutputDir(absoluteOutputDir: Option<string>, paths: DotnetPaths): string
  {
    absoluteOutputDir.GetOr(paths.releaseDir)
  }

  /** What dotnetPublish.run(absoluteOutputDir) does. */
  function PublishTrace(absoluteOutputDir: Option<string>, paths: DotnetPaths,
                        outcomes: PublishOutcomes): Trace
  {
    var out := OutputDir(absoluteOutputDir, paths);
    if outcomes.rmCode != 0 then
      [RemoveTree(out), ReportError(CleanFailed), Exit(outcomes.rmCode)]
    else
      [RemoveTree(out), ReportSuccess(Cleaned), PushDir(paths.solutionDir), Exec(Cmd(Some(out)))] +
      if outcomes.execCode != 0 then [ReportError(PublishFailed), Exit(outcomes.execCode)]
      else [ReportSuccess(Published), PopDir]
  }

  /** dotnetPublish.run: clean the output directory, enter the solution
      directory, publish, and return to where it was. */
  method Run(absoluteOutputDir: Option<string>, paths: DotnetPaths, outcomes: PublishOutcomes,
             dirs: DirectoryStack)
    returns (trace: Trace)
    modifies dirs
    ensures trace == PublishTrace(absoluteOutputDir, paths, outcomes)
    ensures dirs.State() == Replay(old(dirs.State()), trace)
  {
    ghost var start := dirs.State();
    var outputDir := absoluteOutputDir.GetOr(paths.releaseDir);

    trace := [RemoveTree(outputDir)];
    if outcomes.rmCode != 0 {
      Record(start, trace, ReportError(CleanFailed));
      trace := trace + [ReportError(CleanFailed)];
      Record(start, trace, Exit(outcomes.rmCode));
      trace := trace + [Exit(outcomes.rmCode)];
      return;
    }
    Record(start, trace, ReportSuccess(Cleaned));
    trace := trace + [ReportSuccess(Cleaned)];

    dirs.Pushd(paths.solutionDir);
    ReplaySnoc(start, trace, PushDir(paths.solutionDir));
    trace := trace + [PushDir(paths.solutionDir)];

    var command := Cmd(Some(outputDir));
    Record(start, trace, Exec(command));
    trace := trace + [Exec(command)];
    if outcomes.execCode != 0 {
      Record(start, trace, ReportError(PublishFailed));
      trace := trace + [ReportError(PublishFailed)];
      Record(start, trace, Exit(outcomes.execCode));
      trace := trace + [Exit(outcomes.execCode)];
      return;
    }

    Record(start, trace, ReportSuccess(Published));
    trace := trace + [ReportSuccess(Published)];
    dirs.Popd();
    ReplaySnoc(start, trace, PopDir);
    trace := trace + [PopDir];
  }

  // ---------------------------------------------------------------------------
  // Properties of run
  // ---------------------------------------------------------------------------

  /** The directory cleaned and the directory published to are the same: the
      one supplied, unchanged, or else the release directory. */
  lemma PublishesWhereItCleaned(absoluteOutputDir: Option<string>, paths: DotnetPaths,
                                outcomes: PublishOutcomes)
    ensures var t := PublishTrace(absoluteOutputDir, paths, outcomes);
            var out := if absoluteOutputDir.Some? then absoluteOutputDir.value else paths.releaseDir;
            && t[0] == RemoveTree(out)
            && forall i :: 0 <= i < |t| && t[i].Exec? ==> t[i].command == Cmd(Some(out))
  {
  }

  /** A failed clean ends the process with the clean's own code before the
      directory is entered or anything is published. */
  lemma CleanFailureStopsEarly(absoluteOutputDir: Option<string>, paths: DotnetPaths,
                               outcomes: PublishOutcomes, s: DirState)
    requires outcomes.rmCode != 0
    ensures var t := PublishTrace(absoluteOutputDir, paths, outcomes);
            && Exited(t) && t[|t| - 1] == Exit(outcomes.rmCode)
            && (forall i :: 0 <= i < |t| ==> !t[i].Exec? && !MovesDirs(t[i]))
            && Replay(s, t) == s
  {
    ReplayWithoutMoves(s, PublishTrace(absoluteOutputDir, paths, outcomes));
  }

  /** A failed publish ends the process with the publish's own code; it exits
      before popd, so the solution directory is still current and the stack is
      one entry deeper than at entry. */
  lemma PublishFailureSkipsPopd(absoluteOutputDir: Option<string>, paths: DotnetPaths,
                                outcomes: PublishOutcomes, s: DirState)
    requires outcomes.rmCode == 0 && outcomes.execCode != 0
    ensures var t := PublishTrace(absoluteOutputDir, paths, outcomes);
            && Exited(t) && t[|t| - 1] == Exit(outcomes.execCode)
            && PopDir !in t
            && Replay(s, t) == DirState(paths.solutionDir, s.saved + [s.cwd])
  {
    var t := PublishTrace(absoluteOutputDir, paths, outcomes);
    assert t == t[..2] + [PushDir(paths.solutionDir)] + t[3..];
    ReplayAround(s, t[..2], PushDir(paths.solutionDir), t[3..]);
  }

  /** On success the trace is the clean, pushd, the publish and popd. */
  lemma SuccessSteps(absoluteOutputDir: Option<string>, paths: DotnetPaths,
                     outcomes: PublishOutcomes)
    requires outcomes.rmCode == 0 && outcomes.execCode == 0
    ensures var t := PublishTrace(absoluteOutputDir, paths, outcomes);
            && NeverExits(t)
            && multiset(t)[PopDir] == 1 && multiset(t)[PushDir(paths.solutionDir)] == 1
  {
  }

  /** On success the replayed directory state is the one at entry. */
  lemma SuccessReplay(absoluteOutputDir: Option<string>, paths: DotnetPaths,
                      outcomes: PublishOutcomes, s: DirState)
    requires outcomes.rmCode == 0 && outcomes.execCode == 0
    ensures Replay(s, PublishTrace(absoluteOutputDir, paths, outcomes)) == s
  {
    var t := PublishTrace(absoluteOutputDir, paths, outcomes);
    var out := OutputDir(absoluteOutputDir, paths);
    var before := [RemoveTree(out), ReportSuccess(Cleaned)];
    var after := [Exec(Cmd(Some(out))), ReportSuccess(Published)];
    var u := before + [PushDir(paths.solutionDir)] + after;
    assert t == u + [PopDir];
    ReplayAround(s, before, PushDir(paths.solutionDir), after);
    ReplaySnoc(s, u, PopDir);
    PushThenPopRestores(s, paths.solutionDir);
  }

  /** The clean comes first, then pushd into the solution directory, then the
      publish. */
  lemma PublishOrder(absoluteOutputDir: Option<string>, paths: DotnetPaths,
                     outcomes: PublishOutcomes)
    requires outcomes.rmCode == 0
    ensures var t := PublishTrace(absoluteOutputDir, paths, outcomes);
            var out := OutputDir(absoluteOutputDir, paths);
            && Precedes(t, RemoveTree(out), PushDir(paths.solutionDir))
            && Precedes(t, PushDir(paths.solutionDir), Exec(Cmd(Some(out))))
  {
    var t := PublishTrace(absoluteOutputDir, paths, outcomes);
    assert t[0] == RemoveTree(OutputDir(absoluteOutputDir, paths));
    assert t[2] == PushDir(paths.solutionDir);
    assert t[3] == Exec(Cmd(Some(OutputDir(absoluteOutputDir, paths))));
  }

  /** run exits only as its last step, and exits exactly when the clean or the
      publish failed, with a non-zero code. */
  lemma PublishExits(absoluteOutputDir: Option<string>, paths: DotnetPaths,
                     outcomes: PublishOutcomes)
    ensures var t := PublishTrace(absoluteOutputDir, paths, outcomes);
            && ExitsOnlyAtEnd(t)
            && (Exited(t) <==> outcomes.rmCode != 0 || outcomes.execCode != 0)
            && (Exited(t) ==> t[|t| - 1].code != 0)
  {
  }
}
