# Deploying the frontend to Azure Storage, modelled in Dafny

This project models three pieces of the AndcultureCode command-line tools:

- `and-cli-deploy-azure-storage`, a script that copies the frontend build to an Azure Storage container. The script:
  1. validates its flags, collecting every error before it reports them together;
  2. makes sure the Azure CLI is present, installing it with pip when it is not;
  3. optionally points the build at a public URL and runs a webpack publish;
  4. logs in to Azure with a username or with a service principal;
  5. runs `az storage copy`;
  6. logs out.
- `dotnetPublish`, which does four things:
  1. cleans a release directory;
  2. enters the solution directory with `pushd`;
  3. runs `dotnet publish` into the release directory;
  4. returns with `popd`.
- `frontendPath`, which gives the frontend project directory (`frontend`) and its release folder (`frontend/build`). The release folder is joined with the host's path separator and then normalised to `/`.

## How the model works

Every external effect is an `Action` in a `Trace`. The external effects are:

- `shell.which`, `shell.exec` and `shell.rm`;
- `dir.pushd` and `dir.popd`;
- the Azure login and logout;
- the public-url configuration and the webpack publish;
- the error and success reports;
- `shell.exit`.

`shell.exit(code)` is the action `Exit(code)`. Nothing can follow it, so each command stops there.

The answers of the outside world are inputs:

- the parsed options (`Program`);
- which tools are found, and the exit codes and results they return (`Tools`, `PublishOutcomes`);
- the dotnet release and solution directories (`DotnetPaths`);
- the host platform's path separator (`Platform`).

The modules:

- `Shell`: the trace vocabulary.
  - The directory state that `pushd`/`popd` maintain, as the class `Shell.DirectoryStack`.
  - How a Posix shell splits a command line of plain words into fields. Only field splitting at spaces is modelled; a plain word is one the shell would neither quote, expand nor treat as an operator.
- `FrontendPath`: `path.join` on Posix and on Windows, and `upath.toUnix`. Its lemmas prove that the release folder is the same on every platform.
- `DotnetPublish`: the `cmd` string and its round trip.
  - `Run` is a method over a `DirectoryStack`. It is proved to produce `PublishTrace` and to leave the stack in the state that replaying that trace gives.
  - The properties of `run` are lemmas about `PublishTrace`.
- `DeployAzureStorage`: the script's module-level variables are the fields of the class `Deployment`.
  - `ValidateOrExit`, `Deploy` and `Run` update them as the script does. They are proved to produce `ValidateTrace`, `DeployTrace` and `RunTrace`.
  - The script's promises are lemmas about `RunTrace`:
    - every flag error is reported at once, and the script then exits;
    - nothing is installed when `az` exists;
    - the publish runs only when both `--publish` and `--webpack` are given, and always runs when they are and validation and the preflight pass;
    - the login uses the given credentials;
    - every login is followed by exactly one logout;
    - the process exits only as its last step, with code 1.

`RunTrace` takes the initial value of `sourcePath` as a parameter (`defaultSource`). `Deployment.Run` passes `DefaultSourcePath(platform)` for it, and `DefaultSourcePathValue` proves that value is `frontend/build/*` on every platform.

The copy command interpolates both paths without quotes (`and-cli-deploy-azure-storage.js:38`), and the model keeps them unquoted. The consequences:

- `CopyCommandWords`: when both paths are plain words, `az` receives exactly the intended words.
- `UnquotedSourceSplits`: a source path made of two plain words and a space reaches `az` as two words.
- `DefaultSourceIsPattern`: the default source `frontend/build/*` is not a plain word. When the pattern matches entries of `frontend/build`, a Posix shell expands it into their names before `az` runs. When it matches nothing, the shell passes it unchanged as one word. Which of the two happens depends on the file system, which is outside this model.

## Model

| member | source | states |
|---|---|---|
| `FrontendPath.ToUnix` | _modules/frontend-path.js:27 | Normalising keeps the length, turns every backslash into `/`, leaves every other character unchanged, and leaves no backslash. |
| `FrontendPath.ProjectDir` | _modules/frontend-path.js:19-21 | The project directory is one plain path segment: non-empty, with no separator of either kind, and neither `.` nor `..`. |
| `FrontendPath.ToUnixJoin` | _modules/frontend-path.js:27 | Normalising a `path.join` of two plain segments gives `a/b` on both Posix and Windows, and begins with `a`. A plain segment is non-empty, has no separator of either kind, and is neither `.` nor `..`. |
| `FrontendPath.PublishDir` | _modules/frontend-path.js:26-28 | `publishDir` normalises the `path.join` of the project directory and `build`. Its properties are proved in `PublishDirShape` and `PublishDirOnEveryPlatform`: it is `frontend/build` on every platform. |
| `FrontendPath.PublishDirShape` | _modules/frontend-path.js:22-27 | The release folder is the project directory, `/`, then `build`. It begins with the project directory and holds no backslash on any platform. |
| `FrontendPath.PublishDirOnEveryPlatform` | _modules/frontend-path.js:15-27 | The release folder is the same on every platform, and it is `frontend/build`. |
| `DotnetPublish.Cmd` | _modules/dotnet-publish.js:17-23 | The command always begins with `dotnet publish`. It is exactly `dotnet publish` when no output directory is given. |
| `DotnetPublish.CmdRoundTrip` | _modules/dotnet-publish.js:17-23 | The output directory, or its absence, can be read back from the command for every directory, including ones that hold quotes. |
| `DotnetPublish.CmdInjective` | _modules/dotnet-publish.js:17-23 | Different output directories give different commands. |
| `DotnetPublish.OutputDir` | _modules/dotnet-publish.js:35-37 | The output directory is the one supplied, else the solution's release directory. `PublishesWhereItCleaned` proves that this one directory is both removed and published into. |
| `DotnetPublish.PublishTrace` | _modules/dotnet-publish.js:33-61 | The steps of `run` for given tool outcomes. `Run` is proved to produce them. Their properties are the lemmas below: `PublishesWhereItCleaned`, `CleanFailureStopsEarly`, `PublishFailureSkipsPopd`, `SuccessSteps`, `SuccessReplay`, `PublishOrder` and `PublishExits`. |
| `DotnetPublish.Run` | _modules/dotnet-publish.js:33-61 | The steps of `run` are `PublishTrace`: clean, report, `pushd`, publish, then an error and exit on either failure, else a report and `popd`. The directory stack ends in the state that replaying those steps gives. |
| `DotnetPublish.PublishesWhereItCleaned` | _modules/dotnet-publish.js:35-53 | The directory removed and the directory published into are the same: the one supplied, else the solution's release directory. |
| `DotnetPublish.CleanFailureStopsEarly` | _modules/dotnet-publish.js:41-45 | A failed clean exits with the clean's own code. It runs no command and changes neither the directory nor the stack. |
| `DotnetPublish.PublishFailureSkipsPopd` | _modules/dotnet-publish.js:50-57 | A failed publish exits with the publish's own code, without `popd`. The solution directory stays current and the stack is one entry deeper. |
| `DotnetPublish.SuccessSteps` | _modules/dotnet-publish.js:41-60 | On success nothing exits, and `pushd` and `popd` each happen exactly once. |
| `DotnetPublish.SuccessReplay` | _modules/dotnet-publish.js:50-60 | On success the working directory and the stack end as they were at entry. |
| `DotnetPublish.PublishOrder` | _modules/dotnet-publish.js:41-53 | After a successful clean, the clean comes before `pushd` into the solution directory, and `pushd` comes before the publish command. |
| `DotnetPublish.PublishExits` | _modules/dotnet-publish.js:41-57 | `run` exits only as its last step. It exits exactly when the clean or the publish failed, and then with a non-zero code. |
| `Shell.DirectoryStack.Pushd` | _modules/dotnet-publish.js:50 | `pushd` saves the working directory on top of the stack and enters the given directory. |
| `Shell.DirectoryStack.Popd` | _modules/dotnet-publish.js:60 | `popd` returns to the most recently saved directory and drops it from the stack. |
| `Shell.PushThenPopRestores` | _modules/dotnet-publish.js:50-60 | A `popd` right after a `pushd` restores both the directory and the stack. |
| `Shell.WordsUnwords` | and-cli-deploy-azure-storage.js:78-80 | Non-empty words without spaces, joined by single spaces and split again at runs of spaces, come back unchanged. |
| `DeployAzureStorage.DefaultSourcePathValue` | and-cli-deploy-azure-storage.js:26 | The initial `sourcePath` is `frontend/build/*` on every platform. |
| `DeployAzureStorage.DefaultSourcePath` | and-cli-deploy-azure-storage.js:26 | The initial `sourcePath`: the release folder followed by `/*`. `DefaultSourcePathValue` proves it is `frontend/build/*` on every platform. |
| `DeployAzureStorage.CopyCommand` | and-cli-deploy-azure-storage.js:37-45 | `cmd`: the unquoted copy template, and the recursive flag when `recursive` holds. `CopyCommandFlag` and `CopyCommandSpelled` prove its exact form. |
| `DeployAzureStorage.CopyCommandFlag` | and-cli-deploy-azure-storage.js:37-45 | The command begins with the copy of the source to the destination. ` --recursive` follows exactly when the copy is recursive, and nothing else follows. |
| `DeployAzureStorage.CopyCommandSpelled` | and-cli-deploy-azure-storage.js:38-42 | The command is the words `az storage copy -s <source> -d <destination>` joined by single spaces, plus `--recursive` exactly when recursive. |
| `DeployAzureStorage.CopyCommandWords` | and-cli-deploy-azure-storage.js:38-42 | When both paths are plain words, the shell splits the command into exactly those words. A plain word is non-empty and has no blank, quote, expansion, escape, comment or operator character. |
| `DeployAzureStorage.UnquotedSourceSplits` | and-cli-deploy-azure-storage.js:38 | A source path made of two plain words and a space reaches `az` as two separate words, so `-s` takes only the first. |
| `DeployAzureStorage.DefaultSourceIsPattern` | and-cli-deploy-azure-storage.js:26-38 | The default source ends in `*` and is not a plain word. A Posix shell expands it into the names of the entries of `frontend/build` when it matches some, and passes it unchanged only when it matches none. |
| `DeployAzureStorage.ValidationErrors` | and-cli-deploy-azure-storage.js:93-114 | The errors `validateOrExit` collects. `ValidationErrorsCollected` proves which are present, in what order, and when there are none. |
| `DeployAzureStorage.ValidationErrorsCollected` | and-cli-deploy-azure-storage.js:93-114 | Each rule's message is present exactly when that rule is broken. Messages appear in checking order, each at most once. There are no errors exactly when there is a username or both service-principal ids, a secret and a destination. |
| `DeployAzureStorage.PreflightTrace` | and-cli-deploy-azure-storage.js:130-144 | The preflight's steps for given tool answers. `PreflightOutcomes` and `PreflightSteps` prove when it exits and what it may run. |
| `DeployAzureStorage.PreflightOutcomes` | and-cli-deploy-azure-storage.js:130-144 | The preflight first looks for `az` and does nothing more when `az` is found. It exits with 1 exactly when `az` is neither found nor installed through pip, and only as its last step. It never runs `pip install` without pip. |
| `DeployAzureStorage.CheckAzureCli` | and-cli-deploy-azure-storage.js:130-144 | The method's steps are the preflight's steps. |
| `DeployAzureStorage.ValidateTrace` | and-cli-deploy-azure-storage.js:92-153 | The steps of `validateOrExit`: the flag errors and exit 1, else the preflight. `Deployment.ValidateOrExit` is proved to produce them. |
| `DeployAzureStorage.DeployTrace` | and-cli-deploy-azure-storage.js:53-90 | The steps of `run` after validation: the preparation, then exit 1 on a failed publish, else the session. `Deployment.Deploy` is proved to produce them. |
| `DeployAzureStorage.RunTrace` | and-cli-deploy-azure-storage.js:49-153 | The steps of `run`. `Deployment.Run` is proved to produce them. Their properties are the lemmas from `PreflightSteps` to `UsernameDeployment` below. |
| `DeployAzureStorage.PreflightSteps` | and-cli-deploy-azure-storage.js:130-144 | The preflight never logs in or out, never publishes and never reports flag errors. The only command it runs is `pip install azure-cli`. |
| `DeployAzureStorage.PrepareSteps` | and-cli-deploy-azure-storage.js:53-64 | The steps between `validateOrExit` and the login (`PrepareTrace`) only configure the public URL and publish. The publish happens exactly when both `--publish` and `--webpack` are given. |
| `DeployAzureStorage.SessionOrder` | and-cli-deploy-azure-storage.js:66-90 | The login, then the copy, then the logout. The session exits with 1 exactly when the copy failed, after the logout; otherwise it ends with the success report. |
| `DeployAzureStorage.SessionKinds` | and-cli-deploy-azure-storage.js:66-90 | After the login, the session does not log in again, look for tools, publish or report flag errors. Its only command is the copy, and it exits only at its end. |
| `DeployAzureStorage.SessionCounts` | and-cli-deploy-azure-storage.js:66-90 | The session logs in exactly once and logs out exactly once, on both the failure and the success path. |
| `DeployAzureStorage.FlagErrorsExitFirst` | and-cli-deploy-azure-storage.js:124-128 | With any flag error, `run` reports all the errors in one report and exits with 1. It calls no tool: no lookup, command, publish, login or logout. |
| `DeployAzureStorage.FlagErrorsReportedOnlyFirst` | and-cli-deploy-azure-storage.js:124-150 | Flag errors are reported only as the first step. The second error check never adds to the trace. |
| `DeployAzureStorage.PreflightGuardsRun` | and-cli-deploy-azure-storage.js:130-144 | With valid flags, `run` first looks for `az`. With `az` present it never looks for or installs with pip, and without pip it never installs. A failed preflight exits with 1 before any publish or login. |
| `DeployAzureStorage.PublishNeedsRequest` | and-cli-deploy-azure-storage.js:59-64 | The webpack publish never runs unless both `--publish` and `--webpack` are given. |
| `DeployAzureStorage.RequestedPublishRuns` | and-cli-deploy-azure-storage.js:59-64 | Once validation and the preflight pass, a requested publish always runs. |
| `DeployAzureStorage.FailedPublishStops` | and-cli-deploy-azure-storage.js:59-64 | A failed publish makes `run` exit with 1 before any login. |
| `DeployAzureStorage.RunExitsAtEnd` | and-cli-deploy-azure-storage.js:49-153 | On every path the process exits only as the last step, and then with code 1. |
| `DeployAzureStorage.RunLogsOutAfterLogin` | and-cli-deploy-azure-storage.js:66-88 | `run` logs in exactly when it gets past validation, preflight and publish. It logs out exactly as many times as it logs in, at most once. |
| `DeployAzureStorage.RunLogsInAsChosen` | and-cli-deploy-azure-storage.js:66-71 | Every login of `run` happens with valid flags and is the one `Login` chooses: by username when one is given, else as the service principal. |
| `DeployAzureStorage.LoginUsesGivenCredentials` | and-cli-deploy-azure-storage.js:66-71 | A username login carries the given username and secret. A service-principal login happens only without a username and carries the given client id, tenant id and secret. There is at most one login. |
| `DeployAzureStorage.CopyFailureLogsOutThenExits` | and-cli-deploy-azure-storage.js:78-84 | Whatever non-zero code the copy returns, `run` ends with exit 1 and logs out exactly once. The order is login, copy, logout, exit. |
| `DeployAzureStorage.CopySuccessLogsOutThenReports` | and-cli-deploy-azure-storage.js:78-90 | When the copy succeeds, `run` never exits, logs out exactly once after the copy, and ends with the success report. |
| `DeployAzureStorage.CopyUsesDefaults` | and-cli-deploy-azure-storage.js:116-122 | The copy uses `--source` when given, else `frontend/build/*`. It is recursive exactly when `--recursive` is given and true. |
| `DeployAzureStorage.RunCopies` | and-cli-deploy-azure-storage.js:78-80 | A run that gets past validation, preflight and publish runs the copy command. |
| `DeployAzureStorage.UsernameDeployment` | and-cli-deploy-azure-storage.js:49-91 | One fixed scenario. The flags are `--username u`, `--secret s` and a destination, with no `--client-id`, `--tenant-id`, `--source`, `--recursive`, `--public-url`, `--publish` or `--webpack`. `az` is installed, pip is absent, and the copy succeeds. The whole run is: look for `az`, log in as `u` with `s`, copy `frontend/build/*`, log out, report success. |
| `DeployAzureStorage.Deployment.constructor` | and-cli-deploy-azure-storage.js:21-28 | Every variable starts unset, except `recursive`, which starts false, and `sourcePath`, which starts as the default source. |
| `DeployAzureStorage.Deployment.ValidateOrExit` | and-cli-deploy-azure-storage.js:92-153 | The steps are `ValidateTrace`. The credential, secret and destination variables take the option values. `sourcePath` and `recursive` change only when their option is given. |
| `DeployAzureStorage.Deployment.Deploy` | and-cli-deploy-azure-storage.js:53-90 | After a successful validation, the steps of the rest of `run` are `DeployTrace`. |
| `DeployAzureStorage.Deployment.Run` | and-cli-deploy-azure-storage.js:49-91 | On freshly initialised variables, the steps of `run` are `RunTrace` with the platform's default source path. Afterwards the credential, secret and destination variables hold the option values. `sourcePath` holds `--source` or the default, and `recursive` holds `--recursive` or false. |

## Left out

- `echo.message` and `echo.newLine` are not recorded, because they are progress output only. The error and success reports are recorded with their message strings.
- Option parsing by commander, `description()`, and the usage text of both scripts are left out. The parsed options are the input `Program`.
- What `azure.login`, `azure.logout`, `deployConfig.configurePublicUrl` and `webpackPublish.run` do inside is left out; these modules are not part of this model. Each is one action, and the publish's boolean result is an input.
- `run` ignores the value `azure.login` returns, so a failed login still leads to the copy. The model does the same and does not model login failure.
- `dotnetPath.releaseDir()` and `dotnetPath.solutionDir()` are inputs, because `dotnetPath` is not part of this model.
- `dir.popd` on an empty stack is modelled as changing nothing, because the `dir` module is not part of this model.
- `upath.toUnix` is modelled only as turning backslashes into slashes. `path.join` is modelled only for two plain segments, which is all `publishDir` joins. Empty segments, trailing separators, `.` and `..`, which `path.join` normalises, are not modelled.
- The shell that `shell.exec` starts is modelled as a strictly Posix `sh`, and only as field splitting at spaces (`Shell.Words`). Extensions such as bash's brace expansion are excluded by making `{` and `}` non-plain. Its quoting, escapes, tabs and newlines, parameter and command substitution, pathname expansion and operators are not modelled. `CopyCommandWords` and `UnquotedSourceSplits` therefore require plain words.
- The pathname expansion of the default source `frontend/build/*` is not modelled. `DefaultSourceIsPattern` shows the default is a pattern, and what `az storage copy` receives after a Posix shell expands it is left open.
- The `shell.exec` options (`silent`), the output of `shell.exec`, and the asynchronous `command-runner` wrapper are left out.
- `DeployAzureStorage.CopyCommand`: the destination is a string, not a possibly-null value, because `cmd` is called only after validation has required a destination. The `null` text an unset destination would interpolate is not modelled.
- Exit codes are unbounded integers. `DotnetPublish.PublishExits` says a failure exits with a non-zero code; it does not say the code fits in a byte, as a real process exit status would.
- The context tests `_modules/dotnet-publish.test.js` and `cli-nuget.test.js` are not modelled.
