# Debricked CLI scan orchestration and Buildkite CI metadata, in Dafny

This project models two parts of the Debricked command-line client and proves
properties of them.

**The scan command** (`internal/scan/scanner.go`). `Scan` receives untyped
options. It refuses anything that is not scan options. It then asks the CI
service for the environment's metadata (`env.Env`) and merges it into the
options with `MapEnvToOptions`. It changes into the directory of the path
option with `SetWorkingDirectory` and builds git metadata. Next, the stages of
`scan` run: the resolver (when asked for), the file finder, and the uploader.
The uploader's answer decides the result:

- an error goes through `handleScanError`, which forgives only a polling
  timeout (`NoResErr`) when the caller passes on timeouts;
- no result means that polling gave up, and the scan succeeds;
- a result has its automation rules rendered. The scan fails with
  `FailPipelineErr` when some rule has triggered and asks for the pipeline to
  fail.

The options are a datatype. The `*DebrickedOptions` that `MapEnvToOptions`
and `SetWorkingDirectory` write through is the class `OptionsRef`. Its two
methods are proved against `MergedOptions` and against the cleared path.
`Scan` is a method whose loop over the rules is `EvaluateRules`. It is proved
equal to the specification `ScanSpec`, outcome and call log alike. The lemmas
of `ScanProperties` are stated over `ScanSpec`.

The collaborators are oracles: total functions supplied with the scanner
(`DebrickedScanner`) or with the system (`System`). They are the CI service's
`Env`, the resolver, the finder, the uploader, `filepath.Abs`, `os.Chdir` and
`git.NewMetaObject`. Every call to one of them except `filepath.Abs` is
recorded in order in a call log. The absolute path appears only as the
argument of the recorded directory change. The call log is how the proofs say
which collaborators a failing step kept from being called.

**The Buildkite CI provider** (`pkg/ci/buildkite`), as its tests fix it.
`Identify` tells whether the environment holds `BUILDKITE`. `Map` turns
Buildkite's variables into an `Env`. `MapRepository` and `MapRepositoryUrl`
normalise the repository remote Buildkite reports:

- `MapRepository` gives an `owner/path` identifier;
- `MapRepositoryUrl` gives a browsable URL.

Both rest on the module `RemoteSyntax`. It splits a remote into
`scheme://host/path`, `user@host:path` or an unsupported string. It proves that
formatting a split remote gives back the input, and that splitting a
well-formed remote's string gives back the remote. Every case the provider's
tests assert is a lemma of `BuildkiteTest`.

Files:

| file | module | models |
|---|---|---|
| wrappers.dfy | Wrappers | `Option` and `Result` |
| ci_env.dfy | CiEnv | `env.Env` and reading a variable from the process environment |
| remote_syntax.dfy | RemoteSyntax | splitting and formatting repository remotes; removing ".git" |
| buildkite.dfy | Buildkite | `Identify`, `MapRepository`, `MapRepositoryUrl`, `Map` |
| buildkite_test.dfy | BuildkiteTest | the cases the Buildkite tests assert |
| scanner.dfy | Scan | option merging, directory change, the scan and its stages |
| scan_properties.dfy | ScanProperties | what a scan does at each step and how the upload decides it |

## Model

| member | source | states |
|---|---|---|
| Scan.MergedOptions | internal/scan/scanner.go:165-189 | The options after merging, in closed form; its properties are the `Merge…` lemmas below, and `MapEnvToOptions` is proved to produce it |
| Scan.MapEnvToOptions | internal/scan/scanner.go:165-189 | Writing the fields through the reference leaves exactly the merged options `MergedOptions(old options, env)` |
| Scan.MergeKeepsExplicitMetadata | internal/scan/scanner.go:166-180 | A non-empty repository name, commit, branch, author or repository URL option is never overwritten by the environment |
| Scan.MergeFillsEmptyMetadata | internal/scan/scanner.go:166-180 | An empty repository name, commit, branch, author or repository URL option becomes the environment's value, which may itself be empty |
| Scan.MergeIntegrationName | internal/scan/scanner.go:181-185 | The integration name becomes the environment's when it is "CLI" and the environment names one; in every other case it stays as given |
| Scan.MergePathAndUntouched | internal/scan/scanner.go:165-189 | The path changes only when it is empty and the environment's file path is not, and then it becomes that file path; resolve, exclusions and the timeout policy never change |
| Scan.MergeIdempotent | internal/scan/scanner.go:165-189 | Merging the same environment twice gives the same options as merging it once |
| Scan.MergeEmptyEnv | internal/scan/scanner.go:165-189 | An environment with no field set leaves the options as given |
| Scan.SetWorkingDirectory | internal/scan/scanner.go:153-163 | Returns the outcome of changing into the absolute form of the path; on success the path option becomes "" and nothing else changes; on failure the options are unchanged |
| Scan.HandleScanError | internal/scan/scanner.go:142-150 | Success exactly when the error is NoResErr and the caller passes on timeouts; otherwise the error itself |
| Scan.FailsPipeline | internal/scan/scanner.go:107-111 | The flag the loop accumulates over the rules is true exactly when some rule has triggered and asks for the pipeline to fail |
| Scan.Renders | internal/scan/scanner.go:108-109 | One render per rule, in the rules' order |
| Scan.EvaluateRules | internal/scan/scanner.go:107-111 | The loop renders every rule in order and computes the pipeline decision over all rules |
| Scan.ScanStages | internal/scan/scanner.go:120-140 | The resolve, discover and upload stages with the calls they make; what they promise is stated by `ScanProperties.ScanStopsOnResolverError`, `ScanStopsOnFinderError`, `StagesUploadAfterDiscovery` and the two `…Ignores…` lemmas |
| Scan.Decide | internal/scan/scanner.go:94-117 | The split on the stages' outcome; stated by `ScanProperties.ScanUploadErrorHandled`, `ScanSoftTimeoutSucceeds` and `ScanFailsPipelineIffRuleDemands` |
| Scan.ScanSpec | internal/scan/scanner.go:68-118 | The specification of `Scan`: its outcome and call log; `Scan` is proved to meet it and every `ScanProperties` lemma is stated over it |
| Scan.Scan | internal/scan/scanner.go:68-118 | Its error and its call log are those of ScanSpec for every scanner, options value and system |
| ScanProperties.ScanRejectsOtherOptions | internal/scan/scanner.go:69-72 | Options that are not scan options give BadOptsErr, and no collaborator is called |
| ScanProperties.ScanStopsOnChdirError | internal/scan/scanner.go:76-80 | A failed change into the merged path ends the scan with that error, after only CI detection and the change itself |
| ScanProperties.ScanStopsOnMetaError | internal/scan/scanner.go:82-92 | A git metadata error ends the scan with that error unfiltered, so even a timeout error is not forgiven there; nothing is resolved, found or uploaded |
| ScanProperties.MetaRequestAfterChdir | internal/scan/scanner.go:82-89 | Git metadata is requested with the merged metadata options and the path that the directory change cleared |
| ScanProperties.ScanThroughStages | internal/scan/scanner.go:94-118 | Once the stages run, the scan's outcome is the decision on their outcome, after the calls made so far |
| ScanProperties.ScanStopsOnResolverError | internal/scan/scanner.go:121-126 | When resolving is asked for and the resolver fails on the cleared path, the scan ends with that error through HandleScanError, and nothing is found or uploaded |
| ScanProperties.ScanStopsOnFinderError | internal/scan/scanner.go:128-131 | When the finder fails, the scan ends with that error through HandleScanError, and nothing is uploaded |
| ScanProperties.ResolverErrorIgnoresLaterStages | internal/scan/scanner.go:121-126 | After a resolver error on the cleared path, replacing the finder and the uploader changes neither the scan's outcome nor its calls |
| ScanProperties.FinderErrorIgnoresUploader | internal/scan/scanner.go:128-131 | After a finder error on the cleared path, replacing the uploader changes neither the scan's outcome nor its calls |
| ScanProperties.StagesUploadAfterDiscovery | internal/scan/scanner.go:120-140 | The stages upload only after a successful resolution (when asked for) and discovery; they upload the groups found with the metadata and the integration name; the upload is the last call and its answer is the stages' outcome |
| ScanProperties.ScanUploadsOnlyAfterDiscovery | internal/scan/scanner.go:120-134 | A scan uploads only with scan options and only after the directory change, metadata, resolution and discovery all succeeded on the cleared path; it uploads the groups found, the metadata built and the merged integration name |
| ScanProperties.ScanUploadErrorHandled | internal/scan/scanner.go:94-97 | An upload error gives the scan's result through HandleScanError |
| ScanProperties.ScanSoftTimeoutSucceeds | internal/scan/scanner.go:99-103 | An upload with no result and no error makes the scan succeed, whatever the timeout policy |
| ScanProperties.ScanFailsPipelineIffRuleDemands | internal/scan/scanner.go:105-117 | With a result, the scan gives FailPipelineErr exactly when some rule has triggered and asks for the pipeline to fail, and succeeds exactly when none does; every rule is rendered, in order, as the last calls |
| Buildkite.Identify | pkg/ci/buildkite/ci_test.go:22-35 | Whether the environment is a Buildkite build; stated by `IdentifyIsPresence` |
| Buildkite.MapRepository | pkg/ci/buildkite/ci_test.go:58-96 | The repository identifier; stated by `MapSchemeUrl`, `MapScpLike`, `UnsupportedPassesThrough`, `MapRepositoryTrimsAffixes` and the `RepositoryOf…` cases |
| Buildkite.MapRepositoryUrl | pkg/ci/buildkite/ci_test.go:98-137 | The browsable repository URL; stated by `MapSchemeUrl`, `MapScpLike`, `UnbrowsableHostPassesThrough`, `UnsupportedPassesThrough` and the `UrlOf…` cases |
| Buildkite.Map | pkg/ci/buildkite/ci_test.go:37-56 | Buildkite's variables as an Env; stated by `MapReadsOnlyItsVariables`, `MapWithoutVariables` and `BuildkiteTest.MapTestEnv` |
| Buildkite.MapReadsOnlyItsVariables | pkg/ci/buildkite/ci_test.go:15-20 | Environments that agree on `BUILDKITE_REPO`, `BUILDKITE_COMMIT` and `BUILDKITE_BRANCH` map to the same Env |
| Buildkite.MapWithoutVariables | pkg/ci/buildkite/ci_test.go:37-56 | With none of those variables set, the Env holds only the author and the integration; every other field is empty |
| Buildkite.IdentifyIsPresence | pkg/ci/buildkite/ci_test.go:22-35 | Identify is false without BUILDKITE and true with BUILDKITE set to any value, whatever else is set |
| Buildkite.MapSchemeUrl | pkg/ci/buildkite/ci_test.go:98-116 | On `scheme://host/path`, the identifier is the path without ".git", and the URL keeps scheme, host and nested path and loses only ".git" |
| Buildkite.MapScpLike | pkg/ci/buildkite/ci_test.go:118-136 | On `user@host:path` (user without ':' or '@', host without ':', path neither starting with "//" nor containing "://", so absolute paths such as `/srv/repo.git` included), the identifier is the path without ".git"; the URL is `https://host/path` without ".git" on github.com and gitlab.com, and the remote itself on any other host |
| Buildkite.UnbrowsableHostPassesThrough | pkg/ci/buildkite/ci_test.go:132-136 | A `user@host:path` remote on a host outside github.com and gitlab.com comes back from MapRepositoryUrl unchanged |
| Buildkite.UnsupportedPassesThrough | pkg/ci/buildkite/ci_test.go:132-136 | A remote in neither syntax comes back from both mappings unchanged |
| Buildkite.MapRepositoryTrimsAffixes | pkg/ci/buildkite/ci_test.go:58-96 | Every identifier is the remote with a prefix and at most a trailing ".git" removed; the prefix is empty only for an unsupported remote, and ".git" is removed exactly when a supported remote ends in it |
| RemoteSyntax.FormatParse | pkg/ci/buildkite/ci_test.go:58-137 | Splitting a remote loses nothing: formatting the parts gives back the input |
| RemoteSyntax.ParseFormat | pkg/ci/buildkite/ci_test.go:58-137 | Splitting the string of a well-formed remote gives back that remote |
| RemoteSyntax.TrimGitSuffix | pkg/ci/buildkite/ci_test.go:58-137 | Removes one trailing ".git" exactly when there is one, and changes nothing otherwise |
| BuildkiteTest.RepositoryOfHttpsGithub | pkg/ci/buildkite/ci_test.go:60-64 | "https://github.com/debricked/cli.git" maps to "debricked/cli" |
| BuildkiteTest.RepositoryOfHttpGitlab | pkg/ci/buildkite/ci_test.go:65-69 | "http://gitlab.com/debricked/cli.git" maps to "debricked/cli" |
| BuildkiteTest.RepositoryOfHttpScm | pkg/ci/buildkite/ci_test.go:71-75 | "http://scm.com/debricked/cli.git" maps to "debricked/cli" |
| BuildkiteTest.RepositoryOfGitGithub | pkg/ci/buildkite/ci_test.go:80-84 | "git@github.com:debricked/cli.git" maps to "debricked/cli" |
| BuildkiteTest.RepositoryOfGitGitlab | pkg/ci/buildkite/ci_test.go:85-89 | "git@gitlab.com:debricked/cli.git" maps to "debricked/cli" |
| BuildkiteTest.RepositoryOfTcpScm | pkg/ci/buildkite/ci_test.go:91-95 | "tcp@scm.com:debricked/cli.git" maps to "debricked/cli" |
| BuildkiteTest.RepositoryOfTcpScmNested | pkg/ci/buildkite/ci_test.go:132-136 | "tcp@scm.com:debricked/sub/cli.git", the remote of that URL case, maps to "debricked/sub/cli" |
| BuildkiteTest.UrlOfHttpsGithub | pkg/ci/buildkite/ci_test.go:100-104 | "https://github.com/debricked/cli.git" has the URL "https://github.com/debricked/cli" |
| BuildkiteTest.UrlOfHttpGitlab | pkg/ci/buildkite/ci_test.go:105-109 | "http://gitlab.com/debricked/cli.git" has the URL "http://gitlab.com/debricked/cli" |
| BuildkiteTest.UrlOfHttpGitlabNested | pkg/ci/buildkite/ci_test.go:111-115 | "http://gitlab.com/debricked/sub/cli.git" has the URL "http://gitlab.com/debricked/sub/cli" |
| BuildkiteTest.UrlOfGitGithub | pkg/ci/buildkite/ci_test.go:120-124 | "git@github.com:debricked/cli.git" has the URL "https://github.com/debricked/cli" |
| BuildkiteTest.UrlOfGitGitlab | pkg/ci/buildkite/ci_test.go:126-130 | "git@gitlab.com:debricked/cli.git" has the URL "https://gitlab.com/debricked/cli" |
| BuildkiteTest.UrlOfTcpScmUnchanged | pkg/ci/buildkite/ci_test.go:132-136 | "tcp@scm.com:debricked/sub/cli.git" has itself as its URL |
| BuildkiteTest.MapTestEnv | pkg/ci/buildkite/ci_test.go:139-161 | On the test environment (lines 15-20), Map identifies Buildkite and gives an empty file path, the provider's integration, branch "main", commit "commit", repository "debricked/cli" and URL "https://github.com/debricked/cli" |

## Left out

- `pkg/ci/buildkite/ci.go` is not part of this model. `Identify`, `Map`, `MapRepository` and `MapRepositoryUrl` are written so that every case its tests assert holds.
  - `EnvKey` is "BUILDKITE", the variable that the test environment sets.
  - The constant `Integration` is taken as "buildkite". The tests only compare against the constant.
  - A remote in neither supported syntax is passed through unchanged.
  - The browsable hosts are github.com and gitlab.com.
- `Map` does not model the author the real provider reads from the local git repository, nor its error result. The author is a parameter, and `MapTestEnv` does not check it (ci_test.go:146-148). The git repository and environment set-up of `TestParse` is not modelled either.
- `internal/client/deb_client.go` is not modelled: it is HTTP plumbing. Of package `client`, only the error `client.NoResErr` appears, as the value `NoResErr`.
- Console output is not modelled: progress messages, vulnerability counts, the details URL and the printed working directory. Rule cards are not modelled beyond a `RenderCall` per rule, in order. `UploadResult`'s vulnerability count and details URL are carried but never looked at.
- The collaborators are pure total functions, so the model does not capture non-determinism or the state they keep or change.
  - The filesystem: `filepath.Abs` and `os.Chdir`.
  - The network: the uploader.
  - The repository: the resolver, the finder and `git.NewMetaObject`.
- `filepath.Abs` always gives a path, because its error is ignored in the source. The CI service's `Find` error is not modelled, since `Scan` ignores it. The resolver's resolution is not modelled, since only its error is used.
- `IOptions` has only two cases: scan options, or any other value.
- The finder's two constant arguments (`false`, `file.StrictAll`) are not modelled.
- `FileGroup` and `MetaObject` are opaque values, since their contents belong to the finder and to `git.NewMetaObject`.
- `AutomationRule.FailPipeline()` is a boolean field.
- `NewDebrickedScanner` and the `IScanner` interface are not modelled; a `DebrickedScanner` value is built directly. The scanner's HTTP client field is not modelled, because `Scan` does not use it.
- Go errors are compared by identity. The model compares them as datatype values, and `Failure(message)` stands for every error other than the three the scan knows by name.
- `OptionsRef` holds the options as one value. Each field write through the Go reference becomes an update of that value, and references into single fields are not modelled, since the source takes none.
