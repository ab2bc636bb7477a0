/**
 * The scan command's orchestration: the caller's options are merged with the
 * metadata of the CI environment, the working directory is set from the path
 * option, git metadata is built, and then dependency files are optionally
 * resolved, discovered and uploaded. The upload's outcome decides the scan's
 * result: an error (forgiven only for a polling timeout the caller accepts),
 * no result at all (polling gave up, which is success), or a result whose
 * automation rules may demand that the pipeline fail.
 *
 * The collaborators (CI detection, the resolver, the file finder, the
 * uploader, and the operating system's path and directory calls and git
 * metadata) are oracles: total functions supplied by the caller. Every call
 * the scan makes to one of them but the absolute-path one is recorded, in
 * order, in a call log; the absolute path appears as the argument of the
 * directory change.
 */
module Scan {
  import opened Wrappers
  import opened CiEnv

  /** The errors a scan can end with. */
  datatype Error =
    | BadOptsErr              // the options are not scan options ("failed to type case IOptions")
    | FailPipelineErr         // an automation rule demands that the pipeline fail (empty message)
    | NoResErr                // the client's error for a scan whose result polling timed out
    | Failure(message: string) // any other error a collaborator reports

  /** The integration name a caller passes when it has not named one. */
  const SentinelIntegration := "CLI"

  /** The scan command's options. */
  datatype DebrickedOptions = DebrickedOptions(
    path: string,
    resolve: bool,
    exclusions: seq<string>,
    repositoryName: string,
    commitName: string,
    branchName: string,
    commitAuthor: string,
    repositoryUrl: string,
    integrationName: string,
    passOnTimeOut: bool)

  /** The untyped options Scan receives: scan options, or any other value. */
  datatype IOptions = Debricked(options: DebrickedOptions) | OtherOptions

  /** A group of dependency files the finder discovered; what it holds is the finder's business, not this model's. */
  datatype FileGroup = FileGroup(handle: nat)

  /** What git.NewMetaObject is asked to build the metadata from. */
  datatype MetaRequest = MetaRequest(
    path: string,
    repositoryName: string,
    commitName: string,
    branchName: string,
    commitAuthor: string,
    repositoryUrl: string)

  /** The git metadata of the scanned commit, as the uploader receives it; what it holds is git.NewMetaObject's business. */
  datatype MetaObject = MetaObject(handle: nat)

  /** An automation rule of the scan result: whether it triggered and whether it asks the pipeline to fail. */
  datatype AutomationRule = AutomationRule(triggered: bool, failPipeline: bool)

  /** The result of a finished scan. */
  datatype UploadResult = UploadResult(vulnerabilitiesFound: nat, automationRules: seq<AutomationRule>, detailsUrl: string)

  /** What the uploader is given. */
  datatype UploaderOptions = UploaderOptions(fileGroups: seq<FileGroup>, gitMetaObject: MetaObject, integrationsName: string)

  /** One call the scan makes to a collaborator. */
  datatype Call =
    | FindCall
    | ChdirCall(absPath: string)
    | NewMetaObjectCall(request: MetaRequest)
    | ResolveCall(paths: seq<string>, exclusions: seq<string>)
    | GetGroupsCall(path: string, exclusions: seq<string>)
    | UploadCall(options: UploaderOptions)
    | RenderCall(rule: AutomationRule)

  /** An outcome together with the calls made to reach it. */
  datatype Run<+T> = Run(outcome: T, calls: seq<Call>)

  /** The operating system and git as the scan sees them: absolute paths, changing directory, and building git metadata. */
  datatype System = System(
    abs: string -> string,
    chdir: string -> Option<Error>,
    newMetaObject: MetaRequest -> Result<MetaObject, Error>)

  /**
   * The scanner and its collaborators: the Env the CI service finds (its
   * error is not looked at), the resolver (its resolution is not looked at,
   * only its error), the finder and the uploader. An uploader that returns
   * no result and no error has given up polling for the result.
   */
  datatype DebrickedScanner = DebrickedScanner(
    foundEnv: Env,
    resolver: (seq<string>, seq<string>) -> Option<Error>,
    finder: (string, seq<string>) -> Result<seq<FileGroup>, Error>,
    uploader: UploaderOptions -> Result<Option<UploadResult>, Error>)

  // Merging the CI environment into the options.

  /** The option's own value when it has one, the fallback otherwise. */
  function FillIfEmpty(current: string, fallback: string): string
  {
    if |current| == 0 then fallback else current
  }

  /** The options after MapEnvToOptions. */
  function MergedOptions(o: DebrickedOptions, env: Env): DebrickedOptions
  {
    o.(repositoryName := FillIfEmpty(o.repositoryName, env.repository),
       commitName := FillIfEmpty(o.commitName, env.commit),
       branchName := FillIfEmpty(o.branchName, env.branch),
       commitAuthor := FillIfEmpty(o.commitAuthor, env.author),
       repositoryUrl := FillIfEmpty(o.repositoryUrl, env.repositoryUrl),
       integrationName :=
         if o.integrationName == SentinelIntegration && |env.integration| != 0 then env.integration
         else o.integrationName,
       path := if |o.path| == 0 && |env.filepath| > 0 then env.filepath else o.path)
  }

  /** A git metadata option the caller set is never overwritten by the environment. */
  lemma MergeKeepsExplicitMetadata(o: DebrickedOptions, env: Env)
    ensures var m := MergedOptions(o, env);
      && (o.repositoryName != "" ==> m.repositoryName == o.repositoryName)
      && (o.commitName != "" ==> m.commitName == o.commitName)
      && (o.branchName != "" ==> m.branchName == o.branchName)
      && (o.commitAuthor != "" ==> m.commitAuthor == o.commitAuthor)
      && (o.repositoryUrl != "" ==> m.repositoryUrl == o.repositoryUrl)
  {
  }

  /** A git metadata option the caller left empty becomes the environment's value, which may itself be empty. */
  lemma MergeFillsEmptyMetadata(o: DebrickedOptions, env: Env)
    ensures var m := MergedOptions(o, env);
      && (o.repositoryName == "" ==> m.repositoryName == env.repository)
      && (o.commitName == "" ==> m.commitName == env.commit)
      && (o.branchName == "" ==> m.branchName == env.branch)
      && (o.commitAuthor == "" ==> m.commitAuthor == env.author)
      && (o.repositoryUrl == "" ==> m.repositoryUrl == env.repositoryUrl)
  {
  }

  /**
   * The integration name is replaced exactly when it is the sentinel and the
   * environment names an integration, and then by that integration.
   */
  lemma MergeIntegrationName(o: DebrickedOptions, env: Env)
    ensures var m := MergedOptions(o, env);
      && (o.integrationName == SentinelIntegration && env.integration != "" ==> m.integrationName == env.integration)
      && (o.integrationName != SentinelIntegration || env.integration == "" ==> m.integrationName == o.integrationName)
  {
  }

  /**
   * The path is replaced by the environment's file path only when it is empty
   * and that file path is not; whether to resolve, the exclusions and the
   * timeout policy are never changed.
   */
  lemma MergePathAndUntouched(o: DebrickedOptions, env: Env)
    ensures var m := MergedOptions(o, env);
      && (m.path != o.path ==> o.path == "" && env.filepath != "" && m.path == env.filepath)
      && (o.path == "" && env.filepath != "" ==> m.path == env.filepath)
      && m.resolve == o.resolve && m.exclusions == o.exclusions && m.passOnTimeOut == o.passOnTimeOut
  {
  }

  /** Merging the same environment a second time changes nothing. */
  lemma MergeIdempotent(o: DebrickedOptions, env: Env)
    ensures MergedOptions(MergedOptions(o, env), env) == MergedOptions(o, env)
  {
  }

  /** An environment with no values (no CI detected) leaves the options as given. */
  lemma MergeEmptyEnv(o: DebrickedOptions)
    ensures MergedOptions(o, NoEnv) == o
  {
  }

  /**
   * Go's `*DebrickedOptions`: MapEnvToOptions and SetWorkingDirectory write
   * the options' fields through it, and the caller sees the writes.
   */
  class OptionsRef {
    var value: DebrickedOptions

    constructor (o: DebrickedOptions)
      ensures value == o
    {
      value := o;
    }
  }

  /** Fills the options from the CI environment, field by field. */
  method MapEnvToOptions(o: OptionsRef, env: Env)
    modifies o
    ensures o.value == MergedOptions(old(o.value), env)
  {
    ghost var given := o.value;
    ghost var m := MergedOptions(given, env);
    if |o.value.repositoryName| == 0 {
      o.value := o.value.(repositoryName := env.repository);
    }
    assert o.value == m.(commitName := given.commitName, branchName := given.branchName, commitAuthor := given.commitAuthor,
                         repositoryUrl := given.repositoryUrl, integrationName := given.integrationName, path := given.path);
    if |o.value.commitName| == 0 {
      o.value := o.value.(commitName := env.commit);
    }
    assert o.value == m.(branchName := given.branchName, commitAuthor := given.commitAuthor,
                         repositoryUrl := given.repositoryUrl, integrationName := given.integrationName, path := given.path);
    if |o.value.branchName| == 0 {
      o.value := o.value.(branchName := env.branch);
    }
    assert o.value == m.(commitAuthor := given.commitAuthor, repositoryUrl := given.repositoryUrl,
                         integrationName := given.integrationName, path := given.path);
    if |o.value.commitAuthor| == 0 {
      o.value := o.value.(commitAuthor := env.author);
    }
    assert o.value == m.(repositoryUrl := given.repositoryUrl, integrationName := given.integrationName, path := given.path);
    if |o.value.repositoryUrl| == 0 {
      o.value := o.value.(repositoryUrl := env.repositoryUrl);
    }
    assert o.value == m.(integrationName := given.integrationName, path := given.path);
    if o.value.integrationName == SentinelIntegration {
      if |env.integration| != 0 {
        o.value := o.value.(integrationName := env.integration);
      }
    }
    assert o.value == m.(path := given.path);
    if |o.value.path| == 0 && |env.filepath| > 0 {
      o.value := o.value.(path := env.filepath);
    }
  }

  /**
   * Changes into the absolute form of the path option. On success the path
   * option is cleared, since later steps work relative to the new directory;
   * on failure the error is returned and the options are left alone.
   */
  method SetWorkingDirectory(o: OptionsRef, sys: System) returns (err: Option<Error>)
    modifies o
    ensures err == sys.chdir(sys.abs(old(o.value.path)))
    ensures err.None? ==> o.value == old(o.value).(path := "")
    ensures err.Some? ==> o.value == old(o.value)
  {
    var absPath := sys.abs(o.value.path);
    err := sys.chdir(absPath);
    if err.Some? {
      return;
    }
    o.value := o.value.(path := "");
  }

  // The scan.

  /** An error of the scan stages is forgiven only when it is a polling timeout and the caller passes on timeouts. */
  function HandleScanError(err: Error, passOnTimeOut: bool): (r: Option<Error>)
    ensures r.None? <==> err == NoResErr && passOnTimeOut
    ensures r.Some? ==> r.value == err
  {
    if err == NoResErr && passOnTimeOut then None else Some(err)
  }

  /**
   * The resolve, discover and upload stages: the resolver runs only when
   * asked to, and the first error stops the stages.
   */
  function ScanStages(scanner: DebrickedScanner, options: DebrickedOptions, meta: MetaObject)
    : Run<Result<Option<UploadResult>, Error>>
  {
    var resolveCalls := if options.resolve then [ResolveCall([options.path], options.exclusions)] else [];
    var resolved := if options.resolve then scanner.resolver([options.path], options.exclusions) else None;
    if resolved.Some? then Run(Err(resolved.value), resolveCalls)
    else
      var findCalls := resolveCalls + [GetGroupsCall(options.path, options.exclusions)];
      match scanner.finder(options.path, options.exclusions)
      case Err(err) => Run(Err(err), findCalls)
      case Ok(groups) =>
        var u := UploaderOptions(groups, meta, options.integrationName);
        Run(scanner.uploader(u), findCalls + [UploadCall(u)])
  }

  /** The rule asks for the pipeline to fail and has triggered. */
  predicate DemandsFailure(rule: AutomationRule)
  {
    rule.triggered && rule.failPipeline
  }

  /** The pipeline decision taken over the rules in order, as the loop accumulates it. */
  function FailsPipeline(rules: seq<AutomationRule>): (r: bool)
    ensures r <==> exists i :: 0 <= i < |rules| && DemandsFailure(rules[i])
  {
    if |rules| == 0 then false
    else FailsPipeline(rules[..|rules| - 1]) || DemandsFailure(rules[|rules| - 1])
  }

  /** Rendering every rule, in order. */
  function Renders(rules: seq<AutomationRule>): (r: seq<Call>)
    ensures |r| == |rules|
    ensures forall i :: 0 <= i < |rules| ==> r[i] == RenderCall(rules[i])
  {
    if |rules| == 0 then []
    else Renders(rules[..|rules| - 1]) + [RenderCall(rules[|rules| - 1])]
  }

  /** The request for git metadata, from the options after the directory change. */
  function MetaRequestOf(o: DebrickedOptions): MetaRequest
  {
    MetaRequest(o.path, o.repositoryName, o.commitName, o.branchName, o.commitAuthor, o.repositoryUrl)
  }

  /** What Scan returns and the calls it makes. */
  function ScanSpec(scanner: DebrickedScanner, o: IOptions, sys: System): Run<Option<Error>>
  {
    match o
    case OtherOptions => Run(Some(BadOptsErr), [])
    case Debricked(given) =>
      var merged := MergedOptions(given, scanner.foundEnv);
      var absPath := sys.abs(merged.path);
      var calls := [FindCall, ChdirCall(absPath)];
      match sys.chdir(absPath)
      case Some(err) => Run(Some(err), calls)
      case None => ScanInDirectory(scanner, merged.(path := ""), sys, calls)
  }

  /**
   * The rest of Scan once the working directory is set, after the calls in
   * `log`: git metadata, the stages, and the decision on their outcome.
   */
  function ScanInDirectory(scanner: DebrickedScanner, options: DebrickedOptions, sys: System, log: seq<Call>)
    : Run<Option<Error>>
  {
    var request := MetaRequestOf(options);
    var calls := log + [NewMetaObjectCall(request)];
    match sys.newMetaObject(request)
    case Err(err) => Run(Some(err), calls)
    case Ok(meta) =>
      var stages := ScanStages(scanner, options, meta);
      Decide(stages.outcome, options.passOnTimeOut, calls + stages.calls)
  }

  /**
   * The three-way split on the stages' outcome, after the calls in `log`: an
   * error goes through HandleScanError, no result is success, and a result's
   * rules are rendered and decide whether the pipeline fails.
   */
  function Decide(outcome: Result<Option<UploadResult>, Error>, passOnTimeOut: bool, log: seq<Call>)
    : Run<Option<Error>>
  {
    match outcome
    case Err(err) => Run(HandleScanError(err, passOnTimeOut), log)
    case Ok(None) => Run(None, log)
    case Ok(Some(result)) =>
      Run(if FailsPipeline(result.automationRules) then Some(FailPipelineErr) else None,
          log + Renders(result.automationRules))
  }

  /** Renders every rule in order and decides whether they fail the pipeline. */
  method EvaluateRules(rules: seq<AutomationRule>) returns (failPipeline: bool, renders: seq<Call>)
    ensures failPipeline == FailsPipeline(rules)
    ensures renders == Renders(rules)
  {
    failPipeline := false;
    renders := [];
    for i := 0 to |rules|
      invariant failPipeline == FailsPipeline(rules[..i])
      invariant renders == Renders(rules[..i])
    {
      var rule := rules[i];
      renders := renders + [RenderCall(rule)];
      failPipeline := failPipeline || (rule.triggered && rule.failPipeline);
      assert rules[..i + 1][..i] == rules[..i];
    }
    assert rules[..|rules|] == rules;
  }

  /** Runs a scan: the options are checked, merged and applied, the stages run, and the result decides the outcome. */
  method Scan(scanner: DebrickedScanner, o: IOptions, sys: System) returns (err: Option<Error>, calls: seq<Call>)
    ensures Run(err, calls) == ScanSpec(scanner, o, sys)
  {
    if !o.Debricked? {
      return Some(BadOptsErr), [];
    }
    var env := scanner.foundEnv;
    var d := new OptionsRef(o.options);
    MapEnvToOptions(d, env);
    calls := [FindCall, ChdirCall(sys.abs(d.value.path))];
    var chdirErr := SetWorkingDirectory(d, sys);
    if chdirErr.Some? {
      return chdirErr, calls;
    }
    var options := d.value;
    assert options == MergedOptions(o.options, env).(path := "");
    var request := MetaRequest(options.path, options.repositoryName, options.commitName, options.branchName,
                               options.commitAuthor, options.repositoryUrl);
    calls := calls + [NewMetaObjectCall(request)];
    var meta := sys.newMetaObject(request);
    if meta.Err? {
      return Some(meta.error), calls;
    }
    var stages := ScanStages(scanner, options, meta.value);
    calls := calls + stages.calls;
    if stages.outcome.Err? {
      return HandleScanError(stages.outcome.error, options.passOnTimeOut), calls;
    }
    if stages.outcome.value.None? {
      return None, calls;
    }
    var failPipeline, renders := EvaluateRules(stages.outcome.value.value.automationRules);
    calls := calls + renders;
    if failPipeline {
      return Some(FailPipelineErr), calls;
    }
    return None, calls;
  }
}
