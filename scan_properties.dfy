/**
 * What a scan does, stated over ScanSpec, the specification the Scan method
 * is proved to meet: which step stops it, which error it returns, which
 * collaborators it has called by then, and how the upload's outcome decides
 * the result.
 */
module ScanProperties {
  import opened Wrappers
  import opened CiEnv
  import opened Scan

  /** The directory Scan changes into: the absolute form of the merged path option. */
  function WorkingDirectory(scanner: DebrickedScanner, given: DebrickedOptions, sys: System): string
  {
    sys.abs(MergedOptions(given, scanner.foundEnv).path)
  }

  /** The options the later steps see: merged with the environment, with the path cleared by the directory change. */
  function Prepared(scanner: DebrickedScanner, given: DebrickedOptions): DebrickedOptions
  {
    MergedOptions(given, scanner.foundEnv).(path := "")
  }

  /** The directory change succeeds and git metadata `meta` is built, so the stages run. */
  predicate ReachesStages(scanner: DebrickedScanner, given: DebrickedOptions, sys: System, meta: MetaObject)
  {
    && sys.chdir(WorkingDirectory(scanner, given, sys)).None?
    && sys.newMetaObject(MetaRequestOf(Prepared(scanner, given))) == Ok(meta)
  }

  /** Anything but scan options is refused with BadOptsErr before any collaborator is called. */
  lemma ScanRejectsOtherOptions(scanner: DebrickedScanner, sys: System)
    ensures ScanSpec(scanner, OtherOptions, sys) == Run(Some(BadOptsErr), [])
  {
  }

  /** A failed directory change ends the scan with its error, right after CI detection and the change itself. */
  lemma ScanStopsOnChdirError(scanner: DebrickedScanner, given: DebrickedOptions, sys: System)
    requires sys.chdir(WorkingDirectory(scanner, given, sys)).Some?
    ensures ScanSpec(scanner, Debricked(given), sys)
         == Run(sys.chdir(WorkingDirectory(scanner, given, sys)), [FindCall, ChdirCall(WorkingDirectory(scanner, given, sys))])
  {
  }

  /**
   * An error building git metadata ends the scan with that error as it is:
   * it is not passed through HandleScanError, so even a polling timeout fails
   * the scan here.
   */
  lemma ScanStopsOnMetaError(scanner: DebrickedScanner, given: DebrickedOptions, sys: System, err: Error)
    requires sys.chdir(WorkingDirectory(scanner, given, sys)).None?
    requires sys.newMetaObject(MetaRequestOf(Prepared(scanner, given))) == Err(err)
    ensures ScanSpec(scanner, Debricked(given), sys)
         == Run(Some(err), [FindCall, ChdirCall(WorkingDirectory(scanner, given, sys)),
                            NewMetaObjectCall(MetaRequestOf(Prepared(scanner, given)))])
  {
  }

  /** The metadata request carries the merged metadata options, and the path the directory change cleared. */
  lemma MetaRequestAfterChdir(scanner: DebrickedScanner, given: DebrickedOptions)
    ensures var m := MergedOptions(given, scanner.foundEnv);
      MetaRequestOf(Prepared(scanner, given))
        == MetaRequest("", m.repositoryName, m.commitName, m.branchName, m.commitAuthor, m.repositoryUrl)
  {
  }

  /**
   * When the scan has reached the stages, its result is the decision on the
   * stages' outcome, after CI detection, the directory change, the metadata
   * and the stages' own calls.
   */
  lemma ScanThroughStages(scanner: DebrickedScanner, given: DebrickedOptions, sys: System, meta: MetaObject)
    requires ReachesStages(scanner, given, sys, meta)
    ensures var stages := ScanStages(scanner, Prepared(scanner, given), meta);
      ScanSpec(scanner, Debricked(given), sys)
        == Decide(stages.outcome, given.passOnTimeOut,
                  [FindCall, ChdirCall(WorkingDirectory(scanner, given, sys)),
                   NewMetaObjectCall(MetaRequestOf(Prepared(scanner, given)))] + stages.calls)
  {
  }

  /** A resolver error stops the stages: the error, forgiven only as a timeout the caller accepts, and no discovery or upload. */
  lemma ScanStopsOnResolverError(scanner: DebrickedScanner, given: DebrickedOptions, sys: System, meta: MetaObject, err: Error)
    requires ReachesStages(scanner, given, sys, meta)
    requires given.resolve && scanner.resolver([""], given.exclusions) == Some(err)
    ensures var r := ScanSpec(scanner, Debricked(given), sys);
      && r.outcome == HandleScanError(err, given.passOnTimeOut)
      && ResolveCall([""], given.exclusions) in r.calls
      && forall c | c in r.calls :: !c.GetGroupsCall? && !c.UploadCall?
  {
    ScanThroughStages(scanner, given, sys, meta);
  }

  /** A finder error stops the stages the same way, before anything is uploaded. */
  lemma ScanStopsOnFinderError(scanner: DebrickedScanner, given: DebrickedOptions, sys: System, meta: MetaObject, err: Error)
    requires ReachesStages(scanner, given, sys, meta)
    requires given.resolve ==> scanner.resolver([""], given.exclusions).None?
    requires scanner.finder("", given.exclusions) == Err(err)
    ensures var r := ScanSpec(scanner, Debricked(given), sys);
      && r.outcome == HandleScanError(err, given.passOnTimeOut)
      && GetGroupsCall("", given.exclusions) in r.calls
      && forall c | c in r.calls :: !c.UploadCall?
  {
    ScanThroughStages(scanner, given, sys, meta);
  }

  /**
   * A resolver error decides the scan without the finder or the uploader: any
   * other finder and uploader give the same outcome and the same calls.
   */
  lemma ResolverErrorIgnoresLaterStages(scanner: DebrickedScanner, given: DebrickedOptions, sys: System, err: Error,
                                        finder: (string, seq<string>) -> Result<seq<FileGroup>, Error>,
                                        uploader: UploaderOptions -> Result<Option<UploadResult>, Error>)
    requires given.resolve && scanner.resolver([""], given.exclusions) == Some(err)
    ensures ScanSpec(scanner.(finder := finder, uploader := uploader), Debricked(given), sys)
         == ScanSpec(scanner, Debricked(given), sys)
  {
    var other := scanner.(finder := finder, uploader := uploader);
    if sys.chdir(WorkingDirectory(scanner, given, sys)).None? {
      match sys.newMetaObject(MetaRequestOf(Prepared(scanner, given)))
      case Err(_) =>
      case Ok(meta) =>
        ScanThroughStages(scanner, given, sys, meta);
        ScanThroughStages(other, given, sys, meta);
    }
  }

  /**
   * A finder error decides the scan without the uploader: any other uploader
   * gives the same outcome and the same calls.
   */
  lemma FinderErrorIgnoresUploader(scanner: DebrickedScanner, given: DebrickedOptions, sys: System, err: Error,
                                   uploader: UploaderOptions -> Result<Option<UploadResult>, Error>)
    requires scanner.finder("", given.exclusions) == Err(err)
    ensures ScanSpec(scanner.(uploader := uploader), Debricked(given), sys) == ScanSpec(scanner, Debricked(given), sys)
  {
    var other := scanner.(uploader := uploader);
    if sys.chdir(WorkingDirectory(scanner, given, sys)).None? {
      match sys.newMetaObject(MetaRequestOf(Prepared(scanner, given)))
      case Err(_) =>
      case Ok(meta) =>
        ScanThroughStages(scanner, given, sys, meta);
        ScanThroughStages(other, given, sys, meta);
    }
  }

  /**
   * Within the stages, an upload happens only after the resolver (when asked
   * for) and the finder succeeded; it uploads the groups found with the
   * metadata and integration name given, it is the last call, and its
   * outcome is the stages' outcome.
   */
  lemma StagesUploadAfterDiscovery(scanner: DebrickedScanner, options: DebrickedOptions, meta: MetaObject, u: UploaderOptions)
    requires UploadCall(u) in ScanStages(scanner, options, meta).calls
    ensures options.resolve ==> scanner.resolver([options.path], options.exclusions).None?
    ensures scanner.finder(options.path, options.exclusions) == Ok(u.fileGroups)
    ensures u == UploaderOptions(u.fileGroups, meta, options.integrationName)
    ensures var stages := ScanStages(scanner, options, meta);
      stages.outcome == scanner.uploader(u) && stages.calls[|stages.calls| - 1] == UploadCall(u)
  {
  }

  /** An upload in a scan's calls was made inside the stages, which the scan reached with scan options. */
  lemma UploadInStages(scanner: DebrickedScanner, o: IOptions, sys: System, u: UploaderOptions) returns (meta: MetaObject)
    requires UploadCall(u) in ScanSpec(scanner, o, sys).calls
    ensures o.Debricked? && ReachesStages(scanner, o.options, sys, meta)
    ensures UploadCall(u) in ScanStages(scanner, Prepared(scanner, o.options), meta).calls
  {
    var given := o.options;
    var dir := WorkingDirectory(scanner, given, sys);
    var request := MetaRequestOf(Prepared(scanner, given));
    meta := sys.newMetaObject(request).value;
    ScanThroughStages(scanner, given, sys, meta);
    var stages := ScanStages(scanner, Prepared(scanner, given), meta);
    var log := [FindCall, ChdirCall(dir), NewMetaObjectCall(request)] + stages.calls;
    var r := ScanSpec(scanner, o, sys);
    if r.calls != log {
      var rules := stages.outcome.value.value.automationRules;
      assert r.calls == log + Renders(rules);
      assert UploadCall(u) !in Renders(rules);
    }
  }

  /**
   * A scan uploads only with scan options, after the directory change, the
   * metadata, the resolver (when asked for) and the finder all succeeded, the
   * latter two on the cleared path; the upload carries the groups found, the
   * metadata built and the merged integration name.
   */
  lemma ScanUploadsOnlyAfterDiscovery(scanner: DebrickedScanner, o: IOptions, sys: System, u: UploaderOptions)
    requires UploadCall(u) in ScanSpec(scanner, o, sys).calls
    ensures o.Debricked? && ReachesStages(scanner, o.options, sys, u.gitMetaObject)
    ensures o.Debricked? && o.options.resolve ==> scanner.resolver([""], o.options.exclusions).None?
    ensures o.Debricked? && scanner.finder("", o.options.exclusions) == Ok(u.fileGroups)
    ensures o.Debricked? && u.integrationsName == MergedOptions(o.options, scanner.foundEnv).integrationName
  {
    var meta := UploadInStages(scanner, o, sys, u);
    StagesUploadAfterDiscovery(scanner, Prepared(scanner, o.options), meta, u);
  }

  /** The stages' outcome, once they have uploaded, is the uploader's answer. */
  lemma ScanDecidesOnUpload(scanner: DebrickedScanner, o: IOptions, sys: System, u: UploaderOptions) returns (log: seq<Call>)
    requires UploadCall(u) in ScanSpec(scanner, o, sys).calls
    ensures o.Debricked?
    ensures ScanSpec(scanner, o, sys) == Decide(scanner.uploader(u), o.options.passOnTimeOut, log)
  {
    var meta := UploadInStages(scanner, o, sys, u);
    var given := o.options;
    StagesUploadAfterDiscovery(scanner, Prepared(scanner, given), meta, u);
    ScanThroughStages(scanner, given, sys, meta);
    var stages := ScanStages(scanner, Prepared(scanner, given), meta);
    log := [FindCall, ChdirCall(WorkingDirectory(scanner, given, sys)),
            NewMetaObjectCall(MetaRequestOf(Prepared(scanner, given)))] + stages.calls;
  }

  /** An upload error ends the scan through HandleScanError: only a polling timeout the caller accepts is forgiven. */
  lemma ScanUploadErrorHandled(scanner: DebrickedScanner, o: IOptions, sys: System, u: UploaderOptions, err: Error)
    requires UploadCall(u) in ScanSpec(scanner, o, sys).calls && scanner.uploader(u) == Err(err)
    ensures o.Debricked? && ScanSpec(scanner, o, sys).outcome == HandleScanError(err, o.options.passOnTimeOut)
  {
    var log := ScanDecidesOnUpload(scanner, o, sys, u);
  }

  /** An upload that returns no result and no error (polling gave up) makes the scan succeed, whatever the timeout policy. */
  lemma ScanSoftTimeoutSucceeds(scanner: DebrickedScanner, o: IOptions, sys: System, u: UploaderOptions)
    requires UploadCall(u) in ScanSpec(scanner, o, sys).calls && scanner.uploader(u) == Ok(None)
    ensures ScanSpec(scanner, o, sys).outcome == None
  {
    var log := ScanDecidesOnUpload(scanner, o, sys, u);
  }

  /**
   * With a result, every automation rule is rendered, in order, as the last
   * calls of the scan, and the scan fails with FailPipelineErr exactly when
   * some rule triggered and asks for the pipeline to fail; otherwise it
   * succeeds.
   */
  lemma ScanFailsPipelineIffRuleDemands(scanner: DebrickedScanner, o: IOptions, sys: System, u: UploaderOptions, result: UploadResult)
    requires UploadCall(u) in ScanSpec(scanner, o, sys).calls && scanner.uploader(u) == Ok(Some(result))
    ensures var r := ScanSpec(scanner, o, sys);
      var rules := result.automationRules;
      && (r.outcome == Some(FailPipelineErr) <==> exists i :: 0 <= i < |rules| && DemandsFailure(rules[i]))
      && (r.outcome == None <==> forall i :: 0 <= i < |rules| ==> !DemandsFailure(rules[i]))
      && |rules| <= |r.calls| && r.calls[|r.calls| - |rules|..] == Renders(rules)
  {
    var log := ScanDecidesOnUpload(scanner, o, sys, u);
    var r := ScanSpec(scanner, o, sys);
    assert r.calls == log + Renders(result.automationRules);
  }
}
