/**
 * The Snyk Code scan service as its unit tests observe it. A scan returns
 * the cached analysis when the cache exists and is valid; extends the bundle
 * cached under its id when the cache exists but is invalid (the tests fix
 * only that id; the hashes of the filtered changed files and the removed-file
 * list passed with it are this model's choice); and otherwise creates a
 * bundle from all files, unless the filtered file list is empty, in which
 * case there is nothing to scan. Either remote path uploads the bundle's
 * missing files, fetches the analysis for the bundle's id and returns it
 * unchanged.
 */
module SnykCode {

  import opened Wrappers

  datatype AnalysisStatus = Pending | Complete | Failed

  /** The findings for one file; only its name is modelled. */
  datatype FileAnalysis = FileAnalysis(fileName: string)

  datatype AnalysisResult = AnalysisResult(status: AnalysisStatus, progress: real, fileAnalyses: seq<FileAnalysis>)

  /** A remote bundle: its id and the files whose content the remote service still lacks. */
  datatype Bundle = Bundle(id: string, missingFiles: seq<string>)

  /** What the file-tracking provider reports at the time of the scan. */
  datatype FileProvider = FileProvider(
    files: seq<string>,
    changedFiles: seq<string>,
    allChangedFiles: seq<string>,
    removedFiles: seq<string>)

  /** The answers of the services the scan consults. */
  datatype Collaborators = Collaborators(
    /** The supported-files filter. */
    filterFiles: seq<string> -> seq<string>,
    /** The cache service's file-path-to-content-hash map for a list of files. */
    filePathToHash: seq<string> -> map<string, string>,
    /** The bundle service creating a bundle from a path-to-hash map. */
    createBundle: map<string, string> -> Bundle,
    /** The bundle service extending a bundle by id with a path-to-hash map and removed files. */
    extendBundle: (string, map<string, string>, seq<string>) -> Bundle,
    /** The analysis service's result for a bundle id. */
    getAnalysis: string -> AnalysisResult)

  /** A call on the bundle or analysis service. */
  datatype RemoteCall =
    | CreateBundle(filePathToHash: map<string, string>)
    | ExtendBundle(bundleId: string, filePathToHash: map<string, string>, removedFiles: seq<string>)
    | UploadMissingFiles(bundle: Bundle)
    | GetAnalysis(bundleId: string)

  datatype CallKind = CreateBundleKind | ExtendBundleKind | UploadMissingFilesKind | GetAnalysisKind

  function KindOf(call: RemoteCall): CallKind {
    match call
    case CreateBundle(_) => CreateBundleKind
    case ExtendBundle(_, _, _) => ExtendBundleKind
    case UploadMissingFiles(_) => UploadMissingFilesKind
    case GetAnalysis(_) => GetAnalysisKind
  }

  /** How many calls of `kind` the log holds. */
  function Count(calls: seq<RemoteCall>, kind: CallKind): (n: nat)
    ensures n <= |calls|
    decreases |calls|
  {
    if calls == [] then 0
    else Count(calls[..|calls| - 1], kind) + (if KindOf(calls[|calls| - 1]) == kind then 1 else 0)
  }

  /** One indicator per call: the count of a three-call log. */
  lemma CountThree(x: RemoteCall, y: RemoteCall, z: RemoteCall, kind: CallKind)
    ensures Count([x, y, z], kind) ==
      (if KindOf(x) == kind then 1 else 0) + (if KindOf(y) == kind then 1 else 0) + (if KindOf(z) == kind then 1 else 0)
  {
    assert [x, y, z][..2] == [x, y];
    assert [x, y][..1] == [x];
    assert [x][..0] == [];
    assert Count([x], kind) == (if KindOf(x) == kind then 1 else 0);
    assert Count([x, y], kind) == Count([x], kind) + (if KindOf(y) == kind then 1 else 0);
  }

  /** The code cache service: whether a cache exists, whether it is valid, the cached bundle id and result. */
  class CodeCache {
    var cacheExists: bool
    var cacheValid: bool
    var bundleId: string
    var analysisResult: Option<AnalysisResult>
    /** How many times the cached result was read, as the tests count it. */
    ghost var analysisResultReads: nat

    constructor (cacheExists: bool, cacheValid: bool, bundleId: string, analysisResult: Option<AnalysisResult>)
      ensures this.cacheExists == cacheExists && this.cacheValid == cacheValid
      ensures this.bundleId == bundleId && this.analysisResult == analysisResult
      ensures analysisResultReads == 0
    {
      this.cacheExists := cacheExists;
      this.cacheValid := cacheValid;
      this.bundleId := bundleId;
      this.analysisResult := analysisResult;
      analysisResultReads := 0;
    }

    method GetCachedAnalysisResult() returns (r: Option<AnalysisResult>)
      modifies this
      ensures r == analysisResult && analysisResultReads == old(analysisResultReads) + 1
      ensures cacheExists == old(cacheExists) && cacheValid == old(cacheValid)
      ensures bundleId == old(bundleId) && analysisResult == old(analysisResult)
    {
      r := analysisResult;
      analysisResultReads := analysisResultReads + 1;
    }

    /** Keeps the result of a completed scan; the cache then exists and is valid. */
    method SetAnalysisResult(result: AnalysisResult)
      modifies this
      ensures analysisResult == Some(result) && cacheExists && cacheValid
      ensures bundleId == old(bundleId) && analysisResultReads == old(analysisResultReads)
    {
      analysisResult := Some(result);
      cacheExists := true;
      cacheValid := true;
    }

    method SetCachedBundleId(id: string)
      modifies this
      ensures bundleId == id
      ensures cacheExists == old(cacheExists) && cacheValid == old(cacheValid)
      ensures analysisResult == old(analysisResult) && analysisResultReads == old(analysisResultReads)
    {
      bundleId := id;
    }
  }

  class SnykCodeService {
    const cache: CodeCache
    /** The calls made on the bundle and analysis services, in order. */
    ghost var calls: seq<RemoteCall>

    constructor (cache: CodeCache)
      ensures this.cache == cache && calls == []
    {
      this.cache := cache;
      calls := [];
    }

    method ScanAsync(provider: FileProvider, c: Collaborators) returns (r: Option<AnalysisResult>)
      modifies this, cache
      // Cache exists and is valid: the cached result, read exactly once, and no remote call.
      ensures old(cache.cacheExists && cache.cacheValid) ==>
        && r == old(cache.analysisResult)
        && calls == old(calls)
        && cache.analysisResultReads == old(cache.analysisResultReads) + 1
        && cache.cacheExists && cache.cacheValid
        && cache.bundleId == old(cache.bundleId) && cache.analysisResult == old(cache.analysisResult)
      // Cache exists but is invalid: the cached bundle is extended.
      ensures old(cache.cacheExists && !cache.cacheValid) ==>
        var hashes := c.filePathToHash(c.filterFiles(provider.allChangedFiles));
        var bundle := c.extendBundle(old(cache.bundleId), hashes, provider.removedFiles);
        && r == Some(c.getAnalysis(bundle.id))
        && calls == old(calls) + [ExtendBundle(old(cache.bundleId), hashes, provider.removedFiles),
                                  UploadMissingFiles(bundle), GetAnalysis(bundle.id)]
        && cache.analysisResult == r && cache.bundleId == bundle.id && cache.cacheExists && cache.cacheValid
        && cache.analysisResultReads == old(cache.analysisResultReads)
      // No cache and nothing to scan: no result and no remote call.
      ensures !old(cache.cacheExists) && c.filterFiles(provider.files) == [] ==>
        && r == None
        && calls == old(calls)
        && cache.cacheExists == old(cache.cacheExists) && cache.cacheValid == old(cache.cacheValid)
        && cache.bundleId == old(cache.bundleId) && cache.analysisResult == old(cache.analysisResult)
        && cache.analysisResultReads == old(cache.analysisResultReads)
      // No cache: a new bundle for all filtered files.
      ensures !old(cache.cacheExists) && c.filterFiles(provider.files) != [] ==>
        var hashes := c.filePathToHash(c.filterFiles(provider.files));
        var bundle := c.createBundle(hashes);
        && r == Some(c.getAnalysis(bundle.id))
        && calls == old(calls) + [CreateBundle(hashes), UploadMissingFiles(bundle), GetAnalysis(bundle.id)]
        && cache.analysisResult == r && cache.bundleId == bundle.id && cache.cacheExists && cache.cacheValid
        && cache.analysisResultReads == old(cache.analysisResultReads)
    {
      if cache.cacheExists && cache.cacheValid {
        r := cache.GetCachedAnalysisResult();
        return;
      }
      var bundle: Bundle;
      if cache.cacheExists {
        var bundleId := cache.bundleId;
        var removedFiles := provider.removedFiles;
        var files := c.filterFiles(provider.allChangedFiles);
        var hashes := c.filePathToHash(files);
        bundle := c.extendBundle(bundleId, hashes, removedFiles);
        calls := calls + [ExtendBundle(bundleId, hashes, removedFiles)];
      } else {
        var files := c.filterFiles(provider.files);
        if files == [] {
          return None;
        }
        var hashes := c.filePathToHash(files);
        bundle := c.createBundle(hashes);
        calls := calls + [CreateBundle(hashes)];
      }
      calls := calls + [UploadMissingFiles(bundle)];
      var result := c.getAnalysis(bundle.id);
      calls := calls + [GetAnalysis(bundle.id)];
      cache.SetAnalysisResult(result);
      cache.SetCachedBundleId(bundle.id);
      r := Some(result);
    }
  }

  /** A complete analysis listing the given files. */
  function CompleteAnalysis(fileNames: seq<string>): (result: AnalysisResult)
    ensures result.status == Complete && |result.fileAnalyses| == |fileNames|
    ensures forall i :: 0 <= i < |fileNames| ==> result.fileAnalyses[i].fileName == fileNames[i]
  {
    AnalysisResult(Complete, 1.0, seq(|fileNames|, i requires 0 <= i < |fileNames| => FileAnalysis(fileNames[i])))
  }

  /** What an unconfigured analysis mock answers: a result with no file analyses. */
  const NoAnalysis := AnalysisResult(Failed, 0.0, [])

  /**
   * The cache-hit test: with a valid cache the scan returns the cached
   * result, reads it once and calls the analysis service zero times, whatever
   * the provider and the services would answer.
   */
  method CacheHitScenario(provider: FileProvider, c: Collaborators)
    returns (r: Option<AnalysisResult>, ghost analysisCalls: nat, ghost resultReads: nat)
    ensures r == Some(CompleteAnalysis(["app1.js", "app2.js"]))
    ensures analysisCalls == 0 && resultReads == 1
  {
    var cache := new CodeCache(true, true, "", Some(CompleteAnalysis(["app1.js", "app2.js"])));
    var service := new SnykCodeService(cache);
    r := service.ScanAsync(provider, c);
    analysisCalls := Count(service.calls, GetAnalysisKind);
    resultReads := cache.analysisResultReads;
  }

  /**
   * The incremental test: the cache exists but is invalid; the bundle cached
   * under "testBundleId" is extended, and the analysis fetched for that id,
   * with three file analyses, is returned.
   */
  method IncrementalScenario(filePathToHash: seq<string> -> map<string, string>, createBundle: map<string, string> -> Bundle)
    returns (r: Option<AnalysisResult>, ghost calls: seq<RemoteCall>)
    ensures r.Some? && |r.value.fileAnalyses| == 3
    ensures |calls| == 3 && calls[0].ExtendBundle? && calls[0].bundleId == "testBundleId"
    ensures calls[0].removedFiles == ["C:\\Project\\Test\\DummyWindow.cs"]
    ensures calls[1] == UploadMissingFiles(Bundle("testBundleId", [])) && calls[2] == GetAnalysis("testBundleId")
  {
    var changedFiles := ["C:\\Project\\Test\\Window.cs"];
    var removedFiles := ["C:\\Project\\Test\\DummyWindow.cs"];
    var provider := FileProvider([], changedFiles, changedFiles, removedFiles);
    var result := CompleteAnalysis(["Main.cs", "DbService.cs", "Window.cs"]);
    var c := Collaborators(
      files => files,
      filePathToHash,
      createBundle,
      (id, hashes, removed) => if id == "testBundleId" then Bundle("testBundleId", []) else Bundle("", []),
      id => if id == "testBundleId" then result else NoAnalysis);
    var cache := new CodeCache(true, false, "testBundleId", None);
    var service := new SnykCodeService(cache);
    r := service.ScanAsync(provider, c);
    calls := service.calls;
  }

  /**
   * The full-scan test: no cache and two files after filtering; the bundle
   * is created once, its missing files are uploaded once and the analysis for
   * "dummyId" is fetched once and returned unchanged, app1.js before app2.js.
   */
  method FullScanScenario(filePath1: string, filePath2: string, filePathToHash: seq<string> -> map<string, string>,
                          extendBundle: (string, map<string, string>, seq<string>) -> Bundle)
    returns (r: Option<AnalysisResult>, ghost calls: seq<RemoteCall>)
    ensures r.Some? && |r.value.fileAnalyses| == 2
    ensures r.value.fileAnalyses[0].fileName == "app1.js" && r.value.fileAnalyses[1].fileName == "app2.js"
    ensures Count(calls, CreateBundleKind) == 1 && Count(calls, UploadMissingFilesKind) == 1
    ensures Count(calls, GetAnalysisKind) == 1 && GetAnalysis("dummyId") in calls
    ensures Count(calls, ExtendBundleKind) == 0
  {
    var filePaths := [filePath1, filePath2];
    var provider := FileProvider(filePaths, [], [], []);
    var bundle := Bundle("dummyId", filePaths);
    var result := CompleteAnalysis(["app1.js", "app2.js"]);
    var c := Collaborators(
      files => filePaths,
      filePathToHash,
      hashes => bundle,
      extendBundle,
      id => if id == "dummyId" then result else NoAnalysis);
    var cache := new CodeCache(false, false, "", None);
    var service := new SnykCodeService(cache);
    r := service.ScanAsync(provider, c);
    calls := service.calls;
    assert calls == [CreateBundle(filePathToHash(filePaths)), UploadMissingFiles(bundle), GetAnalysis("dummyId")];
    forall kind: CallKind
      ensures Count(calls, kind) ==
        (if kind == CreateBundleKind || kind == UploadMissingFilesKind || kind == GetAnalysisKind then 1 else 0)
    {
      CountThree(calls[0], calls[1], calls[2], kind);
    }
  }

  /**
   * The empty test: no cache, and the unconfigured filter answers no files;
   * the scan returns no result and calls no remote service.
   */
  method NoFilesScenario(provider: FileProvider, c: Collaborators)
    returns (r: Option<AnalysisResult>, ghost calls: seq<RemoteCall>)
    requires c.filterFiles(provider.files) == []
    ensures r == None && calls == []
  {
    var cache := new CodeCache(false, false, "", None);
    var service := new SnykCodeService(cache);
    r := service.ScanAsync(provider, c);
    calls := service.calls;
  }
}
