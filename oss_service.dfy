/**
 * The Open Source scan service as its unit tests observe it: the first scan
 * runs the CLI and keeps the result, later scans return the kept result, and
 * clearing the cache makes the next scan run the CLI again.
 */
module OssService {

  import opened Wrappers

  /** The result of one CLI run; the cache treats it as an opaque value. */
  datatype CliResult = CliResult(output: string)

  class OssService {
    /** The kept result of the last CLI run, None when there is none. */
    var cachedResult: Option<CliResult>
    /** How many times the CLI's scan was invoked, as the tests count it. */
    ghost var cliScans: nat

    constructor ()
      ensures cachedResult == None && cliScans == 0
    {
      cachedResult := None;
      cliScans := 0;
    }

    /**
     * Returns the kept result when there is one; otherwise runs the CLI on
     * `basePath` (the CLI is the function `cli`) and keeps its result.
     */
    method ScanAsync(basePath: string, cli: string -> CliResult) returns (r: CliResult)
      modifies this
      ensures cachedResult == Some(r)
      ensures old(cachedResult).Some? ==> r == old(cachedResult).value && cliScans == old(cliScans)
      ensures old(cachedResult).None? ==> r == cli(basePath) && cliScans == old(cliScans) + 1
    {
      if cachedResult.Some? {
        return cachedResult.value;
      }
      r := cli(basePath);
      cliScans := cliScans + 1;
      cachedResult := Some(r);
    }

    /** Forgets the kept result. */
    method ClearCache()
      modifies this
      ensures cachedResult == None && cliScans == old(cliScans)
    {
      cachedResult := None;
    }
  }

  /** A scan on a new service runs the CLI once and returns its result. */
  method FirstScanRunsCli(cli: string -> CliResult) returns (r: CliResult, ghost cliScans: nat)
    ensures r == cli("") && cliScans == 1
  {
    var service := new OssService();
    r := service.ScanAsync("", cli);
    cliScans := service.cliScans;
  }

  /** A second scan returns the first scan's result without running the CLI again. */
  method SecondScanServedFromCache(cli: string -> CliResult) returns (first: CliResult, second: CliResult, ghost cliScans: nat)
    ensures first == cli("") && second == first && cliScans == 1
  {
    var service := new OssService();
    first := service.ScanAsync("", cli);
    second := service.ScanAsync("", cli);
    cliScans := service.cliScans;
  }

  /** After ClearCache the next scan runs the CLI again: twice in all. */
  method ClearCacheRescans(cli: string -> CliResult) returns (r: CliResult, ghost cliScans: nat)
    ensures r == cli("") && cliScans == 2
  {
    var service := new OssService();
    var _ := service.ScanAsync("", cli);
    service.ClearCache();
    r := service.ScanAsync("", cli);
    cliScans := service.cliScans;
  }
}
