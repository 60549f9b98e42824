/**
 * The status-bar notification service: which status-bar message, if any, each
 * scan or download event produces, and the lazily created single instance.
 */
module StatusBarNotifications {

  import opened Wrappers
  import opened Strings

  /** The extension options the handlers read. */
  datatype SnykOptions = SnykOptions(
    ossEnabled: bool,
    snykCodeSecurityEnabled: bool,
    snykCodeQualityEnabled: bool)

  /** The events the service listens to, with the event-argument fields their handlers read. */
  datatype ScanEvent =
    | OssScanError
    | SnykCodeScanError
    | SnykCodeScanUpdate(scanState: string, progress: int)
    | OssScanningFinished(snykCodeScanRunning: bool)
    | SnykCodeScanningFinished(ossScanRunning: bool)
    | CliScanningStarted
    | SnykCodeScanningStarted
    | ScanningCancelled
    | DownloadStarted
    | DownloadFinished
    | DownloadCancelled

  /** A call on the status bar, with the text it shows. */
  datatype StatusBarCall =
    | ShowSnykCodeUpdateMessage(text: string)
    | ShowFinishedSearchMessage(text: string)
    | ShowStartSearchMessage(text: string)
    | ShowDownloadFinishedMessage(text: string)
    | ShowDownloadProgressMessage(text: string)

  const OssScanErrorText := "Snyk Open Source scan error"
  const SnykCodeScanErrorText := "Snyk Code scan error"
  const ScanFinishedText := "Snyk scan finished"
  const ScanningText := "Snyk is scanning..."
  const ScanCancelledText := "Snyk scan cancelled"
  const DownloadFinishedText := "Snyk CLI downloaded successfully"
  const DownloadStartedText := "Downloading latest Snyk CLI release..."
  const DownloadCancelledText := "Snyk CLI download cancelled"

  /** The fixed texts; every message except a scan update shows one of them. */
  const FixedTexts: set<string> := {
    OssScanErrorText, SnykCodeScanErrorText, ScanFinishedText, ScanningText,
    ScanCancelledText, DownloadFinishedText, DownloadStartedText, DownloadCancelledText }

  /** The handlers of the two error events read the options. */
  predicate ReadsOptions(e: ScanEvent) {
    e.OssScanError? || e.SnykCodeScanError?
  }

  /**
   * The rule stated independently of the handlers: an error is kept quiet
   * while the other product is enabled (for Open Source, either Snyk Code
   * product), and "finished" is kept quiet while the other product's scan is running.
   */
  predicate Suppressed(e: ScanEvent, o: Option<SnykOptions>)
    requires ReadsOptions(e) ==> o.Some?
  {
    match e
    case OssScanError => o.value.snykCodeSecurityEnabled || o.value.snykCodeQualityEnabled
    case SnykCodeScanError => o.value.ossEnabled
    case OssScanningFinished(codeRunning) => codeRunning
    case SnykCodeScanningFinished(ossRunning) => ossRunning
    case _ => false
  }

  /** The text of a scan update: "{ScanState} {Progress}%". */
  function UpdateText(scanState: string, progress: int): string {
    scanState + " " + IntToString(progress) + "%"
  }

  /**
   * The status-bar call the handler of `e` makes, or None when it makes none.
   * `o` is the options object, None before it is set; the error handlers
   * dereference it, so they need it.
   */
  function Notification(e: ScanEvent, o: Option<SnykOptions>): (r: Option<StatusBarCall>)
    requires ReadsOptions(e) ==> o.Some?
    ensures r.None? <==> Suppressed(e, o)
    ensures r.Some? && !e.SnykCodeScanUpdate? ==> r.value.text in FixedTexts
    ensures e.SnykCodeScanUpdate? ==> r == Some(ShowSnykCodeUpdateMessage(UpdateText(e.scanState, e.progress)))
    ensures e.OssScanError? && r.Some? ==> r.value == ShowSnykCodeUpdateMessage(OssScanErrorText)
    ensures e.SnykCodeScanError? && r.Some? ==> r.value == ShowSnykCodeUpdateMessage(SnykCodeScanErrorText)
    ensures (e.OssScanningFinished? || e.SnykCodeScanningFinished?) && r.Some? ==>
      r.value == ShowFinishedSearchMessage(ScanFinishedText)
    ensures (e.CliScanningStarted? || e.SnykCodeScanningStarted?) ==> r == Some(ShowStartSearchMessage(ScanningText))
    ensures e.ScanningCancelled? ==> r == Some(ShowFinishedSearchMessage(ScanCancelledText))
    ensures e.DownloadStarted? ==> r == Some(ShowDownloadProgressMessage(DownloadStartedText))
    ensures e.DownloadFinished? ==> r == Some(ShowDownloadFinishedMessage(DownloadFinishedText))
    ensures e.DownloadCancelled? ==> r == Some(ShowDownloadFinishedMessage(DownloadCancelledText))
  {
    match e
    case OssScanError =>
      if !o.value.snykCodeSecurityEnabled && !o.value.snykCodeQualityEnabled
      then Some(ShowSnykCodeUpdateMessage(OssScanErrorText)) else None
    case SnykCodeScanError =>
      if !o.value.ossEnabled then Some(ShowSnykCodeUpdateMessage(SnykCodeScanErrorText)) else None
    case SnykCodeScanUpdate(state, progress) => Some(ShowSnykCodeUpdateMessage(UpdateText(state, progress)))
    case OssScanningFinished(codeRunning) =>
      if codeRunning then None else Some(ShowFinishedSearchMessage(ScanFinishedText))
    case SnykCodeScanningFinished(ossRunning) =>
      if ossRunning then None else Some(ShowFinishedSearchMessage(ScanFinishedText))
    case CliScanningStarted => Some(ShowStartSearchMessage(ScanningText))
    case SnykCodeScanningStarted => Some(ShowStartSearchMessage(ScanningText))
    case ScanningCancelled => Some(ShowFinishedSearchMessage(ScanCancelledText))
    case DownloadStarted => Some(ShowDownloadProgressMessage(DownloadStartedText))
    case DownloadFinished => Some(ShowDownloadFinishedMessage(DownloadFinishedText))
    case DownloadCancelled => Some(ShowDownloadFinishedMessage(DownloadCancelledText))
  }

  /** How a handler ends: it completes, having shown a message or none, or it throws a NullReferenceException. */
  datatype Outcome = Completed(shown: Option<StatusBarCall>) | NullReferenceThrown

  /**
   * The outcome of the handler of `e` when the status bar is set exactly when
   * `hasStatusBar` and the options are `o`. The error handlers read the
   * options first; a handler that shows a message dereferences the status bar.
   */
  function HandlerResult(e: ScanEvent, hasStatusBar: bool, o: Option<SnykOptions>): (r: Outcome)
    ensures r.NullReferenceThrown? <==>
      (ReadsOptions(e) && o.None?) || ((ReadsOptions(e) ==> o.Some?) && !hasStatusBar && !Suppressed(e, o))
    ensures r.Completed? ==> (ReadsOptions(e) ==> o.Some?) && r.shown == Notification(e, o)
    ensures hasStatusBar && o.Some? ==> r.Completed?
  {
    if ReadsOptions(e) && o.None? then NullReferenceThrown
    else
      var call := Notification(e, o);
      if call.Some? && !hasStatusBar then NullReferenceThrown else Completed(call)
  }

  /**
   * A scan-update text can be read back: it starts with the scan state and a
   * space, ends with '%', and for a non-negative progress the digits between
   * the last space and the '%' are the progress.
   */
  lemma UpdateTextCarriesProgress(scanState: string, progress: int)
    ensures StartsWith(UpdateText(scanState, progress), scanState + " ")
    ensures EndsWith(UpdateText(scanState, progress), "%")
    ensures progress >= 0 ==>
      var t := UpdateText(scanState, progress);
      var digits := AfterLast(t[..|t| - 1], ' ');
      AllDigits(digits) && ParseNat(digits) == progress
  {
    var t := UpdateText(scanState, progress);
    assert t[..|scanState| + 1] == scanState + " ";
    if progress >= 0 {
      var n := NatToString(progress);
      assert t[..|t| - 1] == scanState + [' '] + n;
      assert ' ' !in n by {
        forall i | 0 <= i < |n| ensures n[i] != ' ' {
          assert IsDigit(n[i]);
        }
      }
      AfterLastOfConcat(scanState, ' ', n);
      ParseNatToString(progress);
    }
  }

  /** The status bar, recording the calls made on it in order. */
  class VsStatusBar {
    var calls: seq<StatusBarCall>

    constructor ()
      ensures calls == []
    {
      calls := [];
    }

    method Show(c: StatusBarCall)
      modifies this
      ensures calls == old(calls) + [c]
    {
      calls := calls + [c];
    }
  }

  /** The notification service; its status bar and options are set by the two initialisers. */
  class VsStatusBarNotificationService {
    var statusBar: VsStatusBar?
    var options: Option<SnykOptions>

    constructor ()
      ensures statusBar == null && options == None
    {
      statusBar := null;
      options := None;
    }

    /** Takes the status bar; subscribing the handlers to the tasks service is not modelled. */
    method InitializeEventListeners(bar: VsStatusBar)
      modifies this
      ensures statusBar == bar && options == old(options)
    {
      statusBar := bar;
    }

    /** Takes the options; subscribing to the Snyk Code service's events is not modelled. */
    method InitializeCodeEventListeners(o: SnykOptions)
      modifies this
      ensures options == Some(o) && statusBar == old(statusBar)
    {
      options := Some(o);
    }

    /**
     * The handler of `e`: shows on the status bar the message Notification
     * chooses, if any, or throws where the handler dereferences a field that
     * is still unset.
     */
    method Handle(e: ScanEvent) returns (outcome: Outcome)
      modifies statusBar
      ensures outcome == HandlerResult(e, statusBar != null, options)
      ensures statusBar != null && outcome.Completed? && outcome.shown.Some? ==>
        statusBar.calls == old(statusBar.calls) + [outcome.shown.value]
      ensures statusBar != null && !(outcome.Completed? && outcome.shown.Some?) ==>
        statusBar.calls == old(statusBar.calls)
    {
      if ReadsOptions(e) && options.None? {
        return NullReferenceThrown;
      }
      var call := Notification(e, options);
      if call.Some? {
        if statusBar == null {
          return NullReferenceThrown;
        }
        statusBar.Show(call.value);
      }
      outcome := Completed(call);
    }
  }

  /**
   * An Open Source scan error that arrives after the tasks-service listeners
   * are set up but before the Snyk Code initialiser has passed the options
   * dereferences the unset options.
   */
  method OssErrorBeforeCodeInitialiser() returns (outcome: Outcome)
    ensures outcome == NullReferenceThrown
  {
    var service := new VsStatusBarNotificationService();
    var bar := new VsStatusBar();
    service.InitializeEventListeners(bar);
    outcome := service.Handle(OssScanError);
  }

  /**
   * A scan update, whose handler only the Snyk Code initialiser subscribes,
   * dereferences the status bar, which only the other initialiser sets.
   */
  method ScanUpdateBeforeTasksInitialiser() returns (outcome: Outcome)
    ensures outcome == NullReferenceThrown
  {
    var service := new VsStatusBarNotificationService();
    service.InitializeCodeEventListeners(SnykOptions(true, true, true));
    outcome := service.Handle(SnykCodeScanUpdate("Scanning", 50));
  }

  /** After both initialisers, an Open Source error with Snyk Code disabled is shown. */
  method OssErrorAfterBothInitialisers() returns (outcome: Outcome, calls: seq<StatusBarCall>)
    ensures outcome == Completed(Some(ShowSnykCodeUpdateMessage(OssScanErrorText)))
    ensures calls == [ShowSnykCodeUpdateMessage(OssScanErrorText)]
  {
    var service := new VsStatusBarNotificationService();
    var bar := new VsStatusBar();
    service.InitializeEventListeners(bar);
    service.InitializeCodeEventListeners(SnykOptions(true, false, false));
    outcome := service.Handle(OssScanError);
    calls := bar.calls;
  }

  /** The static `instance` field of the service class and its `Instance` getter. */
  class InstanceHolder {
    var instance: VsStatusBarNotificationService?

    constructor ()
      ensures instance == null
    {
      instance := null;
    }

    /** Creates the service on first use; afterwards returns that same object. */
    method Instance() returns (s: VsStatusBarNotificationService)
      modifies this
      ensures instance == s
      ensures old(instance) != null ==> s == old(instance)
      ensures old(instance) == null ==> fresh(s) && s.statusBar == null && s.options == None
    {
      if instance == null {
        instance := new VsStatusBarNotificationService();
      }
      s := instance;
    }

    /** Two uses of the getter see one object. */
    method InstanceIsStable() returns (first: VsStatusBarNotificationService, second: VsStatusBarNotificationService)
      modifies this
      ensures first == second && instance == first
    {
      first := Instance();
      second := Instance();
    }
  }
}
