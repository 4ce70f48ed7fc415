/**
 * The global uncaught-exception hook of index.js: `init` replaces the
 * runtime's global handler by a reporting wrapper, and the wrapper, when it
 * fires, reports the translated stack and hands the exception back to the
 * handler it replaced.
 */
module ErrorHandling {
  import opened Wrappers
  import opened Frames

  /** The thrown JavaScript error; only its message is used. */
  datatype JsError = JsError(message: string)

  /**
   * A global error handler: one installed by the host runtime (or by
   * anything else before `init`), or the wrapper `init` installs, which
   * holds the handler it replaced and the mapper it chose.
   */
  datatype Handler =
    | HostHandler(id: nat)
    | Reporter(original: Option<Handler>, mapper: StackRow -> Location)

  /** The platform on which the original handler is called at once. */
  const IOS: string := "ios"

  /** Milliseconds the original handler is postponed on every other platform. */
  const ReentryDelayMs: nat := 500

  /** What the wrapper does with the handler it replaced. */
  datatype Delegation =
    | NoDelegation
    | Immediate(handler: Handler, error: JsError, isFatal: bool)
    | Delayed(handler: Handler, error: JsError, isFatal: bool, delayMs: nat)

  /** The arguments of the `recordCustomExceptionName` call. */
  datatype Report = Report(name: string, message: string, frames: seq<ReportFrame>)

  /** Everything one firing of the wrapper produces. */
  datatype Outcome = Outcome(report: Option<Report>, delegation: Delegation)

  /**
   * The delegation step: nothing without a captured handler, an immediate
   * call on iOS, and one call after 500 ms on any other platform, always
   * with the same error and fatality flag.
   */
  function Delegate(original: Option<Handler>, os: string, e: JsError, isFatal: bool): (d: Delegation)
    ensures d.NoDelegation? <==> original.None?
    ensures d.Immediate? <==> original.Some? && os == IOS
    ensures d.Delayed? <==> original.Some? && os != IOS
    ensures !d.NoDelegation? ==> d.handler == original.value && d.error == e && d.isFatal == isFatal
    ensures d.Delayed? ==> d.delayMs == 500
  {
    match original
    case None => NoDelegation
    case Some(h) =>
      if os == IOS then Immediate(h, e, isFatal) else Delayed(h, e, isFatal, ReentryDelayMs)
  }

  /** The calls of an original handler a delegation leads to, as (handler, error, fatal) triples. */
  function Calls(d: Delegation): seq<(Handler, JsError, bool)>
  {
    match d
    case NoDelegation => []
    case Immediate(h, e, f) => [(h, e, f)]
    case Delayed(h, e, f, _) => [(h, e, f)]
  }

  /**
   * The original handler, when there is one, is called exactly once, with
   * the error and fatality flag the wrapper received; without one nothing
   * is called.
   */
  lemma DelegatesExactlyOnce(original: Option<Handler>, os: string, e: JsError, isFatal: bool)
    ensures var calls := Calls(Delegate(original, os, e, isFatal));
      |calls| == (if original.Some? then 1 else 0) &&
      forall k :: 0 <= k < |calls| ==> calls[k] == (original.value, e, isFatal)
  {
  }

  /**
   * One firing of the wrapper around `original` with the chosen mapper.
   * `extracted` is what the stack-trace extractor eventually delivers for
   * `e` (None when it fails, and no report is then made).
   */
  function Fire(original: Option<Handler>, mapper: StackRow -> Location, os: string,
                e: JsError, isFatal: bool, extracted: Option<seq<StackRow>>): (o: Outcome)
    ensures o.report.Some? <==> extracted.Some?
    ensures o.report.Some? ==>
      o.report.value.name == e.message && o.report.value.message == e.message &&
      |o.report.value.frames| == |extracted.value| &&
      forall i :: 0 <= i < |extracted.value| ==>
        o.report.value.frames[i] == Translate(extracted.value[i], mapper(extracted.value[i]))
    ensures o.delegation == Delegate(original, os, e, isFatal)
  {
    var report :=
      match extracted
      case None => None
      case Some(rows) => Some(Report(e.message, e.message, TranslateAll(rows, mapper)));
    Outcome(report, Delegate(original, os, e, isFatal))
  }

  /**
   * Delegation does not depend on reporting: whatever the extractor
   * delivers or fails to deliver, and whichever mapper is in use, the
   * original handler is treated the same.
   */
  lemma DelegationIndependentOfReport(
    original: Option<Handler>, m1: StackRow -> Location, m2: StackRow -> Location,
    os: string, e: JsError, isFatal: bool, x1: Option<seq<StackRow>>, x2: Option<seq<StackRow>>)
    ensures Fire(original, m1, os, e, isFatal, x1).delegation == Fire(original, m2, os, e, isFatal, x2).delegation
  {
  }

  /** The runtime's `ErrorUtils`: the one global handler slot. */
  class ErrorUtils {
    var slot: Option<Handler>

    constructor (initial: Option<Handler>)
      ensures slot == initial
    {
      slot := initial;
    }

    /** `getGlobalHandler()`. */
    method GetGlobalHandler() returns (h: Option<Handler>)
      ensures h == slot
    {
      h := slot;
    }

    /** `setGlobalHandler(h)`. */
    method SetGlobalHandler(h: Handler)
      modifies this
      ensures slot == Some(h)
    {
      slot := Some(h);
    }
  }

  /**
   * `init(smap)`: in development mode the slot is left alone; otherwise the
   * mapper is chosen, the current handler captured, and the slot set to the
   * wrapper around it.
   */
  method Init(utils: ErrorUtils, dev: bool, smap: Option<string>,
              consumerFor: string -> Position -> Location)
    modifies utils
    ensures dev ==> utils.slot == old(utils.slot)
    ensures !dev ==> utils.slot == Some(Reporter(old(utils.slot), SelectMapper(smap, consumerFor)))
  {
    if dev {
      return;
    }
    var mapper := SelectMapper(smap, consumerFor);
    var originalHandler := utils.GetGlobalHandler();
    utils.SetGlobalHandler(Reporter(originalHandler, mapper));
  }

  /**
   * The runtime raising an uncaught error: the handler in the slot fires.
   * Only the wrapper's behaviour is modelled, so a host handler in the
   * slot yields None.
   */
  method Raise(utils: ErrorUtils, os: string, e: JsError, isFatal: bool,
               extracted: Option<seq<StackRow>>) returns (o: Option<Outcome>)
    ensures utils.slot.Some? && utils.slot.value.Reporter? <==> o.Some?
    ensures o.Some? ==>
      o.value == Fire(utils.slot.value.original, utils.slot.value.mapper, os, e, isFatal, extracted)
  {
    var h := utils.GetGlobalHandler();
    match h
    case Some(Reporter(original, mapper)) =>
      o := Some(Fire(original, mapper, os, e, isFatal, extracted));
    case _ =>
      o := None;
  }

  /**
   * Production mode, no source map, a host handler already installed, on
   * Android: an error "boom" whose one row is x.js line 1 column 2 is
   * reported as ("boom", "boom", [x.js 1:2 unknown_func]) and the host
   * handler is called once, 500 ms later, with the same error.
   */
  method ProductionScenario(consumerFor: string -> Position -> Location) returns (o: Option<Outcome>)
    ensures o == Some(Outcome(
      Some(Report("boom", "boom", [ReportFrame(Some("x.js"), Some(2), Some(1), UnknownFunc)])),
      Delayed(HostHandler(7), JsError("boom"), true, 500)))
  {
    var utils := new ErrorUtils(Some(HostHandler(7)));
    Init(utils, false, None, consumerFor);
    var row := StackRow(Some("x.js"), Some(1), Some(2), None);
    o := Raise(utils, "android", JsError("boom"), true, Some([row]));
    NoSourceMapKeepsRows([row], None, consumerFor);
    ghost var frames := TranslateAll([row], SelectMapper(None, consumerFor));
    assert frames == [ReportFrame(Some("x.js"), Some(2), Some(1), UnknownFunc)];
  }

  /**
   * Development mode, even with a source map given: `init` leaves the host
   * handler in the slot, so no wrapper fires.
   */
  method DevelopmentScenario(consumerFor: string -> Position -> Location)
    returns (slot: Option<Handler>, o: Option<Outcome>)
    ensures slot == Some(HostHandler(7))
    ensures o == None
  {
    var utils := new ErrorUtils(Some(HostHandler(7)));
    Init(utils, true, Some("{\"version\":3}"), consumerFor);
    slot := utils.GetGlobalHandler();
    o := Raise(utils, "ios", JsError("boom"), true, Some([]));
  }
}
