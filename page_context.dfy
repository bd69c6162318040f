/**
 * The mobile page layout listener of the page-context extension for the Contao
 * CMS (`MobilePageLayoutListener::onGetPageLayout`, the `getPageLayout` hook).
 *
 * Once per request, before the page layout is final, the listener decides
 * whether the page renders in mobile mode, records that decision in the page's
 * `isMobile` field and, in mobile mode, replaces the caller's layout with the
 * page's configured mobile layout, logging an error and throwing
 * `NoLayoutSpecifiedException` when that layout does not exist.
 *
 * `Resolve` is the decision as a pure function of its inputs; the listener's
 * method follows the source step by step and is proved to agree with it; the
 * lemmas at the end state what the decision promises.
 */
module PageContext {
  import opened Wrappers
  import PhpInt

  // ---------------------------------------------------------------------------
  // Data model

  /** A layout record (`tl_layout`); beyond its id its columns do not matter here. */
  datatype Layout = Layout(id: int, name: string)

  /** The master request: only its cookie bag is read. */
  datatype Request = Request(cookies: map<string, string>)

  /** Contao's log context object: the originating method and the action. */
  datatype ContaoContext = ContaoContext(func: string, action: string)

  /** One record handed to the PSR-3 logger. */
  datatype LogRecord = LogRecord(level: string, message: string, contao: ContaoContext)

  /** How the hook returns: normally, or by throwing `NoLayoutSpecifiedException`. */
  datatype Outcome = Ok | NoLayoutSpecified(message: string)

  /** What happens to the caller's by-reference layout: untouched, or overwritten
    * with the repository's answer (which may be null). */
  datatype LayoutWrite = Keep | Overwrite(layout: Option<Layout>)

  /** The whole effect of one hook call. */
  datatype Resolution = Resolution(isMobile: bool, write: LayoutWrite, outcome: Outcome, log: seq<LogRecord>)

  /** Kernel bundle name whose presence hands mobile layouts over to that bundle. */
  const MobileBundle := "ContaoMobilePageLayoutBundle"

  /** Name of the cookie that carries the visitor's view preference. */
  const ViewCookie := "TL_VIEW"

  /** Cookie value that selects the mobile view; any other value selects desktop. */
  const MobileView := "mobile"

  /** PSR-3 `LogLevel::ERROR`. */
  const LogLevelError := "error"

  /** PHP's `__METHOD__` inside the hook. */
  const HookMethod := "Netzmacht\\Contao\\PageContext\\EventListener\\MobilePageLayoutListener::onGetPageLayout"

  const MissingLayoutPrefix := "Could not find mobile layout ID \""

  const NoLayoutMessage := "No layout specified"

  /** The page being rendered. `isMobile` is None until someone assigns it. */
  class Page {
    var isMobile: Option<bool>
    const mobileLayout: int

    constructor (mobileLayout: int)
      ensures this.mobileLayout == mobileLayout && isMobile == None
    {
      this.mobileLayout := mobileLayout;
      isMobile := None;
    }
  }

  /** The PSR-3 logger, seen as the sequence of records it has received. */
  class Logger {
    var records: seq<LogRecord>

    constructor ()
      ensures records == []
    {
      records := [];
    }

    method Log(level: string, message: string, contao: ContaoContext)
      modifies this
      ensures records == old(records) + [LogRecord(level, message, contao)]
    {
      records := records + [LogRecord(level, message, contao)];
    }
  }

  // ---------------------------------------------------------------------------
  // Specification

  /** PHP `isset($bundles[$name])`: the key is present AND its value is not null. */
  predicate IsSet(bundles: map<string, Option<string>>, name: string) {
    name in bundles && bundles[name].Some?
  }

  /** The guard: no mobile layout configured, or the dedicated bundle is active. */
  predicate SkipsMobileHandling(mobileLayout: int, bundles: map<string, Option<string>>) {
    mobileLayout == 0 || IsSet(bundles, MobileBundle)
  }

  /** Device detection, overridden in either direction by a `TL_VIEW` cookie on
    * the master request. */
  predicate ViewIsMobile(agentMobile: bool, masterRequest: Option<Request>) {
    if masterRequest.Some? && ViewCookie in masterRequest.value.cookies then
      masterRequest.value.cookies[ViewCookie] == MobileView
    else
      agentMobile
  }

  /** The error message logged for a missing mobile layout. */
  function MissingLayoutMessage(mobileLayout: int): (m: string)
    ensures |m| > |MissingLayoutPrefix| + 1
    ensures m[..|MissingLayoutPrefix|] == MissingLayoutPrefix && m[|m| - 1] == '"'
  {
    MissingLayoutPrefix + PhpInt.IntToString(mobileLayout) + "\""
  }

  /** Reads the layout id back out of a missing-layout message. */
  function LayoutIdInMessage(m: string): Option<int> {
    if |m| > |MissingLayoutPrefix| + 1 && m[..|MissingLayoutPrefix|] == MissingLayoutPrefix && m[|m| - 1] == '"' then
      PhpInt.ParseInt(m[|MissingLayoutPrefix|..|m| - 1])
    else
      None
  }

  /** The record logged when the mobile layout is missing. */
  function MissingLayoutRecord(mobileLayout: int): LogRecord {
    LogRecord(LogLevelError, MissingLayoutMessage(mobileLayout), ContaoContext(HookMethod, LogLevelError))
  }

  /** The effect of the hook as a function of everything it reads. The incoming
    * layout is not among the arguments: the hook never reads it. */
  function Resolve(mobileLayout: int, bundles: map<string, Option<string>>, agentMobile: bool,
                   masterRequest: Option<Request>, layouts: map<int, Layout>): Resolution
  {
    if SkipsMobileHandling(mobileLayout, bundles) then
      Resolution(false, Keep, Ok, [])
    else if !ViewIsMobile(agentMobile, masterRequest) then
      Resolution(false, Keep, Ok, [])
    else if mobileLayout in layouts then
      Resolution(true, Overwrite(Some(layouts[mobileLayout])), Ok, [])
    else
      Resolution(true, Overwrite(None), NoLayoutSpecified(NoLayoutMessage), [MissingLayoutRecord(mobileLayout)])
  }

  /** The caller's layout variable after the hook has made its write. */
  function LayoutAfter(write: LayoutWrite, current: Layout): Option<Layout> {
    match write
    case Keep => Some(current)
    case Overwrite(l) => l
  }

  // ---------------------------------------------------------------------------
  // The listener

  class MobilePageLayoutListener {
    const logger: Logger
    const activeBundles: map<string, Option<string>>

    /** Stores the collaborators; the per-request ones (framework environment,
      * request stack, repository) are passed to the hook as what they return. */
    constructor (logger: Logger, activeBundles: map<string, Option<string>>)
      ensures this.logger == logger && this.activeBundles == activeBundles
    {
      this.logger := logger;
      this.activeBundles := activeBundles;
    }

    /**
     * The `getPageLayout` hook. `agentMobile` is the environment agent's
     * `mobile` flag, `masterRequest` the request stack's master request and
     * `layouts` the layout repository, all as they stand during the call.
     * `layoutModel` is the caller's layout on entry and `layoutOut` its value on
     * exit (None models PHP null).
     */
    method OnGetPageLayout(page: Page, layoutModel: Layout, agentMobile: bool,
                           masterRequest: Option<Request>, layouts: map<int, Layout>)
      returns (layoutOut: Option<Layout>, outcome: Outcome)
      modifies page, logger
      ensures var r := Resolve(page.mobileLayout, activeBundles, agentMobile, masterRequest, layouts);
        && page.isMobile == Some(r.isMobile)
        && layoutOut == LayoutAfter(r.write, layoutModel)
        && outcome == r.outcome
        && logger.records == old(logger.records) + r.log
    {
      layoutOut := Some(layoutModel);
      if page.mobileLayout == 0 || IsSet(activeBundles, MobileBundle) {
        page.isMobile := Some(false);
        return Some(layoutModel), Ok;
      }

      var isMobile := agentMobile;
      if masterRequest.Some? && ViewCookie in masterRequest.value.cookies {
        isMobile := masterRequest.value.cookies[ViewCookie] == MobileView;
      }

      page.isMobile := Some(isMobile);
      if !isMobile {
        return Some(layoutModel), Ok;
      }

      layoutOut := if page.mobileLayout in layouts then Some(layouts[page.mobileLayout]) else None;

      if layoutOut == None {
        logger.Log(LogLevelError, MissingLayoutMessage(page.mobileLayout), ContaoContext(HookMethod, LogLevelError));
        return layoutOut, NoLayoutSpecified(NoLayoutMessage);
      }
      outcome := Ok;
    }
  }

  // ---------------------------------------------------------------------------
  // Properties

  /** Without a mobile layout, or with the dedicated bundle active, the page is
    * desktop, the layout stays, nothing is logged and nothing is thrown. */
  lemma GuardKeepsDesktop(mobileLayout: int, bundles: map<string, Option<string>>, agentMobile: bool,
                          masterRequest: Option<Request>, layouts: map<int, Layout>)
    requires mobileLayout == 0 || IsSet(bundles, MobileBundle)
    ensures Resolve(mobileLayout, bundles, agentMobile, masterRequest, layouts) == Resolution(false, Keep, Ok, [])
  {
  }

  /** A bundle entry whose value is null does not trip the guard (`isset`). */
  lemma NullBundleEntryIgnored(mobileLayout: int, bundles: map<string, Option<string>>, agentMobile: bool,
                               masterRequest: Option<Request>, layouts: map<int, Layout>)
    requires mobileLayout != 0 && MobileBundle in bundles && bundles[MobileBundle] == None
    ensures Resolve(mobileLayout, bundles, agentMobile, masterRequest, layouts)
         == Resolve(mobileLayout, bundles - {MobileBundle}, agentMobile, masterRequest, layouts)
  {
  }

  /** Past the guard, a `TL_VIEW` cookie decides the view whatever the agent says,
    * forcing mobile as well as desktop. */
  lemma CookieOverridesAgent(mobileLayout: int, bundles: map<string, Option<string>>, agentMobile: bool,
                             request: Request, layouts: map<int, Layout>)
    requires !SkipsMobileHandling(mobileLayout, bundles)
    requires ViewCookie in request.cookies
    ensures Resolve(mobileLayout, bundles, agentMobile, Some(request), layouts).isMobile
        <==> request.cookies[ViewCookie] == MobileView
  {
  }

  /** Past the guard, without a master request or without the cookie, the
    * agent's flag decides the view. */
  lemma AgentDecidesWithoutCookie(mobileLayout: int, bundles: map<string, Option<string>>, agentMobile: bool,
                                  masterRequest: Option<Request>, layouts: map<int, Layout>)
    requires !SkipsMobileHandling(mobileLayout, bundles)
    requires masterRequest.None? || ViewCookie !in masterRequest.value.cookies
    ensures Resolve(mobileLayout, bundles, agentMobile, masterRequest, layouts).isMobile == agentMobile
  {
  }

  /** A desktop view keeps the layout, logs nothing and throws nothing. */
  lemma DesktopKeepsLayout(mobileLayout: int, bundles: map<string, Option<string>>, agentMobile: bool,
                           masterRequest: Option<Request>, layouts: map<int, Layout>)
    requires !Resolve(mobileLayout, bundles, agentMobile, masterRequest, layouts).isMobile
    ensures Resolve(mobileLayout, bundles, agentMobile, masterRequest, layouts) == Resolution(false, Keep, Ok, [])
  {
  }

  /** A mobile view with an existing layout record installs exactly that record. */
  lemma MobileInstallsLayout(mobileLayout: int, bundles: map<string, Option<string>>, agentMobile: bool,
                             masterRequest: Option<Request>, layouts: map<int, Layout>)
    requires Resolve(mobileLayout, bundles, agentMobile, masterRequest, layouts).isMobile
    requires mobileLayout in layouts
    ensures Resolve(mobileLayout, bundles, agentMobile, masterRequest, layouts)
         == Resolution(true, Overwrite(Some(layouts[mobileLayout])), Ok, [])
  {
  }

  /** A mobile view with a missing record logs one error naming the id, throws,
    * and leaves the caller's layout null. */
  lemma MobileMissingLayoutFails(mobileLayout: int, bundles: map<string, Option<string>>, agentMobile: bool,
                                 masterRequest: Option<Request>, layouts: map<int, Layout>)
    requires Resolve(mobileLayout, bundles, agentMobile, masterRequest, layouts).isMobile
    requires mobileLayout !in layouts
    ensures var r := Resolve(mobileLayout, bundles, agentMobile, masterRequest, layouts);
      && r.outcome == NoLayoutSpecified(NoLayoutMessage)
      && r.write == Overwrite(None)
      && |r.log| == 1
      && r.log[0].level == LogLevelError
      && LayoutIdInMessage(r.log[0].message) == Some(mobileLayout)
  {
    MissingLayoutMessageNamesId(mobileLayout);
  }

  /** The hook throws exactly when mobile handling applies, the view is mobile
    * and the repository has no record for the id; it logs exactly then too. */
  lemma FailsOnlyOnMissingLayout(mobileLayout: int, bundles: map<string, Option<string>>, agentMobile: bool,
                                 masterRequest: Option<Request>, layouts: map<int, Layout>)
    ensures var r := Resolve(mobileLayout, bundles, agentMobile, masterRequest, layouts);
      && (r.outcome.NoLayoutSpecified?
          <==> !SkipsMobileHandling(mobileLayout, bundles) && ViewIsMobile(agentMobile, masterRequest)
               && mobileLayout !in layouts)
      && (r.log != [] <==> r.outcome.NoLayoutSpecified?)
  {
  }

  /** When the hook returns normally the caller holds a layout, and an installed
    * layout is the repository's record for the page's mobile layout id. */
  lemma NormalReturnHoldsLayout(mobileLayout: int, bundles: map<string, Option<string>>, agentMobile: bool,
                                masterRequest: Option<Request>, layouts: map<int, Layout>, current: Layout)
    ensures var r := Resolve(mobileLayout, bundles, agentMobile, masterRequest, layouts);
      && (r.outcome == Ok ==> LayoutAfter(r.write, current).Some?)
      && (r.write.Overwrite? && r.write.layout.Some? ==>
            mobileLayout in layouts && r.write.layout.value == layouts[mobileLayout] && r.isMobile)
  {
  }

  /** Calling the hook again with the same inputs on the layout it left behind
    * changes nothing further. */
  lemma ResolveIdempotent(mobileLayout: int, bundles: map<string, Option<string>>, agentMobile: bool,
                          masterRequest: Option<Request>, layouts: map<int, Layout>, current: Layout)
    requires Resolve(mobileLayout, bundles, agentMobile, masterRequest, layouts).outcome == Ok
    ensures var r := Resolve(mobileLayout, bundles, agentMobile, masterRequest, layouts);
      var after := LayoutAfter(r.write, current);
      after.Some? && LayoutAfter(r.write, after.value) == after
  {
  }

  /** The missing-layout message names the id: it can be read back from it. */
  lemma MissingLayoutMessageNamesId(mobileLayout: int)
    ensures LayoutIdInMessage(MissingLayoutMessage(mobileLayout)) == Some(mobileLayout)
  {
    var m := MissingLayoutMessage(mobileLayout);
    assert m[|MissingLayoutPrefix|..|m| - 1] == PhpInt.IntToString(mobileLayout);
    PhpInt.IntToStringRoundTrip(mobileLayout);
  }

  /** Distinct ids give distinct messages. */
  lemma MissingLayoutMessageInjective(a: int, b: int)
    ensures MissingLayoutMessage(a) == MissingLayoutMessage(b) <==> a == b
  {
    MissingLayoutMessageNamesId(a);
    MissingLayoutMessageNamesId(b);
  }
}
