/**
 * The panel's page-analysis controller (src/hooks/usePageContentAnalysis.ts).
 *
 * The hook holds three state slots (`currentUrl`, `extractionResult`,
 * `loading`). Besides them the model keeps what the JavaScript runtime holds
 * for the hook: the callbacks queued with `setTimeout`, the analyses and tab
 * syncs still awaiting the browser, whether React still has to (re)run the
 * mount effect, and whether the tab listeners are attached.
 *
 * The transitions are pure functions on `AnalysisState`; the class
 * `PageContentAnalysisHook` performs them step by step on its fields and is
 * proved against them. `Step` and `Run` replay any trace of events, in
 * whatever order the browser delivers them.
 */
module PageContentAnalysis {
  import opened Wrappers
  import opened Url
  import opened Content

  /** A callback queued with `setTimeout(…, 500)`. All delays are 500 ms, so
      the callbacks fire in the order they were queued. */
  datatype Timer =
    | AnalyzeLater       // `() => analyzeWebsiteContent()`: an automatic analysis
    | ClearLoadingLater  // `() => setLoading(false)`: the end of a manual analysis

  /** A tab as `chrome.tabs.query` reports it; `id` and `url` may be absent. */
  datatype Tab = Tab(id: Option<int>, url: Option<string>)

  /** The outcome of `chrome.tabs.query({ active: true, currentWindow: true })`. */
  datatype TabQuery =
    | ChromeUnavailable              // the handler's `typeof chrome …` guard fails: nothing is done
    | QueryRejected                  // the query throws; the error is logged
    | QueryResolved(tabs: seq<Tab>)  // the matching tabs, the active one first

  /** The outcome of `chrome.scripting.executeScript`: one entry per frame,
      each with the value the extractor returned there, if any. */
  datatype Injection =
    | InjectionRejected
    | InjectionResolved(results: seq<Option<ContentExtractionResult>>)

  /** `const [tab] = await chrome.tabs.query(…)`: the active tab, if the query
      settled with one. No tab makes the next property access throw, which the
      handler catches, so it counts as none. */
  function ActiveTab(query: TabQuery): (tab: Option<Tab>)
    ensures tab.Some? <==> query.QueryResolved? && query.tabs != []
    ensures tab.Some? ==> tab.value == query.tabs[0]
  {
    match query
    case QueryResolved(tabs) => if tabs != [] then Some(tabs[0]) else None
    case _ => None
  }

  /** The URL `syncActiveTabUrl` adopts, if any: only a non-empty one (`if (tab.url)`). */
  function SyncedUrl(query: TabQuery): (url: Option<string>)
    ensures url.Some? <==> && ActiveTab(query).Some? && ActiveTab(query).value.url.Some?
                           && ActiveTab(query).value.url.value != ""
    ensures url.Some? ==> url.value != "" && url == ActiveTab(query).value.url
  {
    match ActiveTab(query)
    case Some(tab) => if tab.url.Some? && tab.url.value != "" then tab.url else None
    case None => None
  }

  /** `if (tab.id)`: an id is present and not 0. */
  predicate HasUsableId(tab: Tab): (usable: bool)
    ensures usable ==> tab.id.Some?
    ensures tab.id == Some(0) ==> !usable
  {
    tab.id.Some? && tab.id.value != 0
  }

  /** The result `analyzeWebsiteContent` stores, if any: `results[0]?.result`
      for a tab with a usable id. Every failure path stores nothing. */
  function WrittenResult(query: TabQuery, injection: Injection): (r: Option<ContentExtractionResult>)
    ensures r.Some? <==> && ActiveTab(query).Some? && HasUsableId(ActiveTab(query).value)
                         && injection.InjectionResolved? && injection.results != []
                         && injection.results[0].Some?
    ensures r.Some? ==> r == injection.results[0]
  {
    match ActiveTab(query)
    case None => None
    case Some(tab) =>
      if !HasUsableId(tab) then None
      else match injection
        case InjectionRejected => None
        case InjectionResolved(results) => if results != [] && results[0].Some? then results[0] else None
  }

  /** Everything the hook and the runtime hold for it. */
  datatype AnalysisState = AnalysisState(
    currentUrl: string,
    extractionResult: Option<ContentExtractionResult>,
    loading: bool,
    timers: seq<Timer>,   // queued `setTimeout` callbacks, in firing order
    running: seq<bool>,   // analyses awaiting the browser, each with its `manual` flag
    pendingSyncs: nat,    // un-awaited `syncActiveTabUrl` calls awaiting the browser
    effectDue: bool,      // the mount effect must run after the next render
    listening: bool)      // the tab listeners are attached

  /** The first render: empty URL, no result, not loading, the effect due. */
  function Initial(): (s: AnalysisState)
    ensures s.currentUrl == "" && s.extractionResult.None? && !s.loading
    ensures s.timers == [] && s.running == [] && s.pendingSyncs == 0
    ensures s.effectDue && !s.listening
  {
    AnalysisState("", None, false, [], [], 0, true, false)
  }

  /** `setCurrentUrl(url)`. A new value gives `handleTabUpdated` a new
      identity, and it is a dependency of the mount effect, so the effect
      becomes due again. */
  function WithCurrentUrl(s: AnalysisState, url: string): (t: AnalysisState)
    ensures t.currentUrl == url
    ensures t.effectDue <==> s.effectDue || url != s.currentUrl
    ensures t.(currentUrl := s.currentUrl, effectDue := s.effectDue) == s
  {
    s.(currentUrl := url, effectDue := s.effectDue || url != s.currentUrl)
  }

  /** The synchronous start of `analyzeWebsiteContent(manual)`: `setLoading(true)`;
      the analysis then awaits the browser. */
  function StartAnalysis(s: AnalysisState, manual: bool): (t: AnalysisState)
    ensures t.loading && t.running == s.running + [manual]
    ensures t.(loading := s.loading, running := s.running) == s
  {
    s.(loading := true, running := s.running + [manual])
  }

  /** `xs` without its element at position `k`. */
  function RemoveAt<T>(xs: seq<T>, k: nat): (r: seq<T>)
    requires k < |xs|
    ensures |r| == |xs| - 1
    ensures multiset(r) + multiset{xs[k]} == multiset(xs)
    ensures forall i :: 0 <= i < k ==> r[i] == xs[i]
    ensures forall i :: k <= i < |r| ==> r[i] == xs[i + 1]
  {
    assert xs == xs[..k] + [xs[k]] + xs[k + 1..];
    xs[..k] + xs[k + 1..]
  }

  /** The running analysis `k` settles: a result, if any, replaces the stored
      one wholesale; then the `finally` block clears `loading` at once, or,
      for a manual analysis, 500 ms later. */
  function FinishAnalysis(s: AnalysisState, k: nat, query: TabQuery, injection: Injection): (t: AnalysisState)
    requires k < |s.running|
    ensures t.running == RemoveAt(s.running, k)
    ensures |t.running| == |s.running| - 1 && multiset(t.running) + multiset{s.running[k]} == multiset(s.running)
    ensures WrittenResult(query, injection).Some? ==> t.extractionResult == WrittenResult(query, injection)
    ensures WrittenResult(query, injection).None? ==> t.extractionResult == s.extractionResult
    ensures !s.running[k] ==> !t.loading && t.timers == s.timers
    ensures s.running[k] ==> t.loading == s.loading && t.timers == s.timers + [ClearLoadingLater]
    ensures t.currentUrl == s.currentUrl && t.pendingSyncs == s.pendingSyncs
    ensures t.effectDue == s.effectDue && t.listening == s.listening
  {
    var manual := s.running[k];
    var written := WrittenResult(query, injection);
    var settled := s.(running := RemoveAt(s.running, k),
                      extractionResult := if written.Some? then written else s.extractionResult);
    if manual then settled.(timers := settled.timers + [ClearLoadingLater])
    else settled.(loading := false)
  }

  /** `syncActiveTabUrl` once its query has settled: adopt the active tab's URL
      if it has a non-empty one; on any failure keep the current URL. */
  function AfterSync(s: AnalysisState, query: TabQuery): (t: AnalysisState)
    ensures SyncedUrl(query).Some? ==> t.currentUrl == SyncedUrl(query).value
    ensures SyncedUrl(query).None? ==> t == s
    ensures t.effectDue == (s.effectDue || (SyncedUrl(query).Some? && SyncedUrl(query).value != s.currentUrl))
    ensures t.(currentUrl := s.currentUrl, effectDue := s.effectDue) == s
  {
    match SyncedUrl(query)
    case Some(url) => WithCurrentUrl(s, url)
    case None => s
  }

  /** The mount effect: start a sync (not awaited), start an automatic
      analysis, and attach the tab listeners. */
  function AfterEffect(s: AnalysisState): (t: AnalysisState)
    requires s.effectDue
    ensures t.pendingSyncs == s.pendingSyncs + 1 && t.loading && t.running == s.running + [false]
    ensures !t.effectDue && t.listening
    ensures t.currentUrl == s.currentUrl && t.extractionResult == s.extractionResult && t.timers == s.timers
  {
    var synced := s.(pendingSyncs := s.pendingSyncs + 1, effectDue := false, listening := true);
    StartAnalysis(synced, false)
  }

  /** An un-awaited `syncActiveTabUrl` settles. */
  function FinishSync(s: AnalysisState, query: TabQuery): (t: AnalysisState)
    requires s.pendingSyncs > 0
    ensures t.pendingSyncs == s.pendingSyncs - 1
    ensures t.currentUrl == if SyncedUrl(query).Some? then SyncedUrl(query).value else s.currentUrl
    ensures t.effectDue == (s.effectDue || (SyncedUrl(query).Some? && SyncedUrl(query).value != s.currentUrl))
    ensures t.extractionResult == s.extractionResult && t.loading == s.loading
    ensures t.timers == s.timers && t.running == s.running && t.listening == s.listening
  {
    AfterSync(s.(pendingSyncs := s.pendingSyncs - 1), query)
  }

  /** `handleTabUpdated`: only a non-empty URL of the active tab whose base
      differs from the current one counts; it is adopted, the stored result
      is dropped, and one automatic analysis is queued. */
  function TabUpdated(s: AnalysisState, url: Option<string>, tabActive: bool): (t: AnalysisState)
    ensures url.None? || url.value == "" || !tabActive ==> t == s
    ensures url.Some? && !IsUrlChange(s.currentUrl, url.value) ==> t == s
    ensures url.Some? && url.value != "" && tabActive && IsUrlChange(s.currentUrl, url.value) ==>
              && t.currentUrl == url.value && t.extractionResult.None?
              && t.timers == s.timers + [AnalyzeLater] && t.effectDue
              && t.loading == s.loading && t.running == s.running && t.pendingSyncs == s.pendingSyncs
              && t.listening == s.listening
  {
    if url.Some? && url.value != "" && tabActive && IsUrlChange(s.currentUrl, url.value) then
      var moved := WithCurrentUrl(s, url.value);
      moved.(extractionResult := None, timers := moved.timers + [AnalyzeLater])
    else s
  }

  /** `handleTabActivated`: after the awaited sync, drop the stored result and
      queue one automatic analysis, whatever the URL. */
  function TabActivated(s: AnalysisState, query: TabQuery): (t: AnalysisState)
    ensures t.extractionResult.None? && t.timers == s.timers + [AnalyzeLater]
    ensures t.currentUrl == if SyncedUrl(query).Some? then SyncedUrl(query).value else s.currentUrl
    ensures t.effectDue == (s.effectDue || (SyncedUrl(query).Some? && SyncedUrl(query).value != s.currentUrl))
    ensures t.loading == s.loading && t.running == s.running && t.pendingSyncs == s.pendingSyncs
    ensures t.listening == s.listening
  {
    var synced := AfterSync(s, query);
    synced.(extractionResult := None, timers := synced.timers + [AnalyzeLater])
  }

  /** The first queued `setTimeout` callback fires. */
  function AfterTimer(s: AnalysisState): (t: AnalysisState)
    requires s.timers != []
    ensures t.extractionResult == s.extractionResult && t.currentUrl == s.currentUrl
    ensures s.timers[0] == AnalyzeLater ==> t.loading && t.running == s.running + [false] && t.timers == s.timers[1..]
    ensures s.timers[0] == ClearLoadingLater ==> !t.loading && t.running == s.running && t.timers == s.timers[1..]
    ensures t.pendingSyncs == s.pendingSyncs && t.effectDue == s.effectDue && t.listening == s.listening
  {
    var rest := s.(timers := s.timers[1..]);
    match s.timers[0]
    case AnalyzeLater => StartAnalysis(rest, false)
    case ClearLoadingLater => rest.(loading := false)
  }

  /** `reset`: drop the stored result and nothing else. */
  function AfterReset(s: AnalysisState): (t: AnalysisState)
    ensures t.extractionResult.None?
    ensures t.(extractionResult := s.extractionResult) == s
  {
    s.(extractionResult := None)
  }

  /** What can happen to the hook, in the order the browser delivers it. */
  datatype Event =
    | EffectRuns
    | SyncSettles(query: TabQuery)
    | AnalysisSettles(k: nat, query: TabQuery, injection: Injection)
    | TimerFires
    | TabUpdatedEvent(url: Option<string>, tabActive: bool)
    | TabActivatedEvent(query: TabQuery)
    | ResetCalled
    | AnalyzeCalled(manual: bool)  // the caller's `analyzeWebsiteContent(manual)`

  /** The event can occur in `s`: something must be pending for it, and tab
      events only reach attached listeners. */
  predicate Enabled(s: AnalysisState, e: Event): (enabled: bool)
    ensures e.ResetCalled? || e.AnalyzeCalled? ==> enabled
    ensures e.TabUpdatedEvent? || e.TabActivatedEvent? ==> (enabled <==> s.listening)
  {
    match e
    case EffectRuns => s.effectDue
    case SyncSettles(_) => s.pendingSyncs > 0
    case AnalysisSettles(k, _, _) => k < |s.running|
    case TimerFires => s.timers != []
    case TabUpdatedEvent(_, _) => s.listening
    case TabActivatedEvent(_) => s.listening
    case ResetCalled => true
    case AnalyzeCalled(_) => true
  }

  /** One event; one that cannot occur changes nothing. */
  function Step(s: AnalysisState, e: Event): (t: AnalysisState)
    ensures !Enabled(s, e) ==> t == s
    ensures s.listening ==> t.listening
    ensures t.listening && !s.listening ==> e.EffectRuns?
  {
    if !Enabled(s, e) then s
    else match e
      case EffectRuns => AfterEffect(s)
      case SyncSettles(query) => FinishSync(s, query)
      case AnalysisSettles(k, query, injection) => FinishAnalysis(s, k, query, injection)
      case TimerFires => AfterTimer(s)
      case TabUpdatedEvent(url, tabActive) => TabUpdated(s, url, tabActive)
      case TabActivatedEvent(query) => TabActivated(s, query)
      case ResetCalled => AfterReset(s)
      case AnalyzeCalled(manual) => StartAnalysis(s, manual)
  }

  /** A trace of events, in order. Listeners, once attached, stay attached,
      and only the mount effect attaches them. */
  function Run(s: AnalysisState, events: seq<Event>): (t: AnalysisState)
    ensures events == [] ==> t == s
    ensures s.listening ==> t.listening
    ensures t.listening && !s.listening ==> exists i :: 0 <= i < |events| && events[i].EffectRuns?
    decreases |events|
  {
    if events == [] then s else Run(Step(s, events[0]), events[1..])
  }

  lemma {:induction false} RunAppend(s: AnalysisState, a: seq<Event>, b: seq<Event>)
    ensures Run(s, a + b) == Run(Run(s, a), b)
    decreases |a|
  {
    if a == [] {
      assert a + b == b;
    } else {
      assert (a + b)[1..] == a[1..] + b;
      RunAppend(Step(s, a[0]), a[1..], b);
    }
  }

  /** The spinner never sticks: while `loading` holds, an analysis is still
      running or a deferred `setLoading(false)` is queued. */
  predicate NoStuckLoading(s: AnalysisState)
  {
    s.loading ==> s.running != [] || ClearLoadingLater in s.timers
  }

  lemma StepKeepsNoStuckLoading(s: AnalysisState, e: Event)
    requires NoStuckLoading(s)
    ensures NoStuckLoading(Step(s, e))
  {
    if Enabled(s, e) {
      match e
      case TimerFires =>
        if s.timers[0] == AnalyzeLater {
          assert ClearLoadingLater in s.timers ==> ClearLoadingLater in s.timers[1..];
        }
      case AnalysisSettles(k, query, injection) =>
        var t := FinishAnalysis(s, k, query, injection);
        assert s.running[k] ==> ClearLoadingLater in t.timers;
      case _ =>
    }
  }

  /** Every trace from the initial state, or from any state without a stuck
      spinner, keeps the spinner from sticking. */
  lemma {:induction false} RunKeepsNoStuckLoading(s: AnalysisState, events: seq<Event>)
    requires NoStuckLoading(s)
    ensures NoStuckLoading(Run(s, events))
    decreases |events|
  {
    if events != [] {
      StepKeepsNoStuckLoading(s, events[0]);
      RunKeepsNoStuckLoading(Step(s, events[0]), events[1..]);
    }
  }

  /** Once nothing is running or queued, the panel is not loading. */
  lemma {:induction false} QuiescentMeansIdle(events: seq<Event>)
    ensures var t := Run(Initial(), events);
            t.running == [] && t.timers == [] ==> !t.loading
  {
    RunKeepsNoStuckLoading(Initial(), events);
  }

  /** The event can change the result slot: it clears it, or stores a result. */
  predicate TouchesResult(e: Event)
  {
    match e
    case TabUpdatedEvent(_, _) => true
    case TabActivatedEvent(_) => true
    case ResetCalled => true
    case AnalysisSettles(_, query, injection) => WrittenResult(query, injection).Some?
    case _ => false
  }

  lemma {:induction false} QuietTraceKeepsResult(s: AnalysisState, events: seq<Event>)
    requires forall i :: 0 <= i < |events| ==> !TouchesResult(events[i])
    ensures Run(s, events).extractionResult == s.extractionResult
    decreases |events|
  {
    if events != [] {
      assert !TouchesResult(events[0]);
      QuietTraceKeepsResult(Step(s, events[0]), events[1..]);
    }
  }

  /** Last write wins: completions are applied in the order they arrive, so
      the stored result is the one of the last analysis that produced one,
      whatever was started before it, as long as nothing cleared the slot
      since. */
  lemma LastSuccessfulAnalysisWins(s: AnalysisState, before: seq<Event>, k: nat, query: TabQuery,
                                   injection: Injection, after: seq<Event>)
    requires WrittenResult(query, injection).Some?
    requires k < |Run(s, before).running|
    requires forall i :: 0 <= i < |after| ==> !TouchesResult(after[i])
    ensures Run(s, before + [AnalysisSettles(k, query, injection)] + after).extractionResult
            == WrittenResult(query, injection)
  {
    var e := AnalysisSettles(k, query, injection);
    RunAppend(s, before + [e], after);
    RunAppend(s, before, [e]);
    var mid := Run(s, before);
    assert Run(mid, [e]) == Run(Step(mid, e), []);
    QuietTraceKeepsResult(Run(s, before + [e]), after);
  }

  /** A navigation inside the page (same base URL, any fragment) is ignored. */
  lemma FragmentUpdateIgnored(s: AnalysisState, p: string, fragment: string, tabActive: bool)
    requires '#' !in p && GetBaseUrl(s.currentUrl) == p
    ensures TabUpdated(s, Some(p + "#" + fragment), tabActive) == s
  {
    BaseUrlIgnoresFragment(p, fragment);
  }

  /** A navigation to another document clears the result and queues exactly
      one automatic analysis. */
  lemma NavigationClearsAndSchedules(s: AnalysisState, url: string)
    requires url != "" && GetBaseUrl(url) != GetBaseUrl(s.currentUrl)
    ensures var t := TabUpdated(s, Some(url), true);
            && t.currentUrl == url && t.extractionResult.None?
            && t.timers == s.timers + [AnalyzeLater]
            && multiset(t.timers)[AnalyzeLater] == multiset(s.timers)[AnalyzeLater] + 1
            && t.running == s.running && t.loading == s.loading
  {
    var t := TabUpdated(s, Some(url), true);
    assert multiset(t.timers) == multiset(s.timers) + multiset{AnalyzeLater};
  }

  /** No request sequencing: an analysis whose tab query and injection ran
      while the tab still showed page "a" settles after the update to "b" has
      been handled, and stores page a's result under the new URL. */
  lemma StaleResultAfterNavigation(earlier: ContentExtractionResult)
    requires earlier.url == "a"
    ensures var s := AnalysisState("a", None, true, [], [false], 0, false, true);
            var t := Run(s, [TabUpdatedEvent(Some("b"), true),
                             AnalysisSettles(0, QueryResolved([Tab(Some(1), Some("a"))]), InjectionResolved([Some(earlier)]))]);
            && t.currentUrl == "b" && t.extractionResult == Some(earlier)
            && GetBaseUrl(t.extractionResult.value.url) != GetBaseUrl(t.currentUrl)
  {
    var s := AnalysisState("a", None, true, [], [false], 0, false, true);
    var e1 := TabUpdatedEvent(Some("b"), true);
    var e2 := AnalysisSettles(0, QueryResolved([Tab(Some(1), Some("a"))]), InjectionResolved([Some(earlier)]));
    assert GetBaseUrl("a") == "a" by { BaseUrlIgnoresFragment("a", ""); }
    assert GetBaseUrl("b") == "b" by { BaseUrlIgnoresFragment("b", ""); }
    var s1 := TabUpdated(s, Some("b"), true);
    assert s1.currentUrl == "b" && s1.running == [false];
    assert Step(s, e1) == s1;
    var s2 := FinishAnalysis(s1, 0, e2.query, e2.injection);
    assert s2.extractionResult == Some(earlier) && s2.currentUrl == "b";
    assert Step(s1, e2) == s2;
    assert [e1, e2][1..] == [e2];
    assert Run(s, [e1, e2]) == Run(s1, [e2]);
    assert Run(s1, [e2]) == Run(s2, []);
  }

  /** The hook instance: its three slots plus what the runtime holds for it. */
  class PageContentAnalysisHook {
    var currentUrl: string
    var extractionResult: Option<ContentExtractionResult>
    var loading: bool
    var timers: seq<Timer>
    var running: seq<bool>
    var pendingSyncs: nat
    var effectDue: bool
    var listening: bool

    function State(): AnalysisState
      reads this
    {
      AnalysisState(currentUrl, extractionResult, loading, timers, running, pendingSyncs, effectDue, listening)
    }

    ghost predicate Valid()
      reads this
    {
      NoStuckLoading(State())
    }

    /** The first render, with the `useState` defaults. */
    constructor ()
      ensures Valid() && State() == Initial()
    {
      currentUrl := "";
      extractionResult := None;
      loading := false;
      timers := [];
      running := [];
      pendingSyncs := 0;
      effectDue := true;
      listening := false;
    }

    method SetCurrentUrl(url: string)
      modifies this
      ensures State() == WithCurrentUrl(old(State()), url)
    {
      if url != currentUrl {
        effectDue := true;
      }
      currentUrl := url;
    }

    /** `analyzeWebsiteContent(manual)` up to its first `await`. */
    method AnalyzeWebsiteContent(manual: bool)
      requires Valid()
      modifies this
      ensures Valid() && State() == StartAnalysis(old(State()), manual)
    {
      loading := true;
      running := running + [manual];
    }

    /** The rest of `analyzeWebsiteContent` for running analysis `k`. */
    method SettleAnalysis(k: nat, query: TabQuery, injection: Injection)
      requires Valid() && k < |running|
      modifies this
      ensures Valid() && State() == FinishAnalysis(old(State()), k, query, injection)
    {
      var manual := running[k];
      running := RemoveAt(running, k);
      match ActiveTab(query) {
        case None =>
        case Some(tab) =>
          if HasUsableId(tab) {
            match injection {
              case InjectionRejected =>
              case InjectionResolved(results) =>
                if results != [] && results[0].Some? {
                  extractionResult := results[0];
                }
            }
          }
      }
      if manual {
        timers := timers + [ClearLoadingLater];
      } else {
        loading := false;
      }
    }

    /** `syncActiveTabUrl` once its query has settled. */
    method SyncActiveTabUrl(query: TabQuery)
      requires Valid()
      modifies this
      ensures Valid() && State() == AfterSync(old(State()), query)
    {
      match ActiveTab(query) {
        case None =>
        case Some(tab) =>
          if tab.url.Some? && tab.url.value != "" {
            SetCurrentUrl(tab.url.value);
          }
      }
    }

    /** The mount effect. */
    method RunEffect()
      requires Valid() && effectDue
      modifies this
      ensures Valid() && State() == AfterEffect(old(State()))
    {
      effectDue := false;
      pendingSyncs := pendingSyncs + 1;
      AnalyzeWebsiteContent(false);
      listening := true;
    }

    /** An un-awaited sync started by the effect settles. */
    method SettleSync(query: TabQuery)
      requires Valid() && pendingSyncs > 0
      modifies this
      ensures Valid() && State() == FinishSync(old(State()), query)
    {
      pendingSyncs := pendingSyncs - 1;
      SyncActiveTabUrl(query);
    }

    method HandleTabUpdated(url: Option<string>, tabActive: bool)
      requires Valid() && listening
      modifies this
      ensures Valid() && State() == TabUpdated(old(State()), url, tabActive)
    {
      if url.Some? && url.value != "" && tabActive {
        if IsUrlChange(currentUrl, url.value) {
          SetCurrentUrl(url.value);
          extractionResult := None;
          timers := timers + [AnalyzeLater];
        }
      }
    }

    method HandleTabActivated(query: TabQuery)
      requires Valid() && listening
      modifies this
      ensures Valid() && State() == TabActivated(old(State()), query)
    {
      SyncActiveTabUrl(query);
      extractionResult := None;
      timers := timers + [AnalyzeLater];
    }

    /** The first queued `setTimeout` callback fires. */
    method FireTimer()
      requires Valid() && timers != []
      modifies this
      ensures Valid() && State() == AfterTimer(old(State()))
    {
      var callback := timers[0];
      timers := timers[1..];
      match callback {
        case AnalyzeLater => AnalyzeWebsiteContent(false);
        case ClearLoadingLater => loading := false;
      }
    }

    method Reset()
      requires Valid()
      modifies this
      ensures Valid() && State() == AfterReset(old(State()))
    {
      extractionResult := None;
    }
  }
}
