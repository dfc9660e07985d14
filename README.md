# Page content side panel — a verified model

This project models the core of a browser-extension side panel. The panel
lists the headings, links, images and paragraphs of the active web page, and
it re-reads the page whenever the user moves to another document. The model
is organised as follows:

- `url.dfy` (module `Url`) models the URL helpers. The base URL is the part
  of a URL before its first `#`. A URL change means the base URL differs, so a
  move to another fragment of the same page is not a change.
- `text.dfy` (module `Text`) models the two string operations the extractor
  uses: `trim` and `toLowerCase`.
- `content.dfy` (module `Content`) holds the extracted records: content
  items, the per-kind counters and the extraction result. It also holds the
  predicate that the counters are consistent with the content.
- `extractor.dfy` (module `ContentExtractor`) models the page-side extractor.
  It makes four passes over the elements of each category, in the order
  headings, links, images and paragraphs. Each pass is a method with a loop,
  proved against a filter-map function `Collect`. The whole extraction is
  proved to return the concatenation of the four selections, with counters
  equal to the number of items of each kind.
- `analysis.dfy` (module `PageContentAnalysis`) models the panel's analysis
  controller, a React hook. Its state has three slots:
  - the current URL
  - the stored extraction result
  - the loading flag

  Beside the slots, the model holds what the JavaScript runtime keeps for
  the hook:
  - the `setTimeout` callbacks queued so far
  - the analyses and tab syncs still waiting on the browser
  - whether React must (re)run the mount effect
  - whether the tab listeners are attached

  Every transition is a pure function. The class `PageContentAnalysisHook`
  performs each transition on its fields and is proved against that
  function. `Step` and `Run` replay any trace of events in any arrival order,
  and lemmas over those traces state the following:
  - the loading spinner never sticks
  - the last result written wins
  - a move within one page is ignored
  - a move to another page clears the result and queues one analysis
  - with no request sequencing, an analysis started before a navigation can
    store the old page's result under the new URL
- `content_item.dfy` (module `ContentItemView`) models one row of the list.
  It covers:
  - the heading level read from the tag
  - the indentation and prefix
  - hiding items that are not headings
  - scrolling to the item's element on click, Enter or Space

`wrappers.dfy` holds the `Option` type.

The browser is represented by parameters:
- the element lists that `querySelectorAll` returns
- `window.location.href` and `Date.now()`
- the outcome of each `chrome.tabs.query` and `chrome.scripting.executeScript` call
- the tab events

Where the documentation of the system and the code disagree, the model
follows the code:
- Extraction keeps headings and paragraphs without an `id` attribute, and
  items carry no identifier and no heading level.
- Items are grouped by category, not interleaved in document order. Document
  order holds within each category (`ContentExtractor.CollectIsSelection`).
- When the tab query fails, `analyzeWebsiteContent` still runs. It stores
  nothing, and the loading flag still returns to idle.
- This hook does not clear its timers when it unmounts.

## Model

| member | source | states |
|---|---|---|
| Url.GetBaseUrl | src/utils/url.ts:2-4 | the result is the prefix of the URL before its first `#` (the whole URL when it has none): a `#`-free prefix followed by `#` or the end |
| Url.DocumentPartUnique | src/utils/url.ts:2-4 | a URL has at most one `#`-free prefix followed by `#` or the end |
| Url.BaseUrlIsTheDocumentPart | src/utils/url.ts:2-4 | a string is the URL's part before the first `#` exactly when it is `getBaseUrl` of the URL |
| Url.BaseUrlIdempotent | src/utils/url.ts:2-4 | the base URL of a base URL is itself |
| Url.BaseUrlIgnoresFragment | src/utils/url.ts:2-4 | a `#`-free URL is its own base, and adding `#` plus any fragment keeps that base |
| Url.IsUrlChange | src/utils/url.ts:6-10 | a change needs two different URLs; no change means the next URL starts with the previous URL's base |
| Url.NoChangeIffSharedDocumentPart | src/utils/url.ts:6-10 | two URLs are not a change exactly when they share the part before the first `#` |
| Url.UrlChangeIrreflexiveSymmetric | src/utils/url.ts:6-10 | no URL is a change from itself, and the change relation is symmetric |
| Url.FragmentNavigationIsNoChange | src/utils/url.ts:6-10 | moving between fragments of one page, or from the bare page to one of its fragments, is not a change |
| Url.DifferentPagesAreAChange | src/utils/url.ts:6-10 | two different `#`-free pages are a change whatever fragments they carry |
| Text.TrimStart | src/utils/contentExtractor.ts:16 | the result is a suffix of the input, the cut prefix is all whitespace, and the result does not start with whitespace |
| Text.TrimEnd | src/utils/contentExtractor.ts:16 | the result is a prefix of the input, the cut suffix is all whitespace, and the result does not end with whitespace |
| Text.Trim | src/utils/contentExtractor.ts:16 | the trimmed text neither starts nor ends with whitespace, and it is empty exactly when the input is all whitespace |
| Text.TrimIsMiddle | src/utils/contentExtractor.ts:16 | the trimmed text is what remains of the input once its leading whitespace is cut, up to a trailing run of whitespace; with `TrimStart`'s contract it is the middle of the input |
| Text.ToLower | src/utils/contentExtractor.ts:20 | same length; upper-case letters become their lower-case letters; every other character is unchanged |
| Content.CountKind | src/types/content.ts:11-17 | the count of items of a kind is at most the number of items, and it is zero exactly when no item has that kind |
| Content.CountKindAppend | src/types/content.ts:11-17 | counting the items of a kind in two lists joined together gives the sum of the two counts |
| Content.CountKindUniform | src/types/content.ts:11-17 | in a list where every item has the same kind, the count for that kind is the length of the list |
| ContentExtractor.TrimmedText | src/utils/contentExtractor.ts:16 | the trimmed text content, "" for an element without one, is empty exactly when the element has no non-whitespace text, and otherwise is the trimmed text |
| ContentExtractor.HeadingItem | src/utils/contentExtractor.ts:15-24 | a kept heading produces an item of kind "heading" |
| ContentExtractor.HeadingItemMeaning | src/utils/contentExtractor.ts:15-24 | a heading is kept exactly when its text has a non-whitespace character; its item has the lower-cased tag and the trimmed non-empty text, and no href, src, alt or id |
| ContentExtractor.LinkItem | src/utils/contentExtractor.ts:29-41 | a kept link produces an item of kind "link" |
| ContentExtractor.LinkItemMeaning | src/utils/contentExtractor.ts:29-41 | a link is kept exactly when its href is non-empty and its text has a non-whitespace character; its item has tag "a", the href and the trimmed text |
| ContentExtractor.ImageItem | src/utils/contentExtractor.ts:45-57 | a kept image produces an item of kind "image" |
| ContentExtractor.ImageItemMeaning | src/utils/contentExtractor.ts:45-57 | an image is kept exactly when its src is non-empty; its item has tag "img", the src and the alt text ("" when absent), and no text |
| ContentExtractor.Abbreviate | src/utils/contentExtractor.ts:67 | text of at most 200 characters is unchanged; longer text becomes its first 200 characters followed by "...", 203 characters in all |
| ContentExtractor.ParagraphItem | src/utils/contentExtractor.ts:61-71 | a kept paragraph produces an item of kind "paragraph" |
| ContentExtractor.ParagraphItemMeaning | src/utils/contentExtractor.ts:61-71 | a paragraph is kept exactly when its trimmed text is longer than 20 characters; the item text is that text, shortened by `Abbreviate`, between 21 and 203 characters long |
| ContentExtractor.Collect | src/utils/contentExtractor.ts:15-25 | one pass keeps at most one item per element |
| ContentExtractor.CollectStep | src/utils/contentExtractor.ts:15-25 | handling one more element appends that element's item, when it has one, to the items collected so far |
| ContentExtractor.CollectIsSelection | src/utils/contentExtractor.ts:15-25 | the items of a pass come from strictly increasing element positions (document order), and every element whose item is kept appears among them |
| ContentExtractor.CollectedKind | src/utils/contentExtractor.ts:18-19 | every item of a pass has that pass's kind |
| ContentExtractor.ExtractedContentCounts | src/utils/contentExtractor.ts:13-73 | in the extracted content, the number of items of each kind is the number of items that kind's pass kept |
| ContentExtractor.HeadingPass | src/utils/contentExtractor.ts:14-25 | the heading loop appends exactly the kept headings' items in order, raises `headings` by their number and leaves the other counters alone |
| ContentExtractor.LinkPass | src/utils/contentExtractor.ts:28-41 | the link loop appends exactly the kept links' items in order, raises `links` by their number and leaves the other counters alone |
| ContentExtractor.ImagePass | src/utils/contentExtractor.ts:44-57 | the image loop appends exactly the kept images' items in order, raises `images` by their number and leaves the other counters alone |
| ContentExtractor.ParagraphPass | src/utils/contentExtractor.ts:60-71 | the paragraph loop appends exactly the kept paragraphs' items in order, raises `paragraphs` by their number and leaves the other counters alone |
| ContentExtractor.ExtractContentFromPage | src/utils/contentExtractor.ts:3-81 | the result holds the headings', links', images' and paragraphs' items in that order; the counters match the kinds, sum to `total`, and `total` is the number of items; the URL and timestamp are the given ones |
| PageContentAnalysis.ActiveTab | src/hooks/usePageContentAnalysis.ts:34 | `const [tab]` is the first tab of a query that resolved with tabs; a failed or empty query gives none |
| PageContentAnalysis.SyncedUrl | src/hooks/usePageContentAnalysis.ts:17-28 | a URL is adopted exactly when the active tab has a non-empty URL, and it is that URL |
| PageContentAnalysis.HasUsableId | src/hooks/usePageContentAnalysis.ts:36 | `if (tab.id)` passes only for a present id, and never for id 0 |
| PageContentAnalysis.WrittenResult | src/hooks/usePageContentAnalysis.ts:33-45 | a result is stored exactly when the active tab has a non-zero id and the injection resolved with a result in its first frame, and it is that frame's result |
| PageContentAnalysis.Initial | src/hooks/usePageContentAnalysis.ts:13-15 | the first render holds an empty URL, no result and no spinner; nothing is pending and the mount effect is due |
| PageContentAnalysis.WithCurrentUrl | src/hooks/usePageContentAnalysis.ts:59-92 | `setCurrentUrl` sets the URL; a new value makes the mount effect due again, because `handleTabUpdated` depends on the URL; nothing else changes |
| PageContentAnalysis.StartAnalysis | src/hooks/usePageContentAnalysis.ts:30-31 | starting an analysis turns the spinner on and adds one running analysis with its `manual` flag; nothing else changes |
| PageContentAnalysis.RemoveAt | src/hooks/usePageContentAnalysis.ts:30-57 | a settled analysis leaves the running list, and the other running analyses keep their order |
| PageContentAnalysis.FinishAnalysis | src/hooks/usePageContentAnalysis.ts:32-56 | the settled analysis is removed from the running list (`RemoveAt`); a written result replaces the stored one and a failure keeps it; an automatic analysis turns the spinner off, a manual one queues the deferred turn-off |
| PageContentAnalysis.AfterSync | src/hooks/usePageContentAnalysis.ts:17-28 | a settled sync adopts the synced URL, if any, and a new URL value makes the mount effect due again; on any failure the state is unchanged |
| PageContentAnalysis.AfterEffect | src/hooks/usePageContentAnalysis.ts:77-84 | the mount effect starts one sync and one automatic analysis (spinner on) and attaches the listeners; the URL, result and timers are kept |
| PageContentAnalysis.FinishSync | src/hooks/usePageContentAnalysis.ts:78 | a settled effect sync leaves the pending count and adopts the synced URL, if any; a new URL value makes the mount effect due again; the result, spinner, timers, analyses and listeners are kept |
| PageContentAnalysis.TabUpdated | src/hooks/usePageContentAnalysis.ts:59-67 | an update without a URL, from an inactive tab or to the same base URL changes nothing; otherwise the URL is adopted, the result cleared, one automatic analysis queued and the mount effect made due again; the spinner, analyses, syncs and listeners are kept |
| PageContentAnalysis.TabActivated | src/hooks/usePageContentAnalysis.ts:69-73 | activating a tab adopts the synced URL, if any, clears the result and queues one automatic analysis, whatever the URL; a new URL value makes the mount effect due again; the spinner, analyses, syncs and listeners are kept |
| PageContentAnalysis.AfterTimer | src/hooks/usePageContentAnalysis.ts:51-72 | the oldest queued callback runs and leaves the queue: a deferred analysis starts an automatic analysis, a deferred turn-off stops the spinner; the result, URL, syncs, effect and listeners are kept |
| PageContentAnalysis.AfterReset | src/hooks/usePageContentAnalysis.ts:75 | `reset` clears the stored result and changes nothing else |
| PageContentAnalysis.Enabled | src/hooks/usePageContentAnalysis.ts:81-84 | `reset` and `analyzeWebsiteContent` can be called at any time; tab events reach the hook exactly when its listeners are attached |
| PageContentAnalysis.Step | src/hooks/usePageContentAnalysis.ts:77-92 | an event that cannot occur in the state changes nothing, and otherwise the state becomes that event's transition; attached listeners stay attached, and only the mount effect attaches them |
| PageContentAnalysis.Run | src/hooks/usePageContentAnalysis.ts:77-92 | the events are applied in the order the browser delivers them; the empty trace changes nothing; once attached, the listeners stay attached, and a trace attaches them only if it contains a run of the mount effect |
| PageContentAnalysis.RunAppend | src/hooks/usePageContentAnalysis.ts:77-92 | replaying two traces one after the other is replaying their concatenation |
| PageContentAnalysis.StepKeepsNoStuckLoading | src/hooks/usePageContentAnalysis.ts:30-56 | after any event, the spinner is on only while an analysis runs or a deferred turn-off is queued |
| PageContentAnalysis.RunKeepsNoStuckLoading | src/hooks/usePageContentAnalysis.ts:30-56 | the same holds after any trace of events |
| PageContentAnalysis.QuiescentMeansIdle | src/hooks/usePageContentAnalysis.ts:49-56 | after any trace from the first render, with nothing running or queued, the spinner is off |
| PageContentAnalysis.QuietTraceKeepsResult | src/hooks/usePageContentAnalysis.ts:42-44 | a trace with no clearing event and no successful analysis keeps the stored result |
| PageContentAnalysis.LastSuccessfulAnalysisWins | src/hooks/usePageContentAnalysis.ts:42-44 | the stored result is the one of the last analysis that wrote one, unless a later event cleared it |
| PageContentAnalysis.FragmentUpdateIgnored | src/hooks/usePageContentAnalysis.ts:59-67 | a tab update to another fragment of the current page leaves the whole state unchanged |
| PageContentAnalysis.NavigationClearsAndSchedules | src/hooks/usePageContentAnalysis.ts:59-67 | an update of the active tab to another document adopts its URL, clears the result and queues exactly one more deferred analysis |
| PageContentAnalysis.StaleResultAfterNavigation | src/hooks/usePageContentAnalysis.ts:30-67 | an analysis started on page "a" that settles after a move to "b" stores page a's result while the current URL is "b" |
| PageContentAnalysis.PageContentAnalysisHook.constructor | src/hooks/usePageContentAnalysis.ts:13-15 | the new hook is in the first-render state and satisfies the spinner invariant |
| PageContentAnalysis.PageContentAnalysisHook.SetCurrentUrl | src/hooks/usePageContentAnalysis.ts:13 | the fields become `WithCurrentUrl` of the old state |
| PageContentAnalysis.PageContentAnalysisHook.AnalyzeWebsiteContent | src/hooks/usePageContentAnalysis.ts:30-31 | the fields become `StartAnalysis` of the old state, and the spinner invariant is kept |
| PageContentAnalysis.PageContentAnalysisHook.SettleAnalysis | src/hooks/usePageContentAnalysis.ts:32-56 | the fields become `FinishAnalysis` of the old state, and the spinner invariant is kept |
| PageContentAnalysis.PageContentAnalysisHook.SyncActiveTabUrl | src/hooks/usePageContentAnalysis.ts:17-28 | the fields become `AfterSync` of the old state, and the spinner invariant is kept |
| PageContentAnalysis.PageContentAnalysisHook.RunEffect | src/hooks/usePageContentAnalysis.ts:77-84 | the fields become `AfterEffect` of the old state, and the spinner invariant is kept |
| PageContentAnalysis.PageContentAnalysisHook.SettleSync | src/hooks/usePageContentAnalysis.ts:78 | the fields become `FinishSync` of the old state, and the spinner invariant is kept |
| PageContentAnalysis.PageContentAnalysisHook.HandleTabUpdated | src/hooks/usePageContentAnalysis.ts:59-67 | the fields become `TabUpdated` of the old state, and the spinner invariant is kept |
| PageContentAnalysis.PageContentAnalysisHook.HandleTabActivated | src/hooks/usePageContentAnalysis.ts:69-73 | the fields become `TabActivated` of the old state, and the spinner invariant is kept |
| PageContentAnalysis.PageContentAnalysisHook.FireTimer | src/hooks/usePageContentAnalysis.ts:51-72 | the fields become `AfterTimer` of the old state, and the spinner invariant is kept |
| PageContentAnalysis.PageContentAnalysisHook.Reset | src/hooks/usePageContentAnalysis.ts:75 | the fields become `AfterReset` of the old state, and the spinner invariant is kept |
| ContentItemView.GetHeadingLevel | src/components/ContentItem.tsx:10-13 | the level is always between 1 and 6 |
| ContentItemView.HeadingTag | src/components/ContentItem.tsx:11 | the tag of a level is "h" followed by one digit from 1 to 6 |
| ContentItemView.HeadingLevelOfHeadingTag | src/components/ContentItem.tsx:10-13 | the level of "hN" is N for N from 1 to 6 |
| ContentItemView.HeadingLevelOnlyFromHeadingTags | src/components/ContentItem.tsx:10-13 | a level other than 1 comes only from the tag "hN" of that level; any other tag gets level 1 |
| ContentItemView.NonHeadingTagsDefaultToOne | src/components/ContentItem.tsx:10-13 | "p", "h7", "h0", "H2", "h12" and "" all get level 1 |
| ContentItemView.GetIndentation | src/components/ContentItem.tsx:15-18 | the margin is a multiple of 20 px; it is 0 exactly at level 1 and at most 100 px for levels 1 to 6 |
| ContentItemView.IndentationStrictlyIncreasing | src/components/ContentItem.tsx:15-18 | a deeper level is indented further |
| ContentItemView.GetPrefix | src/components/ContentItem.tsx:20-23 | the prefix is empty exactly at level 1, and "-" at every other level |
| ContentItemView.Render | src/components/ContentItem.tsx:25-28 | a row is shown exactly for heading items; it shows the item's text with a margin of at most 100 px and a prefix exactly when indented; an empty tag is read as "h1" |
| ContentItemView.RenderFollowsLevel | src/components/ContentItem.tsx:25-28 | a heading tagged "hN" is indented (N-1)*20 px, with a prefix exactly when N > 1 |
| ContentItemView.ClickTarget | src/components/ContentItem.tsx:35 | a click scrolls exactly when the item has a non-empty id, and to that id |
| ContentItemView.KeyDown | src/components/ContentItem.tsx:36-41 | a key scrolls, and its default is prevented, exactly when it is Enter or Space and the item has a non-empty id |
| ContentItemView.ActivationKeysActLikeClick | src/components/ContentItem.tsx:35-41 | Enter and Space do what a click does; every other key does nothing |
| ContentItemView.NoIdentifierNoScroll | src/components/ContentItem.tsx:35-41 | an item without an id (as every extracted item is) can be neither clicked nor activated by key |

## Left out

- Text.Trim: whitespace is the six ASCII characters space, tab, line feed, vertical tab, form feed and carriage return. JavaScript's `trim` also strips no-break spaces, the Unicode space separators, the line and paragraph separators and the byte-order mark.
- Text.ToLower: only 'A'..'Z' are lower-cased. JavaScript also lower-cases non-ASCII letters. Tag names are ASCII, so the extractor's use of it is unaffected.
- ContentExtractor.Abbreviate: lengths count Dafny characters. JavaScript counts UTF-16 code units, so for text outside the Basic Multilingual Plane the two differ.
- ContentExtractor.ParagraphItem: the `> 20` length test counts Dafny characters, not UTF-16 code units. For example, 15 characters outside the Basic Multilingual Plane are 30 code units; the source keeps such a paragraph and the model drops it.
- ContentExtractor.HeadingItem, ContentExtractor.LinkItem, ContentExtractor.ImageItem, ContentExtractor.ParagraphItem: each function's own contract states only the item's kind. Which elements are kept, and the item fields, are stated by the matching `…ItemMeaning` lemma. This keeps the loop proofs cheap.
- ContentExtractor.ExtractContentFromPage: the DOM is given as four immutable element lists, so "the page is not modified" holds by construction.
- `window.location.href` and `Date.now()` are parameters of the extraction.
- Delays are not modelled as time. All `setTimeout` delays in the hook are 500 ms, so the queued callbacks fire in the order they were queued. Other events may arrive between them in any order.
- `console.error` logging is left out; a caught error is modelled as "nothing is stored".
- React's rendering is reduced to one flag, `effectDue`. The flag means the mount effect must run again because `currentUrl` changed.
- The effect's cleanup (removing and re-adding the listeners) is not modelled; the listeners stay attached once the effect has run.
- PageContentAnalysis.PageContentAnalysisHook.HandleTabUpdated: it compares against the latest `currentUrl`. The real listener may briefly hold the previous render's closure, until the re-run effect replaces it.
- Unmounting the hook is not modelled.
- ContentItemView.GetIndentation: returns the margin as a number of pixels, not the CSS string `"<n>px"`.
- ContentItemView.Render: the button's `title` text, its styling and the unused `index` prop are not modelled.
- src/utils/navigation.ts is not part of this model; the scroll is modelled as the identifier handed to `onScrollToElement`.
- src/pages/SidePanel.tsx is not part of this model, including its older `handleTabUpdated` variant. Also outside the model:
  - src/components/HeadingSidePanel.tsx (the refresh button passes its click event, which is truthy, as `manual`)
  - src/hooks/useResize.ts
  - src/hooks/useDisplay.ts
  - src/hooks/useSelectContent.ts
  - src/background.ts
  - the icon and styling files
