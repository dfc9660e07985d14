/**
 * The records the extractor produces and the panel stores
 * (src/types/content.ts): one content item, the per-category counters,
 * and the snapshot returned by one extraction.
 */
module Content {
  import opened Wrappers

  /** An extracted item. `kind` is the item's `type` field, an open string
      that the extractor sets to one of the four category names below. */
  datatype ContentItem = ContentItem(
    kind: string,
    tag: string,
    text: Option<string>,
    href: Option<string>,
    src: Option<string>,
    alt: Option<string>,
    id: Option<string>)

  datatype ContentStats = ContentStats(
    headings: nat,
    links: nat,
    images: nat,
    paragraphs: nat,
    total: nat)

  /** One extraction: its items, their counts, the page URL and the capture time in milliseconds. */
  datatype ContentExtractionResult = ContentExtractionResult(
    content: seq<ContentItem>,
    stats: ContentStats,
    url: string,
    timestamp: int)

  const HeadingKind: string := "heading"
  const LinkKind: string := "link"
  const ImageKind: string := "image"
  const ParagraphKind: string := "paragraph"

  /** The number of items of `items` whose kind is `kind`. */
  function CountKind(items: seq<ContentItem>, kind: string): (n: nat)
    ensures n <= |items|
    ensures n == 0 <==> forall k :: 0 <= k < |items| ==> items[k].kind != kind
  {
    if items == [] then 0
    else CountKind(items[..|items| - 1], kind) + (if items[|items| - 1].kind == kind then 1 else 0)
  }

  /** Counting over a concatenation adds the counts. */
  lemma {:induction false} CountKindAppend(a: seq<ContentItem>, b: seq<ContentItem>, kind: string)
    ensures CountKind(a + b, kind) == CountKind(a, kind) + CountKind(b, kind)
  {
    if b != [] {
      assert (a + b)[..|a + b| - 1] == a + b[..|b| - 1];
      CountKindAppend(a, b[..|b| - 1], kind);
    } else {
      assert a + b == a;
    }
  }

  /** A list of one kind counts each of its items for that kind. */
  lemma {:induction false} CountKindUniform(items: seq<ContentItem>, kind: string)
    requires forall k :: 0 <= k < |items| ==> items[k].kind == kind
    ensures CountKind(items, kind) == |items|
  {
    if items != [] {
      CountKindUniform(items[..|items| - 1], kind);
    }
  }

  /** The counters agree with each other and with the item list, as the
      extractor's result always does. */
  predicate StatsConsistent(r: ContentExtractionResult)
  {
    && r.stats.total == |r.content|
    && r.stats.headings + r.stats.links + r.stats.images + r.stats.paragraphs == r.stats.total
    && r.stats.headings == CountKind(r.content, HeadingKind)
    && r.stats.links == CountKind(r.content, LinkKind)
    && r.stats.images == CountKind(r.content, ImageKind)
    && r.stats.paragraphs == CountKind(r.content, ParagraphKind)
  }
}
