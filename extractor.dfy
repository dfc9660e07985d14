/**
 * The page-side extractor (src/utils/contentExtractor.ts).
 *
 * The document is given as the four element lists that `querySelectorAll`
 * returns for 'h1, h2, h3, h4, h5, h6', 'a[href]', 'img[src]' and 'p', each in
 * document order; `window.location.href` and `Date.now()` are parameters.
 */
module ContentExtractor {
  import opened Wrappers
  import opened Text
  import opened Content

  /** The properties of one DOM element that the extractor reads. `href` and
      `src` are the resolved `HTMLAnchorElement.href` / `HTMLImageElement.src`,
      "" when empty; `alt` is `HTMLImageElement.alt`. */
  datatype Element = Element(
    tagName: string,
    textContent: Option<string>,
    href: string,
    src: string,
    alt: string)

  /** `el.textContent?.trim() || ''`. */
  function TrimmedText(e: Element): (text: string)
    ensures text == "" <==> !HasVisibleText(e)
    ensures e.textContent.Some? ==> text == Trim(e.textContent.value)
  {
    match e.textContent
    case None => ""
    case Some(t) => Trim(t)
  }

  /** The element shows some non-whitespace text. */
  predicate HasVisibleText(e: Element)
  {
    e.textContent.Some? && !AllWhitespace(e.textContent.value)
  }

  /** The item a heading contributes, if any. */
  function HeadingItem(e: Element): (r: Option<ContentItem>)
    ensures r.Some? ==> r.value.kind == HeadingKind
  {
    var text := TrimmedText(e);
    if text != "" then Some(ContentItem(HeadingKind, ToLower(e.tagName), Some(text), None, None, None, None))
    else None
  }

  /** The item a link contributes, if any. */
  function LinkItem(e: Element): (r: Option<ContentItem>)
    ensures r.Some? ==> r.value.kind == LinkKind
  {
    var href := e.href;
    var text := TrimmedText(e);
    if href != "" && text != "" then Some(ContentItem(LinkKind, "a", Some(text), Some(href), None, None, None))
    else None
  }

  /** The item an image contributes, if any; a missing alt text is "". */
  function ImageItem(e: Element): (r: Option<ContentItem>)
    ensures r.Some? ==> r.value.kind == ImageKind
  {
    var src := e.src;
    var alt := e.alt;
    if src != "" then Some(ContentItem(ImageKind, "img", None, None, Some(src), Some(alt), None))
    else None
  }

  /** `text.substring(0, 200) + (text.length > 200 ? '...' : '')`. */
  function Abbreviate(text: string): (r: string)
    ensures |r| <= 203
    ensures |text| <= 200 ==> r == text
    ensures |text| > 200 ==> |r| == 203 && r[..200] == text[..200] && r[200..] == "..."
  {
    text[..if |text| < 200 then |text| else 200] + (if |text| > 200 then "..." else "")
  }

  /** The item a paragraph contributes, if any: only substantial ones. */
  function ParagraphItem(e: Element): (r: Option<ContentItem>)
    ensures r.Some? ==> r.value.kind == ParagraphKind
  {
    var text := TrimmedText(e);
    if |text| > 20 then Some(ContentItem(ParagraphKind, "p", Some(Abbreviate(text)), None, None, None, None))
    else None
  }

  /** A heading is kept exactly when it shows some text; its item carries the
      lower-cased tag and the trimmed text, and no identifier. */
  lemma HeadingItemMeaning(e: Element)
    ensures HeadingItem(e).Some? <==> HasVisibleText(e)
    ensures HeadingItem(e).Some? ==>
              var item := HeadingItem(e).value;
              && item.tag == ToLower(e.tagName)
              && item.text.Some? && item.text.value == TrimmedText(e) && item.text.value != ""
              && !IsWhitespace(item.text.value[0]) && !IsWhitespace(item.text.value[|item.text.value| - 1])
              && item.href.None? && item.src.None? && item.alt.None? && item.id.None?
  {
  }

  /** A link is kept exactly when it has a target and shows some text. */
  lemma LinkItemMeaning(e: Element)
    ensures LinkItem(e).Some? <==> e.href != "" && HasVisibleText(e)
    ensures LinkItem(e).Some? ==>
              var item := LinkItem(e).value;
              && item.tag == "a" && item.href == Some(e.href)
              && item.text.Some? && item.text.value == TrimmedText(e) && item.text.value != ""
              && item.src.None? && item.alt.None? && item.id.None?
  {
  }

  /** An image is kept exactly when it has a source; its alt text defaults to "". */
  lemma ImageItemMeaning(e: Element)
    ensures ImageItem(e).Some? <==> e.src != ""
    ensures ImageItem(e).Some? ==>
              var item := ImageItem(e).value;
              && item.tag == "img" && item.src == Some(e.src) && item.alt == Some(e.alt)
              && item.text.None? && item.href.None? && item.id.None?
  {
  }

  /** A paragraph is kept exactly when its trimmed text is longer than 20
      characters; its text is that text, cut to 200 characters and marked
      with "..." when it was longer. */
  lemma ParagraphItemMeaning(e: Element)
    ensures ParagraphItem(e).Some? <==> |TrimmedText(e)| > 20
    ensures ParagraphItem(e).Some? ==>
              var item := ParagraphItem(e).value;
              var full := TrimmedText(e);
              && item.tag == "p" && item.text.Some?
              && 20 < |item.text.value| <= 203
              && (|full| <= 200 ==> item.text.value == full)
              && (|full| > 200 ==> item.text.value == full[..200] + "...")
              && item.href.None? && item.src.None? && item.alt.None? && item.id.None?
  {
  }

  /** The items `select` keeps from `elements`, in their order. */
  function Collect(elements: seq<Element>, select: Element -> Option<ContentItem>): (items: seq<ContentItem>)
    ensures |items| <= |elements|
  {
    if elements == [] then []
    else
      var init := elements[..|elements| - 1];
      var last := elements[|elements| - 1];
      Collect(init, select) + (if select(last).Some? then [select(last).value] else [])
  }

  /** One more element extends the collected prefix by what `select` makes of it. */
  lemma CollectStep(elements: seq<Element>, i: int, select: Element -> Option<ContentItem>)
    requires 0 <= i < |elements|
    ensures Collect(elements[..i + 1], select)
            == Collect(elements[..i], select) + (if select(elements[i]).Some? then [select(elements[i]).value] else [])
  {
    assert elements[..i + 1][..i] == elements[..i];
  }

  /** A loop that has pushed the items of the first `i` elements after
      `content0` pushes element `i`'s item, if it has one, and so has pushed
      those of the first `i + 1`. */
  lemma CollectExtend(content0: seq<ContentItem>, content: seq<ContentItem>, elements: seq<Element>, i: int,
                      select: Element -> Option<ContentItem>)
    requires 0 <= i < |elements|
    requires content == content0 + Collect(elements[..i], select)
    ensures select(elements[i]).Some? ==> content + [select(elements[i]).value] == content0 + Collect(elements[..i + 1], select)
    ensures select(elements[i]).None? ==> content == content0 + Collect(elements[..i + 1], select)
  {
    CollectStep(elements, i, select);
  }

  /** `idx` lists, in increasing order, exactly the positions of the elements
      `select` keeps, and `items` are what it keeps from them. */
  ghost predicate IsSelection(elements: seq<Element>, select: Element -> Option<ContentItem>,
                              idx: seq<int>, items: seq<ContentItem>)
  {
    && Picks(elements, select, idx, items)
    && Increasing(idx)
    && Covers(elements, select, idx)
  }

  /** Item `k` is what `select` makes of element `idx[k]`. */
  ghost predicate Picks(elements: seq<Element>, select: Element -> Option<ContentItem>,
                        idx: seq<int>, items: seq<ContentItem>)
  {
    |idx| == |items| &&
    forall k :: 0 <= k < |idx| ==> 0 <= idx[k] < |elements| && select(elements[idx[k]]) == Some(items[k])
  }

  ghost predicate Increasing(idx: seq<int>)
  {
    forall k, l :: 0 <= k < l < |idx| ==> idx[k] < idx[l]
  }

  /** Every element `select` keeps is listed. */
  ghost predicate Covers(elements: seq<Element>, select: Element -> Option<ContentItem>, idx: seq<int>)
  {
    forall i :: 0 <= i < |elements| && select(elements[i]).Some? ==> i in idx
  }

  /** Each pass keeps the input order, keeps every qualifying element and
      repeats none. */
  lemma {:induction false} CollectIsSelection(elements: seq<Element>, select: Element -> Option<ContentItem>)
    ensures exists idx :: IsSelection(elements, select, idx, Collect(elements, select))
  {
    if elements == [] {
      assert Collect(elements, select) == [];
      assert IsSelection(elements, select, [], []);
    } else {
      var n := |elements| - 1;
      var init := elements[..n];
      CollectIsSelection(init, select);
      var items := Collect(init, select);
      var idx :| IsSelection(init, select, idx, items);
      if select(elements[n]).Some? {
        var idx', items' := idx + [n], items + [select(elements[n]).value];
        assert Collect(elements, select) == items';
        PicksExtend(elements, select, idx, items);
        assert Increasing(idx');
        CoversExtend(elements, select, idx);
        assert IsSelection(elements, select, idx', items');
      } else {
        assert Collect(elements, select) == items;
        PicksWiden(elements, select, idx, items);
        CoversSkip(elements, select, idx);
        assert IsSelection(elements, select, idx, items);
      }
    }
  }

  lemma PicksExtend(elements: seq<Element>, select: Element -> Option<ContentItem>,
                    idx: seq<int>, items: seq<ContentItem>)
    requires elements != [] && select(elements[|elements| - 1]).Some?
    requires Picks(elements[..|elements| - 1], select, idx, items)
    ensures Picks(elements, select, idx + [|elements| - 1], items + [select(elements[|elements| - 1]).value])
  {
    var n := |elements| - 1;
    forall k | 0 <= k < |idx| ensures elements[..n][idx[k]] == elements[idx[k]] { }
  }

  lemma PicksWiden(elements: seq<Element>, select: Element -> Option<ContentItem>,
                   idx: seq<int>, items: seq<ContentItem>)
    requires elements != []
    requires Picks(elements[..|elements| - 1], select, idx, items)
    ensures Picks(elements, select, idx, items)
  {
    var n := |elements| - 1;
    forall k | 0 <= k < |idx| ensures elements[..n][idx[k]] == elements[idx[k]] { }
  }

  lemma CoversExtend(elements: seq<Element>, select: Element -> Option<ContentItem>, idx: seq<int>)
    requires elements != []
    requires Covers(elements[..|elements| - 1], select, idx)
    ensures Covers(elements, select, idx + [|elements| - 1])
  {
    var n := |elements| - 1;
    forall i | 0 <= i < n ensures elements[..n][i] == elements[i] { }
  }

  lemma CoversSkip(elements: seq<Element>, select: Element -> Option<ContentItem>, idx: seq<int>)
    requires elements != [] && select(elements[|elements| - 1]).None?
    requires Covers(elements[..|elements| - 1], select, idx)
    ensures Covers(elements, select, idx)
  {
    var n := |elements| - 1;
    forall i | 0 <= i < n ensures elements[..n][i] == elements[i] { }
  }

  /** Every item `select` produces has kind `kind`, so everything collected does. */
  lemma CollectedKind(elements: seq<Element>, select: Element -> Option<ContentItem>, kind: string)
    requires forall e :: select(e).Some? ==> select(e).value.kind == kind
    ensures forall k :: 0 <= k < |Collect(elements, select)| ==> Collect(elements, select)[k].kind == kind
  {
  }

  /** The content list of one extraction: all headings, then links, images, paragraphs. */
  function ExtractedContent(headings: seq<Element>, links: seq<Element>, images: seq<Element>,
                            paragraphs: seq<Element>): seq<ContentItem>
  {
    Collect(headings, HeadingItem) + Collect(links, LinkItem)
      + Collect(images, ImageItem) + Collect(paragraphs, ParagraphItem)
  }

  /** Counting the extracted content by kind gives the size of each pass. */
  lemma ExtractedContentCounts(headings: seq<Element>, links: seq<Element>, images: seq<Element>,
                               paragraphs: seq<Element>)
    ensures var c := ExtractedContent(headings, links, images, paragraphs);
            && CountKind(c, HeadingKind) == |Collect(headings, HeadingItem)|
            && CountKind(c, LinkKind) == |Collect(links, LinkItem)|
            && CountKind(c, ImageKind) == |Collect(images, ImageItem)|
            && CountKind(c, ParagraphKind) == |Collect(paragraphs, ParagraphItem)|
  {
    var h, l, i, p := Collect(headings, HeadingItem), Collect(links, LinkItem),
                      Collect(images, ImageItem), Collect(paragraphs, ParagraphItem);
    CollectedKind(headings, HeadingItem, HeadingKind);
    CollectedKind(links, LinkItem, LinkKind);
    CollectedKind(images, ImageItem, ImageKind);
    CollectedKind(paragraphs, ParagraphItem, ParagraphKind);
    CountKindOfFour(h, l, i, p, HeadingKind, LinkKind, ImageKind, ParagraphKind);
    CountKindOfFour(l, h, i, p, LinkKind, HeadingKind, ImageKind, ParagraphKind);
    CountKindOfFour(i, h, l, p, ImageKind, HeadingKind, LinkKind, ParagraphKind);
    CountKindOfFour(p, h, l, i, ParagraphKind, HeadingKind, LinkKind, ImageKind);
  }

  /** In four lists of distinct uniform kinds, `kind` is counted once per item of `a`. */
  lemma CountKindOfFour(a: seq<ContentItem>, b: seq<ContentItem>, c: seq<ContentItem>, d: seq<ContentItem>,
                        kind: string, kb: string, kc: string, kd: string)
    requires kind != kb && kind != kc && kind != kd
    requires forall k :: 0 <= k < |a| ==> a[k].kind == kind
    requires forall k :: 0 <= k < |b| ==> b[k].kind == kb
    requires forall k :: 0 <= k < |c| ==> c[k].kind == kc
    requires forall k :: 0 <= k < |d| ==> d[k].kind == kd
    ensures CountKind(a + b + c + d, kind) == |a|
            && CountKind(b + a + c + d, kind) == |a|
            && CountKind(b + c + a + d, kind) == |a|
            && CountKind(b + c + d + a, kind) == |a|
  {
    CountKindUniform(a, kind);
    assert CountKind(b, kind) == 0 && CountKind(c, kind) == 0 && CountKind(d, kind) == 0;
    CountKindOfConcat(a, b, c, d, kind);
    CountKindOfConcat(b, a, c, d, kind);
    CountKindOfConcat(b, c, a, d, kind);
    CountKindOfConcat(b, c, d, a, kind);
  }

  /** Counting over four joined lists adds up the four counts. */
  lemma CountKindOfConcat(w: seq<ContentItem>, x: seq<ContentItem>, y: seq<ContentItem>, z: seq<ContentItem>,
                          kind: string)
    ensures CountKind(w + x + y + z, kind) == CountKind(w, kind) + CountKind(x, kind) + CountKind(y, kind) + CountKind(z, kind)
  {
    CountKindAppend(w, x, kind);
    CountKindAppend(w + x, y, kind);
    CountKindAppend(w + x + y, z, kind);
  }

  /** The heading pass: push an item and bump `headings` for each kept heading. */
  method HeadingPass(headings: seq<Element>, content0: seq<ContentItem>, stats0: ContentStats)
    returns (content: seq<ContentItem>, stats: ContentStats)
    ensures content == content0 + Collect(headings, HeadingItem)
    ensures stats.headings == stats0.headings + |content| - |content0|
    ensures stats.links == stats0.links && stats.images == stats0.images && stats.paragraphs == stats0.paragraphs && stats.total == stats0.total
  {
    content, stats := content0, stats0;
    for i := 0 to |headings|
      invariant content == content0 + Collect(headings[..i], HeadingItem)
      invariant stats.headings == stats0.headings + |content| - |content0|
      invariant stats.links == stats0.links && stats.images == stats0.images && stats.paragraphs == stats0.paragraphs && stats.total == stats0.total
    {
      var heading := headings[i];
      CollectExtend(content0, content, headings, i, HeadingItem);
      var text := TrimmedText(heading);
      if text != "" {
        content := content + [ContentItem(HeadingKind, ToLower(heading.tagName), Some(text), None, None, None, None)];
        stats := stats.(headings := stats.headings + 1);
      }
    }
    assert headings[..|headings|] == headings;
  }

  /** The link pass: push an item and bump `links` for each kept link. */
  method LinkPass(links: seq<Element>, content0: seq<ContentItem>, stats0: ContentStats)
    returns (content: seq<ContentItem>, stats: ContentStats)
    ensures content == content0 + Collect(links, LinkItem)
    ensures stats.links == stats0.links + |content| - |content0|
    ensures stats.headings == stats0.headings && stats.images == stats0.images && stats.paragraphs == stats0.paragraphs && stats.total == stats0.total
  {
    content, stats := content0, stats0;
    for i := 0 to |links|
      invariant content == content0 + Collect(links[..i], LinkItem)
      invariant stats.links == stats0.links + |content| - |content0|
      invariant stats.headings == stats0.headings && stats.images == stats0.images && stats.paragraphs == stats0.paragraphs && stats.total == stats0.total
    {
      var link := links[i];
      CollectExtend(content0, content, links, i, LinkItem);
      var href := link.href;
      var text := TrimmedText(link);
      if href != "" && text != "" {
        content := content + [ContentItem(LinkKind, "a", Some(text), Some(href), None, None, None)];
        stats := stats.(links := stats.links + 1);
      }
    }
    assert links[..|links|] == links;
  }

  /** The image pass: push an item and bump `images` for each image with a source. */
  method ImagePass(images: seq<Element>, content0: seq<ContentItem>, stats0: ContentStats)
    returns (content: seq<ContentItem>, stats: ContentStats)
    ensures content == content0 + Collect(images, ImageItem)
    ensures stats.images == stats0.images + |content| - |content0|
    ensures stats.headings == stats0.headings && stats.links == stats0.links && stats.paragraphs == stats0.paragraphs && stats.total == stats0.total
  {
    content, stats := content0, stats0;
    for i := 0 to |images|
      invariant content == content0 + Collect(images[..i], ImageItem)
      invariant stats.images == stats0.images + |content| - |content0|
      invariant stats.headings == stats0.headings && stats.links == stats0.links && stats.paragraphs == stats0.paragraphs && stats.total == stats0.total
    {
      var img := images[i];
      CollectExtend(content0, content, images, i, ImageItem);
      var src := img.src;
      var alt := img.alt;
      if src != "" {
        content := content + [ContentItem(ImageKind, "img", None, None, Some(src), Some(alt), None)];
        stats := stats.(images := stats.images + 1);
      }
    }
    assert images[..|images|] == images;
  }

  /** The paragraph pass: push an abbreviated item and bump `paragraphs` for each substantial paragraph. */
  method ParagraphPass(paragraphs: seq<Element>, content0: seq<ContentItem>, stats0: ContentStats)
    returns (content: seq<ContentItem>, stats: ContentStats)
    ensures content == content0 + Collect(paragraphs, ParagraphItem)
    ensures stats.paragraphs == stats0.paragraphs + |content| - |content0|
    ensures stats.headings == stats0.headings && stats.links == stats0.links && stats.images == stats0.images && stats.total == stats0.total
  {
    content, stats := content0, stats0;
    for i := 0 to |paragraphs|
      invariant content == content0 + Collect(paragraphs[..i], ParagraphItem)
      invariant stats.paragraphs == stats0.paragraphs + |content| - |content0|
      invariant stats.headings == stats0.headings && stats.links == stats0.links && stats.images == stats0.images && stats.total == stats0.total
    {
      var p := paragraphs[i];
      CollectExtend(content0, content, paragraphs, i, ParagraphItem);
      var text := TrimmedText(p);
      if |text| > 20 {
        var abbreviated := Abbreviate(text);
        assert ParagraphItem(p) == Some(ContentItem(ParagraphKind, "p", Some(abbreviated), None, None, None, None));
        content := content + [ContentItem(ParagraphKind, "p", Some(abbreviated), None, None, None, None)];
        stats := stats.(paragraphs := stats.paragraphs + 1);
      }
    }
    assert paragraphs[..|paragraphs|] == paragraphs;
  }

  /** `extractContentFromPage`: the four passes in order, then `total`, the URL and the clock. */
  method ExtractContentFromPage(headings: seq<Element>, links: seq<Element>, images: seq<Element>,
                                paragraphs: seq<Element>, locationHref: string, now: int)
    returns (result: ContentExtractionResult)
    ensures result.content == ExtractedContent(headings, links, images, paragraphs)
    ensures StatsConsistent(result)
    ensures result.url == locationHref && result.timestamp == now
  {
    var content: seq<ContentItem> := [];
    var stats := ContentStats(0, 0, 0, 0, 0);
    content, stats := HeadingPass(headings, content, stats);
    assert content == Collect(headings, HeadingItem);
    content, stats := LinkPass(links, content, stats);
    content, stats := ImagePass(images, content, stats);
    content, stats := ParagraphPass(paragraphs, content, stats);
    assert content == ExtractedContent(headings, links, images, paragraphs);
    stats := stats.(total := |content|);
    ExtractedContentCounts(headings, links, images, paragraphs);
    result := ContentExtractionResult(content, stats, locationHref, now);
  }
}
