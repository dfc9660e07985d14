/**
 * One row of the panel's list (src/components/ContentItem.tsx): only
 * headings are shown, indented by level, and activating a row scrolls the
 * page to the item's element when the item has an identifier.
 */
module ContentItemView {
  import opened Wrappers
  import opened Content

  /** `tag.match(/^h([1-6])$/)`: the level of a heading tag, 1 for any other tag. */
  function GetHeadingLevel(tag: string): (level: int)
    ensures 1 <= level <= 6
  {
    if |tag| == 2 && tag[0] == 'h' && '1' <= tag[1] <= '6' then tag[1] as int - '0' as int else 1
  }

  /** The tag "h1" … "h6" of a heading level. */
  function HeadingTag(level: int): (tag: string)
    requires 1 <= level <= 6
    ensures |tag| == 2 && tag[0] == 'h' && '1' <= tag[1] <= '6'
  {
    ['h', ('0' as int + level) as char]
  }

  /** The level of "hN" is N. */
  lemma HeadingLevelOfHeadingTag(level: int)
    requires 1 <= level <= 6
    ensures GetHeadingLevel(HeadingTag(level)) == level
  {
  }

  /** Only the six heading tags have a level other than the default; every
      other tag, "h1" included, gets level 1. */
  lemma HeadingLevelOnlyFromHeadingTags(tag: string)
    ensures GetHeadingLevel(tag) != 1 ==> tag == HeadingTag(GetHeadingLevel(tag))
    ensures (forall n :: 1 <= n <= 6 ==> tag != HeadingTag(n)) ==> GetHeadingLevel(tag) == 1
  {
    if GetHeadingLevel(tag) != 1 {
      var n := GetHeadingLevel(tag);
      assert tag == [tag[0], tag[1]];
      assert tag == HeadingTag(n);
    }
  }

  /** Near misses of the pattern get the default level. */
  lemma NonHeadingTagsDefaultToOne()
    ensures GetHeadingLevel("p") == 1 && GetHeadingLevel("h7") == 1 && GetHeadingLevel("h0") == 1
    ensures GetHeadingLevel("H2") == 1 && GetHeadingLevel("h12") == 1 && GetHeadingLevel("") == 1
  {
  }

  /** `(level - 1) * 20`: the row's left margin in pixels. */
  function GetIndentation(level: int): (marginLeftPx: int)
    ensures marginLeftPx % 20 == 0
    ensures marginLeftPx == 0 <==> level == 1
    ensures 1 <= level <= 6 ==> 0 <= marginLeftPx <= 100
  {
    (level - 1) * 20
  }

  /** Deeper headings are indented further. */
  lemma IndentationStrictlyIncreasing(a: int, b: int)
    requires a < b
    ensures GetIndentation(a) < GetIndentation(b)
  {
  }

  /** No prefix for a level-1 heading, "-" for every other level. */
  function GetPrefix(level: int): (prefix: string)
    ensures prefix == "" <==> level == 1
    ensures prefix != "" ==> prefix == "-"
  {
    if level == 1 then "" else "-"
  }

  /** What a shown row displays. */
  datatype HeadingRow = HeadingRow(marginLeftPx: int, prefix: string, text: Option<string>)

  /** The component: nothing for a non-heading item; otherwise a row
      indented and prefixed by the level of its tag, "h1" when the tag is empty. */
  function Render(item: ContentItem): (row: Option<HeadingRow>)
    ensures row.Some? <==> item.kind == HeadingKind
    ensures row.Some? ==> && 0 <= row.value.marginLeftPx <= 100 && row.value.marginLeftPx % 20 == 0
                          && (row.value.prefix == "" <==> row.value.marginLeftPx == 0)
                          && row.value.text == item.text
    ensures row.Some? && item.tag == "" ==> row.value.marginLeftPx == 0 && row.value.prefix == ""
  {
    if item.kind != HeadingKind then None
    else
      var headingLevel := GetHeadingLevel(if item.tag != "" then item.tag else "h1");
      Some(HeadingRow(GetIndentation(headingLevel), GetPrefix(headingLevel), item.text))
  }

  /** A heading tagged "hN" is shown N - 1 steps in, with a prefix exactly when N > 1. */
  lemma RenderFollowsLevel(item: ContentItem, level: int)
    requires item.kind == HeadingKind && 1 <= level <= 6 && item.tag == HeadingTag(level)
    ensures Render(item).Some?
    ensures Render(item).value.marginLeftPx == (level - 1) * 20
    ensures Render(item).value.prefix == (if level == 1 then "" else "-")
  {
    HeadingLevelOfHeadingTag(level);
  }

  /** `onClick`: the identifier handed to `onScrollToElement`, if any; an
      absent or empty identifier calls nothing. */
  function ClickTarget(item: ContentItem): (target: Option<string>)
    ensures target.Some? <==> item.id.Some? && item.id.value != ""
    ensures target.Some? ==> target == item.id
  {
    if item.id.Some? && item.id.value != "" then item.id else None
  }

  /** What `onKeyDown` does: the identifier handed to `onScrollToElement`,
      if any, and whether the key's default action is prevented. */
  datatype KeyResponse = KeyResponse(scrollTo: Option<string>, preventDefault: bool)

  /** `onKeyDown`: Enter or Space on a row whose item has an identifier. */
  function KeyDown(item: ContentItem, key: string): (response: KeyResponse)
    ensures response.scrollTo.Some? <==> (key == "Enter" || key == " ") && item.id.Some? && item.id.value != ""
    ensures response.preventDefault <==> response.scrollTo.Some?
    ensures response.scrollTo.Some? ==> response.scrollTo == item.id
  {
    if (key == "Enter" || key == " ") && item.id.Some? && item.id.value != "" then
      KeyResponse(item.id, true)
    else KeyResponse(None, false)
  }

  /** Enter and Space do what a click does; other keys do nothing. */
  lemma ActivationKeysActLikeClick(item: ContentItem, key: string)
    ensures key == "Enter" || key == " " ==> KeyDown(item, key).scrollTo == ClickTarget(item)
    ensures key != "Enter" && key != " " ==> KeyDown(item, key) == KeyResponse(None, false)
  {
  }

  /** The extractor never sets an identifier, so none of its rows can be activated. */
  lemma NoIdentifierNoScroll(item: ContentItem, key: string)
    requires item.id.None?
    ensures ClickTarget(item).None? && KeyDown(item, key).scrollTo.None?
  {
  }
}
