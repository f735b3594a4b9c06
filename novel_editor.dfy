/**
 * The rich-text page editor: blocks are shown as one HTML string, every edit
 * comes back as a single paragraph block holding the editor's HTML, and the
 * slash menu filters a fixed list of commands by a query.
 */
module NovelEditor {
  import opened Wrappers
  import opened Types
  import opened Seqs
  import opened Strings
  import opened PropertyDefaults
  import PageEditor

  // ---------------------------------------------------------------------
  // Blocks to HTML
  // ---------------------------------------------------------------------

  /** A to-do block is checked when its `checked` property is truthy. */
  predicate IsChecked(b: ContentBlock) {
    b.properties.Some? && "checked" in b.properties.value && Truthy(b.properties.value["checked"])
  }

  /** The markup of one block; a divider is `<hr>` whatever it holds, an image falls back to a paragraph. */
  function BlockHtml(b: ContentBlock): string {
    match b.kind
    case Heading1 => "<h1>" + b.content + "</h1>"
    case Heading2 => "<h2>" + b.content + "</h2>"
    case Heading3 => "<h3>" + b.content + "</h3>"
    case Quote => "<blockquote>" + b.content + "</blockquote>"
    case Code => "<pre><code>" + b.content + "</code></pre>"
    case BulletedList => "<ul><li>" + b.content + "</li></ul>"
    case NumberedList => "<ol><li>" + b.content + "</li></ol>"
    case Todo =>
      "<div data-type=\"taskItem\" data-checked=\"" + (if IsChecked(b) then "checked" else "") + "\">"
      + b.content + "</div>"
    case Divider => "<hr>"
    case _ => "<p>" + b.content + "</p>"
  }

  /** The whole page: the blocks' markup joined with no separator. */
  function BlocksToHtml(blocks: seq<ContentBlock>): string {
    if blocks == [] then "" else BlockHtml(blocks[0]) + BlocksToHtml(blocks[1..])
  }

  /** The markup of a split list is the markup of its parts, so each block's markup stays in place. */
  lemma {:induction false} BlocksToHtmlConcat(a: seq<ContentBlock>, b: seq<ContentBlock>)
    ensures BlocksToHtml(a + b) == BlocksToHtml(a) + BlocksToHtml(b)
    decreases |a|
  {
    if a == [] {
      assert a + b == b;
    } else {
      assert (a + b)[1..] == a[1..] + b;
      BlocksToHtmlConcat(a[1..], b);
    }
  }

  /** The markup that opens a block of a (non-divider) type. */
  function OpenTag(kind: BlockType, checked: bool): string {
    match kind
    case Heading1 => "<h1>"
    case Heading2 => "<h2>"
    case Heading3 => "<h3>"
    case Quote => "<blockquote>"
    case Code => "<pre><code>"
    case BulletedList => "<ul><li>"
    case NumberedList => "<ol><li>"
    case Todo => if checked then "<div data-type=\"taskItem\" data-checked=\"checked\">" else "<div data-type=\"taskItem\" data-checked=\"\">"
    case _ => "<p>"
  }

  /** The markup that closes a block of a (non-divider) type. */
  function CloseTag(kind: BlockType): string {
    match kind
    case Heading1 => "</h1>"
    case Heading2 => "</h2>"
    case Heading3 => "</h3>"
    case Quote => "</blockquote>"
    case Code => "</code></pre>"
    case BulletedList => "</li></ul>"
    case NumberedList => "</li></ol>"
    case Todo => "</div>"
    case _ => "</p>"
  }

  /** Recover a block's text from its markup, given its type and checked state. */
  function Unwrap(kind: BlockType, checked: bool, html: string): (r: Option<string>)
    ensures r.Some? ==> OpenTag(kind, checked) + r.value + CloseTag(kind) == html
  {
    var o := OpenTag(kind, checked);
    var c := CloseTag(kind);
    if kind != Divider && |o| + |c| <= |html| && html[..|o|] == o && html[|html| - |c|..] == c then
      assert html == html[..|o|] + html[|o|..|html| - |c|] + html[|html| - |c|..];
      Some(html[|o|..|html| - |c|])
    else None
  }

  /** Every block except a divider shows its text verbatim between an opening and a closing tag. */
  lemma BlockHtmlWraps(b: ContentBlock)
    requires b.kind != Divider
    ensures BlockHtml(b) == OpenTag(b.kind, IsChecked(b)) + b.content + CloseTag(b.kind)
  {
  }

  /** So the text of every block except a divider can be read back from its markup. */
  lemma UnwrapRecoversContent(b: ContentBlock)
    requires b.kind != Divider
    ensures Unwrap(b.kind, IsChecked(b), BlockHtml(b)) == Some(b.content)
  {
    BlockHtmlWraps(b);
    var o, c := OpenTag(b.kind, IsChecked(b)), CloseTag(b.kind);
    var h := o + b.content + c;
    assert h[..|o|] == o;
    assert h[|h| - |c|..] == c;
    assert h[|o|..|h| - |c|] == b.content;
  }

  /** A page-level consequence: the text of a block can be read back at its offset in the page markup. */
  lemma BlockTextAtOffset(blocks: seq<ContentBlock>, i: nat)
    requires i < |blocks| && blocks[i].kind != Divider
    ensures var start := |BlocksToHtml(blocks[..i])| + |OpenTag(blocks[i].kind, IsChecked(blocks[i]))|;
            start + |blocks[i].content| <= |BlocksToHtml(blocks)|
            && BlocksToHtml(blocks)[start..start + |blocks[i].content|] == blocks[i].content
  {
    var b := blocks[i];
    BlocksToHtmlAround(blocks, i);
    BlockHtmlWraps(b);
    Locate(BlocksToHtml(blocks), BlocksToHtml(blocks[..i]), BlockHtml(b), BlocksToHtml(blocks[i + 1..]),
           OpenTag(b.kind, IsChecked(b)), b.content, CloseTag(b.kind));
  }

  /** The page markup is the markup before a block, the block's own, and the markup after it. */
  lemma BlocksToHtmlAround(blocks: seq<ContentBlock>, i: nat)
    requires i < |blocks|
    ensures BlocksToHtml(blocks) == BlocksToHtml(blocks[..i]) + (BlockHtml(blocks[i]) + BlocksToHtml(blocks[i + 1..]))
  {
    assert blocks[..i] + blocks[i..] == blocks;
    BlocksToHtmlConcat(blocks[..i], blocks[i..]);
    assert blocks[i..][0] == blocks[i] && blocks[i..][1..] == blocks[i + 1..];
  }

  /** Where `h` is `pre + w + post` and `w` is `o + y + c`, `y` sits right after `pre + o`. */
  lemma Locate(h: string, pre: string, w: string, post: string, o: string, y: string, c: string)
    requires h == pre + (w + post) && w == o + y + c
    ensures |pre| + |o| + |y| <= |h| && h[|pre| + |o|..|pre| + |o| + |y|] == y
  {
    assert h == (pre + o) + y + (c + post);
  }

  /** The checked state of a to-do block is visible in its markup. */
  lemma TodoShowsCheckedState(b: ContentBlock)
    requires b.kind == Todo
    ensures IsChecked(b) <==> (|OpenTag(Todo, true)| <= |BlockHtml(b)| && BlockHtml(b)[..|OpenTag(Todo, true)|] == OpenTag(Todo, true))
  {
    var h := BlockHtml(b);
    if !IsChecked(b) {
      assert h[40] == '"';
      assert OpenTag(Todo, true)[40] == 'c';
    } else {
      BlockHtmlWraps(b);
    }
  }

  /** Ticking or clearing a to-do's checkbox in the block editor shows up as its checked state here. */
  lemma CheckboxReachesMarkup(b: ContentBlock, checked: bool)
    requires b.kind == Todo
    ensures var b2 := PageEditor.UpdateBlocks([b], b.id, PageEditor.CheckboxPatch(b, checked))[0];
            b2.kind == Todo && b2.content == b.content && (IsChecked(b2) <==> checked)
  {
  }

  /** The conversion is lossy: a divider's text, ids and nested children never reach the markup. */
  lemma MarkupDropsDividerTextAndIds(b: ContentBlock, id: string, text: string, children: Option<seq<ContentBlock>>)
    ensures BlockHtml(b.(id := id, children := children)) == BlockHtml(b)
    ensures b.kind == Divider ==> BlockHtml(b.(content := text)) == BlockHtml(b)
  {
  }

  // ---------------------------------------------------------------------
  // HTML back to blocks
  // ---------------------------------------------------------------------

  /** `handleEditorUpdate`: the whole document becomes one paragraph block holding the HTML. */
  function SyncedContent(html: string, freshId: string): (r: seq<ContentBlock>)
    ensures |r| == 1 && r[0].id == freshId && r[0].kind == Paragraph && r[0].content == html
    ensures r[0].properties == Some(map[]) && r[0].children == None
  {
    [ContentBlock(freshId, Paragraph, html, Some(map[]), None)]
  }

  /**
   * Showing synced content again wraps the previous HTML in one more paragraph,
   * so the `editorContent` markup is seven characters longer than the HTML it wraps.
   */
  lemma ResyncWrapsInParagraph(html: string, freshId: string)
    ensures BlocksToHtml(SyncedContent(html, freshId)) == "<p>" + html + "</p>"
    ensures |BlocksToHtml(SyncedContent(html, freshId))| == |html| + 7
    ensures Unwrap(Paragraph, false, BlocksToHtml(SyncedContent(html, freshId))) == Some(html)
  {
    var b := SyncedContent(html, freshId)[0];
    assert SyncedContent(html, freshId)[1..] == [];
    UnwrapRecoversContent(b);
    assert !IsChecked(b);
  }

  // ---------------------------------------------------------------------
  // Slash menu
  // ---------------------------------------------------------------------

  /** A slash-menu entry, without its icon and its editor command. */
  datatype SlashItem = SlashItem(title: string, description: string, searchTerms: seq<string>)

  /** The eight slash-menu entries, in menu order. */
  const SlashItems: seq<SlashItem> := [
    SlashItem("Text", "Just start typing with plain text.", ["p", "paragraph"]),
    SlashItem("Heading 1", "Big section heading.", ["title", "big", "large"]),
    SlashItem("Heading 2", "Medium section heading.", ["subtitle", "medium"]),
    SlashItem("Heading 3", "Small section heading.", ["subtitle", "small"]),
    SlashItem("Bullet List", "Create a simple bullet list.", ["unordered", "point"]),
    SlashItem("Numbered List", "Create a list with numbering.", ["ordered"]),
    SlashItem("Quote", "Capture a quote.", ["blockquote"]),
    SlashItem("Code", "Capture a code snippet.", ["codeblock"])
  ]

  /**
   * An entry matches a lower-cased query when its lower-cased title or
   * description contains it, or one of its search terms (as written) does.
   */
  predicate Matches(item: SlashItem, search: string) {
    Contains(Lower(item.title), search) || Contains(Lower(item.description), search)
    || exists i :: 0 <= i < |item.searchTerms| && Contains(item.searchTerms[i], search)
  }

  /** The slash menu's `items`: no query (or a non-string or empty one) shows every entry. */
  function FilterItems(items: seq<SlashItem>, query: Option<string>): (r: seq<SlashItem>)
    ensures query.None? || query.value == "" ==> r == items
    ensures SubseqOf(r, items)
    ensures query.Some? && query.value != "" ==> forall i :: 0 <= i < |r| ==> Matches(r[i], Lower(query.value))
    ensures query.Some? && query.value != "" ==>
      forall it :: multiset(r)[it] == if Matches(it, Lower(query.value)) then multiset(items)[it] else 0
  {
    if query.Some? && |query.value| > 0 then
      var search := Lower(query.value);
      FilterMultiset(items, (it: SlashItem) => Matches(it, search));
      Filter(items, (it: SlashItem) => Matches(it, search))
    else
      SubseqRefl(items);
      items
  }

  /** A non-empty query keeps exactly the matching entries. */
  lemma FilterItemsMembers(items: seq<SlashItem>, q: string, item: SlashItem)
    requires q != ""
    ensures item in FilterItems(items, Some(q)) <==> item in items && Matches(item, Lower(q))
  {
    FilterMembers(items, (it: SlashItem) => Matches(it, Lower(q)));
  }

  /** The query's letter case does not matter. */
  lemma FilterItemsIgnoresQueryCase(items: seq<SlashItem>, q: string)
    ensures FilterItems(items, Some(q)) == FilterItems(items, Some(Lower(q)))
  {
    LowerIdempotent(q);
  }

  /** Every shipped search term is already lower case. */
  lemma SearchTermsAreLowerCase(i: nat, j: nat)
    requires i < |SlashItems| && j < |SlashItems[i].searchTerms|
    ensures Lower(SlashItems[i].searchTerms[j]) == SlashItems[i].searchTerms[j]
  {
    var t := SlashItems[i].searchTerms[j];
    assert forall k :: 0 <= k < |t| ==> 'a' <= t[k] <= 'z';
  }

  /**
   * So, for the shipped entries, matching a term as written is the same as
   * matching it case-insensitively.
   */
  lemma ShippedTermsMatchCaseInsensitively(i: nat, search: string)
    requires i < |SlashItems|
    ensures Matches(SlashItems[i], search) <==>
      (Contains(Lower(SlashItems[i].title), search) || Contains(Lower(SlashItems[i].description), search)
       || exists j :: 0 <= j < |SlashItems[i].searchTerms| && Contains(Lower(SlashItems[i].searchTerms[j]), search))
  {
    forall j | 0 <= j < |SlashItems[i].searchTerms|
      ensures Lower(SlashItems[i].searchTerms[j]) == SlashItems[i].searchTerms[j]
    {
      SearchTermsAreLowerCase(i, j);
    }
  }

  // ---------------------------------------------------------------------
  // The editor
  // ---------------------------------------------------------------------

  /** The editor's local state; each handler returns the patches it sends to the store. */
  class Editor {
    var title: string
    var selectedTags: seq<string>
    var properties: Props
    var editorContent: string

    /** Mounting starts from the page, with the editor's HTML still empty. */
    constructor (page: Page)
      ensures title == page.title && selectedTags == page.tags && properties == page.properties
      ensures editorContent == ""
    {
      title, selectedTags, properties := page.title, page.tags, page.properties;
      editorContent := "";
    }

    /** The effect that runs when the page's blocks change. */
    method ShowContent(content: seq<ContentBlock>)
      modifies this
      ensures editorContent == BlocksToHtml(content)
      ensures title == old(title) && selectedTags == old(selectedTags) && properties == old(properties)
    {
      editorContent := BlocksToHtml(content);
    }

    /** `updateTitle`. */
    method UpdateTitle(newTitle: string) returns (patch: PagePatch)
      modifies this
      ensures title == newTitle && patch == EmptyPagePatch.(title := Some(newTitle))
      ensures selectedTags == old(selectedTags) && properties == old(properties) && editorContent == old(editorContent)
    {
      title := newTitle;
      patch := EmptyPagePatch.(title := Some(newTitle));
    }

    /** `updateTags`: the same reconciliation as the block editor, tags patch first. */
    method UpdateTags(superTags: seq<SuperTag>, newTags: seq<string>) returns (tagsPatch: PagePatch, propertiesPatch: PagePatch)
      modifies this
      ensures selectedTags == newTags
      ensures properties == FillDefaults(old(properties), AllTagProperties(superTags, newTags))
      ensures forall k :: k in old(properties) ==> k in properties && properties[k] == old(properties)[k]
      ensures tagsPatch == EmptyPagePatch.(tags := Some(newTags))
      ensures propertiesPatch == EmptyPagePatch.(properties := Some(properties))
      ensures title == old(title) && editorContent == old(editorContent)
    {
      selectedTags := newTags;
      tagsPatch := EmptyPagePatch.(tags := Some(newTags));
      var newProperties := Reconcile(properties, superTags, newTags);
      properties := newProperties;
      propertiesPatch := EmptyPagePatch.(properties := Some(newProperties));
    }

    /** `updateProperty`. */
    method UpdateProperty(name: string, value: Value) returns (patch: PagePatch)
      modifies this
      ensures properties == old(properties)[name := value]
      ensures patch == EmptyPagePatch.(properties := Some(properties))
      ensures title == old(title) && selectedTags == old(selectedTags) && editorContent == old(editorContent)
    {
      properties := properties[name := value];
      patch := EmptyPagePatch.(properties := Some(properties));
    }

    /** `handleEditorUpdate`: replaces the page's blocks without touching local state. */
    method HandleEditorUpdate(html: string, freshId: string) returns (patch: PagePatch)
      ensures patch == EmptyPagePatch.(content := Some(SyncedContent(html, freshId)))
    {
      patch := EmptyPagePatch.(content := Some(SyncedContent(html, freshId)));
    }
  }
}
