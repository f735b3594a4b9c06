/**
 * The block-based page editor: block-list editing (insert after an index or
 * append, merge by id, delete by id), the Enter/Backspace rules, placeholders,
 * and the tag/property handlers that hand one patch to the store.
 */
module PageEditor {
  import opened Wrappers
  import opened Types
  import opened Seqs
  import opened PropertyDefaults
  import App

  /** The block `addBlock` creates: the given type and nothing in it. */
  function NewBlock(kind: BlockType, id: string): (b: ContentBlock)
    ensures b.id == id && b.kind == kind && b.content == "" && b.properties == Some(map[]) && b.children == None
  {
    ContentBlock(id, kind, "", Some(map[]), None)
  }

  /** The block menu (`blockTypes`): every type except image, in this order. */
  const MenuBlockTypes: seq<BlockType> :=
    [Paragraph, Heading1, Heading2, Heading3, BulletedList, NumberedList, Todo, Quote, Code, Divider]

  /** The menu offers each type at most once and never offers an image block. */
  lemma MenuOffersAllButImage(k: BlockType)
    ensures k in MenuBlockTypes <==> k != Image
    ensures forall i, j :: 0 <= i < j < |MenuBlockTypes| ==> MenuBlockTypes[i] != MenuBlockTypes[j]
  {
  }

  /** Where the new block lands: `splice(index + 1, 0, b)`, clamped to the end, or `push`. */
  function InsertPosition(index: Option<nat>, n: nat): (at: nat)
    ensures at <= n
    ensures index.None? ==> at == n
    ensures index.Some? && index.value < n ==> at == index.value + 1
    ensures index.Some? && index.value >= n ==> at == n
  {
    if index.Some? && index.value + 1 <= n then index.value + 1 else n
  }

  /** `addBlock`'s copy-then-splice (with an index) or copy-then-push (without). */
  method InsertBlock(content: seq<ContentBlock>, block: ContentBlock, index: Option<nat>) returns (newContent: seq<ContentBlock>)
    ensures |newContent| == |content| + 1
    ensures newContent[InsertPosition(index, |content|)] == block
    ensures newContent[..InsertPosition(index, |content|)] == content[..InsertPosition(index, |content|)]
    ensures newContent[InsertPosition(index, |content|) + 1..] == content[InsertPosition(index, |content|)..]
  {
    newContent := content;
    if index.Some? {
      var at := if index.value + 1 <= |newContent| then index.value + 1 else |newContent|;
      newContent := newContent[..at] + [block] + newContent[at..];
    } else {
      newContent := newContent + [block];
    }
  }

  /** `{...block, ...updates}`. */
  function ApplyBlockPatch(b: ContentBlock, u: BlockPatch): (r: ContentBlock)
    ensures r.id == u.id.GetOr(b.id) && r.kind == u.kind.GetOr(b.kind) && r.content == u.content.GetOr(b.content)
    ensures r.properties == (if u.properties.Some? then u.properties else b.properties)
    ensures r.children == (if u.children.Some? then u.children else b.children)
  {
    ContentBlock(u.id.GetOr(b.id), u.kind.GetOr(b.kind), u.content.GetOr(b.content),
                 if u.properties.Some? then u.properties else b.properties,
                 if u.children.Some? then u.children else b.children)
  }

  /** `updateBlock`: merge into every block with the id; length, order and the rest are kept. */
  function UpdateBlocks(content: seq<ContentBlock>, blockId: string, u: BlockPatch): (r: seq<ContentBlock>)
    ensures |r| == |content|
    ensures forall i :: 0 <= i < |content| && content[i].id != blockId ==> r[i] == content[i]
    ensures forall i :: 0 <= i < |content| && content[i].id == blockId ==> r[i] == ApplyBlockPatch(content[i], u)
    ensures (forall i :: 0 <= i < |content| ==> content[i].id != blockId) ==> r == content
  {
    seq(|content|, i requires 0 <= i < |content| =>
      if content[i].id == blockId then ApplyBlockPatch(content[i], u) else content[i])
  }

  /** `deleteBlock`: remove exactly the blocks with the id; the others stay, in order. */
  function DeleteBlocks(content: seq<ContentBlock>, blockId: string): (r: seq<ContentBlock>)
    ensures forall i :: 0 <= i < |r| ==> r[i].id != blockId
    ensures forall b: ContentBlock :: b.id != blockId ==> multiset(r)[b] == multiset(content)[b]
    ensures SubseqOf(r, content)
  {
    FilterMultiset(content, (b: ContentBlock) => b.id != blockId);
    Filter(content, (b: ContentBlock) => b.id != blockId)
  }

  /** Deleting a freshly inserted block by its (unused) id undoes the insertion. */
  lemma DeleteUndoesInsert(content: seq<ContentBlock>, block: ContentBlock, index: Option<nat>, newContent: seq<ContentBlock>)
    requires forall i :: 0 <= i < |content| ==> content[i].id != block.id
    requires |newContent| == |content| + 1
    requires newContent[..InsertPosition(index, |content|)] == content[..InsertPosition(index, |content|)]
    requires newContent[InsertPosition(index, |content|)] == block
    requires newContent[InsertPosition(index, |content|) + 1..] == content[InsertPosition(index, |content|)..]
    ensures DeleteBlocks(newContent, block.id) == content
  {
    var at := InsertPosition(index, |content|);
    var pre, post := content[..at], content[at..];
    assert newContent == pre + [block] + post by {
      assert newContent == newContent[..at] + [newContent[at]] + newContent[at + 1..];
    }
    assert content == pre + post;
    FilterDropsOne(pre, block, post, (b: ContentBlock) => b.id != block.id);
  }

  /** A to-do checkbox change: keep the block's other properties and set `checked`. */
  function CheckboxPatch(b: ContentBlock, checked: bool): (u: BlockPatch)
    ensures u.properties.Some? && "checked" in u.properties.value && u.properties.value["checked"] == Bool(checked)
    ensures forall k :: k != "checked" && b.properties.Some? && k in b.properties.value ==>
      k in u.properties.value && u.properties.value[k] == b.properties.value[k]
    ensures forall k :: k in u.properties.value ==> k == "checked" || (b.properties.Some? && k in b.properties.value)
    ensures u.id.None? && u.kind.None? && u.content.None? && u.children.None?
  {
    BlockPatch(None, None, None, Some(b.properties.GetOr(map[])["checked" := Bool(checked)]), None)
  }

  /** What a key press on a block does. */
  datatype KeyAction = InsertParagraphAfter | DeleteThisBlock | Ignore

  /** Enter without Shift inserts a paragraph; Backspace on an empty block deletes it. */
  function KeyDownAction(key: string, shift: bool, block: ContentBlock): (a: KeyAction)
    ensures a == InsertParagraphAfter <==> key == "Enter" && !shift
    ensures a == DeleteThisBlock <==> key == "Backspace" && block.content == ""
  {
    if key == "Enter" && !shift then InsertParagraphAfter
    else if key == "Backspace" && block.content == "" then DeleteThisBlock
    else Ignore
  }

  /** `getPlaceholder`. */
  function Placeholder(kind: BlockType): (s: string)
    ensures s == "Type something..." <==> kind in {Paragraph, BulletedList, NumberedList, Divider, Image}
  {
    match kind
    case Heading1 => "Heading 1"
    case Heading2 => "Heading 2"
    case Heading3 => "Heading 3"
    case Quote => "Quote"
    case Code => "Code"
    case Todo => "To-do"
    case _ => "Type something..."
  }

  /** Each of the six types with a placeholder of its own is told apart by it. */
  lemma PlaceholderDistinguishes(a: BlockType, b: BlockType)
    requires a !in {Paragraph, BulletedList, NumberedList, Divider, Image}
    requires Placeholder(a) == Placeholder(b)
    ensures a == b
  {
  }

  /** The value control the property panel shows for a definition. */
  datatype PropertyInput = TextInput | NumberInput | DateInput | CheckboxInput | SelectInput(options: seq<string>) | NoInput

  /**
   * The property panel's choice of control: a select appears only for the two
   * select kinds and only when `options` is given; url and email get no control.
   */
  function PropertyInputFor(p: TagProperty): (r: PropertyInput)
    ensures r.SelectInput? <==> (p.kind == Select || p.kind == MultiSelect) && p.options.Some?
    ensures r.SelectInput? ==> Some(r.options) == p.options
    ensures r == NoInput <==> p.kind == Url || p.kind == Email || ((p.kind == Select || p.kind == MultiSelect) && p.options.None?)
  {
    match p.kind
    case Text => TextInput
    case Number => NumberInput
    case Date => DateInput
    case Checkbox => CheckboxInput
    case Select => if p.options.Some? then SelectInput(p.options.value) else NoInput
    case MultiSelect => if p.options.Some? then SelectInput(p.options.value) else NoInput
    case _ => NoInput
  }

  /**
   * The two patches of a tag change, applied by the store one after the
   * other, set the page's tags and properties and leave every other field as
   * it was (apart from the update time): the same as one combined patch.
   */
  lemma TagPatchesApplyInOrder(page: Page, tags: seq<string>, props: Props, t1: nat, t2: nat)
    ensures App.ApplyPagePatch(App.ApplyPagePatch(page, EmptyPagePatch.(tags := Some(tags)), t1),
                               EmptyPagePatch.(properties := Some(props)), t2)
            == page.(tags := tags, properties := props, updatedAt := t2)
    ensures App.ApplyPagePatch(App.ApplyPagePatch(page, EmptyPagePatch.(tags := Some(tags)), t1),
                               EmptyPagePatch.(properties := Some(props)), t2)
            == App.ApplyPagePatch(page, EmptyPagePatch.(tags := Some(tags), properties := Some(props)), t2)
  {
  }

  /** The editor's local copy of the page; each handler also returns the patch it sends to the store. */
  class Editor {
    var content: seq<ContentBlock>
    var title: string
    var selectedTags: seq<string>
    var properties: Props

    constructor (page: Page)
      ensures content == page.content && title == page.title
      ensures selectedTags == page.tags && properties == page.properties
    {
      content, title := page.content, page.title;
      selectedTags, properties := page.tags, page.properties;
    }

    /** `updateContent`. */
    method UpdateContent(newContent: seq<ContentBlock>) returns (patch: PagePatch)
      modifies this
      ensures content == newContent && patch == EmptyPagePatch.(content := Some(newContent))
      ensures title == old(title) && selectedTags == old(selectedTags) && properties == old(properties)
    {
      content := newContent;
      patch := EmptyPagePatch.(content := Some(newContent));
    }

    /** `updateTitle`. */
    method UpdateTitle(newTitle: string) returns (patch: PagePatch)
      modifies this
      ensures title == newTitle && patch == EmptyPagePatch.(title := Some(newTitle))
      ensures content == old(content) && selectedTags == old(selectedTags) && properties == old(properties)
    {
      title := newTitle;
      patch := EmptyPagePatch.(title := Some(newTitle));
    }

    /**
     * `updateTags`: select the tags and fill in their defaults. The store gets
     * two patches, the tags first and then the properties.
     */
    method UpdateTags(superTags: seq<SuperTag>, newTags: seq<string>) returns (tagsPatch: PagePatch, propertiesPatch: PagePatch)
      modifies this
      ensures selectedTags == newTags
      ensures properties == FillDefaults(old(properties), AllTagProperties(superTags, newTags))
      ensures forall k :: k in old(properties) ==> k in properties && properties[k] == old(properties)[k]
      ensures tagsPatch == EmptyPagePatch.(tags := Some(newTags))
      ensures propertiesPatch == EmptyPagePatch.(properties := Some(properties))
      ensures content == old(content) && title == old(title)
    {
      selectedTags := newTags;
      tagsPatch := EmptyPagePatch.(tags := Some(newTags));
      var newProperties := Reconcile(properties, superTags, newTags);
      properties := newProperties;
      propertiesPatch := EmptyPagePatch.(properties := Some(newProperties));
    }

    /** `updateProperty`: set one key, keep the others. */
    method UpdateProperty(name: string, value: Value) returns (patch: PagePatch)
      modifies this
      ensures properties == old(properties)[name := value]
      ensures patch == EmptyPagePatch.(properties := Some(properties))
      ensures content == old(content) && title == old(title) && selectedTags == old(selectedTags)
    {
      properties := properties[name := value];
      patch := EmptyPagePatch.(properties := Some(properties));
    }

    /** `addBlock`. */
    method AddBlock(kind: BlockType, index: Option<nat>, freshId: string) returns (patch: PagePatch)
      modifies this
      ensures |content| == |old(content)| + 1
      ensures content[InsertPosition(index, |old(content)|)] == NewBlock(kind, freshId)
      ensures content[..InsertPosition(index, |old(content)|)] == old(content)[..InsertPosition(index, |old(content)|)]
      ensures content[InsertPosition(index, |old(content)|) + 1..] == old(content)[InsertPosition(index, |old(content)|)..]
      ensures patch == EmptyPagePatch.(content := Some(content))
      ensures title == old(title) && selectedTags == old(selectedTags) && properties == old(properties)
    {
      var newContent := InsertBlock(content, NewBlock(kind, freshId), index);
      patch := UpdateContent(newContent);
    }

    /** `updateBlock`. */
    method UpdateBlock(blockId: string, u: BlockPatch) returns (patch: PagePatch)
      modifies this
      ensures content == UpdateBlocks(old(content), blockId, u)
      ensures patch == EmptyPagePatch.(content := Some(content))
      ensures title == old(title) && selectedTags == old(selectedTags) && properties == old(properties)
    {
      patch := UpdateContent(UpdateBlocks(content, blockId, u));
    }

    /** `deleteBlock`. */
    method DeleteBlock(blockId: string) returns (patch: PagePatch)
      modifies this
      ensures content == DeleteBlocks(old(content), blockId)
      ensures patch == EmptyPagePatch.(content := Some(content))
      ensures title == old(title) && selectedTags == old(selectedTags) && properties == old(properties)
    {
      patch := UpdateContent(DeleteBlocks(content, blockId));
    }

    /** `handleKeyDown` of the block rendered at `index`. */
    method HandleKeyDown(block: ContentBlock, index: nat, key: string, shift: bool, freshId: string)
      returns (patch: Option<PagePatch>)
      modifies this
      ensures KeyDownAction(key, shift, block) == InsertParagraphAfter ==>
        |content| == |old(content)| + 1 && content[InsertPosition(Some(index), |old(content)|)] == NewBlock(Paragraph, freshId)
        && content[..InsertPosition(Some(index), |old(content)|)] == old(content)[..InsertPosition(Some(index), |old(content)|)]
        && content[InsertPosition(Some(index), |old(content)|) + 1..] == old(content)[InsertPosition(Some(index), |old(content)|)..]
      ensures KeyDownAction(key, shift, block) == DeleteThisBlock ==> content == DeleteBlocks(old(content), block.id)
      ensures KeyDownAction(key, shift, block) == Ignore <==> patch.None?
      ensures patch.None? ==> content == old(content)
      ensures patch.Some? ==> patch.value == EmptyPagePatch.(content := Some(content))
      ensures title == old(title) && selectedTags == old(selectedTags) && properties == old(properties)
    {
      match KeyDownAction(key, shift, block)
      case InsertParagraphAfter =>
        var p := AddBlock(Paragraph, Some(index), freshId);
        patch := Some(p);
      case DeleteThisBlock =>
        var p := DeleteBlock(block.id);
        patch := Some(p);
      case Ignore =>
        patch := None;
    }
  }
}
