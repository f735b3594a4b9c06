/**
 * The workspace's records: super tags with their property definitions, pages,
 * and content blocks. Timestamps are a `nat` clock; JavaScript `any` values are
 * the `Value` variant.
 */
module Types {
  import opened Wrappers

  /** A dynamic property value. `Opaque` stands for objects, arrays, dates and NaN. */
  datatype Value = Str(s: string) | Bool(b: bool) | Num(n: int) | Null | Opaque(handle: nat)

  /** JavaScript truthiness of a value. */
  predicate Truthy(v: Value) {
    match v
    case Str(s) => s != ""
    case Bool(b) => b
    case Num(n) => n != 0
    case Null => false
    case Opaque(_) => true
  }

  /** The eight kinds of tag property. */
  datatype PropertyType = Text | Number | Date | Select | MultiSelect | Checkbox | Url | Email

  function PropertyTypeName(t: PropertyType): string {
    match t
    case Text => "text"
    case Number => "number"
    case Date => "date"
    case Select => "select"
    case MultiSelect => "multi_select"
    case Checkbox => "checkbox"
    case Url => "url"
    case Email => "email"
  }

  /** Reads a property type from its string tag; any other string is not a property type. */
  function ParsePropertyType(s: string): Option<PropertyType> {
    if s == "text" then Some(Text)
    else if s == "number" then Some(Number)
    else if s == "date" then Some(Date)
    else if s == "select" then Some(Select)
    else if s == "multi_select" then Some(MultiSelect)
    else if s == "checkbox" then Some(Checkbox)
    else if s == "url" then Some(Url)
    else if s == "email" then Some(Email)
    else None
  }

  /** The string tags and the property types correspond one to one. */
  lemma PropertyTypeNamesRoundTrip(t: PropertyType, s: string)
    ensures ParsePropertyType(PropertyTypeName(t)) == Some(t)
    ensures ParsePropertyType(s) == Some(t) <==> s == PropertyTypeName(t)
  {
  }

  /** One typed field of a super tag. `options` is meant for the select kinds. */
  datatype TagProperty = TagProperty(
    id: string,
    name: string,
    kind: PropertyType,
    options: Option<seq<string>>,
    required: Option<bool>,
    defaultValue: Option<Value>)

  datatype SuperTag = SuperTag(
    id: string,
    name: string,
    color: string,
    icon: Option<string>,
    description: Option<string>,
    properties: seq<TagProperty>,
    createdAt: nat,
    updatedAt: nat)

  /** The eleven kinds of content block. */
  datatype BlockType =
    | Paragraph | Heading1 | Heading2 | Heading3 | BulletedList | NumberedList
    | Todo | Quote | Code | Divider | Image

  function BlockTypeName(t: BlockType): string {
    match t
    case Paragraph => "paragraph"
    case Heading1 => "heading1"
    case Heading2 => "heading2"
    case Heading3 => "heading3"
    case BulletedList => "bulleted_list"
    case NumberedList => "numbered_list"
    case Todo => "todo"
    case Quote => "quote"
    case Code => "code"
    case Divider => "divider"
    case Image => "image"
  }

  function ParseBlockType(s: string): Option<BlockType> {
    if s == "paragraph" then Some(Paragraph)
    else if s == "heading1" then Some(Heading1)
    else if s == "heading2" then Some(Heading2)
    else if s == "heading3" then Some(Heading3)
    else if s == "bulleted_list" then Some(BulletedList)
    else if s == "numbered_list" then Some(NumberedList)
    else if s == "todo" then Some(Todo)
    else if s == "quote" then Some(Quote)
    else if s == "code" then Some(Code)
    else if s == "divider" then Some(Divider)
    else if s == "image" then Some(Image)
    else None
  }

  /** The string tags and the block types correspond one to one. */
  lemma BlockTypeNamesRoundTrip(t: BlockType, s: string)
    ensures ParseBlockType(BlockTypeName(t)) == Some(t)
    ensures ParseBlockType(s) == Some(t) <==> s == BlockTypeName(t)
  {
  }

  type Props = map<string, Value>

  datatype ContentBlock = ContentBlock(
    id: string,
    kind: BlockType,
    content: string,
    properties: Option<Props>,
    children: Option<seq<ContentBlock>>)

  /** A page: `tags` holds super-tag ids; `properties` is keyed by property name. */
  datatype Page = Page(
    id: string,
    title: string,
    content: seq<ContentBlock>,
    parentId: Option<string>,
    icon: Option<string>,
    coverImage: Option<string>,
    tags: seq<string>,
    properties: Props,
    isTemplate: bool,
    createdAt: nat,
    updatedAt: nat)

  /** What a caller supplies to create a tag: a super tag without id and timestamps. */
  datatype TagInput = TagInput(
    name: string,
    color: string,
    icon: Option<string>,
    description: Option<string>,
    properties: seq<TagProperty>)

  /** `Partial<SuperTag>`: a present field overwrites, an absent one keeps the old value. */
  datatype TagPatch = TagPatch(
    id: Option<string>,
    name: Option<string>,
    color: Option<string>,
    icon: Option<string>,
    description: Option<string>,
    properties: Option<seq<TagProperty>>,
    createdAt: Option<nat>)

  /** `Partial<Page>`. */
  datatype PagePatch = PagePatch(
    id: Option<string>,
    title: Option<string>,
    content: Option<seq<ContentBlock>>,
    parentId: Option<string>,
    icon: Option<string>,
    coverImage: Option<string>,
    tags: Option<seq<string>>,
    properties: Option<Props>,
    isTemplate: Option<bool>,
    createdAt: Option<nat>)

  const EmptyPagePatch := PagePatch(None, None, None, None, None, None, None, None, None, None)

  /** `Partial<ContentBlock>`. */
  datatype BlockPatch = BlockPatch(
    id: Option<string>,
    kind: Option<BlockType>,
    content: Option<string>,
    properties: Option<Props>,
    children: Option<seq<ContentBlock>>)

  /** `Partial<TagProperty>`. */
  datatype PropertyPatch = PropertyPatch(
    id: Option<string>,
    name: Option<string>,
    kind: Option<PropertyType>,
    options: Option<seq<string>>,
    required: Option<bool>,
    defaultValue: Option<Value>)

  /** `superTags.find(t => t.id === id)`: the first tag carrying the id, if any. */
  function FindTag(tags: seq<SuperTag>, id: string): (r: Option<SuperTag>)
    ensures r.Some? <==> exists i :: 0 <= i < |tags| && tags[i].id == id
    ensures r.Some? ==> r.value in tags && r.value.id == id
    ensures r.Some? ==> exists i :: 0 <= i < |tags| && tags[i] == r.value && forall j :: 0 <= j < i ==> tags[j].id != id
  {
    if tags == [] then None
    else if tags[0].id == id then Some(tags[0])
    else
      var r := FindTag(tags[1..], id);
      assert r.Some? ==> exists i :: 1 <= i < |tags| && tags[i] == r.value && forall j :: 0 <= j < i ==> tags[j].id != id by {
        if r.Some? {
          var i :| 0 <= i < |tags[1..]| && tags[1..][i] == r.value && forall j :: 0 <= j < i ==> tags[1..][j].id != id;
          assert tags[i + 1] == r.value;
          assert forall j :: 0 <= j < i + 1 ==> tags[j].id != id by {
            forall j | 0 <= j < i + 1 ensures tags[j].id != id {
              if j > 0 { assert tags[j] == tags[1..][j - 1]; }
            }
          }
        }
      }
      r
  }
}
