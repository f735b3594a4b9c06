/**
 * The workspace store of `App`: the super-tag registry, the page list and the
 * view state, with the create/update/delete handlers. Ids and timestamps are
 * supplied by the caller; the authenticated user is a boolean.
 */
module App {
  import opened Wrappers
  import opened Types
  import opened Seqs
  import SampleData

  datatype View = HomeView | TagsView | PageView

  /** `{...tagData, id, createdAt, updatedAt}`: the id is `tag-` followed by the creation stamp. */
  function NewTag(input: TagInput, stamp: string, now: nat): (t: SuperTag)
    ensures t.id == "tag-" + stamp && t.createdAt == now && t.updatedAt == now
    ensures t.name == input.name && t.color == input.color && t.icon == input.icon
    ensures t.description == input.description && t.properties == input.properties
  {
    SuperTag("tag-" + stamp, input.name, input.color, input.icon, input.description, input.properties, now, now)
  }

  /** `{...tag, ...updates, updatedAt}`: present fields overwrite, then the update time is set. */
  function ApplyTagPatch(tag: SuperTag, u: TagPatch, now: nat): (r: SuperTag)
    ensures r.updatedAt == now
    ensures r.id == u.id.GetOr(tag.id) && r.name == u.name.GetOr(tag.name) && r.color == u.color.GetOr(tag.color)
    ensures r.icon == (if u.icon.Some? then u.icon else tag.icon)
    ensures r.description == (if u.description.Some? then u.description else tag.description)
    ensures r.properties == u.properties.GetOr(tag.properties) && r.createdAt == u.createdAt.GetOr(tag.createdAt)
  {
    SuperTag(
      u.id.GetOr(tag.id), u.name.GetOr(tag.name), u.color.GetOr(tag.color),
      if u.icon.Some? then u.icon else tag.icon,
      if u.description.Some? then u.description else tag.description,
      u.properties.GetOr(tag.properties), u.createdAt.GetOr(tag.createdAt), now)
  }

  /** `prev.map(tag => tag.id === id ? merged : tag)`. */
  function UpdateTagIn(tags: seq<SuperTag>, id: string, u: TagPatch, now: nat): (r: seq<SuperTag>)
    ensures |r| == |tags|
    ensures forall i :: 0 <= i < |tags| && tags[i].id != id ==> r[i] == tags[i]
    ensures forall i :: 0 <= i < |tags| && tags[i].id == id ==> r[i] == ApplyTagPatch(tags[i], u, now)
    ensures (forall i :: 0 <= i < |tags| ==> tags[i].id != id) ==> r == tags
  {
    seq(|tags|, i requires 0 <= i < |tags| => if tags[i].id == id then ApplyTagPatch(tags[i], u, now) else tags[i])
  }

  /** `prev.filter(tag => tag.id !== id)`. */
  function RemoveTag(tags: seq<SuperTag>, id: string): (r: seq<SuperTag>)
    ensures forall i :: 0 <= i < |r| ==> r[i].id != id
    ensures forall t :: t in r <==> t in tags && t.id != id
    ensures forall t: SuperTag :: t.id != id ==> multiset(r)[t] == multiset(tags)[t]
    ensures SubseqOf(r, tags)
  {
    FilterMembers(tags, (t: SuperTag) => t.id != id);
    FilterMultiset(tags, (t: SuperTag) => t.id != id);
    Filter(tags, (t: SuperTag) => t.id != id)
  }

  /** `page.tags.filter(tagId => tagId !== id)`. */
  function StripId(ids: seq<string>, id: string): (r: seq<string>)
    ensures id !in r
    ensures forall x :: x in r <==> x in ids && x != id
    ensures forall x :: x != id ==> multiset(r)[x] == multiset(ids)[x]
    ensures SubseqOf(r, ids)
  {
    FilterMembers(ids, (x: string) => x != id);
    FilterMultiset(ids, (x: string) => x != id);
    Filter(ids, (x: string) => x != id)
  }

  /**
   * The cascade of a tag delete over the pages: every page loses the id from
   * `tags`, keeps its other ids in order, and keeps every other field.
   */
  function StripTag(pages: seq<Page>, id: string): (r: seq<Page>)
    ensures |r| == |pages|
    ensures forall i :: 0 <= i < |r| ==> id !in r[i].tags
    ensures forall i :: 0 <= i < |r| ==> r[i] == pages[i].(tags := r[i].tags)
    ensures forall i :: 0 <= i < |r| ==> r[i].tags == StripId(pages[i].tags, id)
    ensures forall i :: 0 <= i < |r| ==> SubseqOf(r[i].tags, pages[i].tags)
    ensures forall i, x :: 0 <= i < |r| && x in pages[i].tags && x != id ==> x in r[i].tags
  {
    seq(|pages|, i requires 0 <= i < |pages| => pages[i].(tags := StripId(pages[i].tags, id)))
  }

  /** A fresh untitled page with nothing in it. */
  function NewPage(parentId: Option<string>, stamp: string, now: nat): (p: Page)
    ensures p.id == "page-" + stamp && p.title == "Untitled" && p.parentId == parentId
    ensures p.content == [] && p.tags == [] && p.properties == map[] && !p.isTemplate
    ensures p.icon.None? && p.coverImage.None?
    ensures p.createdAt == now && p.updatedAt == now
  {
    Page("page-" + stamp, "Untitled", [], parentId, None, None, [], map[], false, now, now)
  }

  /** `{...page, ...updates, updatedAt}`. */
  function ApplyPagePatch(page: Page, u: PagePatch, now: nat): (r: Page)
    ensures r.updatedAt == now
    ensures r.id == u.id.GetOr(page.id) && r.title == u.title.GetOr(page.title)
    ensures r.content == u.content.GetOr(page.content) && r.tags == u.tags.GetOr(page.tags)
    ensures r.properties == u.properties.GetOr(page.properties) && r.isTemplate == u.isTemplate.GetOr(page.isTemplate)
    ensures r.parentId == (if u.parentId.Some? then u.parentId else page.parentId)
    ensures r.icon == (if u.icon.Some? then u.icon else page.icon)
    ensures r.coverImage == (if u.coverImage.Some? then u.coverImage else page.coverImage)
    ensures r.createdAt == u.createdAt.GetOr(page.createdAt)
  {
    Page(
      u.id.GetOr(page.id), u.title.GetOr(page.title), u.content.GetOr(page.content),
      if u.parentId.Some? then u.parentId else page.parentId,
      if u.icon.Some? then u.icon else page.icon,
      if u.coverImage.Some? then u.coverImage else page.coverImage,
      u.tags.GetOr(page.tags), u.properties.GetOr(page.properties),
      u.isTemplate.GetOr(page.isTemplate), u.createdAt.GetOr(page.createdAt), now)
  }

  /** `prev.map(page => page.id === pageId ? merged : page)`. */
  function UpdatePageIn(pages: seq<Page>, id: string, u: PagePatch, now: nat): (r: seq<Page>)
    ensures |r| == |pages|
    ensures forall i :: 0 <= i < |pages| && pages[i].id != id ==> r[i] == pages[i]
    ensures forall i :: 0 <= i < |pages| && pages[i].id == id ==> r[i] == ApplyPagePatch(pages[i], u, now)
    ensures (forall i :: 0 <= i < |pages| ==> pages[i].id != id) ==> r == pages
  {
    seq(|pages|, i requires 0 <= i < |pages| => if pages[i].id == id then ApplyPagePatch(pages[i], u, now) else pages[i])
  }

  /** `prev.filter(page => page.id !== pageId)`: children naming the page stay as they were. */
  function RemovePage(pages: seq<Page>, id: string): (r: seq<Page>)
    ensures forall i :: 0 <= i < |r| ==> r[i].id != id
    ensures forall p: Page :: p.id != id ==> multiset(r)[p] == multiset(pages)[p]
    ensures SubseqOf(r, pages)
  {
    FilterMultiset(pages, (p: Page) => p.id != id);
    Filter(pages, (p: Page) => p.id != id)
  }

  /** `pages.find(p => p.id === id)`. */
  function FindPage(pages: seq<Page>, id: string): (r: Option<Page>)
    ensures r.Some? <==> exists i :: 0 <= i < |pages| && pages[i].id == id
    ensures r.Some? ==> r.value in pages && r.value.id == id
    ensures r.Some? ==> exists i :: 0 <= i < |pages| && pages[i] == r.value && forall j :: 0 <= j < i ==> pages[j].id != id
  {
    if pages == [] then None
    else if pages[0].id == id then Some(pages[0])
    else
      var r := FindPage(pages[1..], id);
      assert forall i :: 1 <= i < |pages| ==> pages[i] == pages[1..][i - 1];
      assert r.Some? ==> exists i :: 0 <= i < |pages| && pages[i] == r.value && forall j :: 0 <= j < i ==> pages[j].id != id by {
        if r.Some? {
          var i :| 0 <= i < |pages[1..]| && pages[1..][i] == r.value && forall j :: 0 <= j < i ==> pages[1..][j].id != id;
          assert pages[i + 1] == r.value;
        }
      }
      r
  }

  /** The sample-data effect fires when a user is present and the registry is empty. */
  predicate ShouldSeed(userPresent: bool, superTags: seq<SuperTag>) {
    userPresent && |superTags| == 0
  }

  /** Once seeded, the registry is non-empty, so the effect does not fire again by itself. */
  lemma SeededRegistryStopsSeeding(userPresent: bool, now: nat)
    ensures !ShouldSeed(userPresent, SampleData.SampleTags(now))
  {
  }

  /**
   * Deleting the id that every remaining tag carries (the last tag, say) empties
   * the registry, which fires the seeding effect again; `Workspace.SeedSampleData`
   * then replaces the whole page list with the sample pages.
   */
  lemma DeletingLastTagReseeds(tags: seq<SuperTag>, id: string)
    requires forall i :: 0 <= i < |tags| ==> tags[i].id == id
    ensures ShouldSeed(true, RemoveTag(tags, id))
  {
  }

  class Workspace {
    var superTags: seq<SuperTag>
    var pages: seq<Page>
    var currentView: View
    var currentPageId: Option<string>

    constructor ()
      ensures superTags == [] && pages == [] && currentView == HomeView && currentPageId == None
    {
      superTags, pages := [], [];
      currentView, currentPageId := HomeView, None;
    }

    /** The sample-data effect: seed tags and pages only for a present user and an empty registry. */
    method SeedSampleData(userPresent: bool, now: nat)
      modifies this
      ensures ShouldSeed(userPresent, old(superTags)) ==>
        superTags == SampleData.SampleTags(now) && pages == SampleData.SamplePages(now)
      ensures !ShouldSeed(userPresent, old(superTags)) ==> superTags == old(superTags) && pages == old(pages)
      ensures currentView == old(currentView) && currentPageId == old(currentPageId)
    {
      if userPresent && |superTags| == 0 {
        Install(SampleData.SampleTags(now), SampleData.SamplePages(now));
      }
    }

    /** The two state setters the sample-data effect calls. */
    method Install(tags: seq<SuperTag>, newPages: seq<Page>)
      modifies this
      ensures superTags == tags && pages == newPages
      ensures currentView == old(currentView) && currentPageId == old(currentPageId)
    {
      superTags, pages := tags, newPages;
    }

    /** `handleCreateTag`: append one tag at the end; the existing tags are untouched. */
    method CreateTag(input: TagInput, stamp: string, now: nat)
      modifies this
      ensures |superTags| == |old(superTags)| + 1 && superTags[..|old(superTags)|] == old(superTags)
      ensures superTags[|old(superTags)|] == NewTag(input, stamp, now)
      ensures superTags == old(superTags) + [NewTag(input, stamp, now)]
      ensures pages == old(pages) && currentView == old(currentView) && currentPageId == old(currentPageId)
    {
      superTags := superTags + [NewTag(input, stamp, now)];
    }

    /** `handleUpdateTag`: merge into the tag with the matching id; an unknown id changes nothing. */
    method UpdateTag(id: string, u: TagPatch, now: nat)
      modifies this
      ensures superTags == UpdateTagIn(old(superTags), id, u, now)
      ensures pages == old(pages) && currentView == old(currentView) && currentPageId == old(currentPageId)
    {
      superTags := UpdateTagIn(superTags, id, u, now);
    }

    /** `handleDeleteTag`: drop the tag and strip its id from every page's `tags`. */
    method DeleteTag(id: string)
      modifies this
      ensures superTags == RemoveTag(old(superTags), id)
      ensures forall i :: 0 <= i < |superTags| ==> superTags[i].id != id
      ensures pages == StripTag(old(pages), id)
      ensures |pages| == |old(pages)|
      ensures forall i :: 0 <= i < |pages| ==> id !in pages[i].tags
      ensures forall i :: 0 <= i < |pages| ==> pages[i] == old(pages)[i].(tags := pages[i].tags)
      ensures currentView == old(currentView) && currentPageId == old(currentPageId)
    {
      superTags := RemoveTag(superTags, id);
      pages := StripTag(pages, id);
    }

    /** `handleCreatePage`: append an untitled page and open it. */
    method CreatePage(parentId: Option<string>, stamp: string, now: nat)
      modifies this
      ensures |pages| == |old(pages)| + 1 && pages[..|old(pages)|] == old(pages)
      ensures pages[|old(pages)|] == NewPage(parentId, stamp, now)
      ensures currentPageId == Some("page-" + stamp) && currentView == PageView
      ensures CurrentPage().Some?
      ensures (forall p :: p in old(pages) ==> p.id != "page-" + stamp) ==>
        CurrentPage() == Some(NewPage(parentId, stamp, now))
      ensures superTags == old(superTags)
    {
      var page := NewPage(parentId, stamp, now);
      pages := pages + [page];
      currentPageId := Some(page.id);
      currentView := PageView;
    }

    /** `handleUpdatePage`: merge into the page with the matching id; an unknown id changes nothing. */
    method UpdatePage(pageId: string, u: PagePatch, now: nat)
      modifies this
      ensures pages == UpdatePageIn(old(pages), pageId, u, now)
      ensures superTags == old(superTags) && currentView == old(currentView) && currentPageId == old(currentPageId)
    {
      pages := UpdatePageIn(pages, pageId, u, now);
    }

    /** `handleDeletePage`: drop the page; leave the page view if it was the current one. */
    method DeletePage(pageId: string)
      modifies this
      ensures pages == RemovePage(old(pages), pageId)
      ensures old(currentPageId) == Some(pageId) ==> currentView == HomeView && currentPageId == None
      ensures old(currentPageId) != Some(pageId) ==> currentView == old(currentView) && currentPageId == old(currentPageId)
      ensures superTags == old(superTags)
    {
      pages := RemovePage(pages, pageId);
      if currentPageId == Some(pageId) {
        currentView := HomeView;
        currentPageId := None;
      }
    }

    /** `handlePageSelect`. */
    method SelectPage(pageId: string)
      modifies this
      ensures currentPageId == Some(pageId) && currentView == PageView
      ensures superTags == old(superTags) && pages == old(pages)
    {
      currentPageId := Some(pageId);
      currentView := PageView;
    }

    /** The sidebar's and the home screen's navigation to the tag manager. */
    method ShowTags()
      modifies this
      ensures currentView == TagsView
      ensures superTags == old(superTags) && pages == old(pages) && currentPageId == old(currentPageId)
    {
      currentView := TagsView;
    }

    /** The sidebar's navigation home. */
    method ShowHome()
      modifies this
      ensures currentView == HomeView
      ensures superTags == old(superTags) && pages == old(pages) && currentPageId == old(currentPageId)
    {
      currentView := HomeView;
    }

    /** `currentPageId ? pages.find(p => p.id === currentPageId) : undefined`; an empty id counts as none. */
    function CurrentPage(): (r: Option<Page>)
      reads this
      ensures r.Some? <==> (currentPageId.Some? && currentPageId.value != ""
                            && exists i :: 0 <= i < |pages| && pages[i].id == currentPageId.value)
      ensures r.Some? ==> r.value in pages && Some(r.value.id) == currentPageId
    {
      if currentPageId.Some? && currentPageId.value != "" then FindPage(pages, currentPageId.value) else None
    }
  }
}
