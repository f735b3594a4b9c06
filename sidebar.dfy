/**
 * The sidebar: which pages are listed at the top level (roots, or search
 * results while searching), which pages are children of a page, the tag dots
 * beside a page title, and the set of expanded pages.
 */
module Sidebar {
  import opened Wrappers
  import opened Types
  import opened Seqs
  import opened Strings

  /** `!page.parentId`: no parent, or an empty parent id. */
  predicate IsRoot(p: Page) {
    p.parentId.None? || p.parentId == Some("")
  }

  /** `getChildPages`: the pages whose parent id is `parentId`, in list order. */
  function ChildPages(pages: seq<Page>, parentId: string): (r: seq<Page>)
    ensures forall i :: 0 <= i < |r| ==> r[i].parentId == Some(parentId)
    ensures forall p: Page :: multiset(r)[p] == if p.parentId == Some(parentId) then multiset(pages)[p] else 0
    ensures SubseqOf(r, pages)
  {
    FilterMultiset(pages, (p: Page) => p.parentId == Some(parentId));
    Filter(pages, (p: Page) => p.parentId == Some(parentId))
  }

  /** No page but those is a child. */
  lemma ChildPagesMembers(pages: seq<Page>, parentId: string)
    ensures forall p :: p in ChildPages(pages, parentId) <==> p in pages && p.parentId == Some(parentId)
  {
    FilterMembers(pages, (p: Page) => p.parentId == Some(parentId));
  }

  /** `getRootPages`: the root pages, in list order. */
  function RootPages(pages: seq<Page>): (r: seq<Page>)
    ensures forall i :: 0 <= i < |r| ==> IsRoot(r[i])
    ensures forall p: Page :: multiset(r)[p] == if IsRoot(p) then multiset(pages)[p] else 0
    ensures SubseqOf(r, pages)
  {
    FilterMultiset(pages, (p: Page) => IsRoot(p));
    Filter(pages, (p: Page) => IsRoot(p))
  }

  /** No page but those is a root. */
  lemma RootPagesMembers(pages: seq<Page>)
    ensures forall p :: p in RootPages(pages) <==> p in pages && IsRoot(p)
  {
    FilterMembers(pages, (p: Page) => IsRoot(p));
  }

  /**
   * A page whose parent is not in the list is listed neither as a root nor as
   * the child of any listed page: it drops out of the tree.
   */
  lemma OrphanIsHidden(pages: seq<Page>, p: Page, q: Page)
    requires p in pages && p.parentId.Some? && p.parentId.value != ""
    requires forall r :: r in pages ==> r.id != p.parentId.value
    requires q in pages
    ensures p !in RootPages(pages)
    ensures p !in ChildPages(pages, q.id)
  {
    RootPagesMembers(pages);
    ChildPagesMembers(pages, q.id);
  }

  /** A page title matches a search when it contains the query, both lower-cased. */
  predicate TitleMatches(p: Page, query: string) {
    Contains(Lower(p.title), Lower(query))
  }

  /** `filteredPages`: the matching pages, in list order; an empty query matches every page. */
  function FilteredPages(pages: seq<Page>, query: string): (r: seq<Page>)
    ensures forall i :: 0 <= i < |r| ==> TitleMatches(r[i], query)
    ensures forall p: Page :: multiset(r)[p] == if TitleMatches(p, query) then multiset(pages)[p] else 0
    ensures SubseqOf(r, pages)
    ensures query == "" ==> r == pages
  {
    FilterMultiset(pages, (p: Page) => TitleMatches(p, query));
    if query == "" then
      forall p: Page ensures TitleMatches(p, "") {
        ContainsEmpty(Lower(p.title));
      }
      FilterAll(pages, (p: Page) => TitleMatches(p, query));
      Filter(pages, (p: Page) => TitleMatches(p, query))
    else
      Filter(pages, (p: Page) => TitleMatches(p, query))
  }

  /** Exactly the matching pages are found. */
  lemma FilteredPagesMembers(pages: seq<Page>, query: string)
    ensures forall p :: p in FilteredPages(pages, query) <==> p in pages && TitleMatches(p, query)
  {
    FilterMembers(pages, (p: Page) => TitleMatches(p, query));
  }

  /** The query's letter case does not change the results. */
  lemma SearchIgnoresQueryCase(pages: seq<Page>, query: string)
    ensures FilteredPages(pages, query) == FilteredPages(pages, Lower(query))
  {
    LowerIdempotent(query);
    FilterExt(pages, (p: Page) => TitleMatches(p, query), (p: Page) => TitleMatches(p, Lower(query)));
  }

  /** The top-level list: search results while the query is non-empty, the root pages otherwise. */
  function TopLevelPages(pages: seq<Page>, query: string): (r: seq<Page>)
    ensures SubseqOf(r, pages)
    ensures query != "" ==> forall i :: 0 <= i < |r| ==> TitleMatches(r[i], query)
    ensures query == "" ==> forall i :: 0 <= i < |r| ==> IsRoot(r[i])
    ensures query != "" ==> r == FilteredPages(pages, query)
    ensures query == "" ==> r == RootPages(pages)
  {
    if query != "" then FilteredPages(pages, query) else RootPages(pages)
  }

  /** While searching, child pages are listed at the top level along with roots. */
  lemma SearchFlattensTree(pages: seq<Page>, query: string, p: Page)
    requires query != "" && p in pages && TitleMatches(p, query)
    ensures p in TopLevelPages(pages, query)
  {
    FilteredPagesMembers(pages, query);
  }

  // ---------------------------------------------------------------------
  // Tag dots
  // ---------------------------------------------------------------------

  /** `superTags.find(t => t.id === tagId)` succeeds for the id. */
  function Resolves(registry: seq<SuperTag>): string -> bool {
    (id: string) => FindTag(registry, id).Some?
  }

  /**
   * The registry tags the ids name, in id order: one dot for each id that
   * resolves, holding the tag it resolves to; an id with no tag contributes nothing.
   */
  function ResolveTags(ids: seq<string>, registry: seq<SuperTag>): (r: seq<SuperTag>)
    ensures |r| <= |ids|
    ensures forall i :: 0 <= i < |r| ==> r[i] in registry && r[i].id in ids
    ensures |r| == |Filter(ids, Resolves(registry))|
    ensures forall j :: 0 <= j < |r| ==> r[j] == FindTag(registry, Filter(ids, Resolves(registry))[j]).value
  {
    if ids == [] then []
    else
      var rest := ResolveTags(ids[1..], registry);
      match FindTag(registry, ids[0])
      case Some(t) => [t] + rest
      case None => rest
  }

  /** When every id names a registry tag, each gets its dot, in order. */
  lemma ResolveTagsAllFound(ids: seq<string>, registry: seq<SuperTag>)
    requires forall i :: 0 <= i < |ids| ==> FindTag(registry, ids[i]).Some?
    ensures |ResolveTags(ids, registry)| == |ids|
    ensures forall i :: 0 <= i < |ids| ==> ResolveTags(ids, registry)[i] == FindTag(registry, ids[i]).value
  {
    FilterAll(ids, Resolves(registry));
  }

  /** The indicator beside a title: up to two dots and, beyond two tags, a `+n` count. */
  datatype TagIndicator = TagIndicator(dots: seq<SuperTag>, more: Option<nat>)

  /** The indicator for a page's tag ids; none at all for a page without tags. */
  function Indicator(tags: seq<string>, registry: seq<SuperTag>): (r: Option<TagIndicator>)
    ensures r.None? <==> tags == []
    ensures r.Some? ==> |r.value.dots| <= 2 && |r.value.dots| <= |tags|
    ensures r.Some? ==> forall i :: 0 <= i < |r.value.dots| ==> r.value.dots[i] in registry && r.value.dots[i].id in tags[..if |tags| < 2 then |tags| else 2]
    ensures r.Some? ==> r.value.dots == ResolveTags(tags[..if |tags| < 2 then |tags| else 2], registry)
    ensures r.Some? ==> (r.value.more.Some? <==> |tags| > 2)
    ensures r.Some? && r.value.more.Some? ==> r.value.more.value == |tags| - 2
  {
    if tags == [] then None
    else
      var shown := tags[..if |tags| < 2 then |tags| else 2];
      Some(TagIndicator(ResolveTags(shown, registry), if |tags| > 2 then Some(|tags| - 2) else None))
  }

  /** An id with no registry tag loses its dot, and the next resolving id takes its place. */
  lemma DanglingIdSkipped(gone: string, t: SuperTag, registry: seq<SuperTag>)
    requires FindTag(registry, gone).None? && FindTag(registry, t.id) == Some(t)
    ensures Indicator([gone, t.id], registry) == Some(TagIndicator([t], None))
  {
    var ids := [gone, t.id];
    assert ids[1..] == [t.id] && [t.id][1..] == [];
    assert ResolveTags([t.id], registry) == [t];
    assert ResolveTags(ids, registry) == [t];
    assert ids[..2] == ids;
  }

  /** The `+n` count depends on the ids alone: ids with no registry tag still count. */
  lemma CountIgnoresRegistry(tags: seq<string>, r1: seq<SuperTag>, r2: seq<SuperTag>)
    requires tags != []
    ensures Indicator(tags, r1).value.more == Indicator(tags, r2).value.more
  {
  }

  // ---------------------------------------------------------------------
  // The panel
  // ---------------------------------------------------------------------

  /** The set with `id`'s membership flipped. */
  function Toggled(s: set<string>, id: string): (r: set<string>)
    ensures id in r <==> id !in s
    ensures forall x :: x != id ==> (x in r <==> x in s)
  {
    if id in s then s - {id} else s + {id}
  }

  /** Toggling twice restores the set. */
  lemma ToggleTwice(s: set<string>, id: string)
    ensures Toggled(Toggled(s, id), id) == s
  {
  }

  /** The sidebar's own state: the search box and the expanded pages. */
  class Panel {
    var searchQuery: string
    var expandedPages: set<string>

    constructor ()
      ensures searchQuery == "" && expandedPages == {}
    {
      searchQuery, expandedPages := "", {};
    }

    /** `toggleExpanded`: copy the set, then delete or add the id. */
    method ToggleExpanded(pageId: string)
      modifies this
      ensures expandedPages == Toggled(old(expandedPages), pageId)
      ensures searchQuery == old(searchQuery)
    {
      var newExpanded := expandedPages;
      if pageId in newExpanded {
        newExpanded := newExpanded - {pageId};
      } else {
        newExpanded := newExpanded + {pageId};
      }
      expandedPages := newExpanded;
    }

    /** The search box. */
    method SetSearchQuery(query: string)
      modifies this
      ensures searchQuery == query && expandedPages == old(expandedPages)
    {
      searchQuery := query;
    }

    /** The pages listed at the top level for the current query. */
    function Listed(pages: seq<Page>): (r: seq<Page>)
      reads this
      ensures SubseqOf(r, pages)
      ensures searchQuery == "" ==> forall i :: 0 <= i < |r| ==> IsRoot(r[i])
      ensures r == TopLevelPages(pages, searchQuery)
    {
      TopLevelPages(pages, searchQuery)
    }
  }
}
