# Notion-style workspace with super tags: a Dafny model

The application is a single-page workspace. It keeps two things in memory:

- A registry of **super tags**. Each tag has a name, a colour, an optional icon and description, and a list of **property definitions** (name, type, optional options, required flag, default value).
- A list of **pages**. Each page has a title, a list of **content blocks**, an optional parent page, the ids of the tags attached to it, and a map of property values.

The model covers the logic behind the user interface:

- **The store** (`App`): create, update and delete for tags and pages, the view state (home, tag manager, page) with the current page, and the guard that seeds sample data.
- **Tag-driven property defaults** (`PropertyDefaults`, used by both editors): attaching tags fills in the default of every property of the selected tags that the page does not have yet. It never removes or overwrites an existing value. Where two definitions share a name, the first one in registry order, then declaration order, supplies the value.
- **The block editor** (`PageEditor`): insert after an index or append, merge and delete by id, the Enter and Backspace rules, placeholders, the to-do checkbox, the property panel's choice of control, and the title, tag and property handlers.
- **The rich-text editor** (`NovelEditor`):
  - blocks become one HTML string, and the model proves what of each block is recoverable from it;
  - an edit comes back as one paragraph block holding the whole HTML;
  - the slash-command menu filters a fixed list of commands by a query.
- **The tag manager** (`SuperTagManager`): the create and edit form, the form's list of property definitions (append, update and remove by index), the submit rule that refuses a blank name, and cancel.
- **The sidebar** (`Sidebar`): root pages, child pages, title search, the top-level list, the "two dots and `+n`" tag indicator, and the set of expanded pages.

Shared pieces:

- `Types`: the records. A JavaScript `any` value is the `Value` datatype; timestamps are a `nat` clock.
- `Seqs`: an order-preserving `Filter`, with membership, multiset and split lemmas.
- `Strings`: ASCII `toLowerCase`, `includes` and `trim`.
- `Wrappers`: `Option`.

An object whose handlers update fields in place is a class:

| class | fields |
|---|---|
| `App.Workspace` | `superTags`, `pages`, `currentView`, `currentPageId` |
| `PageEditor.Editor` | local copy of a page |
| `NovelEditor.Editor` | local copy of a page |
| `SuperTagManager.Manager` | form and dialog state |
| `Sidebar.Panel` | search box and expanded set |

The editors' handlers return the `Partial<Page>` patches they hand to the store, and the store applies them with `App.Workspace.UpdatePage`.

Fresh ids and times are method parameters. So is the signed-in user, as a boolean.

Behaviours worth knowing:

- **Default clashes.** The membership check runs against the map being filled, so the **first** default with a given name wins, not a later one.
- **Inherited names.** The membership check is JavaScript's `in`, which also finds the members every object inherits from `Object.prototype` (`constructor`, `toString`, `__proto__` and the rest). A default for a property with such a name is never filled in (`PropertyDefaults.InheritedNameIsNotFilled`).
- **Orphaned pages.** A page whose parent was deleted is **not** listed as a root page, because its `parentId` is still set. It is not listed as any live page's child either, so the tree hides it (`Sidebar.OrphanIsHidden`). A search can still find it.
- **Reseeding.** Deleting the last tag while signed in empties the registry, which fires the sample-data effect again. That effect replaces the whole page list with the sample pages (`App.DeletingLastTagReseeds` with `App.Workspace.SeedSampleData`).
- **Slash-menu search terms.** Titles and descriptions are lower-cased before matching. Search terms are matched **as written**. Every shipped term is already lower case, so this makes no difference for the shipped list (`NovelEditor.ShippedTermsMatchCaseInsensitively`).

Other edge cases:

- An empty `parentId` counts as a root.
- An empty current page id counts as no page.
- `splice` past the end appends.
- An empty or missing tag icon shows as the "tag" icon in the edit form.

## Model

| member | source | states |
|---|---|---|
| App.Workspace.CreateTag | src/App.tsx:157-164 | appends exactly one tag at the end with the given fields, id `tag-<stamp>` and both timestamps set; earlier tags, pages and view untouched |
| App.NewTag | src/App.tsx:158-163 | the new tag carries every supplied field, the `tag-` id and equal creation and update times |
| App.Workspace.UpdateTag | src/App.tsx:168-171 | the registry becomes `UpdateTagIn` of the old one; pages and view untouched |
| App.UpdateTagIn | src/App.tsx:169-171 | same length; tags with another id stay as they were; a matching tag gets the patch merged and the new update time; an unknown id changes nothing |
| App.ApplyTagPatch | src/App.tsx:170 | every field present in the patch overwrites, every absent one is kept, and `updatedAt` is the new time |
| App.Workspace.DeleteTag | src/App.tsx:175-181 | no tag with the id remains; every page keeps its place and every field except `tags`; no page's tags contain the id |
| App.RemoveTag | src/App.tsx:176 | exactly the tags with other ids remain, each as often as before, as an order-preserving subsequence |
| App.StripId | src/App.tsx:180 | the id is gone from a page's tag list and the other ids keep their multiplicity and relative order |
| App.StripTag | src/App.tsx:178-181 | same page count; each page equals the old one except its `tags`, which become `StripId` of the old ones: the id is gone and every other id keeps its multiplicity and order |
| App.Workspace.CreatePage | src/App.tsx:186-200 | appends one page built by `NewPage`; its id becomes the current id and the view becomes the page view; some page is then shown, and when no older page has the same id the shown page is the new one |
| App.NewPage | src/App.tsx:187-197 | the new page is titled `Untitled`, has the `page-` id, empty content, tags and properties, `isTemplate` false, the given parent and equal timestamps |
| App.Workspace.UpdatePage | src/App.tsx:204-207 | the page list becomes `UpdatePageIn` of the old one; registry and view untouched |
| App.UpdatePageIn | src/App.tsx:205-207 | same length; only pages with the id change, by the merged patch and the new update time; an unknown id changes nothing |
| App.ApplyPagePatch | src/App.tsx:206 | every field present in the patch overwrites, every absent one is kept, and `updatedAt` is the new time |
| App.Workspace.DeletePage | src/App.tsx:210-215 | the page is removed; if it was current the view goes home and the current id is cleared, otherwise the view is unchanged |
| App.RemovePage | src/App.tsx:211 | no page with the id remains; every other page, children naming it included, keeps its multiplicity and its order |
| App.Workspace.SelectPage | src/App.tsx:219-222 | the chosen page becomes current and the view becomes the page view; data untouched |
| App.Workspace.ShowTags | src/App.tsx:421 | the view becomes the tag manager; nothing else changes |
| App.Workspace.ShowHome | src/App.tsx:422 | the view becomes home; nothing else changes |
| App.Workspace.CurrentPage | src/App.tsx:259 | a page is shown exactly when the current id is non-empty and some page has it; the page shown is in the list and has that id |
| App.FindPage | src/App.tsx:259 | finds a page exactly when one has the id, and returns the first one |
| App.Workspace.SeedSampleData | src/App.tsx:34-35 | sample tags and pages are installed exactly when a user is present and the registry is empty; otherwise nothing changes |
| App.Workspace.constructor | src/App.tsx:17-22 | the workspace starts on the home view with no current page, no tags and no pages |
| App.SeededRegistryStopsSeeding | src/App.tsx:34-35 | after seeding, the guard no longer fires |
| App.DeletingLastTagReseeds | src/App.tsx:34-35 | deleting the id that every remaining tag carries empties the registry, so the seeding guard fires again for a signed-in user |
| SampleData.SampleDataConsistent | src/App.tsx:37-152 | the three sample pages carry the three sample tags, one each, and every sample page property is defined by a property of its tag |
| SampleData.SampleTagsHaveNoDefaults | src/App.tsx:37-82 | no sample property definition has a default value |
| PropertyDefaults.SelectedTags | src/components/PageEditor.tsx:61-62 | exactly the registry tags whose ids are selected, each as often as in the registry, as an order-preserving subsequence of the registry |
| PropertyDefaults.AllTagProperties | src/components/PageEditor.tsx:61-63 | a definition is listed exactly when some selected registry tag declares it |
| PropertyDefaults.Flatten | src/components/PageEditor.tsx:63 | a definition is in the flattening exactly when some tag declares it |
| PropertyDefaults.FlattenConcat | src/components/PageEditor.tsx:63 | flattening keeps registry-then-declaration order: it distributes over concatenation |
| PropertyDefaults.SelectionOrderIrrelevant | src/components/PageEditor.tsx:62 | the order of the selected ids does not matter; only registry order does |
| PropertyDefaults.FirstDefault | src/components/PageEditor.tsx:66-69 | finds a default for a name exactly when some definition of that name has one, and that default belongs to the earliest such definition |
| PropertyDefaults.FirstDefaultConcat | src/components/PageEditor.tsx:66-69 | the first default of a concatenation comes from the first part when it has one |
| PropertyDefaults.FillDefaultsCharacterization | src/components/PageEditor.tsx:60-70 | after filling, a key is present exactly when it was present, or some definition supplies a default and the name is not an inherited `Object.prototype` member; present keys keep their values and new keys get the first default |
| PropertyDefaults.KeepsExisting | src/components/PageEditor.tsx:60-70 | filling never removes a key nor changes its value |
| PropertyDefaults.CoversDefaults | src/components/PageEditor.tsx:66-69 | every definition with a default has its name present afterwards, unless the name is an inherited member |
| PropertyDefaults.AddsOnlyDefaults | src/components/PageEditor.tsx:67-68 | every added key is the name of a definition with a default, and holds the first such default |
| PropertyDefaults.FirstDefaultWins | src/components/PageEditor.tsx:66-69 | when several definitions share a name, the earliest with a default supplies the value; an inherited member name is never added |
| PropertyDefaults.EarlierTagWins | src/components/PageEditor.tsx:61-69 | across tags, the earliest selected registry tag that has a default for the name supplies it, unless the name is an inherited member |
| PropertyDefaults.Idempotent | src/components/PageEditor.tsx:60-70 | reconciling twice with the same tags is reconciling once |
| PropertyDefaults.SaturatedUnchanged | src/components/PageEditor.tsx:67 | when `in` already finds every defaulted name, nothing changes |
| PropertyDefaults.DetachThenReattach | src/components/PageEditor.tsx:55-74 | narrowing the selection after a reconciliation drops nothing: every default from the wider selection remains |
| PropertyDefaults.InheritedNameIsNotFilled | src/components/PageEditor.tsx:67 | a default for a property named `constructor` is not filled into an empty map |
| PropertyDefaults.Reconcile | src/components/PageEditor.tsx:60-70 | the in-place `forEach` fill equals `FillDefaults` over the selected tags' definitions: old keys kept with their values, new keys exactly the names with a first default that `in` does not find on the prototype, holding it |
| PageEditor.Editor.UpdateTags | src/components/PageEditor.tsx:55-74 | selects the tags, reconciles properties as `Reconcile` does, keeps every old key, and emits the tags patch and then the properties patch |
| PageEditor.TagPatchesApplyInOrder | src/components/PageEditor.tsx:55-74 | applying the two patches in order sets tags and properties and leaves every other page field as it was, the same as one combined patch |
| PageEditor.Editor.UpdateTitle | src/components/PageEditor.tsx:50-53 | sets the title and emits a title-only patch |
| PageEditor.Editor.UpdateProperty | src/components/PageEditor.tsx:76-80 | sets one property key, keeps all others, and emits the properties patch |
| PageEditor.Editor.UpdateContent | src/components/PageEditor.tsx:45-48 | replaces the blocks and emits a content-only patch |
| PageEditor.Editor.constructor | src/components/PageEditor.tsx:32-35 | the editor starts with the page's blocks, title, tag ids and property map |
| PageEditor.InsertPosition | src/components/PageEditor.tsx:90-94 | the new block goes right after the index; an index at or past the last block puts it at the end, as `splice` does; without an index it goes at the end |
| PageEditor.InsertBlock | src/components/PageEditor.tsx:89-95 | the list grows by one; the new block is at the insert position; the blocks before and after it are the old ones in order |
| PageEditor.NewBlock | src/components/PageEditor.tsx:83-88 | the new block has the given type and id, empty content, empty properties and no children |
| PageEditor.Editor.AddBlock | src/components/PageEditor.tsx:82-98 | inserts a new empty block of the given type after the index or at the end; every other block keeps its order; emits the content patch |
| PageEditor.DeleteUndoesInsert | src/components/PageEditor.tsx:82-109 | deleting a just-inserted block by its unused id restores the old list |
| PageEditor.ApplyBlockPatch | src/components/PageEditor.tsx:102 | present patch fields overwrite, absent ones are kept |
| PageEditor.UpdateBlocks | src/components/PageEditor.tsx:100-104 | same length and order; only blocks with the id are merged; an unknown id changes nothing |
| PageEditor.Editor.UpdateBlock | src/components/PageEditor.tsx:100-104 | the blocks become `UpdateBlocks` of the old ones; the content patch is emitted |
| PageEditor.DeleteBlocks | src/components/PageEditor.tsx:106-109 | no block with the id remains; every other block keeps its multiplicity, in order |
| PageEditor.Editor.DeleteBlock | src/components/PageEditor.tsx:106-109 | the blocks become `DeleteBlocks` of the old ones; the content patch is emitted |
| PageEditor.KeyDownAction | src/components/PageEditor.tsx:114-121 | inserting happens exactly on Enter without Shift; deleting exactly on Backspace in an empty block |
| PageEditor.Editor.HandleKeyDown | src/components/PageEditor.tsx:113-121 | Enter without Shift inserts a paragraph right after the block's index; Backspace on an empty block deletes it; any other key changes nothing and emits nothing |
| PageEditor.CheckboxPatch | src/components/PageEditor.tsx:180-182 | the to-do checkbox sets `checked` and keeps the block's other properties |
| PageEditor.Placeholder | src/components/PageEditor.tsx:204-214 | the generic placeholder is shown exactly for paragraph, list, divider and image blocks |
| PageEditor.PlaceholderDistinguishes | src/components/PageEditor.tsx:204-214 | outside the generic group, two block types with the same placeholder are the same type |
| PageEditor.MenuOffersAllButImage | src/components/PageEditor.tsx:18-29 | the block menu offers every type except image, each once |
| PageEditor.PropertyInputFor | src/components/PageEditor.tsx:325-374 | a select appears exactly for the two select types with options given, offering those options; url, email and option-less selects get no control |
| NovelEditor.BlocksToHtmlConcat | src/components/NovelEditor.tsx:26-51 | the markup of concatenated block lists is the concatenated markup |
| NovelEditor.BlockHtmlWraps | src/components/NovelEditor.tsx:28-49 | every non-divider block is its text between one opening and one closing tag fixed by its type; paragraph and image share `<p>` |
| NovelEditor.Unwrap | src/components/NovelEditor.tsx:28-49 | whatever it recovers, wrapping it again gives back the markup |
| NovelEditor.UnwrapRecoversContent | src/components/NovelEditor.tsx:28-49 | a non-divider block's text is recovered from its markup |
| NovelEditor.BlockTextAtOffset | src/components/NovelEditor.tsx:26-51 | in the page markup, each non-divider block's text sits right after the earlier blocks' markup and its opening tag |
| NovelEditor.TodoShowsCheckedState | src/components/NovelEditor.tsx:42-44 | a to-do's markup starts with `data-checked="checked"` exactly when its `checked` property is truthy |
| NovelEditor.CheckboxReachesMarkup | src/components/NovelEditor.tsx:42-44 | after the block editor's checkbox patch, a to-do block is checked exactly when the box was ticked |
| NovelEditor.MarkupDropsDividerTextAndIds | src/components/NovelEditor.tsx:46-47 | ids and children never reach the markup, and a divider is `<hr>` whatever it holds |
| NovelEditor.SyncedContent | src/components/NovelEditor.tsx:88-98 | an edit yields exactly one paragraph block, with the fresh id and empty properties, holding the whole HTML |
| NovelEditor.ResyncWrapsInParagraph | src/components/NovelEditor.tsx:25-98 | re-showing synced content wraps the HTML in one more `<p>`, so one round-trip makes it seven characters longer than the HTML it wraps, and that HTML is what unwraps |
| NovelEditor.Editor.HandleEditorUpdate | src/components/NovelEditor.tsx:88-99 | emits a content-only patch holding `SyncedContent` |
| NovelEditor.Editor.ShowContent | src/components/NovelEditor.tsx:25-54 | the editor's HTML becomes the markup of the page's blocks |
| NovelEditor.Editor.constructor | src/components/NovelEditor.tsx:18-22 | the editor starts with the page's title, tag ids and property map, and empty HTML |
| NovelEditor.Editor.UpdateTags | src/components/NovelEditor.tsx:61-80 | fills defaults exactly as the block editor does, keeps every old key, and emits the tags patch and then the properties patch |
| NovelEditor.Editor.UpdateTitle | src/components/NovelEditor.tsx:56-59 | sets the title and emits a title-only patch |
| NovelEditor.Editor.UpdateProperty | src/components/NovelEditor.tsx:82-86 | sets one key, keeps the others and emits the properties patch |
| NovelEditor.FilterItems | src/components/NovelEditor.tsx:341-351 | no query, or an empty one, returns every item in order; otherwise the result is an order-preserving subsequence holding each matching item as often as it occurs |
| NovelEditor.FilterItemsMembers | src/components/NovelEditor.tsx:342-348 | with a non-empty query an item is kept exactly when it matches: the lower-cased query is in its lower-cased title or description, or in one of its search terms |
| NovelEditor.FilterItemsIgnoresQueryCase | src/components/NovelEditor.tsx:343 | the query's letter case does not change the result |
| NovelEditor.SearchTermsAreLowerCase | src/components/NovelEditor.tsx:266-339 | every shipped search term is already lower case |
| NovelEditor.ShippedTermsMatchCaseInsensitively | src/components/NovelEditor.tsx:347 | for the shipped items, matching terms as written is the same as matching them lower-cased |
| SuperTagManager.Manager.constructor | src/components/SuperTagManager.tsx:39-47 | the dialog starts closed, nothing is being edited, and the form is empty |
| SuperTagManager.Manager.ResetForm | src/components/SuperTagManager.tsx:49-57 | the form returns to its empty defaults; the dialog and edit state are kept |
| SuperTagManager.DefaultFormUsesFirstOptions | src/components/SuperTagManager.tsx:21-47 | the empty form starts on the first colour and icon offered, with no name and no properties |
| SuperTagManager.Manager.HandleSubmit | src/components/SuperTagManager.tsx:59-71 | a name that trims to nothing changes nothing; in edit mode the edited tag is patched with the form and edit mode ends; otherwise a tag is created from the form and the dialog closes; then the form is reset; pages and view untouched |
| SuperTagManager.FormAsPatch | src/components/SuperTagManager.tsx:64 | an edit submit overwrites name, colour, icon, description and properties, and leaves id and creation time alone |
| SuperTagManager.FormAsInput | src/components/SuperTagManager.tsx:67 | a create submit passes every form field, including icon and description |
| SuperTagManager.Manager.HandleEdit | src/components/SuperTagManager.tsx:73-82 | loads the tag into the form and starts editing it |
| SuperTagManager.FormOf | src/components/SuperTagManager.tsx:74-80 | copies the tag's fields; a missing or empty icon becomes `tag` and a missing description becomes empty |
| SuperTagManager.UntouchedEditKeepsTag | src/components/SuperTagManager.tsx:63-80 | opening and submitting an untouched form leaves the tag as it was exactly when it has a non-empty icon and a description |
| SuperTagManager.NewProperty | src/components/SuperTagManager.tsx:85-90 | the added definition is unnamed, of type text and not required |
| SuperTagManager.AppendProperty | src/components/SuperTagManager.tsx:91-94 | exactly one definition is appended; the earlier ones are unchanged |
| SuperTagManager.Manager.AddProperty | src/components/SuperTagManager.tsx:84-95 | the form's definitions become `AppendProperty` of the old ones; the other form fields are kept |
| SuperTagManager.ApplyPropertyPatch | src/components/SuperTagManager.tsx:101 | present patch fields overwrite, absent ones are kept |
| SuperTagManager.UpdatePropertyAt | src/components/SuperTagManager.tsx:97-104 | same length; only the entry at the index changes; an out-of-range index changes nothing |
| SuperTagManager.EmptyPropertyPatchIsNoOp | src/components/SuperTagManager.tsx:97-104 | an empty patch changes no entry |
| SuperTagManager.Manager.UpdateProperty | src/components/SuperTagManager.tsx:97-104 | the form's definitions become `UpdatePropertyAt` of the old ones |
| SuperTagManager.RemovePropertyAt | src/components/SuperTagManager.tsx:106-111 | an in-range index removes exactly that entry and closes the gap; an out-of-range index changes nothing |
| SuperTagManager.RemoveUndoesAppend | src/components/SuperTagManager.tsx:84-111 | removing the definition just appended restores the list |
| SuperTagManager.Manager.RemoveProperty | src/components/SuperTagManager.tsx:106-111 | the form's definitions become `RemovePropertyAt` of the old ones |
| SuperTagManager.Manager.Cancel | src/components/SuperTagManager.tsx:237-244 | ends edit mode if editing, otherwise closes the create dialog; the form is reset |
| SuperTagManager.Manager.SetCreateOpen | src/components/SuperTagManager.tsx:262 | sets the create dialog's open state and nothing else |
| SuperTagManager.Manager.SetFields | src/components/SuperTagManager.tsx:117-178 | each given field overwrites its form field; the rest of the form is kept |
| Sidebar.Panel.constructor | src/components/Sidebar.tsx:41-42 | the search box starts empty and no page is expanded |
| Sidebar.Panel.ToggleExpanded | src/components/Sidebar.tsx:44-52 | the expanded set becomes `Toggled` of the old one; the search is kept |
| Sidebar.Toggled | src/components/Sidebar.tsx:45-50 | flips the membership of the id and of no other id |
| Sidebar.ToggleTwice | src/components/Sidebar.tsx:44-52 | toggling twice restores the set |
| Sidebar.Panel.SetSearchQuery | src/components/Sidebar.tsx:203-206 | sets the query; the expanded set is kept |
| Sidebar.ChildPages | src/components/Sidebar.tsx:54-56 | every listed page names the parent; each such page is listed as often as it occurs, in list order |
| Sidebar.ChildPagesMembers | src/components/Sidebar.tsx:54-56 | a page is a child exactly when it is in the list and names the parent |
| Sidebar.RootPages | src/components/Sidebar.tsx:58-60 | every listed page has no or an empty parent id; each such page is listed as often as it occurs, in list order |
| Sidebar.RootPagesMembers | src/components/Sidebar.tsx:58-60 | a page is a root exactly when it is in the list and has no or an empty parent id |
| Sidebar.OrphanIsHidden | src/components/Sidebar.tsx:54-60 | a page whose parent is gone is neither a root nor a child of any listed page |
| Sidebar.FilteredPages | src/components/Sidebar.tsx:62-64 | every result's lower-cased title contains the lower-cased query; each matching page is kept as often as it occurs, in list order; an empty query keeps every page |
| Sidebar.FilteredPagesMembers | src/components/Sidebar.tsx:62-64 | a page is found exactly when it is in the list and its title matches |
| Sidebar.SearchIgnoresQueryCase | src/components/Sidebar.tsx:63 | the query's letter case does not change the results |
| Sidebar.TopLevelPages | src/components/Sidebar.tsx:227-237 | with a query the top level is exactly `FilteredPages`, every matching page; without one it is exactly `RootPages`, every root page; in list order |
| Sidebar.SearchFlattensTree | src/components/Sidebar.tsx:227-230 | while searching, every matching page is listed at the top level, children included |
| Sidebar.Panel.Listed | src/components/Sidebar.tsx:227-237 | the listed pages are exactly `TopLevelPages` for the current query, in list order |
| Sidebar.ResolveTags | src/components/Sidebar.tsx:112-114 | one dot per id that resolves, in id order, holding the tag that id resolves to; ids with no tag are skipped |
| Sidebar.DanglingIdSkipped | src/components/Sidebar.tsx:112-114 | with a dangling first id and a resolving second id, the one dot is the second id's tag |
| Sidebar.ResolveTagsAllFound | src/components/Sidebar.tsx:112-122 | when every id names a tag, there is one dot per id, in order |
| Sidebar.Indicator | src/components/Sidebar.tsx:110-127 | no indicator for a page without tags; the dots are `ResolveTags` of the first two ids, so at most two; a `+n` count exactly when there are more than two tags, with `n` the count beyond two |
| Sidebar.CountIgnoresRegistry | src/components/Sidebar.tsx:112-125 | ids with no registry tag still count toward `+n` |
| Types.FindTag | src/components/Sidebar.tsx:113 | finds a tag exactly when one has the id, and returns the first one |
| Types.PropertyTypeNamesRoundTrip | src/types/index.ts:16 | the eight property type names parse back to their types, and nothing else parses to them |
| Types.BlockTypeNamesRoundTrip | src/types/index.ts:43 | the eleven block type names, image included, parse back to their types, and nothing else parses to them |
| Strings.ContainsIff | src/components/Sidebar.tsx:63 | `includes` holds exactly when the substring occurs at some index |
| Strings.BlankIffTrimEmpty | src/components/SuperTagManager.tsx:61 | a string trims to nothing exactly when it is all whitespace |

## Left out

- Authentication is left out. The signed-in user is a boolean parameter of `App.Workspace.SeedSampleData`, and the loading screen and sign-in screen are not modelled.
- The rich-text widget itself and its command chains are left out: they are a third-party editor. Only the slash-menu list and its filter are modelled, without icons and commands.
- All rendering is left out: JSX, CSS classes, `getBlockClassName`, icons, popovers, dialogs as visuals, and toast notifications.
- The recursive page tree (`renderPageTree`) is left out. It is display only, and it terminates only on an acyclic parent graph, which nothing enforces. The queries it uses are modelled.
- `Date.now()` and `new Date()` are left out. Stamps and times are parameters, and time is a `nat`.
- Parsing number inputs (`Number(...)`) is left out: it is a float parse, and the value it would store is just a `Value` passed to `UpdateProperty`.
- The `Database`, `DatabaseProperty`, `DatabaseItem` and `PageTemplate` types are left out, along with the optional `SuperTag.template` field. Nothing in the application reads them.
- Strings.Lower: `toLowerCase` is modelled on ASCII letters only. Unicode case mapping is not modelled.
- Types.Value: `Opaque` stands for arrays, objects, dates and NaN, and all of them count as truthy. NaN is in fact falsy, but no handler stores it.
- Patch datatypes (`TagPatch`, `PagePatch`, `BlockPatch`, `PropertyPatch`): a patch field is either absent or a value. A patch cannot set an optional field back to `undefined`. No handler does that.
- The editors' `isTagsOpen` popover flag and the block editor's title autofocus are left out: they are UI state with no effect on data.
- Tag deletion from the manager's card list calls `App.Workspace.DeleteTag` directly, so it has no member of its own.
- Store updates are modelled as they would run in JavaScript, in order and without concurrency. Batching of React state updates is not modelled.
- PropertyDefaults.InheritedNames: lists the twelve standard `Object.prototype` member names. Non-standard members that a particular JavaScript engine adds are not modelled.
- NovelEditor.Editor: the model builds one editor per page shown. In the source, `NovelEditor` is rendered without a `key` (src/App.tsx:273-276), so switching pages keeps the previous page's local title, tag ids and properties; only the HTML re-syncs. That carried-over state is not modelled.
