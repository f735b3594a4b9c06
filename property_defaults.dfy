/**
 * Tag-driven property reconciliation, the `updateTags` step shared by both page
 * editors: gather the property definitions of the selected super tags in registry
 * order, then give every definition whose name is not yet a key of the page's
 * property map, and whose default is defined, that default. Keys are never removed
 * or overwritten, and the first defined default for a name wins.
 */
module PropertyDefaults {
  import opened Wrappers
  import opened Types
  import opened Seqs

  /** The property definitions of `tags`, tag by tag, each in declaration order. */
  function Flatten(tags: seq<SuperTag>): (r: seq<TagProperty>)
    ensures forall d :: d in r <==> exists t :: t in tags && d in t.properties
  {
    if tags == [] then [] else tags[0].properties + Flatten(tags[1..])
  }

  lemma {:induction false} FlattenConcat(a: seq<SuperTag>, b: seq<SuperTag>)
    ensures Flatten(a + b) == Flatten(a) + Flatten(b)
  {
    if a == [] {
      assert a + b == b;
    } else {
      assert (a + b)[1..] == a[1..] + b;
      FlattenConcat(a[1..], b);
    }
  }

  /** The registry tags whose ids are selected, in registry order. */
  function SelectedTags(superTags: seq<SuperTag>, selected: seq<string>): (r: seq<SuperTag>)
    ensures forall t :: t in r <==> t in superTags && t.id in selected
    ensures forall t :: multiset(r)[t] == if t.id in selected then multiset(superTags)[t] else 0
    ensures SubseqOf(r, superTags)
  {
    FilterMembers(superTags, (t: SuperTag) => t.id in selected);
    FilterMultiset(superTags, (t: SuperTag) => t.id in selected);
    Filter(superTags, (t: SuperTag) => t.id in selected)
  }

  /**
   * `superTags.filter(tag => selected.includes(tag.id)).flatMap(tag => tag.properties)`:
   * a definition is listed exactly when it belongs to a registry tag whose id is selected.
   */
  function AllTagProperties(superTags: seq<SuperTag>, selected: seq<string>): (r: seq<TagProperty>)
    ensures forall d :: d in r <==> exists t :: t in superTags && t.id in selected && d in t.properties
  {
    Flatten(SelectedTags(superTags, selected))
  }

  /** Only the set of selected ids matters, not their order, repetition or dangling ids. */
  lemma SelectionOrderIrrelevant(superTags: seq<SuperTag>, s1: seq<string>, s2: seq<string>)
    requires forall i :: 0 <= i < |superTags| ==> (superTags[i].id in s1 <==> superTags[i].id in s2)
    ensures AllTagProperties(superTags, s1) == AllTagProperties(superTags, s2)
  {
    FilterExt(superTags, (t: SuperTag) => t.id in s1, (t: SuperTag) => t.id in s2);
  }

  /** `d` supplies a default for property name `k`. */
  predicate HasDefault(d: TagProperty, k: string) {
    d.name == k && d.defaultValue.Some?
  }

  /** The default of the first definition in `defs` that names `k` and has a default. */
  function FirstDefault(defs: seq<TagProperty>, k: string): (r: Option<Value>)
    ensures r.Some? <==> exists i :: 0 <= i < |defs| && HasDefault(defs[i], k)
    ensures r.Some? ==> exists i :: 0 <= i < |defs| && HasDefault(defs[i], k) && defs[i].defaultValue == r
                                   && forall j :: 0 <= j < i ==> !HasDefault(defs[j], k)
  {
    if defs == [] then None
    else if HasDefault(defs[0], k) then defs[0].defaultValue
    else
      var r := FirstDefault(defs[1..], k);
      assert forall i :: 1 <= i < |defs| ==> defs[i] == defs[1..][i - 1];
      assert r.Some? ==> exists i :: 0 <= i < |defs| && HasDefault(defs[i], k) && defs[i].defaultValue == r
                                     && forall j :: 0 <= j < i ==> !HasDefault(defs[j], k) by {
        if r.Some? {
          var i :| 0 <= i < |defs[1..]| && HasDefault(defs[1..][i], k) && defs[1..][i].defaultValue == r
                   && forall j :: 0 <= j < i ==> !HasDefault(defs[1..][j], k);
          assert HasDefault(defs[i + 1], k) && defs[i + 1].defaultValue == r;
        }
      }
      r
  }

  lemma {:induction false} FirstDefaultConcat(a: seq<TagProperty>, b: seq<TagProperty>, k: string)
    ensures FirstDefault(a + b, k) == if FirstDefault(a, k).Some? then FirstDefault(a, k) else FirstDefault(b, k)
  {
    if a == [] {
      assert a + b == b;
    } else {
      assert (a + b)[1..] == a[1..] + b;
      FirstDefaultConcat(a[1..], b, k);
    }
  }

  /**
   * The member names a plain JavaScript object inherits from `Object.prototype`.
   * The `in` operator finds them on every property map, even an empty one.
   */
  const InheritedNames: set<string> :=
    {"constructor", "hasOwnProperty", "isPrototypeOf", "propertyIsEnumerable", "toLocaleString",
     "toString", "valueOf", "__proto__", "__defineGetter__", "__defineSetter__",
     "__lookupGetter__", "__lookupSetter__"}

  /** JavaScript's `k in props`: an own key of the map or an inherited member name. */
  predicate Present(props: Props, k: string) {
    k in props || k in InheritedNames
  }

  /**
   * One step of the `forEach`: insert `d`'s default when `in` does not find the
   * name on the map being filled and the default is defined.
   */
  function FillOne(props: Props, d: TagProperty): Props {
    if !Present(props, d.name) && d.defaultValue.Some? then props[d.name := d.defaultValue.value] else props
  }

  /** The `forEach` over `defs`, left to right, against the map as it is being filled. */
  function FillDefaults(props: Props, defs: seq<TagProperty>): Props
    decreases |defs|
  {
    if defs == [] then props else FillDefaults(FillOne(props, defs[0]), defs[1..])
  }

  /**
   * The result holds exactly the old keys and the names with a defined default
   * that are not inherited member names; old keys keep their values, and a new
   * key gets its FIRST defined default.
   */
  lemma {:induction false} FillDefaultsCharacterization(props: Props, defs: seq<TagProperty>)
    ensures forall k :: k in FillDefaults(props, defs) <==>
      k in props || (k !in InheritedNames && FirstDefault(defs, k).Some?)
    ensures forall k :: k in FillDefaults(props, defs) ==>
      FillDefaults(props, defs)[k] == if k in props then props[k] else FirstDefault(defs, k).value
    decreases |defs|
  {
    if defs != [] {
      var d := defs[0];
      var p := FillOne(props, d);
      FillDefaultsCharacterization(p, defs[1..]);
      assert forall k :: FirstDefault(defs, k) == if HasDefault(d, k) then d.defaultValue else FirstDefault(defs[1..], k);
    }
  }

  /**
   * `in` finds `constructor` on an empty object, so a tag default for a property
   * named `constructor` is never filled in.
   */
  lemma InheritedNameIsNotFilled(v: Value)
    ensures FillDefaults(map[], [TagProperty("p", "constructor", Text, None, None, Some(v))]) == map[]
  {
  }

  /** Reconciliation never removes a key and never changes an existing value. */
  lemma KeepsExisting(props: Props, defs: seq<TagProperty>)
    ensures forall k :: k in props ==> k in FillDefaults(props, defs) && FillDefaults(props, defs)[k] == props[k]
  {
    FillDefaultsCharacterization(props, defs);
  }

  /**
   * Every definition with a defined default has its name present afterwards,
   * unless the name is an inherited member name.
   */
  lemma CoversDefaults(props: Props, defs: seq<TagProperty>)
    ensures forall i :: 0 <= i < |defs| && defs[i].defaultValue.Some? && defs[i].name !in InheritedNames ==>
      defs[i].name in FillDefaults(props, defs)
  {
    FillDefaultsCharacterization(props, defs);
    forall i | 0 <= i < |defs| && defs[i].defaultValue.Some? && defs[i].name !in InheritedNames
      ensures FirstDefault(defs, defs[i].name).Some?
    {
      assert HasDefault(defs[i], defs[i].name);
    }
  }

  /** Every added key names a definition with a defined default, and holds that default. */
  lemma AddsOnlyDefaults(props: Props, defs: seq<TagProperty>)
    ensures forall k :: k in FillDefaults(props, defs) && k !in props ==>
      exists i :: 0 <= i < |defs| && defs[i].name == k && defs[i].defaultValue == Some(FillDefaults(props, defs)[k])
  {
    FillDefaultsCharacterization(props, defs);
  }

  /**
   * When several definitions share a name, the first one with a defined default
   * supplies the value; an inherited member name is never added.
   */
  lemma FirstDefaultWins(props: Props, defs: seq<TagProperty>, i: nat)
    requires i < |defs| && defs[i].defaultValue.Some? && defs[i].name !in props
    requires forall j :: 0 <= j < i ==> !HasDefault(defs[j], defs[i].name)
    ensures defs[i].name in FillDefaults(props, defs) <==> defs[i].name !in InheritedNames
    ensures defs[i].name !in InheritedNames ==> FillDefaults(props, defs)[defs[i].name] == defs[i].defaultValue.value
  {
    FillDefaultsCharacterization(props, defs);
    var k := defs[i].name;
    assert HasDefault(defs[i], k);
    var i' :| 0 <= i' < |defs| && HasDefault(defs[i'], k) && defs[i'].defaultValue == FirstDefault(defs, k)
              && forall j :: 0 <= j < i' ==> !HasDefault(defs[j], k);
    assert i' == i;
  }

  /** Reconciling twice with the same definitions is reconciling once. */
  lemma Idempotent(props: Props, defs: seq<TagProperty>)
    ensures FillDefaults(FillDefaults(props, defs), defs) == FillDefaults(props, defs)
  {
    var once := FillDefaults(props, defs);
    FillDefaultsCharacterization(props, defs);
    FillDefaultsCharacterization(once, defs);
  }

  /** A map that already has a key for every defined default is left as it is. */
  lemma {:induction false} SaturatedUnchanged(props: Props, defs: seq<TagProperty>)
    requires forall i :: 0 <= i < |defs| && defs[i].defaultValue.Some? ==> Present(props, defs[i].name)
    ensures FillDefaults(props, defs) == props
    decreases |defs|
  {
    if defs != [] {
      assert FillOne(props, defs[0]) == props;
      SaturatedUnchanged(props, defs[1..]);
    }
  }

  /**
   * Across the registry: the earliest selected tag (in registry order) that gives
   * name `k` a default supplies the value, whatever tags come after it.
   */
  lemma EarlierTagWins(props: Props, superTags: seq<SuperTag>, selected: seq<string>, a: nat, k: string)
    requires a < |superTags| && superTags[a].id in selected && k !in props
    requires FirstDefault(superTags[a].properties, k).Some?
    requires forall c :: 0 <= c < a && superTags[c].id in selected ==> FirstDefault(superTags[c].properties, k).None?
    ensures k in FillDefaults(props, AllTagProperties(superTags, selected)) <==> k !in InheritedNames
    ensures k !in InheritedNames ==>
      FillDefaults(props, AllTagProperties(superTags, selected))[k] == FirstDefault(superTags[a].properties, k).value
  {
    var fb, rest := SplitSelected(superTags, selected, a);
    var ts := fb + [superTags[a]] + rest;
    forall c | 0 <= c < |fb| ensures FirstDefault(ts[c].properties, k).None? {
      assert ts[c] == fb[c];
      var c' :| 0 <= c' < a && superTags[c'] == fb[c];
    }
    FirstDefaultOfFlatten(ts, |fb|, k);
    FillDefaultsCharacterization(props, Flatten(ts));
  }

  /** The selected tags split around a selected registry index `a`. */
  lemma SplitSelected(superTags: seq<SuperTag>, selected: seq<string>, a: nat)
    returns (fb: seq<SuperTag>, rest: seq<SuperTag>)
    requires a < |superTags| && superTags[a].id in selected
    ensures SelectedTags(superTags, selected) == fb + [superTags[a]] + rest
    ensures forall c :: 0 <= c < |fb| ==> exists c' :: 0 <= c' < a && superTags[c'] == fb[c] && fb[c].id in selected
  {
    var f := (t: SuperTag) => t.id in selected;
    FilterSplit(superTags, f, a);
    fb, rest := Filter(superTags[..a], f), Filter(superTags[a + 1..], f);
    FilterMembers(superTags[..a], f);
    forall c | 0 <= c < |fb| ensures exists c' :: 0 <= c' < a && superTags[c'] == fb[c] && fb[c].id in selected {
      assert fb[c] in fb;
      assert fb[c] in superTags[..a];
    }
  }

  /** In a flattened tag list, the first tag that defaults `k` decides it. */
  lemma {:induction false} FirstDefaultOfFlatten(ts: seq<SuperTag>, a: nat, k: string)
    requires a < |ts| && FirstDefault(ts[a].properties, k).Some?
    requires forall c :: 0 <= c < a ==> FirstDefault(ts[c].properties, k).None?
    ensures FirstDefault(Flatten(ts), k) == FirstDefault(ts[a].properties, k)
  {
    FirstDefaultConcat(ts[0].properties, Flatten(ts[1..]), k);
    if a > 0 {
      FirstDefaultOfFlatten(ts[1..], a - 1, k);
    }
  }

  /**
   * Detaching tags and then reattaching them leaves a reconciled property map
   * exactly as it was: detaching never deletes values, and reattaching finds
   * every default already present.
   */
  lemma DetachThenReattach(props: Props, superTags: seq<SuperTag>, selected: seq<string>, fewer: seq<string>)
    requires forall id :: id in fewer ==> id in selected
    ensures var p := FillDefaults(props, AllTagProperties(superTags, selected));
            FillDefaults(FillDefaults(p, AllTagProperties(superTags, fewer)), AllTagProperties(superTags, selected)) == p
  {
    var all := AllTagProperties(superTags, selected);
    var some := AllTagProperties(superTags, fewer);
    var p := FillDefaults(props, all);
    CoversDefaults(props, all);
    forall i | 0 <= i < |some| && some[i].defaultValue.Some? ensures Present(p, some[i].name) {
      assert some[i] in some;
      var t :| t in superTags && t.id in fewer && some[i] in t.properties;
      assert some[i] in all;
    }
    SaturatedUnchanged(p, some);
    SaturatedUnchanged(p, all);
  }

  /**
   * The `updateTags` loop: copy the page's properties, then walk the selected
   * tags' definitions and fill in absent defaults.
   */
  method Reconcile(properties: Props, superTags: seq<SuperTag>, newTags: seq<string>) returns (result: Props)
    ensures result == FillDefaults(properties, AllTagProperties(superTags, newTags))
    ensures forall k :: k in properties ==> k in result && result[k] == properties[k]
    ensures forall k :: k in result <==>
      k in properties || (k !in InheritedNames && FirstDefault(AllTagProperties(superTags, newTags), k).Some?)
    ensures forall k :: k in result && k !in properties ==> Some(result[k]) == FirstDefault(AllTagProperties(superTags, newTags), k)
  {
    var all := AllTagProperties(superTags, newTags);
    result := properties;
    var i := 0;
    while i < |all|
      invariant 0 <= i <= |all|
      invariant FillDefaults(result, all[i..]) == FillDefaults(properties, all)
    {
      var prop := all[i];
      assert all[i..][1..] == all[i + 1..];
      if !(prop.name in result || prop.name in InheritedNames) && prop.defaultValue.Some? {
        result := result[prop.name := prop.defaultValue.value];
      }
      i := i + 1;
    }
    FillDefaultsCharacterization(properties, all);
  }
}
