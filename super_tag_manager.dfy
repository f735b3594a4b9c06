/**
 * The super-tag manager: a form for creating and editing tags, the editing of
 * the form's list of property definitions, and the submit rule that hands the
 * form to the store.
 */
module SuperTagManager {
  import opened Wrappers
  import opened Types
  import opened Strings
  import App

  /** The form's fields. */
  datatype TagForm = TagForm(name: string, color: string, icon: string, description: string, properties: seq<TagProperty>)

  /** The empty form: no name, blue, the tag icon, no description, no properties. */
  const DefaultForm := TagForm("", "#3B82F6", "tag", "", [])

  /** The colours and icons the form offers. */
  const ColorOptions: seq<string> := ["#3B82F6", "#10B981", "#F59E0B", "#EF4444", "#8B5CF6", "#F97316", "#06B6D4", "#84CC16"]
  const IconOptions: seq<string> := ["tag", "hash", "settings"]

  /** The empty form starts on the first colour and the first icon offered. */
  lemma DefaultFormUsesFirstOptions()
    ensures DefaultForm.color == ColorOptions[0] && DefaultForm.icon == IconOptions[0]
    ensures DefaultForm.name == "" && DefaultForm.properties == []
  {
  }

  /** `handleEdit`'s form: a missing or empty icon shows as the tag icon, a missing description as empty. */
  function FormOf(tag: SuperTag): (f: TagForm)
    ensures f.name == tag.name && f.color == tag.color && f.properties == tag.properties
    ensures f.icon == (if tag.icon.Some? && tag.icon.value != "" then tag.icon.value else "tag")
    ensures f.description == tag.description.GetOr("")
  {
    TagForm(tag.name, tag.color,
            if tag.icon.Some? && tag.icon.value != "" then tag.icon.value else "tag",
            tag.description.GetOr(""), tag.properties)
  }

  /** What a create submit passes to the store: every form field, icon and description included. */
  function FormAsInput(f: TagForm): (t: TagInput)
    ensures t.name == f.name && t.color == f.color && t.icon == Some(f.icon)
    ensures t.description == Some(f.description) && t.properties == f.properties
  {
    TagInput(f.name, f.color, Some(f.icon), Some(f.description), f.properties)
  }

  /** What an edit submit passes to the store: the form's fields, leaving id and creation time alone. */
  function FormAsPatch(f: TagForm): (u: TagPatch)
    ensures u.id.None? && u.createdAt.None?
    ensures u.name == Some(f.name) && u.color == Some(f.color) && u.icon == Some(f.icon)
    ensures u.description == Some(f.description) && u.properties == Some(f.properties)
  {
    TagPatch(None, Some(f.name), Some(f.color), Some(f.icon), Some(f.description), Some(f.properties), None)
  }

  /**
   * Opening a tag for editing and submitting the form untouched leaves the tag
   * as it was (apart from its update time) exactly when it has a non-empty
   * icon and a description; otherwise the form's defaults are written into it.
   */
  lemma UntouchedEditKeepsTag(tag: SuperTag, now: nat)
    ensures App.ApplyTagPatch(tag, FormAsPatch(FormOf(tag)), now) == tag.(updatedAt := now) <==>
      (tag.icon.Some? && tag.icon.value != "" && tag.description.Some?)
  {
    var r := App.ApplyTagPatch(tag, FormAsPatch(FormOf(tag)), now);
    if r == tag.(updatedAt := now) {
      assert r.icon == tag.icon && r.description == tag.description;
    }
  }

  /** `addProperty`'s new definition: unnamed, of type text, not required. */
  function NewProperty(id: string): (p: TagProperty)
    ensures p.id == id && p.name == "" && p.kind == Text && p.required == Some(false)
    ensures p.options.None? && p.defaultValue.None?
  {
    TagProperty(id, "", Text, None, Some(false), None)
  }

  /** `addProperty`: append a new definition; the others are kept. */
  function AppendProperty(props: seq<TagProperty>, id: string): (r: seq<TagProperty>)
    ensures |r| == |props| + 1 && r[..|props|] == props && r[|props|] == NewProperty(id)
  {
    props + [NewProperty(id)]
  }

  /** `{...prop, ...updates}`. */
  function ApplyPropertyPatch(p: TagProperty, u: PropertyPatch): (r: TagProperty)
    ensures r.id == u.id.GetOr(p.id) && r.name == u.name.GetOr(p.name) && r.kind == u.kind.GetOr(p.kind)
    ensures r.options == (if u.options.Some? then u.options else p.options)
    ensures r.required == (if u.required.Some? then u.required else p.required)
    ensures r.defaultValue == (if u.defaultValue.Some? then u.defaultValue else p.defaultValue)
  {
    TagProperty(u.id.GetOr(p.id), u.name.GetOr(p.name), u.kind.GetOr(p.kind),
                if u.options.Some? then u.options else p.options,
                if u.required.Some? then u.required else p.required,
                if u.defaultValue.Some? then u.defaultValue else p.defaultValue)
  }

  /** `updateProperty`: merge into the definition at `index`; any other index changes nothing. */
  function UpdatePropertyAt(props: seq<TagProperty>, index: int, u: PropertyPatch): (r: seq<TagProperty>)
    ensures |r| == |props|
    ensures forall i :: 0 <= i < |props| && i != index ==> r[i] == props[i]
    ensures 0 <= index < |props| ==> r[index] == ApplyPropertyPatch(props[index], u)
  {
    seq(|props|, i requires 0 <= i < |props| => if i == index then ApplyPropertyPatch(props[i], u) else props[i])
  }

  /** An empty patch changes no definition. */
  lemma EmptyPropertyPatchIsNoOp(props: seq<TagProperty>, index: int)
    ensures UpdatePropertyAt(props, index, PropertyPatch(None, None, None, None, None, None)) == props
  {
    var r := UpdatePropertyAt(props, index, PropertyPatch(None, None, None, None, None, None));
    assert forall i :: 0 <= i < |props| ==> r[i] == props[i];
  }

  /** `removeProperty`: drop the definition at `index` and close the gap; an index out of range drops nothing. */
  function RemovePropertyAt(props: seq<TagProperty>, index: int): (r: seq<TagProperty>)
    ensures |r| == if 0 <= index < |props| then |props| - 1 else |props|
    ensures forall j :: 0 <= j < |r| && j < index ==> r[j] == props[j]
    ensures forall j :: 0 <= j < |r| && j >= index && index >= 0 ==> r[j] == props[j + 1]
    ensures !(0 <= index < |props|) ==> r == props
  {
    if 0 <= index < |props| then props[..index] + props[index + 1..] else props
  }

  /** Removing the definition just added restores the list. */
  lemma RemoveUndoesAppend(props: seq<TagProperty>, id: string)
    ensures RemovePropertyAt(AppendProperty(props, id), |props|) == props
  {
    var r := RemovePropertyAt(AppendProperty(props, id), |props|);
    assert forall j :: 0 <= j < |r| ==> r[j] == props[j];
  }

  /** The manager's dialog and form state. */
  class Manager {
    var isCreateOpen: bool
    var editingTag: Option<SuperTag>
    var formData: TagForm

    constructor ()
      ensures !isCreateOpen && editingTag.None? && formData == DefaultForm
    {
      isCreateOpen, editingTag, formData := false, None, DefaultForm;
    }

    /** `resetForm`. */
    method ResetForm()
      modifies this
      ensures formData == DefaultForm
      ensures isCreateOpen == old(isCreateOpen) && editingTag == old(editingTag)
    {
      formData := DefaultForm;
    }

    /**
     * `handleSubmit`: a blank name (nothing but whitespace) is refused and
     * nothing changes. Otherwise the tag being edited is patched with the form
     * and editing ends, or a new tag is created from the form and the create
     * dialog closes; either way the form is reset.
     */
    method HandleSubmit(ws: App.Workspace, stamp: string, now: nat)
      modifies this, ws
      ensures Trim(old(formData.name)) == "" ==>
        formData == old(formData) && isCreateOpen == old(isCreateOpen) && editingTag == old(editingTag)
        && ws.superTags == old(ws.superTags)
      ensures Trim(old(formData.name)) != "" && old(editingTag).Some? ==>
        ws.superTags == App.UpdateTagIn(old(ws.superTags), old(editingTag).value.id, FormAsPatch(old(formData)), now)
        && editingTag.None? && isCreateOpen == old(isCreateOpen)
      ensures Trim(old(formData.name)) != "" && old(editingTag).None? ==>
        ws.superTags == old(ws.superTags) + [App.NewTag(FormAsInput(old(formData)), stamp, now)]
        && !isCreateOpen && editingTag.None?
      ensures Trim(old(formData.name)) != "" ==> formData == DefaultForm
      ensures ws.pages == old(ws.pages) && ws.currentView == old(ws.currentView) && ws.currentPageId == old(ws.currentPageId)
    {
      if Trim(formData.name) == "" {
        return;
      }
      if editingTag.Some? {
        SubmitEdit(ws, now);
      } else {
        SubmitCreate(ws, stamp, now);
      }
    }

    /** The edit branch of a submit with a non-blank name. */
    method SubmitEdit(ws: App.Workspace, now: nat)
      requires editingTag.Some?
      modifies this, ws
      ensures ws.superTags == App.UpdateTagIn(old(ws.superTags), old(editingTag).value.id, FormAsPatch(old(formData)), now)
      ensures editingTag.None? && isCreateOpen == old(isCreateOpen) && formData == DefaultForm
      ensures ws.pages == old(ws.pages) && ws.currentView == old(ws.currentView) && ws.currentPageId == old(ws.currentPageId)
    {
      ws.UpdateTag(editingTag.value.id, FormAsPatch(formData), now);
      editingTag := None;
      ResetForm();
    }

    /** The create branch of a submit with a non-blank name. */
    method SubmitCreate(ws: App.Workspace, stamp: string, now: nat)
      modifies this, ws
      ensures ws.superTags == old(ws.superTags) + [App.NewTag(FormAsInput(old(formData)), stamp, now)]
      ensures !isCreateOpen && editingTag == old(editingTag) && formData == DefaultForm
      ensures ws.pages == old(ws.pages) && ws.currentView == old(ws.currentView) && ws.currentPageId == old(ws.currentPageId)
    {
      ws.CreateTag(FormAsInput(formData), stamp, now);
      isCreateOpen := false;
      ResetForm();
    }

    /** `handleEdit`: load the tag into the form and start editing it. */
    method HandleEdit(tag: SuperTag)
      modifies this
      ensures formData == FormOf(tag) && editingTag == Some(tag) && isCreateOpen == old(isCreateOpen)
    {
      formData := FormOf(tag);
      editingTag := Some(tag);
    }

    /** The Cancel button: leave editing if editing, else close the create dialog; then reset the form. */
    method Cancel()
      modifies this
      ensures old(editingTag).Some? ==> editingTag.None? && isCreateOpen == old(isCreateOpen)
      ensures old(editingTag).None? ==> !isCreateOpen && editingTag.None?
      ensures formData == DefaultForm
    {
      if editingTag.Some? {
        editingTag := None;
      } else {
        isCreateOpen := false;
      }
      ResetForm();
    }

    /** The create dialog's open state, set by its trigger and its close control. */
    method SetCreateOpen(open: bool)
      modifies this
      ensures isCreateOpen == open && editingTag == old(editingTag) && formData == old(formData)
    {
      isCreateOpen := open;
    }

    /** The four text and choice fields of the form. */
    method SetFields(name: Option<string>, color: Option<string>, icon: Option<string>, description: Option<string>)
      modifies this
      ensures formData == old(formData).(name := name.GetOr(old(formData).name), color := color.GetOr(old(formData).color),
                                         icon := icon.GetOr(old(formData).icon), description := description.GetOr(old(formData).description))
      ensures isCreateOpen == old(isCreateOpen) && editingTag == old(editingTag)
    {
      formData := formData.(name := name.GetOr(formData.name), color := color.GetOr(formData.color),
                            icon := icon.GetOr(formData.icon), description := description.GetOr(formData.description));
    }

    /** `addProperty`. */
    method AddProperty(freshId: string)
      modifies this
      ensures formData == old(formData).(properties := AppendProperty(old(formData).properties, freshId))
      ensures isCreateOpen == old(isCreateOpen) && editingTag == old(editingTag)
    {
      formData := formData.(properties := AppendProperty(formData.properties, freshId));
    }

    /** `updateProperty`. */
    method UpdateProperty(index: int, u: PropertyPatch)
      modifies this
      ensures formData == old(formData).(properties := UpdatePropertyAt(old(formData).properties, index, u))
      ensures isCreateOpen == old(isCreateOpen) && editingTag == old(editingTag)
    {
      formData := formData.(properties := UpdatePropertyAt(formData.properties, index, u));
    }

    /** `removeProperty`. */
    method RemoveProperty(index: int)
      modifies this
      ensures formData == old(formData).(properties := RemovePropertyAt(old(formData).properties, index))
      ensures isCreateOpen == old(isCreateOpen) && editingTag == old(editingTag)
    {
      formData := formData.(properties := RemovePropertyAt(formData.properties, index));
    }
  }
}
