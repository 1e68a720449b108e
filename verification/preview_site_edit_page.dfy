/**
 * The state of the preview-site editor page and the calls it makes.
 *
 * The page holds three forms: the site form (name, slug, description and a
 * replacement logo), the form that creates a mini project and the inline
 * editor of one selected mini project.  Each mini-project form carries
 * exactly three sections; the page never adds or removes one, and the
 * editor falls back to three blank sections for a project that does not
 * have exactly three.  The calls the forms make are functions of the form
 * state; the lemmas read their multipart payloads back through the binder
 * of `PreviewSites` to show what their entry lists bind back to.
 */
module PreviewSiteEditPage {
  import opened Wrappers
  import opened Multipart
  import opened FormInputs
  import opened PreviewSites

  /** The number of sections each mini-project form carries. */
  const SectionCount := 3

  /** Three sections with empty heading and paragraph. */
  function EmptySections(): (r: seq<Section>)
    ensures |r| == SectionCount
    ensures forall k :: 0 <= k < |r| ==> r[k].heading == "" && r[k].paragraph == ""
  {
    [Section("", ""), Section("", ""), Section("", "")]
  }

  /** The fields of a loaded preview site that the page reads. */
  datatype Site = Site(id: Guid, name: string, slug: string, description: Option<string>)

  /** The fields of a listed mini project that the editor reads (`sortOrder` absent or null is `None`). */
  datatype MiniProject = MiniProject(id: Guid, title: string, sortOrder: Option<int>, sections: Option<seq<Section>>)

  datatype SiteForm = SiteForm(name: string, slug: string, description: string, logoFile: Option<FileId>)

  datatype CreateForm = CreateForm(title: string, sortOrder: NumberField, sections: seq<Section>, galleryFiles: seq<FileId>)

  datatype EditForm = EditForm(
    editing: Option<MiniProject>,
    title: string,
    sortOrder: NumberField,
    sections: seq<Section>,
    galleryFiles: seq<FileId>)

  function BlankSiteForm(): SiteForm { SiteForm("", "", "", None) }

  function BlankCreateForm(): CreateForm { CreateForm("", Blank, EmptySections(), []) }

  function BlankEditForm(): EditForm { EditForm(None, "", Blank, EmptySections(), []) }

  // ---------------------------------------------------------------------
  // Loading and selecting

  /** The site form after a site has been loaded; a missing description shows as empty text. */
  function LoadedSiteForm(f: SiteForm, site: Site): (r: SiteForm)
    ensures r.name == site.name && r.slug == site.slug && r.logoFile == f.logoFile
    ensures site.description.Some? ==> r.description == site.description.value
    ensures site.description.None? ==> r.description == ""
  {
    SiteForm(site.name, site.slug, if site.description.Some? then site.description.value else "", f.logoFile)
  }

  /** The sections the editor starts from: the project's own when there are exactly three. */
  function EditableSections(sections: Option<seq<Section>>): (r: seq<Section>)
    ensures |r| == SectionCount
    ensures sections.Some? && |sections.value| == SectionCount ==> r == sections.value
    ensures sections.None? || |sections.value| != SectionCount ==> r == EmptySections()
  {
    if sections.Some? && |sections.value| == SectionCount then sections.value else EmptySections()
  }

  /** `p.sortOrder ?? ""`. */
  function SortOrderField(sortOrder: Option<int>): (f: NumberField)
    ensures f.Blank? <==> sortOrder.None?
    ensures sortOrder.Some? ==> f == Num(sortOrder.value)
  {
    if sortOrder.Some? then Num(sortOrder.value) else Blank
  }

  /** The editor after selecting a project: its title, sort order and sections, and no new files. */
  function EditFormFor(p: MiniProject): (r: EditForm)
    ensures r.editing == Some(p) && r.title == p.title && r.galleryFiles == []
    ensures r.sortOrder == SortOrderField(p.sortOrder) && r.sections == EditableSections(p.sections)
    ensures |r.sections| == SectionCount
  {
    EditForm(Some(p), p.title, SortOrderField(p.sortOrder), EditableSections(p.sections), [])
  }

  // ---------------------------------------------------------------------
  // Section edits

  /** The sections with the heading of section `idx` replaced. */
  function WithHeading(sections: seq<Section>, idx: nat, text: string): (r: seq<Section>)
    requires idx < |sections|
    ensures |r| == |sections|
    ensures r[idx].heading == text && r[idx].paragraph == sections[idx].paragraph
    ensures forall k :: 0 <= k < |r| && k != idx ==> r[k] == sections[k]
  {
    sections[idx := sections[idx].(heading := text)]
  }

  /** The sections with the paragraph of section `idx` replaced. */
  function WithParagraph(sections: seq<Section>, idx: nat, text: string): (r: seq<Section>)
    requires idx < |sections|
    ensures |r| == |sections|
    ensures r[idx].paragraph == text && r[idx].heading == sections[idx].heading
    ensures forall k :: 0 <= k < |r| && k != idx ==> r[k] == sections[k]
  {
    sections[idx := sections[idx].(paragraph := text)]
  }

  /** Editing a heading and then a paragraph gives the same sections in either order. */
  lemma HeadingParagraphCommute(sections: seq<Section>, i: nat, j: nat, h: string, p: string)
    requires i < |sections| && j < |sections|
    ensures WithParagraph(WithHeading(sections, i, h), j, p) == WithHeading(WithParagraph(sections, j, p), i, h)
  {
  }

  /** Typing into a heading twice keeps only the last text. */
  lemma HeadingLastWins(sections: seq<Section>, i: nat, h1: string, h2: string)
    requires i < |sections|
    ensures WithHeading(WithHeading(sections, i, h1), i, h2) == WithHeading(sections, i, h2)
  {
  }

  // ---------------------------------------------------------------------
  // The calls the forms make

  /** The error the update call raises when no project is selected. */
  const NoProjectSelected := "No project selected"

  /** The site update: an empty description is left out, a missing logo is sent as null. */
  function SiteUpdateCall(siteId: Guid, f: SiteForm): (op: Operation)
    ensures op.Update? && op.id == siteId
    ensures op.site.name == Some(f.name) && op.site.slug == Some(f.slug)
    ensures op.site.description.None? <==> f.description == ""
    ensures op.site.description.Some? ==> op.site.description.value == f.description
    ensures !op.site.logoFile.Absent?
    ensures op.site.logoFile.Present? <==> f.logoFile.Some?
    ensures op.site.logoFile.Present? ==> op.site.logoFile.value == f.logoFile.value
  {
    Update(siteId, PreviewSiteInput(
      Some(f.name), Some(f.slug),
      if f.description == "" then None else Some(f.description),
      if f.logoFile.Some? then Present(f.logoFile.value) else Null))
  }

  /** The mini-project creation: a blank sort order is sent as null, the picked files as they are. */
  function CreateCall(siteId: Guid, f: CreateForm): (op: Operation)
    ensures op.CreateMiniProject? && op.siteId == siteId
    ensures op.title == f.title && op.sections == f.sections && op.galleryFiles == Some(f.galleryFiles)
    ensures op.sortOrder == SortOrderArg(f.sortOrder)
  {
    CreateMiniProject(siteId, f.title, f.sections, Some(f.galleryFiles), SortOrderArg(f.sortOrder))
  }

  /**
   * The mini-project update: refused without a selected project; otherwise
   * the selected project's id, and the gallery only when files were picked.
   */
  function UpdateCall(siteId: Guid, f: EditForm): (r: Result<Operation, string>)
    ensures r.Err? <==> f.editing.None?
    ensures r.Err? ==> r.error == NoProjectSelected
    ensures r.Ok? ==>
      r.value.UpdateMiniProject? && r.value.siteId == siteId && r.value.projectId == f.editing.value.id
    ensures r.Ok? ==> r.value.project.title == Some(f.title) && r.value.project.sections == Some(f.sections)
    ensures r.Ok? ==> (r.value.project.galleryFiles.None? <==> f.galleryFiles == [])
    ensures r.Ok? && f.galleryFiles != [] ==> r.value.project.galleryFiles == Some(f.galleryFiles)
    ensures r.Ok? ==> r.value.project.sortOrder == SortOrderArg(f.sortOrder)
  {
    if f.editing.None? then Err(NoProjectSelected)
    else
      Ok(UpdateMiniProject(siteId, f.editing.value.id, MiniProjectInput(
        Some(f.title), Some(f.sections),
        if |f.galleryFiles| > 0 then Some(f.galleryFiles) else None,
        SortOrderArg(f.sortOrder))))
  }

  /** The sort order a binder reads for a form's sort-order state. */
  function BoundSortOrder(f: NumberField): Nullable<int> {
    if f.Blank? then Absent else Present(f.n)
  }

  /**
   * What the site update's entry list binds back to: name and slug, the
   * description only when non-empty, and the logo only when one was picked.
   */
  lemma SiteUpdateDelivers(siteId: Guid, f: SiteForm)
    ensures BindPreviewSite(ApiRequest(SiteUpdateCall(siteId, f)).body.fields) ==
      PreviewSiteInput(Some(f.name), Some(f.slug),
        if f.description == "" then None else Some(f.description),
        if f.logoFile.Some? then Present(f.logoFile.value) else Absent)
  {
    ApiPayloadsRecovered(SiteUpdateCall(siteId, f));
  }

  /**
   * What the creation's entry list binds back to: the title, the three sections,
   * the picked gallery files (none when none were picked) and the sort
   * order unless it was left blank.
   */
  lemma CreateDelivers(siteId: Guid, f: CreateForm)
    requires |f.sections| == SectionCount
    ensures BindMiniProject(ApiRequest(CreateCall(siteId, f)).body.fields) ==
      MiniProjectInput(Some(f.title), Some(f.sections),
        if f.galleryFiles == [] then None else Some(f.galleryFiles),
        BoundSortOrder(f.sortOrder))
  {
    ApiPayloadsRecovered(CreateCall(siteId, f));
  }

  /**
   * What the update's entry list binds back to, once a project is selected:
   * the title, the sections (missing only when the list is empty), the
   * picked gallery files (missing when none were picked) and the sort order
   * unless it was left blank.
   */
  lemma UpdateDelivers(siteId: Guid, f: EditForm)
    ensures UpdateCall(siteId, f).Ok? <==> f.editing.Some?
    ensures UpdateCall(siteId, f).Ok? ==>
      BindMiniProject(ApiRequest(UpdateCall(siteId, f).value).body.fields) ==
        MiniProjectInput(Some(f.title), if f.sections == [] then None else Some(f.sections),
          if f.galleryFiles == [] then None else Some(f.galleryFiles),
          BoundSortOrder(f.sortOrder))
  {
    if f.editing.Some? {
      ApiPayloadsRecovered(UpdateCall(siteId, f).value);
    }
  }

  /**
   * Saving right after selecting a project, with nothing changed, writes
   * back its title and sort order and its sections when it had exactly
   * three (three blank ones otherwise), and leaves its gallery alone.
   */
  lemma SaveUnchangedProject(siteId: Guid, p: MiniProject)
    ensures UpdateCall(siteId, EditFormFor(p)).Ok?
    ensures var op := UpdateCall(siteId, EditFormFor(p)).value;
      op.projectId == p.id &&
      BindMiniProject(ApiRequest(op).body.fields) ==
        MiniProjectInput(Some(p.title), Some(EditableSections(p.sections)), None,
          if p.sortOrder.Some? then Present(p.sortOrder.value) else Absent)
  {
    var op := UpdateCall(siteId, EditFormFor(p)).value;
    ApiPayloadsRecovered(op);
  }

  // ---------------------------------------------------------------------
  // The page

  class EditPage {
    const siteId: Guid
    var site: SiteForm
    var create: CreateForm
    var edit: EditForm

    /** Both mini-project forms carry exactly three sections. */
    ghost predicate Valid()
      reads this
    {
      |create.sections| == SectionCount && |edit.sections| == SectionCount
    }

    constructor(siteId: Guid)
      ensures this.siteId == siteId
      ensures site == BlankSiteForm() && create == BlankCreateForm() && edit == BlankEditForm()
      ensures Valid()
    {
      this.siteId := siteId;
      site := BlankSiteForm();
      create := BlankCreateForm();
      edit := BlankEditForm();
    }

    /** The site form is filled in when the site has loaded. */
    method LoadSite(s: Site)
      requires Valid()
      modifies this
      ensures site == LoadedSiteForm(old(site), s)
      ensures create == old(create) && edit == old(edit)
      ensures Valid()
    {
      site := LoadedSiteForm(site, s);
    }

    /** Picking a replacement logo keeps the first picked file, or none. */
    method SetLogoFile(files: Option<seq<FileId>>)
      requires Valid()
      modifies this
      ensures site == old(site).(logoFile := FirstFile(files))
      ensures create == old(create) && edit == old(edit)
      ensures Valid()
    {
      site := site.(logoFile := FirstFile(files));
    }

    /** The creation form's sort-order input changed. */
    method SetCreateSortOrder(value: string)
      requires Valid() && IsInputText(value)
      modifies this
      ensures create == old(create).(sortOrder := FromInput(value))
      ensures site == old(site) && edit == old(edit)
      ensures Valid()
    {
      create := create.(sortOrder := FromInput(value));
    }

    /** The editor's sort-order input changed. */
    method SetEditSortOrder(value: string)
      requires Valid() && IsInputText(value)
      modifies this
      ensures edit == old(edit).(sortOrder := FromInput(value))
      ensures site == old(site) && create == old(create)
      ensures Valid()
    {
      edit := edit.(sortOrder := FromInput(value));
    }

    method SetCreateHeading(idx: nat, text: string)
      requires Valid() && idx < SectionCount
      modifies this
      ensures create == old(create).(sections := WithHeading(old(create.sections), idx, text))
      ensures site == old(site) && edit == old(edit)
      ensures Valid()
    {
      create := create.(sections := WithHeading(create.sections, idx, text));
    }

    method SetCreateParagraph(idx: nat, text: string)
      requires Valid() && idx < SectionCount
      modifies this
      ensures create == old(create).(sections := WithParagraph(old(create.sections), idx, text))
      ensures site == old(site) && edit == old(edit)
      ensures Valid()
    {
      create := create.(sections := WithParagraph(create.sections, idx, text));
    }

    method SetEditHeading(idx: nat, text: string)
      requires Valid() && idx < SectionCount
      modifies this
      ensures edit == old(edit).(sections := WithHeading(old(edit.sections), idx, text))
      ensures site == old(site) && create == old(create)
      ensures Valid()
    {
      edit := edit.(sections := WithHeading(edit.sections, idx, text));
    }

    method SetEditParagraph(idx: nat, text: string)
      requires Valid() && idx < SectionCount
      modifies this
      ensures edit == old(edit).(sections := WithParagraph(old(edit.sections), idx, text))
      ensures site == old(site) && create == old(create)
      ensures Valid()
    {
      edit := edit.(sections := WithParagraph(edit.sections, idx, text));
    }

    /** Picking gallery files for a new project replaces the earlier pick. */
    method SetCreateGalleryFiles(files: Option<seq<FileId>>)
      requires Valid()
      modifies this
      ensures create == old(create).(galleryFiles := AllFiles(files))
      ensures site == old(site) && edit == old(edit)
      ensures Valid()
    {
      create := create.(galleryFiles := AllFiles(files));
    }

    /** Picking gallery files to add to the selected project replaces the earlier pick. */
    method SetEditGalleryFiles(files: Option<seq<FileId>>)
      requires Valid()
      modifies this
      ensures edit == old(edit).(galleryFiles := AllFiles(files))
      ensures site == old(site) && create == old(create)
      ensures Valid()
    {
      edit := edit.(galleryFiles := AllFiles(files));
    }

    /** Selecting a project for the inline editor. */
    method StartEdit(p: MiniProject)
      requires Valid()
      modifies this
      ensures edit == EditFormFor(p)
      ensures site == old(site) && create == old(create)
      ensures Valid()
    {
      edit := EditFormFor(p);
    }

    /** Closing the inline editor deselects the project and keeps what was typed. */
    method CloseEditor()
      requires Valid()
      modifies this
      ensures edit == old(edit).(editing := None)
      ensures site == old(site) && create == old(create)
      ensures Valid()
    {
      edit := edit.(editing := None);
    }

    /** After a successful site update the picked logo is cleared. */
    method OnSiteUpdated()
      requires Valid()
      modifies this
      ensures site == old(site).(logoFile := None)
      ensures create == old(create) && edit == old(edit)
      ensures Valid()
    {
      site := site.(logoFile := None);
    }

    /** After a successful creation the creation form is blank again. */
    method OnMiniProjectCreated()
      requires Valid()
      modifies this
      ensures create == BlankCreateForm()
      ensures site == old(site) && edit == old(edit)
      ensures Valid()
    {
      create := BlankCreateForm();
    }

    /** After a successful update the editor closes and its picked files are cleared. */
    method OnMiniProjectUpdated()
      requires Valid()
      modifies this
      ensures edit == old(edit).(editing := None, galleryFiles := [])
      ensures site == old(site) && create == old(create)
      ensures Valid()
    {
      edit := edit.(editing := None, galleryFiles := []);
    }
  }

  /** Once the editor is closed, saving is refused until a project is selected again. */
  lemma ClosedEditorRefusesSave(siteId: Guid, f: EditForm)
    ensures UpdateCall(siteId, f.(editing := None)) == Err(NoProjectSelected)
    ensures UpdateCall(siteId, f.(editing := None, galleryFiles := [])) == Err(NoProjectSelected)
  {
  }
}
