/**
 * The preview-sites API client: the multipart payload builders for preview
 * sites and their mini projects, and the nested REST paths of the API.
 *
 * Mini-project sections are sent under indexed names in the convention of
 * the receiving server's model binder (`Sections[0].Heading`,
 * `Sections[0].Paragraph`, `Sections[1].Heading`, ...).  The readers
 * `BindPreviewSite` and `BindMiniProject` are that binder's view of a
 * payload; the round-trip lemmas show that it recovers every field the
 * builders were given, up to the distinctions a payload cannot carry.
 */
module PreviewSites {
  import opened Wrappers
  import opened Multipart
  import Decimal
  import Http

  /** Id of a site or mini project (a GUID, sent as text). */
  type Guid = string

  datatype Section = Section(heading: string, paragraph: string)

  /** The input of `buildPreviewSiteFormData`; a logo is a file, `null` or left out. */
  datatype PreviewSiteInput = PreviewSiteInput(
    name: Option<string>,
    slug: Option<string>,
    description: Option<string>,
    logoFile: Nullable<FileId>)

  /** The input of `buildMiniProjectFormData`; the sort order is a number, `null` or left out. */
  datatype MiniProjectInput = MiniProjectInput(
    title: Option<string>,
    sections: Option<seq<Section>>,
    galleryFiles: Option<seq<FileId>>,
    sortOrder: Nullable<int>)

  const TitleKey: string := "Title"
  const SortOrderKey: string := "SortOrder"
  const GalleryKey: string := "GalleryFiles"
  const SectionsPrefix: string := "Sections["

  function HeadingKey(i: nat): string {
    SectionsPrefix + Decimal.NatToString(i) + "].Heading"
  }

  function ParagraphKey(i: nat): string {
    SectionsPrefix + Decimal.NatToString(i) + "].Paragraph"
  }

  // ---------------------------------------------------------------------
  // Section keys

  /**
   * Every section key is `Sections[`, the decimal index, then `].Heading`
   * or `].Paragraph`.
   */
  lemma SectionKeyShape(i: nat)
    ensures |HeadingKey(i)| > 18 && HeadingKey(i)[..9] == SectionsPrefix
    ensures |ParagraphKey(i)| > 20 && ParagraphKey(i)[..9] == SectionsPrefix
    ensures HeadingKey(i)[9..|HeadingKey(i)| - 9] == Decimal.NatToString(i)
    ensures ParagraphKey(i)[9..|ParagraphKey(i)| - 11] == Decimal.NatToString(i)
    ensures HeadingKey(i)[|HeadingKey(i)| - 9..] == "].Heading"
    ensures ParagraphKey(i)[|ParagraphKey(i)| - 11..] == "].Paragraph"
    ensures HeadingKey(i)[|HeadingKey(i)| - 1] == 'g'
    ensures ParagraphKey(i)[|ParagraphKey(i)| - 1] == 'h'
  {
    var d := Decimal.NatToString(i);
    var h, p := HeadingKey(i), ParagraphKey(i);
    assert h[9..|h| - 9] == d && h[|h| - 9..] == "].Heading";
    assert p[9..|p| - 11] == d && p[|p| - 11..] == "].Paragraph";
  }

  /** A heading key never names a paragraph. */
  lemma HeadingNotParagraph(i: nat, j: nat)
    ensures HeadingKey(i) != ParagraphKey(j)
  {
    SectionKeyShape(i);
    SectionKeyShape(j);
  }

  /** Section keys of different indices differ. */
  lemma SectionKeysInjective(i: nat, j: nat)
    ensures HeadingKey(i) == HeadingKey(j) <==> i == j
    ensures ParagraphKey(i) == ParagraphKey(j) <==> i == j
  {
    var di, dj := Decimal.NatToString(i), Decimal.NatToString(j);
    if HeadingKey(i) == HeadingKey(j) {
      assert |di| == |dj|;
      assert di == HeadingKey(i)[9..9 + |di|];
      assert dj == HeadingKey(j)[9..9 + |dj|];
      Decimal.NatToStringInjective(i, j);
    }
    if ParagraphKey(i) == ParagraphKey(j) {
      assert |di| == |dj|;
      assert di == ParagraphKey(i)[9..9 + |di|];
      assert dj == ParagraphKey(j)[9..9 + |dj|];
      Decimal.NatToStringInjective(i, j);
    }
  }

  /** The scalar keys of a mini-project payload are never section keys. */
  lemma ScalarKeysNotSectionKeys(i: nat)
    ensures HeadingKey(i) !in {TitleKey, SortOrderKey, GalleryKey}
    ensures ParagraphKey(i) !in {TitleKey, SortOrderKey, GalleryKey}
  {
    SectionKeyShape(i);
    assert HeadingKey(i)[1] == 'e' && ParagraphKey(i)[1] == 'e';
  }

  // ---------------------------------------------------------------------
  // Section entries (`appendSections`)

  function SectionPair(i: nat, s: Section): seq<Field> {
    [Field(HeadingKey(i), Str(s.heading)), Field(ParagraphKey(i), Str(s.paragraph))]
  }

  /** The entries `appendSections` adds for `sections`, in order. */
  function SectionFields(sections: seq<Section>): seq<Field> {
    if sections == [] then []
    else SectionFields(sections[..|sections| - 1]) + SectionPair(|sections| - 1, sections[|sections| - 1])
  }

  /**
   * Section `k` occupies entries `2k` (its heading) and `2k + 1` (its
   * paragraph): exactly two entries per section, in list order.
   */
  lemma {:induction false} SectionFieldsAt(sections: seq<Section>)
    ensures |SectionFields(sections)| == 2 * |sections|
    ensures forall k :: 0 <= k < |sections| ==>
      SectionFields(sections)[2 * k] == Field(HeadingKey(k), Str(sections[k].heading)) &&
      SectionFields(sections)[2 * k + 1] == Field(ParagraphKey(k), Str(sections[k].paragraph))
  {
    if sections != [] {
      var last := |sections| - 1;
      var front := sections[..last];
      SectionFieldsAt(front);
      var sf, pair := SectionFields(front), SectionPair(last, sections[last]);
      assert SectionFields(sections) == sf + pair;
      forall k | 0 <= k < |sections|
        ensures (sf + pair)[2 * k] == Field(HeadingKey(k), Str(sections[k].heading))
        ensures (sf + pair)[2 * k + 1] == Field(ParagraphKey(k), Str(sections[k].paragraph))
      {
        if k < last {
          assert front[k] == sections[k];
          assert (sf + pair)[2 * k] == sf[2 * k];
          assert (sf + pair)[2 * k + 1] == sf[2 * k + 1];
        } else {
          assert (sf + pair)[2 * k] == pair[0];
          assert (sf + pair)[2 * k + 1] == pair[1];
        }
      }
    }
  }

  lemma SectionFieldsLength(sections: seq<Section>)
    ensures |SectionFields(sections)| == 2 * |sections|
  {
    SectionFieldsAt(sections);
  }

  lemma SectionPairAt(sections: seq<Section>, j: nat)
    requires j < |sections|
    ensures 2 * j + 1 < |SectionFields(sections)|
    ensures SectionFields(sections)[2 * j] == Field(HeadingKey(j), Str(sections[j].heading))
    ensures SectionFields(sections)[2 * j + 1] == Field(ParagraphKey(j), Str(sections[j].paragraph))
  {
    SectionFieldsAt(sections);
  }

  /** The index a section entry at `m` belongs to, and which half it is. */
  lemma SectionEntryAt(sections: seq<Section>, m: int)
    requires 0 <= m < |SectionFields(sections)|
    ensures m / 2 < |sections|
    ensures SectionFields(sections)[m] ==
      if m % 2 == 0 then Field(HeadingKey(m / 2), Str(sections[m / 2].heading))
      else Field(ParagraphKey(m / 2), Str(sections[m / 2].paragraph))
  {
    SectionFieldsAt(sections);
    var k := m / 2;
    assert m == 2 * k || m == 2 * k + 1;
  }

  /** An entry named after section `j` sits at `2j` (heading) or `2j + 1` (paragraph). */
  lemma SectionEntryNamed(sections: seq<Section>, j: nat, m: int)
    requires 0 <= m < |SectionFields(sections)|
    ensures SectionFields(sections)[m].name == HeadingKey(j) ==>
      m == 2 * j && j < |sections| && SectionFields(sections)[m].value == Str(sections[j].heading)
    ensures SectionFields(sections)[m].name == ParagraphKey(j) ==>
      m == 2 * j + 1 && j < |sections| && SectionFields(sections)[m].value == Str(sections[j].paragraph)
  {
    SectionEntryAt(sections, m);
    SectionKeysInjective(m / 2, j);
    HeadingNotParagraph(m / 2, j);
    HeadingNotParagraph(j, m / 2);
  }

  /** Only section `j`'s heading entry carries `HeadingKey(j)`. */
  lemma HeadingEntries(sections: seq<Section>, j: nat)
    ensures forall m :: 0 <= m < |SectionFields(sections)| && SectionFields(sections)[m].name == HeadingKey(j) ==>
      j < |sections| && SectionFields(sections)[m].value == Str(sections[j].heading)
  {
    forall m | 0 <= m < |SectionFields(sections)| && SectionFields(sections)[m].name == HeadingKey(j) {
      SectionEntryNamed(sections, j, m);
    }
  }

  /** Only section `j`'s paragraph entry carries `ParagraphKey(j)`. */
  lemma ParagraphEntries(sections: seq<Section>, j: nat)
    ensures forall m :: 0 <= m < |SectionFields(sections)| && SectionFields(sections)[m].name == ParagraphKey(j) ==>
      j < |sections| && SectionFields(sections)[m].value == Str(sections[j].paragraph)
  {
    forall m | 0 <= m < |SectionFields(sections)| && SectionFields(sections)[m].name == ParagraphKey(j) {
      SectionEntryNamed(sections, j, m);
    }
  }

  /** Looking up a heading key among the section entries finds that section's heading. */
  lemma LookupHeading(sections: seq<Section>, j: nat)
    ensures Lookup(SectionFields(sections), HeadingKey(j)) ==
      if j < |sections| then Some(Str(sections[j].heading)) else None
  {
    HeadingEntries(sections, j);
    if j < |sections| {
      SectionPairAt(sections, j);
      LookupUnique(SectionFields(sections), HeadingKey(j), 2 * j, Str(sections[j].heading));
    } else {
      LookupAbsent(SectionFields(sections), HeadingKey(j));
    }
  }

  /** Looking up a paragraph key among the section entries finds that section's paragraph. */
  lemma LookupParagraph(sections: seq<Section>, j: nat)
    ensures Lookup(SectionFields(sections), ParagraphKey(j)) ==
      if j < |sections| then Some(Str(sections[j].paragraph)) else None
  {
    ParagraphEntries(sections, j);
    if j < |sections| {
      SectionPairAt(sections, j);
      LookupUnique(SectionFields(sections), ParagraphKey(j), 2 * j + 1, Str(sections[j].paragraph));
    } else {
      LookupAbsent(SectionFields(sections), ParagraphKey(j));
    }
  }

  /** Section entries never carry a scalar key. */
  lemma SectionFieldsAvoidScalarKeys(sections: seq<Section>, name: string)
    requires name in {TitleKey, SortOrderKey, GalleryKey}
    ensures Lookup(SectionFields(sections), name) == None
    ensures ValuesNamed(SectionFields(sections), name) == []
  {
    var f := SectionFields(sections);
    forall m | 0 <= m < |f|
      ensures f[m].name != name
    {
      SectionEntryAt(sections, m);
      ScalarKeysNotSectionKeys(m / 2);
    }
  }

  // ---------------------------------------------------------------------
  // Preview-site payload (`buildPreviewSiteFormData`)

  const NameKey: string := "Name"
  const SlugKey: string := "Slug"
  const DescriptionKey: string := "Description"
  const LogoKey: string := "Logo"

  /** One text entry when the value is given, none when it is left out. */
  function TextField(name: string, v: Option<string>): seq<Field> {
    if v.Some? then [Field(name, Str(v.value))] else []
  }

  /** The entries of a preview-site payload, in append order. */
  function PreviewSiteFields(input: PreviewSiteInput): seq<Field> {
    TextField(NameKey, input.name) + TextField(SlugKey, input.slug) + TextField(DescriptionKey, input.description)
    + (if input.logoFile.Present? then [Field(LogoKey, File(input.logoFile.value))] else [])
  }

  method BuildPreviewSiteFormData(input: PreviewSiteInput) returns (fd: MultipartForm)
    ensures fresh(fd)
    ensures fd.entries == PreviewSiteFields(input)
  {
    fd := new MultipartForm();
    if input.name.Some? {
      fd.Append(NameKey, Str(input.name.value));
    }
    if input.slug.Some? {
      fd.Append(SlugKey, Str(input.slug.value));
    }
    if input.description.Some? {
      fd.Append(DescriptionKey, Str(input.description.value));
    }
    if input.logoFile.Present? {
      fd.Append(LogoKey, File(input.logoFile.value));
    }
  }

  /** The text a binder reads for a scalar text property. */
  function TextAt(fields: seq<Field>, name: string): (r: Option<string>)
    ensures r.Some? ==> Lookup(fields, name) == Some(Str(r.value))
  {
    match Lookup(fields, name)
    case Some(Str(t)) => Some(t)
    case _ => None
  }

  /** The preview-site input a binder reads back from a payload. */
  function BindPreviewSite(fields: seq<Field>): PreviewSiteInput {
    PreviewSiteInput(
      TextAt(fields, NameKey),
      TextAt(fields, SlugKey),
      TextAt(fields, DescriptionKey),
      FileAt(fields, LogoKey))
  }

  /** The file a binder reads for a file property; `Absent` when there is none. */
  function FileAt(fields: seq<Field>, name: string): (r: Nullable<FileId>)
    ensures !r.Null?
    ensures r.Present? ==> Lookup(fields, name) == Some(File(r.value))
  {
    match Lookup(fields, name)
    case Some(File(f)) => Present(f)
    case _ => Absent
  }

  /** A payload cannot tell a `null` logo from a missing one. */
  function SiteAsSent(input: PreviewSiteInput): PreviewSiteInput {
    if input.logoFile.Null? then input.(logoFile := Absent) else input
  }

  /**
   * Every field of a preview-site input survives the payload: `Name`, `Slug`
   * and `Description` are present exactly when given (an empty text
   * included), and `Logo` exactly when a file is given.
   */
  lemma PreviewSiteRoundTrip(input: PreviewSiteInput)
    ensures BindPreviewSite(PreviewSiteFields(input)) == SiteAsSent(input)
  {
    SiteEntryRecovered(input, NameKey);
    SiteEntryRecovered(input, SlugKey);
    SiteEntryRecovered(input, DescriptionKey);
    SiteEntryRecovered(input, LogoKey);
    BindSiteEntries(PreviewSiteFields(input), input);
  }

  /** A payload holding each key's entry of `input` binds to `input` as sent. */
  lemma BindSiteEntries(f: seq<Field>, input: PreviewSiteInput)
    requires Lookup(f, NameKey) == SiteEntry(input, NameKey)
    requires Lookup(f, SlugKey) == SiteEntry(input, SlugKey)
    requires Lookup(f, DescriptionKey) == SiteEntry(input, DescriptionKey)
    requires Lookup(f, LogoKey) == SiteEntry(input, LogoKey)
    ensures BindPreviewSite(f) == SiteAsSent(input)
  {
    TextAtEntry(f, NameKey, input.name);
    TextAtEntry(f, SlugKey, input.slug);
    TextAtEntry(f, DescriptionKey, input.description);
    assert FileAt(f, LogoKey) == SiteAsSent(input).logoFile;
  }

  /** A text property reads back as given when its entry is the text, or missing when there is none. */
  lemma TextAtEntry(f: seq<Field>, key: string, v: Option<string>)
    requires Lookup(f, key) == if v.Some? then Some(Str(v.value)) else None
    ensures TextAt(f, key) == v
  {
  }

  /** The value a site payload holds under each of its four keys. */
  function SiteEntry(input: PreviewSiteInput, key: string): Option<Value> {
    if key == NameKey then (if input.name.Some? then Some(Str(input.name.value)) else None)
    else if key == SlugKey then (if input.slug.Some? then Some(Str(input.slug.value)) else None)
    else if key == DescriptionKey then (if input.description.Some? then Some(Str(input.description.value)) else None)
    else if input.logoFile.Present? then Some(File(input.logoFile.value)) else None
  }

  lemma SiteEntryRecovered(input: PreviewSiteInput, key: string)
    requires key in {NameKey, SlugKey, DescriptionKey, LogoKey}
    ensures Lookup(PreviewSiteFields(input), key) == SiteEntry(input, key)
  {
    var n, sl, d := TextField(NameKey, input.name), TextField(SlugKey, input.slug), TextField(DescriptionKey, input.description);
    var l := if input.logoFile.Present? then [Field(LogoKey, File(input.logoFile.value))] else [];
    LookupFour(n, sl, d, l, key);
  }

  /** The position of each preview-site key in the order the builder appends them. */
  function SiteRank(name: string): nat {
    if name == NameKey then 0
    else if name == SlugKey then 1
    else if name == DescriptionKey then 2
    else 3
  }

  /** A preview-site payload lists `Name`, `Slug`, `Description`, `Logo` in that order, each at most once. */
  lemma PreviewSiteFieldOrder(input: PreviewSiteInput)
    ensures |PreviewSiteFields(input)| <= 4
    ensures forall a, b :: 0 <= a < b < |PreviewSiteFields(input)| ==>
      SiteRank(PreviewSiteFields(input)[a].name) < SiteRank(PreviewSiteFields(input)[b].name)
  {
  }

  // ---------------------------------------------------------------------
  // Mini-project payload (`buildMiniProjectFormData`)

  /** The entries `forEach(f => fd.append("GalleryFiles", f))` adds, in order. */
  function GalleryFields(files: seq<FileId>): seq<Field> {
    if files == [] then []
    else GalleryFields(files[..|files| - 1]) + [Field(GalleryKey, File(files[|files| - 1]))]
  }

  /** File `k` of the list becomes entry `k`. */
  lemma {:induction false} GalleryFieldsAt(files: seq<FileId>)
    ensures |GalleryFields(files)| == |files|
    ensures forall k :: 0 <= k < |files| ==> GalleryFields(files)[k] == Field(GalleryKey, File(files[k]))
  {
    if files != [] {
      GalleryFieldsAt(files[..|files| - 1]);
    }
  }

  function SortOrderFields(sortOrder: Nullable<int>): seq<Field> {
    if sortOrder.Present? then [Field(SortOrderKey, Str(Decimal.IntToString(sortOrder.value)))] else []
  }

  /** The sections that are sent: none when the list is left out. */
  function SentSections(input: MiniProjectInput): seq<Section> {
    if input.sections.Some? then input.sections.value else []
  }

  /** The gallery files that are sent: none when the list is left out or empty. */
  function SentFiles(input: MiniProjectInput): seq<FileId> {
    if input.galleryFiles.Some? && |input.galleryFiles.value| > 0 then input.galleryFiles.value else []
  }

  /** The entries of a mini-project payload, in append order. */
  function MiniProjectFields(input: MiniProjectInput): seq<Field> {
    TextField(TitleKey, input.title) + SectionFields(SentSections(input))
    + SortOrderFields(input.sortOrder) + GalleryFields(SentFiles(input))
  }

  /** `appendSections(fd, sections)`. */
  method AppendSections(fd: MultipartForm, sections: seq<Section>)
    modifies fd
    ensures fd.entries == old(fd.entries) + SectionFields(sections)
  {
    for i := 0 to |sections|
      invariant fd.entries == old(fd.entries) + SectionFields(sections[..i])
    {
      assert sections[..i + 1][..i] == sections[..i];
      fd.Append(HeadingKey(i), Str(sections[i].heading));
      fd.Append(ParagraphKey(i), Str(sections[i].paragraph));
    }
    assert sections[..|sections|] == sections;
  }

  /** `galleryFiles.forEach((f) => fd.append("GalleryFiles", f))`. */
  method AppendGalleryFiles(fd: MultipartForm, files: seq<FileId>)
    modifies fd
    ensures fd.entries == old(fd.entries) + GalleryFields(files)
  {
    for i := 0 to |files|
      invariant fd.entries == old(fd.entries) + GalleryFields(files[..i])
    {
      assert files[..i + 1][..i] == files[..i];
      fd.Append(GalleryKey, File(files[i]));
    }
    assert files[..|files|] == files;
  }

  method BuildMiniProjectFormData(input: MiniProjectInput) returns (fd: MultipartForm)
    ensures fresh(fd)
    ensures fd.entries == MiniProjectFields(input)
  {
    fd := new MultipartForm();
    if input.title.Some? {
      fd.Append(TitleKey, Str(input.title.value));
    }
    assert fd.entries == TextField(TitleKey, input.title);
    if input.sections.Some? {
      AppendSections(fd, input.sections.value);
    }
    assert fd.entries == TextField(TitleKey, input.title) + SectionFields(SentSections(input));
    if input.sortOrder.Present? {
      fd.Append(SortOrderKey, Str(Decimal.IntToString(input.sortOrder.value)));
    }
    assert fd.entries == TextField(TitleKey, input.title) + SectionFields(SentSections(input)) + SortOrderFields(input.sortOrder);
    if input.galleryFiles.Some? && |input.galleryFiles.value| > 0 {
      AppendGalleryFiles(fd, input.galleryFiles.value);
    }
    assert fd.entries == TextField(TitleKey, input.title) + SectionFields(SentSections(input))
      + SortOrderFields(input.sortOrder) + GalleryFields(SentFiles(input));
  }

  /** Where the section entries of a mini-project payload start: after the title, if any. */
  function SectionsStart(input: MiniProjectInput): nat {
    if input.title.Some? then 1 else 0
  }

  /** Where the gallery entries start: after the sections and the sort order, if any. */
  function GalleryStart(input: MiniProjectInput): nat {
    SectionsStart(input) + 2 * |SentSections(input)| + (if input.sortOrder.Present? then 1 else 0)
  }

  /**
   * The layout of a mini-project payload: the title first, then the
   * sections, then the sort order rendered in decimal, then the gallery
   * files.  Inputs left out contribute no entry, which is what makes the
   * payload usable for a partial update.
   */
  lemma MiniProjectLayout(input: MiniProjectInput)
    ensures |MiniProjectFields(input)| == GalleryStart(input) + |SentFiles(input)|
    ensures input.title.Some? ==> MiniProjectFields(input)[0] == Field(TitleKey, Str(input.title.value))
    ensures input.sortOrder.Present? ==>
      MiniProjectFields(input)[GalleryStart(input) - 1] == Field(SortOrderKey, Str(Decimal.IntToString(input.sortOrder.value)))
  {
    SectionFieldsLength(SentSections(input));
    GalleryFieldsAt(SentFiles(input));
  }

  /** Section `k` of the input sits at two consecutive entries, heading first, in list order. */
  lemma MiniProjectSectionAt(input: MiniProjectInput, k: nat)
    requires k < |SentSections(input)|
    ensures SectionsStart(input) + 2 * k + 1 < |MiniProjectFields(input)|
    ensures MiniProjectFields(input)[SectionsStart(input) + 2 * k] ==
      Field(HeadingKey(k), Str(SentSections(input)[k].heading))
    ensures MiniProjectFields(input)[SectionsStart(input) + 2 * k + 1] ==
      Field(ParagraphKey(k), Str(SentSections(input)[k].paragraph))
  {
    var ss := SentSections(input);
    SectionPairAt(ss, k);
    PairOfSecondPart(TextField(TitleKey, input.title), SectionFields(ss), SortOrderFields(input.sortOrder),
      GalleryFields(SentFiles(input)), SectionsStart(input), 2 * k);
  }

  /** Entries `m` and `m + 1` of the second of four consecutive parts, the first of length `start`. */
  lemma PairOfSecondPart(a: seq<Field>, b: seq<Field>, c: seq<Field>, d: seq<Field>, start: nat, m: nat)
    requires start == |a| && m + 1 < |b|
    ensures start + m + 1 < |a + b + c + d|
    ensures (a + b + c + d)[start + m] == b[m] && (a + b + c + d)[start + m + 1] == b[m + 1]
  {
    assert (a + b + c + d)[start + m] == (a + b)[start + m];
    assert (a + b + c + d)[start + m + 1] == (a + b)[start + m + 1];
  }

  /** Gallery file `k` sits at one entry named `GalleryFiles`, in list order. */
  lemma MiniProjectGalleryAt(input: MiniProjectInput, k: nat)
    requires k < |SentFiles(input)|
    ensures GalleryStart(input) + k < |MiniProjectFields(input)|
    ensures MiniProjectFields(input)[GalleryStart(input) + k] == Field(GalleryKey, File(SentFiles(input)[k]))
  {
    MiniProjectLayout(input);
    SectionFieldsLength(SentSections(input));
    GalleryFieldsAt(SentFiles(input));
  }

  // ---------------------------------------------------------------------
  // Reading a mini-project payload back

  /** The sections a binder reads: indices `i`, `i + 1`, ... while both keys are present. */
  function BindSections(fields: seq<Field>, i: nat): seq<Section> {
    ReadSections((j: nat) => SectionAt(fields, j), i, |fields|)
  }

  /** The sections `read` yields from index `i` on, stopping at the first gap or at `limit`. */
  function ReadSections(read: nat -> Option<Section>, i: nat, limit: nat): seq<Section>
    decreases limit - i
  {
    if i >= limit then []
    else match read(i)
      case Some(s) => [s] + ReadSections(read, i + 1, limit)
      case None => []
  }

  /** Section `i` as a binder reads it: present when both its heading and its paragraph are. */
  function SectionAt(fields: seq<Field>, i: nat): Option<Section> {
    match (TextAt(fields, HeadingKey(i)), TextAt(fields, ParagraphKey(i)))
    case (Some(h), Some(p)) => Some(Section(h, p))
    case _ => None
  }

  /** The sort order a binder reads: a decimal numeral under `SortOrder`. */
  function BindSortOrder(fields: seq<Field>): Nullable<int> {
    match TextAt(fields, SortOrderKey)
    case Some(t) => (match Decimal.ParseInt(t) case Some(n) => Present(n) case None => Absent)
    case None => Absent
  }

  /** The mini-project input a binder reads back from a payload. */
  function BindMiniProject(fields: seq<Field>): MiniProjectInput {
    var sections := BindSections(fields, 0);
    var files := Files(ValuesNamed(fields, GalleryKey));
    MiniProjectInput(
      TextAt(fields, TitleKey),
      if sections == [] then None else Some(sections),
      if files == [] then None else Some(files),
      BindSortOrder(fields))
  }

  /**
   * What a payload can carry of a mini-project input: a `null` sort order
   * reads as a missing one, and an empty section or file list as a missing
   * list.
   */
  function MiniProjectAsSent(input: MiniProjectInput): MiniProjectInput {
    MiniProjectInput(
      input.title,
      if SentSections(input) == [] then None else input.sections,
      if SentFiles(input) == [] then None else input.galleryFiles,
      if input.sortOrder.Null? then Absent else input.sortOrder)
  }

  /** A reader that yields exactly `sections` and then a gap reads back `sections`. */
  lemma {:induction false} ReadSectionsRecovers(read: nat -> Option<Section>, sections: seq<Section>, i: nat, limit: nat)
    requires i <= |sections| <= limit
    requires forall j :: i <= j < |sections| ==> read(j) == Some(sections[j])
    requires read(|sections|) == None
    ensures ReadSections(read, i, limit) == sections[i..]
    decreases |sections| - i
  {
    if i < |sections| {
      ReadSectionsRecovers(read, sections, i + 1, limit);
      assert sections[i..] == [sections[i]] + sections[i + 1..];
    }
  }

  /** Looking up a section key in a whole payload finds it among the section entries. */
  lemma LookupSectionKey(input: MiniProjectInput, key: string)
    requires key != TitleKey && key != SortOrderKey && key != GalleryKey
    ensures Lookup(MiniProjectFields(input), key) == Lookup(SectionFields(SentSections(input)), key)
  {
    var tf, sf, of, gf := TextField(TitleKey, input.title), SectionFields(SentSections(input)),
      SortOrderFields(input.sortOrder), GalleryFields(SentFiles(input));
    LookupFour(tf, sf, of, gf, key);
    assert Lookup(tf, key) == None && Lookup(of, key) == None;
    GalleryFieldsAvoidOtherKeys(SentFiles(input), key);
  }

  /** Gallery entries carry only the `GalleryFiles` key. */
  lemma GalleryFieldsAvoidOtherKeys(files: seq<FileId>, key: string)
    requires key != GalleryKey
    ensures Lookup(GalleryFields(files), key) == None
  {
    GalleryFieldsAt(files);
  }

  /** Looking up a scalar key in a whole payload skips the section entries. */
  lemma LookupScalarKey(input: MiniProjectInput, key: string)
    requires key in {TitleKey, SortOrderKey}
    ensures Lookup(MiniProjectFields(input), key) ==
      FirstFound(Lookup(TextField(TitleKey, input.title), key), Lookup(SortOrderFields(input.sortOrder), key))
  {
    var tf, sf, of, gf := TextField(TitleKey, input.title), SectionFields(SentSections(input)),
      SortOrderFields(input.sortOrder), GalleryFields(SentFiles(input));
    LookupFour(tf, sf, of, gf, key);
    SectionFieldsAvoidScalarKeys(SentSections(input), key);
    GalleryFieldsAvoidOtherKeys(SentFiles(input), key);
  }

  /** The gallery list read back is exactly the files sent, in order. */
  lemma {:induction false} GalleryFilesRecovered(files: seq<FileId>)
    ensures Files(ValuesNamed(GalleryFields(files), GalleryKey)) == files
  {
    if files != [] {
      var front := files[..|files| - 1];
      var last := [Field(GalleryKey, File(files[|files| - 1]))];
      GalleryFilesRecovered(front);
      ValuesNamedAppend(GalleryFields(front), last, GalleryKey);
      FilesAppend(ValuesNamed(GalleryFields(front), GalleryKey), ValuesNamed(last, GalleryKey));
      assert front + [files[|files| - 1]] == files;
    }
  }

  lemma BindTitleRecovers(input: MiniProjectInput)
    ensures TextAt(MiniProjectFields(input), TitleKey) == input.title
  {
    LookupScalarKey(input, TitleKey);
  }

  lemma BindSortOrderRecovers(input: MiniProjectInput)
    ensures BindSortOrder(MiniProjectFields(input)) == if input.sortOrder.Null? then Absent else input.sortOrder
  {
    LookupScalarKey(input, SortOrderKey);
    BindSortOrderOf(MiniProjectFields(input), input.sortOrder);
  }

  /** A payload whose sort-order entry is the decimal rendering of `v`, or absent, binds to `v` as sent. */
  lemma BindSortOrderOf(fields: seq<Field>, v: Nullable<int>)
    requires Lookup(fields, SortOrderKey) == Lookup(SortOrderFields(v), SortOrderKey)
    ensures BindSortOrder(fields) == if v.Null? then Absent else v
  {
    if v.Present? {
      Decimal.IntToStringRoundTrip(v.value);
    }
  }

  lemma BindAllSectionsRecovers(input: MiniProjectInput)
    ensures BindSections(MiniProjectFields(input), 0) == SentSections(input)
  {
    var f := MiniProjectFields(input);
    var ss := SentSections(input);
    forall j: nat | j <= |ss|
      ensures SectionAt(f, j) == if j < |ss| then Some(ss[j]) else None
    {
      ScalarKeysNotSectionKeys(j);
      LookupSectionKey(input, HeadingKey(j));
      LookupSectionKey(input, ParagraphKey(j));
      LookupHeading(ss, j);
      LookupParagraph(ss, j);
    }
    MiniProjectLayout(input);
    ReadSectionsRecovers((j: nat) => SectionAt(f, j), ss, 0, |f|);
    assert ss[0..] == ss;
  }

  lemma BindGalleryRecovers(input: MiniProjectInput)
    ensures Files(ValuesNamed(MiniProjectFields(input), GalleryKey)) == SentFiles(input)
  {
    var ss, files := SentSections(input), SentFiles(input);
    var tf, sf, of, gf := TextField(TitleKey, input.title), SectionFields(ss),
      SortOrderFields(input.sortOrder), GalleryFields(files);
    ValuesNamedFour(tf, sf, of, gf, GalleryKey);
    SectionFieldsAvoidScalarKeys(ss, GalleryKey);
    assert ValuesNamed(tf, GalleryKey) == [] && ValuesNamed(of, GalleryKey) == [];
    assert ValuesNamed(MiniProjectFields(input), GalleryKey) == ValuesNamed(gf, GalleryKey);
    GalleryFilesRecovered(files);
  }

  /**
   * Every field of a mini-project input survives the payload: the title,
   * each section under its index, the sort order and each gallery file in
   * order are read back, up to what a payload cannot distinguish.
   */
  lemma MiniProjectRoundTrip(input: MiniProjectInput)
    ensures BindMiniProject(MiniProjectFields(input)) == MiniProjectAsSent(input)
  {
    BindTitleRecovers(input);
    BindSortOrderRecovers(input);
    BindAllSectionsRecovers(input);
    BindGalleryRecovers(input);
  }

  // ---------------------------------------------------------------------
  // REST paths

  const Base: string := "/PreviewSites"
  const MiniProjectsSegment: string := "mini-projects"
  const ReorderSegment: string := "reorder"

  function SitePath(id: Guid): string {
    Base + "/" + id
  }

  function MiniProjectsPath(siteId: Guid): string {
    SitePath(siteId) + "/" + MiniProjectsSegment
  }

  function MiniProjectPath(siteId: Guid, projectId: Guid): string {
    MiniProjectsPath(siteId) + "/" + projectId
  }

  function ReorderPath(siteId: Guid): string {
    MiniProjectsPath(siteId) + "/" + ReorderSegment
  }

  /** The resources the API addresses. */
  datatype Route =
    | Sites
    | Site(id: Guid)
    | MiniProjects(siteId: Guid)
    | MiniProject(siteId: Guid, projectId: Guid)
    | Reorder(siteId: Guid)

  function PathOf(r: Route): string {
    match r
    case Sites => Base
    case Site(id) => SitePath(id)
    case MiniProjects(s) => MiniProjectsPath(s)
    case MiniProject(s, p) => MiniProjectPath(s, p)
    case Reorder(s) => ReorderPath(s)
  }

  /** An id that fills one path segment: not empty and without `/`. */
  predicate IsSegment(id: Guid) {
    id != "" && '/' !in id
  }

  /**
   * A route whose ids are path segments; a mini-project id must also differ
   * from `reorder`, whose path is the reorder endpoint's.
   */
  predicate WellFormed(r: Route) {
    match r
    case Sites => true
    case Site(id) => IsSegment(id)
    case MiniProjects(s) => IsSegment(s)
    case MiniProject(s, p) => IsSegment(s) && IsSegment(p) && p != ReorderSegment
    case Reorder(s) => IsSegment(s)
  }

  /** The position of the first `/` in `s`, or `|s|` when there is none. */
  function IndexOfSlash(s: string): (i: nat)
    ensures i <= |s|
    ensures i < |s| ==> s[i] == '/'
    ensures '/' !in s[..i]
  {
    if s == [] then 0 else if s[0] == '/' then 0 else 1 + IndexOfSlash(s[1..])
  }

  lemma {:induction false} IndexOfSlashSplit(a: string, b: string)
    requires '/' !in a
    ensures IndexOfSlash(a + "/" + b) == |a|
  {
    if a != [] {
      assert (a + "/" + b)[1..] == a[1..] + "/" + b;
      assert a[0] in a;
      IndexOfSlashSplit(a[1..], b);
    }
  }

  /** The route a path names, if any; the reading side of `PathOf`. */
  function ParseRoute(path: string): Option<Route> {
    if path == Base then Some(Sites)
    else if |path| > |Base| + 1 && path[..|Base| + 1] == Base + "/" then
      var rest := path[|Base| + 1..];
      var i := IndexOfSlash(rest);
      if i == |rest| then Some(Site(rest))
      else
        var site, tail := rest[..i], rest[i + 1..];
        if site == "" then None
        else if tail == MiniProjectsSegment then Some(MiniProjects(site))
        else if |tail| > 14 && tail[..14] == MiniProjectsSegment + "/" then
          var item := tail[14..];
          if '/' in item then None
          else if item == ReorderSegment then Some(Reorder(site))
          else Some(MiniProject(site, item))
        else None
    else None
  }

  lemma NestedPathShape(site: Guid, tail: string)
    requires IsSegment(site)
    ensures var path := Base + "/" + site + "/" + tail;
      |path| > |Base| + 1 && path[..|Base| + 1] == Base + "/" &&
      var rest := path[|Base| + 1..];
      IndexOfSlash(rest) == |site| < |rest| && rest[..|site|] == site && rest[|site| + 1..] == tail
  {
    var path := Base + "/" + site + "/" + tail;
    var rest := path[|Base| + 1..];
    assert rest == site + "/" + tail;
    IndexOfSlashSplit(site, tail);
  }

  lemma SiteRouteRoundTrip(id: Guid)
    requires IsSegment(id)
    ensures ParseRoute(SitePath(id)) == Some(Site(id))
  {
    var path := SitePath(id);
    assert path[..|Base| + 1] == Base + "/";
    assert path[|Base| + 1..] == id;
    assert IndexOfSlash(id) == |id|;
  }

  lemma MiniProjectsRouteRoundTrip(s: Guid)
    requires IsSegment(s)
    ensures ParseRoute(MiniProjectsPath(s)) == Some(MiniProjects(s))
  {
    NestedPathShape(s, MiniProjectsSegment);
  }

  lemma ItemRouteRoundTrip(s: Guid, p: Guid)
    requires IsSegment(s) && IsSegment(p)
    ensures ParseRoute(MiniProjectPath(s, p)) ==
      Some(if p == ReorderSegment then Reorder(s) else MiniProject(s, p))
  {
    var tail := MiniProjectsSegment + "/" + p;
    assert MiniProjectPath(s, p) == Base + "/" + s + "/" + tail;
    NestedPathShape(s, tail);
    assert tail[14..] == p;
    assert tail[..14] == MiniProjectsSegment + "/";
  }

  /** Every well-formed route is read back from its path. */
  lemma RouteRoundTrip(r: Route)
    requires WellFormed(r)
    ensures ParseRoute(PathOf(r)) == Some(r)
  {
    match r
    case Sites =>
    case Site(id) => SiteRouteRoundTrip(id);
    case MiniProjects(s) => MiniProjectsRouteRoundTrip(s);
    case MiniProject(s, p) => ItemRouteRoundTrip(s, p);
    case Reorder(s) => ItemRouteRoundTrip(s, ReorderSegment);
  }

  /** Distinct well-formed routes have distinct paths. */
  lemma PathsDistinct(a: Route, b: Route)
    requires WellFormed(a) && WellFormed(b)
    ensures PathOf(a) == PathOf(b) <==> a == b
  {
    RouteRoundTrip(a);
    RouteRoundTrip(b);
  }

  /** The one clash among the nested paths: a mini project whose id is `reorder`. */
  lemma ReorderPathClash(siteId: Guid, projectId: Guid)
    ensures MiniProjectPath(siteId, projectId) == ReorderPath(siteId) <==> projectId == ReorderSegment
  {
    var prefix := MiniProjectsPath(siteId) + "/";
    assert MiniProjectPath(siteId, projectId) == prefix + projectId;
    assert ReorderPath(siteId) == prefix + ReorderSegment;
    if prefix + projectId == prefix + ReorderSegment {
      assert projectId == (prefix + projectId)[|prefix|..];
    }
  }

  // ---------------------------------------------------------------------
  // The API members (`previewSitesApi`)

  /** A call of one member of the preview-sites API with its arguments. */
  datatype Operation =
    | List
    | Get(id: Guid)
    | Create(name: string, slug: string, description: Option<string>, logoFile: Nullable<FileId>)
    | Update(id: Guid, site: PreviewSiteInput)
    | Remove(id: Guid)
    | ListMiniProjects(siteId: Guid)
    | GetMiniProject(siteId: Guid, projectId: Guid)
    | CreateMiniProject(siteId: Guid, title: string, sections: seq<Section>,
                        galleryFiles: Option<seq<FileId>>, sortOrder: Nullable<int>)
    | UpdateMiniProject(siteId: Guid, projectId: Guid, project: MiniProjectInput)
    | DeleteMiniProject(siteId: Guid, projectId: Guid)
    | ReorderMiniProjects(siteId: Guid, order: Http.Payload)

  /** The resource an operation addresses. */
  function RouteOf(op: Operation): Route {
    match op
    case List => Sites
    case Create(_, _, _, _) => Sites
    case Get(id) => Site(id)
    case Update(id, _) => Site(id)
    case Remove(id) => Site(id)
    case ListMiniProjects(s) => MiniProjects(s)
    case CreateMiniProject(s, _, _, _, _) => MiniProjects(s)
    case GetMiniProject(s, p) => MiniProject(s, p)
    case UpdateMiniProject(s, p, _) => MiniProject(s, p)
    case DeleteMiniProject(s, p) => MiniProject(s, p)
    case ReorderMiniProjects(s, _) => Reorder(s)
  }

  /** The input a create call hands to the site builder: name and slug are always given. */
  function CreateSiteInput(op: Operation): PreviewSiteInput
    requires op.Create?
  {
    PreviewSiteInput(Some(op.name), Some(op.slug), op.description, op.logoFile)
  }

  /** The input a create call hands to the mini-project builder: title and sections are always given. */
  function CreateMiniProjectInput(op: Operation): MiniProjectInput
    requires op.CreateMiniProject?
  {
    MiniProjectInput(Some(op.title), Some(op.sections), op.galleryFiles, op.sortOrder)
  }

  /** The request each API member sends. */
  function ApiRequest(op: Operation): (r: Http.Request)
    ensures r.url == PathOf(RouteOf(op))
    ensures r.verb == Http.GET <==> op.List? || op.Get? || op.ListMiniProjects? || op.GetMiniProject?
    ensures r.verb == Http.POST <==> op.Create? || op.CreateMiniProject?
    ensures r.verb == Http.PATCH <==> op.Update? || op.UpdateMiniProject? || op.ReorderMiniProjects?
    ensures r.verb == Http.DELETE <==> op.Remove? || op.DeleteMiniProject?
    ensures r.verb != Http.PUT
    ensures r.headers.Keys == {Http.ContentType}
    ensures r.headers[Http.ContentType] == Http.MultipartType <==> r.body.Form?
    ensures r.body.Form? <==> op.Create? || op.Update? || op.CreateMiniProject? || op.UpdateMiniProject?
  {
    match op
    case List => Http.Request(Http.GET, Base, Http.DefaultHeaders, Http.NoBody)
    case Get(id) => Http.Request(Http.GET, SitePath(id), Http.DefaultHeaders, Http.NoBody)
    case Create(_, _, _, _) =>
      Http.Request(Http.POST, Base, Http.MultipartHeaders(), Http.Form(PreviewSiteFields(CreateSiteInput(op))))
    case Update(id, site) =>
      Http.Request(Http.PATCH, SitePath(id), Http.MultipartHeaders(), Http.Form(PreviewSiteFields(site)))
    case Remove(id) => Http.Request(Http.DELETE, SitePath(id), Http.DefaultHeaders, Http.NoBody)
    case ListMiniProjects(s) => Http.Request(Http.GET, MiniProjectsPath(s), Http.DefaultHeaders, Http.NoBody)
    case GetMiniProject(s, p) => Http.Request(Http.GET, MiniProjectPath(s, p), Http.DefaultHeaders, Http.NoBody)
    case CreateMiniProject(s, _, _, _, _) =>
      Http.Request(Http.POST, MiniProjectsPath(s), Http.MultipartHeaders(),
                   Http.Form(MiniProjectFields(CreateMiniProjectInput(op))))
    case UpdateMiniProject(s, p, project) =>
      Http.Request(Http.PATCH, MiniProjectPath(s, p), Http.MultipartHeaders(), Http.Form(MiniProjectFields(project)))
    case DeleteMiniProject(s, p) => Http.Request(Http.DELETE, MiniProjectPath(s, p), Http.DefaultHeaders, Http.NoBody)
    case ReorderMiniProjects(s, order) =>
      Http.Request(Http.PATCH, ReorderPath(s), Http.DefaultHeaders, Http.Json(order))
  }

  /** The payload a multipart request carries, read back by the binder. */
  lemma ApiPayloadsRecovered(op: Operation)
    ensures op.Create? ==>
      BindPreviewSite(ApiRequest(op).body.fields) == SiteAsSent(CreateSiteInput(op))
    ensures op.Update? ==> BindPreviewSite(ApiRequest(op).body.fields) == SiteAsSent(op.site)
    ensures op.CreateMiniProject? ==>
      BindMiniProject(ApiRequest(op).body.fields) == MiniProjectAsSent(CreateMiniProjectInput(op))
    ensures op.UpdateMiniProject? ==> BindMiniProject(ApiRequest(op).body.fields) == MiniProjectAsSent(op.project)
  {
    match op
    case Create(_, _, _, _) => PreviewSiteRoundTrip(CreateSiteInput(op));
    case Update(_, site) => PreviewSiteRoundTrip(site);
    case CreateMiniProject(_, _, _, _, _) => MiniProjectRoundTrip(CreateMiniProjectInput(op));
    case UpdateMiniProject(_, _, project) => MiniProjectRoundTrip(project);
    case _ =>
  }

  /** Whether two operations call the same API member on the same resource. */
  predicate SameEndpoint(a: Operation, b: Operation) {
    RouteOf(a) == RouteOf(b) &&
    ((a.List? && b.List?) || (a.Get? && b.Get?) || (a.Create? && b.Create?) || (a.Update? && b.Update?) ||
     (a.Remove? && b.Remove?) || (a.ListMiniProjects? && b.ListMiniProjects?) ||
     (a.GetMiniProject? && b.GetMiniProject?) || (a.CreateMiniProject? && b.CreateMiniProject?) ||
     (a.UpdateMiniProject? && b.UpdateMiniProject?) || (a.DeleteMiniProject? && b.DeleteMiniProject?) ||
     (a.ReorderMiniProjects? && b.ReorderMiniProjects?))
  }

  /**
   * With well-formed ids, the method and URL of a request identify the API
   * member and the resource it addresses: no two members share an endpoint.
   */
  lemma EndpointsDistinct(a: Operation, b: Operation)
    requires WellFormed(RouteOf(a)) && WellFormed(RouteOf(b))
    ensures ApiRequest(a).verb == ApiRequest(b).verb && ApiRequest(a).url == ApiRequest(b).url
      <==> SameEndpoint(a, b)
  {
    PathsDistinct(RouteOf(a), RouteOf(b));
  }
}
