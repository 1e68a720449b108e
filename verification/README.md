# CMS admin dashboard: client core in Dafny

This project models the client-side core of a content-management admin
dashboard. It covers the following parts:

- **Session store** (`Auth`). It holds the bearer token and the user and
  mirrors both in the browser's persistent storage under the keys `token`
  and `user`. A value-level session machine (`Init`, `LoggedIn`,
  `LoggedOut`) specifies the store. The class `AuthStore` is the store
  itself, and its methods are proved to perform exactly those transitions
  while keeping the store coherent with its storage.
- **Shared HTTP client** (`Http`). It covers the default headers, the
  generic resource helpers (`get`, `getList`, `getOne`, `create`, `update`,
  `remove`, `upload`) and the request interceptor that attaches
  `Authorization: Bearer <token>`. It also covers the response interceptor:
  on a 401 error it logs out, sends the browser to `/login` and passes the
  error on.
- **Preview-sites API** (`PreviewSites`):
  - the two multipart builders (site and mini project), with the indexed
    section keys `Sections[i].Heading` and `Sections[i].Paragraph` that the
    server's model binder expects;
  - the URLs, methods and headers of every API member.

  A binder-side reader (`BindPreviewSite`, `BindMiniProject`) is the partner
  of the builders. Round-trip lemmas show that the reader recovers every
  field that was sent from the payload's entry list. How the browser then
  encodes that list on the wire is not modelled (see below). A route parser (`ParseRoute`) is the partner of the
  path builders.
- **Form inputs** (`FormInputs`). These are the `number | ''` state of the
  sort-order inputs and the files picked in file inputs.
- **Preview-site editor page** (`PreviewSiteEditPage`). This covers:
  - the three forms and their section edit handlers;
  - selecting a project for editing, with three-section normalisation;
  - the arguments of the site update, mini-project create and
    mini-project update calls, including the "No project selected" refusal;
  - the resets after each success.

  The class invariant is that both mini-project forms hold exactly three
  sections.
- **Image upload page** (`ImageUploadPage`). This covers file selection,
  the sort-order input and the submit guard. It also covers the multipart
  upload sent to `/Image/upload` and a reader that recovers the file and
  sort order.
- **Image detail page** (`ImageDetailPage`). This covers the choice of the
  image address among `url`, `fileUrl` and `path`. An independent "first
  qualifying element of a list" definition is its reference.

The three-section rule for mini projects is kept by the editor page, not
by the builder. In the mini-project builder's input, a comment on the
optional `sections` field says that a provided list must have three
sections (src/api/previewSites.ts:36). The code (`appendSections`) nevertheless emits two
entries for each section it is given, whatever their number, and nothing
checks the count. The model follows the code: `SectionFields` handles any
number of sections. The rule is a class invariant of the editor page
(`PreviewSiteEditPage.EditPage.Valid`), kept by every handler.

## Model

| member | source | states |
|---|---|---|
| Decimal.NatToString | src/api/previewSites.ts:48 | The decimal rendering of a natural number is non-empty, made of digits, and has no leading zero. |
| Decimal.ParseNatToString | src/api/previewSites.ts:48 | Reading back a rendered natural number gives the number itself. |
| Decimal.NatToStringInjective | src/api/previewSites.ts:48 | Distinct numbers render to distinct numerals. |
| Decimal.IntToString | src/api/previewSites.ts:48 | `String(n)` of an integer is a numeral, and it starts with `-` exactly when n is negative. |
| Decimal.ParseInt | src/pages/images/ImageUploadPage.tsx:42 | Reading a numeral succeeds exactly on decimal numerals (an optional minus sign and at least one digit). |
| Decimal.IntToStringRoundTrip | src/api/previewSites.ts:48 | Parsing `String(n)` gives back n, so the sort order is sent without loss. |
| Decimal.IntToStringInjective | src/api/previewSites.ts:48 | Distinct sort orders are sent as distinct texts. |
| Multipart.MultipartForm.constructor | src/api/previewSites.ts:18 | `new FormData()` has no entries. |
| Multipart.MultipartForm.Append | src/api/previewSites.ts:19 | `append` adds exactly one entry at the end and keeps all earlier ones, even those with the same name. |
| Multipart.Lookup | src/api/previewSites.ts:26 | The binder's scalar read is `None` exactly when no entry has the name; otherwise it is the value of an entry with that name. |
| Multipart.ValuesNamed | src/api/previewSites.ts:51-53 | The binder's list read is empty exactly when no entry has the name. |
| Multipart.LookupUnique | src/api/previewSites.ts:26 | A name carried by some entry, where every entry with it has the same value, reads as that value. |
| Auth.StoredToken | src/auth/useAuth.ts:13 | The token restored on load is absent exactly when the `token` key is missing or empty; otherwise it is the stored text. |
| Auth.StoredUser | src/auth/useAuth.ts:14 | The user restored on load is absent exactly when `user` is missing, empty or `null`; otherwise it is the stored record. |
| Auth.StateOf | src/auth/useAuth.ts:25 | The session is authenticated exactly when the token is present and not empty. |
| Auth.Init | src/auth/useAuth.ts:12-14 | The store on page load: the token and user restored from storage, with the storage itself unchanged. |
| Auth.LoggedIn | src/auth/useAuth.ts:15-19 | The login transition: `token` and `user` are written to storage, and the fields become the token and the user. |
| Auth.LoggedOut | src/auth/useAuth.ts:20-24 | The logout transition: both keys are removed from storage, and both fields become null. |
| Auth.InitCoherent | src/auth/useAuth.ts:12-14 | A freshly created store agrees with its storage. |
| Auth.LoginState | src/auth/useAuth.ts:15-19 | After login the session is authenticated exactly when the token is not empty, and the store agrees with storage. |
| Auth.LoginSurvivesReload | src/auth/useAuth.ts:15-19 | A page reload after login restores the same session exactly when the token is not empty. |
| Auth.LogoutClears | src/auth/useAuth.ts:20-24 | Logout makes the session anonymous and userless and removes both keys. Every other storage key is kept, and a reload restores the same session. |
| Auth.LogoutIdempotent | src/auth/useAuth.ts:20-24 | Logging out twice is the same as logging out once. |
| Auth.LogoutUndoesLogin | src/auth/useAuth.ts:15-24 | Logout after login leaves the same session as logout alone. |
| Auth.AuthStore.constructor | src/auth/useAuth.ts:12-14 | The store starts as `Init(storage)` and is coherent. |
| Auth.AuthStore.Login | src/auth/useAuth.ts:15-19 | `login` writes both keys and both fields (the `LoggedIn` transition) and keeps the store coherent. |
| Auth.AuthStore.Logout | src/auth/useAuth.ts:20-24 | `logout` removes both keys and clears both fields (the `LoggedOut` transition) and keeps the store coherent. |
| Auth.AuthStore.IsAuthenticated | src/auth/useAuth.ts:25 | `isAuthenticated()` is true exactly in the Authenticated state. |
| Http.MultipartHeaders | src/api/axios.ts:51-55 | An upload has the same header keys as the defaults, with the content type set to `multipart/form-data`. |
| Http.IdText | src/api/axios.ts:47 | The text a template literal gives an id: the decimal rendering of a number, or the text itself. |
| Http.ItemUrl | src/api/axios.ts:47 | `${url}/${id}` is the collection URL, a slash, then the id's text. |
| Http.ItemUrlInjective | src/api/axios.ts:47-50 | Two item URLs under one collection coincide exactly when the ids render alike. |
| Http.NumericIdsDistinct | src/api/axios.ts:47-50 | Distinct numeric ids address distinct URLs. |
| Http.RequestOf | src/api/axios.ts:45-55 | For each helper: its method (GET, POST, PUT, DELETE, never PATCH), its URL (item URL for getOne, update and remove), its headers (JSON, multipart for upload) and its body. |
| Http.Authorize | src/api/axios.ts:15-22 | With a non-empty token the request gains `Authorization: Bearer <token>`; without one it is unchanged. Method, URL, body and every other header are kept. |
| Http.AuthorizationIffToken | src/api/axios.ts:15-22 | A helper's request carries an Authorization header exactly when a non-empty token is held. |
| Http.Unwrap | src/api/axios.ts:45-55 | A helper resolves to the reply's `data` on success and rejects with the error unchanged. |
| Http.RequestConfig.constructor | src/api/axios.ts:16 | The mutable request configuration starts as the given request. |
| Http.Location.constructor | src/api/axios.ts:37 | The recorded location starts at the given address. |
| Http.InterceptRequest | src/api/axios.ts:15-22 | The configuration is updated in place to `Authorize(config, token)` and returned. |
| Http.InterceptResponse | src/api/axios.ts:29-41 | Replies and errors are passed on unchanged. On a 401 error the store performs the logout transition and the location becomes `/login`. Otherwise store and location are untouched. |
| Http.Send | src/api/axios.ts:15-55 | End to end: the request sent is authorized exactly when the session was authenticated, and the result is the unwrapped reply. A 401 leaves the session anonymous and the browser at `/login`; any other outcome changes nothing. |
| PreviewSites.HeadingKey | src/api/previewSites.ts:29 | The key `Sections[i].Heading`, with the index in decimal. |
| PreviewSites.ParagraphKey | src/api/previewSites.ts:30 | The key `Sections[i].Paragraph`, with the index in decimal. |
| PreviewSites.SectionKeyShape | src/api/previewSites.ts:29-30 | Every section key is `Sections[`, then the decimal index, then `].Heading` or `].Paragraph`. |
| PreviewSites.HeadingNotParagraph | src/api/previewSites.ts:29-30 | A heading key never names a paragraph. |
| PreviewSites.SectionKeysInjective | src/api/previewSites.ts:29-30 | Keys of different section indices differ. |
| PreviewSites.ScalarKeysNotSectionKeys | src/api/previewSites.ts:41-52 | `Title`, `SortOrder` and `GalleryFiles` are never section keys. |
| PreviewSites.SectionFields | src/api/previewSites.ts:27-32 | The entries `appendSections` adds: a heading entry, then a paragraph entry, for each section in order. |
| PreviewSites.SectionFieldsAt | src/api/previewSites.ts:27-32 | Section k becomes exactly entries 2k (heading) and 2k+1 (paragraph), in list order: two entries per section. |
| PreviewSites.SectionEntryNamed | src/api/previewSites.ts:27-32 | An entry named after section j sits at 2j or 2j+1 and carries that section's text. |
| PreviewSites.HeadingEntries | src/api/previewSites.ts:29 | Only section j's heading entry is named `Sections[j].Heading`, and only when section j exists. |
| PreviewSites.ParagraphEntries | src/api/previewSites.ts:30 | Only section j's paragraph entry is named `Sections[j].Paragraph`, and only when section j exists. |
| PreviewSites.LookupHeading | src/api/previewSites.ts:29 | Reading `Sections[j].Heading` from the section entries gives section j's heading, or nothing past the end. |
| PreviewSites.LookupParagraph | src/api/previewSites.ts:30 | Reading `Sections[j].Paragraph` from the section entries gives section j's paragraph, or nothing past the end. |
| PreviewSites.SectionFieldsAvoidScalarKeys | src/api/previewSites.ts:41-52 | Section entries never carry a scalar key. |
| PreviewSites.PreviewSiteFields | src/api/previewSites.ts:18-23 | The site entry list: Name, Slug and Description for each given text, then Logo when a file is given. |
| PreviewSites.BindPreviewSite | src/api/previewSites.ts:19-22 | The binder's reading of a site entry list: the first text under each text key, and the first file under `Logo`. |
| PreviewSites.BuildPreviewSiteFormData | src/api/previewSites.ts:12-24 | The builder returns a new payload whose entries are the site's `PreviewSiteFields`. |
| PreviewSites.PreviewSiteRoundTrip | src/api/previewSites.ts:12-24 | `Name`, `Slug` and `Description` are read back exactly when given, the empty text included. `Logo` is read back exactly when a file is given; null and missing are indistinguishable. |
| PreviewSites.SiteEntryRecovered | src/api/previewSites.ts:19-22 | Each of the four site keys reads back the entry for its input field: the given text or file, or nothing. |
| PreviewSites.BindSiteEntries | src/api/previewSites.ts:12-24 | A payload holding each key's entry binds to the input as sent. |
| PreviewSites.TextAt | src/api/previewSites.ts:19-21 | A text property reads as a text only when an entry of that name holds that text. |
| PreviewSites.FileAt | src/api/previewSites.ts:22 | A file property reads as a file only when an entry of that name holds that file, and never as `null`. |
| PreviewSites.PreviewSiteFieldOrder | src/api/previewSites.ts:19-22 | A site payload lists Name, Slug, Description and Logo in that order, each at most once. |
| PreviewSites.GalleryFields | src/api/previewSites.ts:51-53 | One `GalleryFiles` entry per file, in order. |
| PreviewSites.GalleryFieldsAt | src/api/previewSites.ts:52 | Gallery file k becomes entry k under `GalleryFiles`: one entry per file, in order. |
| PreviewSites.AppendSections | src/api/previewSites.ts:27-32 | `appendSections` appends exactly the section entries after the existing ones. |
| PreviewSites.AppendGalleryFiles | src/api/previewSites.ts:51-53 | Each gallery file is appended once, in order, after the existing entries. |
| PreviewSites.MiniProjectFields | src/api/previewSites.ts:40-55 | The mini-project entry list: the title when given; the sections when given; the sort order in decimal unless missing or null; the gallery files when the list is non-empty. |
| PreviewSites.BindMiniProject | src/api/previewSites.ts:40-55 | The binder's reading of a mini-project entry list. It reads the title, the sections by index upward while both keys are present, the sort order as a decimal integer, and every `GalleryFiles` file. An empty list reads as missing. |
| PreviewSites.BuildMiniProjectFormData | src/api/previewSites.ts:34-56 | The builder returns a new payload whose entries are the project's `MiniProjectFields`. |
| PreviewSites.MiniProjectLayout | src/api/previewSites.ts:40-55 | The payload's length, where the title and sort order sit, and that the sort order is sent in decimal. Omitted inputs contribute no entry. |
| PreviewSites.MiniProjectSectionAt | src/api/previewSites.ts:43-45 | Section k sits at two consecutive entries, heading first, after the title. |
| PreviewSites.MiniProjectGalleryAt | src/api/previewSites.ts:51-53 | Gallery file k sits at one `GalleryFiles` entry after the sort order. |
| PreviewSites.ReadSectionsRecovers | src/api/previewSites.ts:26-32 | A binder reading indices upward until the first index without both keys recovers exactly the sections that were sent. |
| PreviewSites.LookupSectionKey | src/api/previewSites.ts:43-45 | A section key read in a whole payload finds it among the section entries. |
| PreviewSites.LookupScalarKey | src/api/previewSites.ts:41-49 | A scalar read in a whole payload skips the section entries. |
| PreviewSites.GalleryFilesRecovered | src/api/previewSites.ts:51-53 | The files read back under `GalleryFiles` are exactly the files sent, in order. |
| PreviewSites.BindTitleRecovers | src/api/previewSites.ts:41 | The title is read back exactly when it was given. |
| PreviewSites.BindSortOrderRecovers | src/api/previewSites.ts:47-49 | The sort order is read back when given; null and missing both read as missing. |
| PreviewSites.BindSortOrderOf | src/api/previewSites.ts:47-49 | A payload whose `SortOrder` entry is the decimal text of a number reads back that number; with no entry it reads as missing. |
| PreviewSites.BindAllSectionsRecovers | src/api/previewSites.ts:43-45 | All sections sent are read back, in order. |
| PreviewSites.BindGalleryRecovers | src/api/previewSites.ts:51-53 | All gallery files sent are read back, in order; an empty list sends none. |
| PreviewSites.MiniProjectRoundTrip | src/api/previewSites.ts:34-56 | Reading back a mini-project payload gives the input as sent: title, sections, sort order and gallery. An empty list reads as missing, and a null sort order as missing. |
| PreviewSites.SitePath | src/api/previewSites.ts:66 | `/PreviewSites/{id}`. |
| PreviewSites.MiniProjectsPath | src/api/previewSites.ts:87 | `/PreviewSites/{siteId}/mini-projects`. |
| PreviewSites.MiniProjectPath | src/api/previewSites.ts:92 | `/PreviewSites/{siteId}/mini-projects/{projectId}`. |
| PreviewSites.ReorderPath | src/api/previewSites.ts:120 | `/PreviewSites/{siteId}/mini-projects/reorder`. |
| PreviewSites.PathOf | src/api/previewSites.ts:60-120 | The path of each resource: the collection `/PreviewSites`, one site, its mini projects, one mini project, and the reorder endpoint. |
| PreviewSites.SiteRouteRoundTrip | src/api/previewSites.ts:66 | `/PreviewSites/{id}` parses back to the site route. |
| PreviewSites.MiniProjectsRouteRoundTrip | src/api/previewSites.ts:87 | `/PreviewSites/{siteId}/mini-projects` parses back to the mini-project collection route. |
| PreviewSites.ItemRouteRoundTrip | src/api/previewSites.ts:92 | `/PreviewSites/{siteId}/mini-projects/{projectId}` parses back to the project route. The one exception is a project id of `reorder`, which parses as the reorder route. |
| PreviewSites.RouteRoundTrip | src/api/previewSites.ts:60-120 | Every well-formed route is read back from its path. |
| PreviewSites.PathsDistinct | src/api/previewSites.ts:60-120 | Distinct well-formed routes have distinct paths. |
| PreviewSites.ReorderPathClash | src/api/previewSites.ts:116-120 | A project path equals the reorder path exactly when the project id is `reorder`. |
| PreviewSites.ApiRequest | src/api/previewSites.ts:58-121 | For each API member: its URL, its method (GET to read, POST to create, PATCH to update and reorder, DELETE to remove, never PUT), multipart headers exactly when the body is a payload, and which members send a payload. |
| PreviewSites.ApiPayloadsRecovered | src/api/previewSites.ts:68-114 | The payload of each create and update call reads back to the input that was passed. |
| PreviewSites.EndpointsDistinct | src/api/previewSites.ts:58-121 | With well-formed ids, two calls send the same method and URL exactly when they are the same member on the same resource. |
| FormInputs.FromInput | src/pages/images/ImageUploadPage.tsx:40-43 | An empty input is blank; any other input is the number its numeral denotes. |
| FormInputs.Render | src/pages/preview-sites/PreviewSiteEditPage.tsx:224 | The controlled input shows empty text exactly for the blank state. |
| FormInputs.FromRenderedInput | src/pages/preview-sites/PreviewSiteEditPage.tsx:224-225 | Typing back what the input shows leaves the state unchanged. |
| FormInputs.SortOrderArg | src/pages/preview-sites/PreviewSiteEditPage.tsx:76 | A blank sort order is passed as null, a number as itself. |
| FormInputs.FirstFile | src/pages/images/ImageUploadPage.tsx:32-38 | A single-file input yields its first file, or none when there is no file list or it is empty. |
| FormInputs.AllFiles | src/pages/preview-sites/PreviewSiteEditPage.tsx:264 | A multiple-file input yields all its files in order, or none without a file list. |
| FormInputs.FirstOfAll | src/pages/preview-sites/PreviewSiteEditPage.tsx:172 | The single-file reading is the head of the multiple-file reading. |
| PreviewSiteEditPage.EmptySections | src/pages/preview-sites/PreviewSiteEditPage.tsx:8-12 | Three sections, each with empty heading and paragraph. |
| PreviewSiteEditPage.LoadedSiteForm | src/pages/preview-sites/PreviewSiteEditPage.tsx:41-46 | Loading a site fills name and slug, shows a missing description as empty, and keeps the picked logo. |
| PreviewSiteEditPage.EditableSections | src/pages/preview-sites/PreviewSiteEditPage.tsx:110-112 | The editor starts from the project's sections when there are exactly three, and from three blank ones otherwise; always three. |
| PreviewSiteEditPage.SortOrderField | src/pages/preview-sites/PreviewSiteEditPage.tsx:109 | A missing sort order shows as blank, a number as itself. |
| PreviewSiteEditPage.EditFormFor | src/pages/preview-sites/PreviewSiteEditPage.tsx:106-114 | Selecting a project selects it and copies its title. Its sort order becomes `sortOrder ?? ""`. The picked files are cleared. The sections are the project's own when it has three, three blank ones otherwise. |
| PreviewSiteEditPage.WithHeading | src/pages/preview-sites/PreviewSiteEditPage.tsx:237-241 | A heading edit changes only that section's heading. The length and every other section are kept. |
| PreviewSiteEditPage.WithParagraph | src/pages/preview-sites/PreviewSiteEditPage.tsx:248-252 | A paragraph edit changes only that section's paragraph. The length and every other section are kept. |
| PreviewSiteEditPage.HeadingParagraphCommute | src/pages/preview-sites/PreviewSiteEditPage.tsx:237-252 | Heading and paragraph edits commute. |
| PreviewSiteEditPage.HeadingLastWins | src/pages/preview-sites/PreviewSiteEditPage.tsx:237-241 | Of two heading edits to one section, the last wins. |
| PreviewSiteEditPage.SiteUpdateCall | src/pages/preview-sites/PreviewSiteEditPage.tsx:48-55 | The site update targets this site with name and slug. An empty description is left out. The logo is sent as the picked file, or as null when none was picked, and is never omitted. |
| PreviewSiteEditPage.CreateCall | src/pages/preview-sites/PreviewSiteEditPage.tsx:71-78 | The creation passes title, sections and picked files as they are, and a blank sort order as null. |
| PreviewSiteEditPage.UpdateCall | src/pages/preview-sites/PreviewSiteEditPage.tsx:116-125 | The update fails with "No project selected" exactly when no project is selected. Otherwise it targets the selected project and sends the title, the sections and the sort order (`""` as null). When files were picked it sends exactly those files; otherwise no gallery. |
| PreviewSiteEditPage.SiteUpdateDelivers | src/pages/preview-sites/PreviewSiteEditPage.tsx:48-55 | The update's entry list binds back to name and slug, the description only when non-empty, and the logo only when one was picked. |
| PreviewSiteEditPage.CreateDelivers | src/pages/preview-sites/PreviewSiteEditPage.tsx:71-78 | The creation's entry list binds back to the title, the three sections, the picked files (none when none were picked) and the sort order unless blank. |
| PreviewSiteEditPage.UpdateDelivers | src/pages/preview-sites/PreviewSiteEditPage.tsx:116-125 | With a project selected, the update's entry list binds back to the title, the sections, exactly the picked files (missing when none were picked) and the sort order unless blank. Without one, nothing is sent. |
| PreviewSiteEditPage.SaveUnchangedProject | src/pages/preview-sites/PreviewSiteEditPage.tsx:106-125 | Saving right after selecting a project writes back its title, its sort order and its sections (or three blank ones when it did not have three), and leaves its gallery alone. |
| PreviewSiteEditPage.ClosedEditorRefusesSave | src/pages/preview-sites/PreviewSiteEditPage.tsx:126-129 | After the editor closes (by success or by Close), saving is refused. |
| PreviewSiteEditPage.EditPage.constructor | src/pages/preview-sites/PreviewSiteEditPage.tsx:36-39 | All three forms start blank, with three empty sections each. |
| PreviewSiteEditPage.EditPage.LoadSite | src/pages/preview-sites/PreviewSiteEditPage.tsx:41-46 | Loading a site changes only the site form. |
| PreviewSiteEditPage.EditPage.SetLogoFile | src/pages/preview-sites/PreviewSiteEditPage.tsx:172 | Picking a logo keeps the first file and changes nothing else. |
| PreviewSiteEditPage.EditPage.SetCreateSortOrder | src/pages/preview-sites/PreviewSiteEditPage.tsx:225 | The creation sort order becomes the input's value; nothing else changes. |
| PreviewSiteEditPage.EditPage.SetEditSortOrder | src/pages/preview-sites/PreviewSiteEditPage.tsx:293 | The editor sort order becomes the input's value; nothing else changes. |
| PreviewSiteEditPage.EditPage.SetCreateHeading | src/pages/preview-sites/PreviewSiteEditPage.tsx:237-241 | One heading of the creation form changes; the three-section invariant is kept. |
| PreviewSiteEditPage.EditPage.SetCreateParagraph | src/pages/preview-sites/PreviewSiteEditPage.tsx:248-252 | One paragraph of the creation form changes; the invariant is kept. |
| PreviewSiteEditPage.EditPage.SetEditHeading | src/pages/preview-sites/PreviewSiteEditPage.tsx:304-308 | One heading of the editor changes; the invariant is kept. |
| PreviewSiteEditPage.EditPage.SetEditParagraph | src/pages/preview-sites/PreviewSiteEditPage.tsx:314-318 | One paragraph of the editor changes; the invariant is kept. |
| PreviewSiteEditPage.EditPage.SetCreateGalleryFiles | src/pages/preview-sites/PreviewSiteEditPage.tsx:264 | The creation gallery becomes the picked files, replacing the earlier pick. |
| PreviewSiteEditPage.EditPage.SetEditGalleryFiles | src/pages/preview-sites/PreviewSiteEditPage.tsx:342 | The editor's new gallery files become the picked files, replacing the earlier pick. |
| PreviewSiteEditPage.EditPage.StartEdit | src/pages/preview-sites/PreviewSiteEditPage.tsx:106-114 | The editor becomes `EditFormFor(p)`; the other forms are untouched and the invariant is kept. |
| PreviewSiteEditPage.EditPage.CloseEditor | src/pages/preview-sites/PreviewSiteEditPage.tsx:282 | Close deselects the project and keeps what was typed. |
| PreviewSiteEditPage.EditPage.OnSiteUpdated | src/pages/preview-sites/PreviewSiteEditPage.tsx:56-58 | After a site update only the picked logo is cleared. |
| PreviewSiteEditPage.EditPage.OnMiniProjectCreated | src/pages/preview-sites/PreviewSiteEditPage.tsx:79-84 | After a creation the creation form is blank again, with three empty sections. |
| PreviewSiteEditPage.EditPage.OnMiniProjectUpdated | src/pages/preview-sites/PreviewSiteEditPage.tsx:126-129 | After an update the editor deselects and its picked files are cleared. |
| ImageUploadPage.UploadFields | src/pages/images/ImageUploadPage.tsx:52-56 | The upload holds the file first, then the sort order only when not blank. |
| ImageUploadPage.BindUpload | src/pages/images/ImageUploadPage.tsx:52-56 | The binder's reading of an upload: the first file under `file`, and the first `sortOrder` text read as a decimal integer. |
| ImageUploadPage.UploadRoundTrip | src/pages/images/ImageUploadPage.tsx:52-56 | The upload's entry list binds back to the file and, unless blank, the sort order. |
| ImageUploadPage.UploadPage.constructor | src/pages/images/ImageUploadPage.tsx:17-18 | No file is selected and the sort order is blank. |
| ImageUploadPage.UploadPage.HandleFileChange | src/pages/images/ImageUploadPage.tsx:32-38 | The selection becomes the first picked file, or none; the sort order is kept. |
| ImageUploadPage.UploadPage.HandleSortOrderChange | src/pages/images/ImageUploadPage.tsx:40-43 | The sort order becomes the input's value; the selection is kept. |
| ImageUploadPage.UploadPage.HandleSubmit | src/pages/images/ImageUploadPage.tsx:45-59 | Without a file: refused with "Please select a file to upload." Otherwise: the multipart POST of `UploadFields` to `/Image/upload`. |
| ImageUploadPage.SubmitDelivers | src/api/image.ts:7 | The submitted upload is a POST to `/Image/upload` whose entry list binds back to the file and the typed sort order. |
| ImageDetailPage.ImageUrl | src/pages/images/ImageDetailPage.tsx:27-33 | The shown address starts with "http" and is one of the three fields. It is `None` exactly when no field qualifies; `url` wins when it qualifies, then `fileUrl`. |
| ImageDetailPage.FirstHttp | src/pages/images/ImageDetailPage.tsx:28-32 | The first qualifying candidate of a list: every earlier one fails to qualify, and `None` means none qualifies. |
| ImageDetailPage.ImageUrlIsFirstHttp | src/pages/images/ImageDetailPage.tsx:27-33 | The page's choice is the first qualifying field in the order url, fileUrl, path. |

## Left out

- Network, base URL and transport: no request is sent. The transport's
  answer is a parameter of `Http.Send`, and URLs are relative to the
  configured base URL (src/api/axios.ts:5), which is not modelled.
- Query parameters: `list` and `listMiniProjects` pass paging and search
  parameters. Their serialisation by the HTTP library is not modelled, and
  the members are modelled by method and path only.
- FormInputs.FromInput: only empty text and decimal integer numerals are
  modelled (`requires IsInputText`). Fractions, exponents and the NaN that
  `Number` returns for other text are not. `FromInput` also returns the exact
  integer, where `Number` rounds a numeral beyond 2^53 to the nearest
  double.
- PreviewSiteEditPage.EditPage.SetCreateSortOrder: same restriction on the
  typed text as `FromInput`.
- PreviewSiteEditPage.EditPage.SetEditSortOrder: same restriction on the
  typed text as `FromInput`.
- ImageUploadPage.UploadPage.HandleSortOrderChange: same restriction on the
  typed text as `FromInput`.
- Multipart encoding on the wire: the round trips are about the entry list
  a payload holds. The multipart/form-data encoding of the HTML standard
  turns every bare line feed or carriage return in names and text values
  into CRLF. So a description or paragraph typed with line breaks reaches
  the receiving side with its line breaks normalised. That encoding is not
  modelled.
- Decimal.IntToString: does not model JavaScript's exponent notation for
  magnitudes of 1e21 and above. Sort orders are taken as integers.
- Auth.User: the user record is kept as its serialised text. A stored
  value that is not valid JSON, which makes the store's initialisation
  throw, is not modelled.
- Http.Location: navigation is recorded as the new `href` only. The page
  reload it causes is not modelled.
- Http.InterceptRequest: the interceptor's error branch
  (src/api/axios.ts:23-25) passes errors on unchanged and is not a separate
  member.
- Query caching, invalidation, toasts, navigation after upload and
  rendering: React Query, notification and router behaviour are outside
  the model.
- Plain text setters (name, slug, description, titles) are direct
  assignments of the typed text. They are not separate members; the form
  datatypes hold their state.
- The editor page groups its separate state hooks into three form values
  (`SiteForm`, `CreateForm`, `EditForm`), fields of one object.
- Concurrency: the session store and pages are modelled as sequential.
  Overlapping requests and interleaved 401 replies are not covered.
