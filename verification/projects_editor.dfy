/**
  The projects editor of the admin dashboard (components/admin/ProjectsEditor.tsx):
  a form that either creates a project or edits the one picked from the list, the
  multipart write it sends, and the reload that follows a write or a delete.
 */
module ProjectsEditor {
  import opened Wrappers
  import opened JsText
  import Auth
  import Api
  import Lists
  import opened Effects

  /** A project's `image` as the backend returns it: absent, a URL, or an object that may hold one. */
  datatype ImageValue = NoImage | ImageUrl(link: string) | ImageObject(url: Field)

  /**
    A project as the list holds it. `mongoId` is `_id`; `technologies` is `None`
    when the property is not an array; the link fields may be absent.
   */
  datatype StoredProject = StoredProject(
    mongoId: Field,
    id: Field,
    title: string,
    description: string,
    image: ImageValue,
    technologies: Option<seq<string>>,
    liveUrl: Field,
    liveLink: Field,
    githubUrl: Field,
    githubLink: Field,
    featured: bool)

  /** The form, one text per input, with the technologies as typed. */
  datatype ProjectForm = ProjectForm(
    title: string,
    description: string,
    image: string,
    technologies: string,
    liveUrl: string,
    githubUrl: string,
    featured: bool)

  const EmptyForm: ProjectForm := ProjectForm("", "", "", "", "", "", false)

  datatype Editor = Editor(
    projects: seq<StoredProject>,
    editing: Option<StoredProject>,
    showForm: bool,
    preview: string,
    form: ProjectForm,
    selected: Option<Api.File>,
    isLoading: bool,
    isSaving: bool)

  const Initial: Editor := Editor([], None, false, "", EmptyForm, None, true, false)

  /** `typeof image === 'string' ? image : image?.url || ''` */
  function ImageText(image: ImageValue): (r: string)
    ensures image.ImageUrl? ==> r == image.link
    ensures image.ImageObject? ==> r == OrElse(image.url, "")
    ensures image.NoImage? ==> r == ""
  {
    match image
    case NoImage => ""
    case ImageUrl(url) => url
    case ImageObject(url) => OrElse(url, "")
  }

  /** `project._id || project.id`: the identifier the delete and update requests use. */
  function ProjectKey(p: StoredProject): (r: Field)
    ensures Truthy(p.mongoId) ==> r == p.mongoId
    ensures !Truthy(p.mongoId) ==> r == p.id
  {
    if Truthy(p.mongoId) then p.mongoId else p.id
  }

  /** The key as it appears in a request path: a missing key is interpolated as `undefined`. */
  function RouteId(key: Field): (r: string)
    ensures key.Some? ==> r == key.value
    ensures key.None? ==> r == "undefined"
  {
    match key
    case Some(k) => k
    case None => "undefined"
  }

  /**
    `loadProjects`: `fetched` is `data.projects`, `None` when it is not an array, or
    the error the request threw. A non-array empties the list; an error keeps it.
   */
  function Load(e: Editor, fetched: Api.Outcome<Option<seq<StoredProject>>>): (r: Step<Editor>)
    ensures !r.state.isLoading
    ensures r.state == e.(projects := r.state.projects, isLoading := false)
    ensures fetched.Returned? && fetched.value.Some? ==> r.state.projects == fetched.value.value
    ensures fetched.Returned? && fetched.value.None? ==> r.state.projects == []
    ensures fetched.Raised? ==> r.state.projects == e.projects
    ensures r.toast == Failure("Failed to load projects") <==> fetched.Raised?
    ensures r.toast.Silent? <==> fetched.Returned?
  {
    match fetched
    case Returned(Some(ps)) => Step(e.(projects := ps, isLoading := false), Silent)
    case Returned(None) => Step(e.(projects := [], isLoading := false), Silent)
    case Raised(_) => Step(e.(isLoading := false), Failure("Failed to load projects"))
  }

  /**
    Through the client's status rule: a response that is not ok keeps the list and
    reports the failure; an ok one shows `data.projects`, or nothing when that is
    not an array.
   */
  lemma StatusDecidesLoad(e: Editor, ok: bool, body: Option<seq<StoredProject>>)
    ensures var r := Load(e, Api.Settle(Api.GetProjects, ok, body));
            && r.state.projects == (if !ok then e.projects else if body.Some? then body.value else [])
            && (r.toast == Failure("Failed to load projects") <==> !ok)
  {
  }

  /** The "Add Project" button. */
  function OpenForm(e: Editor): (r: Editor)
    ensures r.showForm && r == e.(showForm := true)
  {
    e.(showForm := true)
  }

  /**
    `resetForm`: an empty form, nothing being edited, the form hidden. The selected
    file and the preview are not part of it.
   */
  function ResetForm(e: Editor): (r: Editor)
    ensures r.form == EmptyForm && r.editing.None? && !r.showForm
    ensures r.projects == e.projects && r.selected == e.selected && r.preview == e.preview
    ensures r.isLoading == e.isLoading && r.isSaving == e.isSaving
  {
    e.(form := EmptyForm, editing := None, showForm := false)
  }

  /** Cancelling a freshly opened add form returns the editor to where it was. */
  lemma CancelUndoesOpen(e: Editor)
    requires e.form == EmptyForm && e.editing.None? && !e.showForm
    ensures ResetForm(OpenForm(e)) == e
    ensures ResetForm(OpenForm(Initial)) == Initial
  {
  }

  /** The form `handleEdit` fills from a project. */
  function FormOf(p: StoredProject): (r: ProjectForm)
    ensures r.title == p.title && r.description == p.description && r.featured == p.featured
    ensures r.image == ImageText(p.image)
    ensures p.technologies.Some? ==> r.technologies == Join(p.technologies.value, ", ")
    ensures p.technologies.None? ==> r.technologies == ""
    ensures r.liveUrl == (if Truthy(p.liveUrl) then p.liveUrl.value else OrElse(p.liveLink, ""))
    ensures r.githubUrl == (if Truthy(p.githubUrl) then p.githubUrl.value else OrElse(p.githubLink, ""))
  {
    ProjectForm(
      p.title,
      p.description,
      ImageText(p.image),
      if p.technologies.Some? then Join(p.technologies.value, ", ") else "",
      OrElse(p.liveUrl, OrElse(p.liveLink, "")),
      OrElse(p.githubUrl, OrElse(p.githubLink, "")),
      p.featured)
  }

  /** `handleEdit`: prefill the form, drop any chosen file, preview the stored image, show the form. */
  function Edit(e: Editor, p: StoredProject): (r: Editor)
    ensures r.form == FormOf(p) && r.editing == Some(p) && r.showForm
    ensures r.selected.None? && r.preview == ImageText(p.image)
    ensures r.projects == e.projects && r.isLoading == e.isLoading && r.isSaving == e.isSaving
  {
    e.(form := FormOf(p), selected := None, preview := ImageText(p.image), editing := Some(p), showForm := true)
  }

  /** The file input: remember the file and preview it through the object URL the browser made for it. */
  function SelectImage(e: Editor, file: Api.File, objectUrl: string): (r: Editor)
    ensures r == e.(selected := Some(file), preview := objectUrl)
  {
    e.(selected := Some(file), preview := objectUrl)
  }

  /** The image the form shows: `previewImage || formData.image`, if either is non-empty. */
  function ShownImage(e: Editor): (r: Option<string>)
    ensures r.None? <==> e.preview == "" && e.form.image == ""
    ensures r.Some? ==> r.value != "" && (r.value == e.preview || (e.preview == "" && r.value == e.form.image))
  {
    if e.preview != "" then Some(e.preview)
    else if e.form.image != "" then Some(e.form.image)
    else None
  }

  /** Editing a project shows its stored image, when it has one. */
  lemma EditShowsStoredImage(e: Editor, p: StoredProject)
    ensures ShownImage(Edit(e, p)) == (if ImageText(p.image) == "" then None else Some(ImageText(p.image)))
  {
  }

  /** A chosen file's preview takes precedence over the stored image. */
  lemma SelectedImageWins(e: Editor, file: Api.File, objectUrl: string)
    requires objectUrl != ""
    ensures ShownImage(SelectImage(e, file, objectUrl)) == Some(objectUrl)
  {
  }

  // ---------------------------------------------------------------------------
  // The technologies text

  /** `s.split(',').map(t => t.trim())` */
  function ParseTechnologies(s: string): (r: seq<string>)
    ensures |r| >= 1
    ensures forall i :: 0 <= i < |r| ==> ',' !in r[i]
    ensures forall i :: 0 <= i < |r| && r[i] != "" ==> !IsWhitespace(r[i][0]) && !IsWhitespace(r[i][|r[i]| - 1])
    ensures ',' !in s ==> r == [Trim(s)]
  {
    var pieces := Split(s, ',');
    PiecesTrimmed(s, pieces);
    Lists.Map(pieces, Trim)
  }

  lemma PiecesTrimmed(s: string, pieces: seq<string>)
    requires pieces == Split(s, ',')
    ensures ',' !in s ==> pieces == [s]
    ensures forall i :: 0 <= i < |pieces| ==> ',' !in Trim(pieces[i])
    ensures forall i :: 0 <= i < |pieces| && Trim(pieces[i]) != "" ==> !IsWhitespace(Trim(pieces[i])[0])
  {
    if ',' !in s { SplitWithoutSeparator(s, ','); }
    forall i | 0 <= i < |pieces|
      ensures ',' !in Trim(pieces[i])
      ensures Trim(pieces[i]) != "" ==> !IsWhitespace(Trim(pieces[i])[0])
    {
      TrimInside(pieces[i]);
    }
  }

  /** `trim` keeps a contiguous part of its input, and that part starts with a non-space. */
  lemma TrimInside(s: string)
    ensures forall c :: c in Trim(s) ==> c in s
    ensures Trim(s) != "" ==> !IsWhitespace(Trim(s)[0])
  {
    var t := TrimStart(s);
    assert Trim(s) <= t;
    forall c | c in Trim(s) ensures c in s {
      var k :| 0 <= k < |Trim(s)| && Trim(s)[k] == c;
      assert t[k] == s[|s| - |t| + k];
    }
  }

  /** One space in front of a name, as `join(', ')` leaves it after a `split(',')`. */
  function Spaced(t: string): string
  {
    " " + t
  }

  /** Prefixing every element with a space turns a `", "` join into a `","` join, shifted by a space. */
  lemma {:induction false} JoinSpaced(ts: seq<string>)
    requires |ts| > 0
    ensures " " + Join(ts, ", ") == Join(Lists.Map(ts, Spaced), ",")
    decreases |ts|
  {
    if |ts| > 1 {
      var padded := Lists.Map(ts, Spaced);
      JoinSpaced(ts[1..]);
      assert padded[1..] == Lists.Map(ts[1..], Spaced);
      assert [padded[0]] + padded[1..] == padded;
      JoinCons(padded[0], padded[1..], ",");
      JoinCons(ts[0], ts[1..], ", ");
      assert [ts[0]] + ts[1..] == ts;
      CommaSpace(ts[0], Join(ts[1..], ", "));
    }
  }

  /** The pieces `split(',')` finds in a `", "` join: the first element, then every other one after a space. */
  function Padded(ts: seq<string>): (r: seq<string>)
    requires |ts| > 0
    ensures |r| == |ts| && r[0] == ts[0]
    ensures forall i :: 0 < i < |ts| ==> r[i] == " " + ts[i]
  {
    [ts[0]] + Lists.Map(ts[1..], Spaced)
  }

  /** `a + ", " + b` read as a comma join whose second piece starts with the space. */
  lemma CommaSpace(a: string, b: string)
    ensures a + ", " + b == a + "," + Spaced(b)
  {
    assert ", " == "," + " ";
  }

  lemma JoinPadded(ts: seq<string>)
    requires |ts| > 0
    ensures Join(ts, ", ") == Join(Padded(ts), ",")
  {
    if |ts| > 1 {
      var rest := Lists.Map(ts[1..], Spaced);
      JoinSpaced(ts[1..]);
      assert [ts[0]] + ts[1..] == ts;
      JoinCons(ts[0], ts[1..], ", ");
      JoinCons(ts[0], rest, ",");
      CommaSpace(ts[0], Join(ts[1..], ", "));
    }
  }

  /** A technology name the round trip preserves: trimmed and free of commas. */
  predicate Clean(t: string)
  {
    ',' !in t && Trimmed(t)
  }

  /**
    Showing a technologies array in the form (`join(', ')`) and parsing the form
    back (`split(',')` and `trim`) restores the array when it is non-empty and every
    name is clean. The empty array comes back as `[""]`, which still travels as the
    same empty text once joined by commas.
   */
  lemma TechnologiesRoundTrip(ts: seq<string>)
    requires forall i :: 0 <= i < |ts| ==> Clean(ts[i])
    ensures |ts| > 0 ==> ParseTechnologies(Join(ts, ", ")) == ts
    ensures |ts| == 0 ==> ParseTechnologies(Join(ts, ", ")) == [""]
    ensures Join(ParseTechnologies(Join(ts, ", ")), ",") == Join(ts, ",")
  {
    if |ts| > 0 {
      ParsePadded(ts);
    } else {
      EmptyTechnologies();
    }
  }

  lemma EmptyTechnologies()
    ensures ParseTechnologies("") == [""]
  {
    assert Split("", ',') == [""];
    assert TrimStart("") == "";
    assert TrimEnd("") == "";
  }

  lemma PaddedCommaFree(ts: seq<string>)
    requires |ts| > 0
    requires forall i :: 0 <= i < |ts| ==> ',' !in ts[i]
    ensures forall i :: 0 <= i < |Padded(ts)| ==> ',' !in Padded(ts)[i]
  {
    var padded := Padded(ts);
    forall i | 0 <= i < |padded| ensures ',' !in padded[i] {
      if i > 0 { assert padded[i] == " " + ts[i]; }
    }
  }

  /** Splitting a `", "` join of comma-free names on `,` yields the padded names. */
  lemma SplitPadded(ts: seq<string>)
    requires |ts| > 0
    requires forall i :: 0 <= i < |ts| ==> ',' !in ts[i]
    ensures Split(Join(ts, ", "), ',') == Padded(ts)
  {
    JoinPadded(ts);
    PaddedCommaFree(ts);
    SplitJoin(Padded(ts), ',');
  }

  /** Trimming the padded names restores trimmed names. */
  lemma TrimPadded(ts: seq<string>)
    requires |ts| > 0
    requires forall i :: 0 <= i < |ts| ==> Trimmed(ts[i])
    ensures Lists.Map(Padded(ts), Trim) == ts
  {
    var m := Lists.Map(Padded(ts), Trim);
    forall i | 0 <= i < |ts| ensures m[i] == ts[i] {
      if i > 0 { TrimAfterSpace(ts[i]); }
    }
  }

  lemma ParsePadded(ts: seq<string>)
    requires |ts| > 0
    requires forall i :: 0 <= i < |ts| ==> Clean(ts[i])
    ensures ParseTechnologies(Join(ts, ", ")) == ts
  {
    SplitPadded(ts);
    TrimPadded(ts);
  }

  // ---------------------------------------------------------------------------
  // Saving and deleting

  /**
    The object `handleSave` hands to `createProject` (`creating`) or `updateProject`:
    the form's fields under the backend's names, the technologies parsed, and for a
    new project an empty `image`.
   */
  function Payload(form: ProjectForm, creating: bool): (r: seq<Api.Entry>)
    ensures |r| == if creating then 7 else 6
    ensures forall i :: 0 <= i < |r| ==> Api.Defined(r[i])
    ensures r[0] == Api.Entry("title", Api.Text(form.title))
    ensures r[1] == Api.Entry("description", Api.Text(form.description))
    ensures r[2] == Api.Entry("technologies", Api.Texts(ParseTechnologies(form.technologies)))
    ensures r[3] == Api.Entry("liveLink", Api.Text(form.liveUrl))
    ensures r[4] == Api.Entry("githubLink", Api.Text(form.githubUrl))
    ensures r[5] == Api.Entry("featured", Api.Flag(form.featured))
    ensures creating ==> r[6] == Api.Entry("image", Api.Text(""))
  {
    [ Api.Entry("title", Api.Text(form.title)),
      Api.Entry("description", Api.Text(form.description)),
      Api.Entry("technologies", Api.Texts(ParseTechnologies(form.technologies))),
      Api.Entry("liveLink", Api.Text(form.liveUrl)),
      Api.Entry("githubLink", Api.Text(form.githubUrl)),
      Api.Entry("featured", Api.Flag(form.featured)) ]
    + (if creating then [Api.Entry("image", Api.Text(""))] else [])
  }

  /** The multipart body a save sends. */
  function Body(form: ProjectForm, creating: bool, image: Option<Api.File>): seq<Api.FormEntry>
  {
    Api.FormEntries(Payload(form, creating), image)
  }

  /**
    The parts a save sends, in order: the six form fields under the backend's names,
    an empty `image` text part when creating, then the chosen file, also named
    `image`.
   */
  lemma BodyParts(form: ProjectForm, creating: bool, image: Option<Api.File>)
    ensures |Body(form, creating, image)| == (if creating then 7 else 6) + (if image.Some? then 1 else 0)
    ensures Body(form, creating, image)[0] == Api.FormEntry("title", Api.TextPart(form.title))
    ensures Body(form, creating, image)[1] == Api.FormEntry("description", Api.TextPart(form.description))
    ensures Body(form, creating, image)[2] == Api.FormEntry("technologies", Api.TextPart(Join(ParseTechnologies(form.technologies), ",")))
    ensures Body(form, creating, image)[3] == Api.FormEntry("liveLink", Api.TextPart(form.liveUrl))
    ensures Body(form, creating, image)[4] == Api.FormEntry("githubLink", Api.TextPart(form.githubUrl))
    ensures Body(form, creating, image)[5] == Api.FormEntry("featured", Api.TextPart(if form.featured then "true" else "false"))
    ensures creating ==> Body(form, creating, image)[6] == Api.FormEntry("image", Api.TextPart(""))
    ensures image.Some? ==> Body(form, creating, image)[|Body(form, creating, image)| - 1] == Api.FormEntry("image", Api.FilePart(image.value))
  {
    BodyIsMap(form, creating, image);
    EncodedFields(form, creating);
  }

  /** Every property of a payload is defined, so each becomes its own part. */
  lemma BodyIsMap(form: ProjectForm, creating: bool, image: Option<Api.File>)
    ensures Body(form, creating, image) == Lists.Map(Payload(form, creating), Api.Encode) + Api.ImageEntries(image)
  {
    Lists.FilterAll(Payload(form, creating), Api.Appended);
  }

  lemma EncodedFields(form: ProjectForm, creating: bool)
    ensures var m := Lists.Map(Payload(form, creating), Api.Encode);
            && |m| == (if creating then 7 else 6)
            && m[0] == Api.FormEntry("title", Api.TextPart(form.title))
            && m[1] == Api.FormEntry("description", Api.TextPart(form.description))
            && m[2] == Api.FormEntry("technologies", Api.TextPart(Join(ParseTechnologies(form.technologies), ",")))
            && m[3] == Api.FormEntry("liveLink", Api.TextPart(form.liveUrl))
            && m[4] == Api.FormEntry("githubLink", Api.TextPart(form.githubUrl))
            && m[5] == Api.FormEntry("featured", Api.TextPart(if form.featured then "true" else "false"))
            && (creating ==> m[6] == Api.FormEntry("image", Api.TextPart("")))
  {
    Api.EncodeTechnologies(ParseTechnologies(form.technologies));
  }

  /** Creating with a chosen file sends two parts named `image`: the empty text first, the file last. */
  lemma CreateSendsTwoImageParts(form: ProjectForm, file: Api.File)
    ensures var b := Body(form, true, Some(file));
            |b| == 8 && b[6].name == "image" && b[7].name == "image"
            && b[6].part == Api.TextPart("") && b[7].part == Api.FilePart(file)
  {
    BodyParts(form, true, Some(file));
  }

  datatype SaveStep = SaveStep(state: Editor, sent: Option<Api.Sent<seq<Api.FormEntry>>>, toasts: seq<Toast>)

  /** The write a save makes: an update of the project being edited, or a create. */
  function WriteCall(e: Editor, token: string): (r: Api.Call)
    ensures e.editing.Some? ==> r == Api.UpdateProject(RouteId(ProjectKey(e.editing.value)), token)
    ensures e.editing.None? ==> r == Api.CreateProject(token)
  {
    if e.editing.Some? then Api.UpdateProject(RouteId(ProjectKey(e.editing.value)), token)
    else Api.CreateProject(token)
  }

  /**
    `handleSave`. `writeOk` is the outcome of the create or update; `reload` is what
    the `loadProjects` that follows a successful write fetched. That reload never
    throws, so a successful write always ends with the form reset.
   */
  function Save(e: Editor, host: Auth.Host, writeOk: bool, reload: Api.Outcome<Option<seq<StoredProject>>>): (r: SaveStep)
    ensures !r.state.isSaving
    ensures r.sent.Some? <==> Auth.IsAuthenticated(host)
    ensures r.sent.Some? ==>
              && r.sent.value.call == WriteCall(e, Auth.GetToken(host).value)
              && r.sent.value.body == Body(e.form, e.editing.None?, e.selected)
    ensures r.sent.Some? && writeOk ==>
              && r.state.projects == Load(e, reload).state.projects
              && r.state.form == EmptyForm && r.state.editing.None? && !r.state.showForm
              && r.state.selected.None? && r.state.preview == ""
              && |r.toasts| >= 1
              && r.toasts[0] == Success(if e.editing.Some? then "Project updated successfully!" else "Project created successfully!")
              && r.toasts[1..] == (if reload.Raised? then [Failure("Failed to load projects")] else [])
    ensures !(r.sent.Some? && writeOk) ==>
              r.state == e.(isSaving := false) && r.toasts == [Failure("Failed to save project")]
  {
    var token := Auth.GetToken(host);
    if token.None? || token.value == "" then
      SaveStep(e.(isSaving := false), None, [Failure("Failed to save project")])
    else
      var sent := Api.Sent(WriteCall(e, token.value), Body(e.form, e.editing.None?, e.selected));
      if !writeOk then
        SaveStep(e.(isSaving := false), Some(sent), [Failure("Failed to save project")])
      else
        var done := if e.editing.Some? then "Project updated successfully!" else "Project created successfully!";
        var loaded := Load(e, reload);
        var after := ResetForm(loaded.state).(selected := None, preview := "", isSaving := false);
        SaveStep(after, Some(sent), [Success(done)] + (if loaded.toast.Silent? then [] else [loaded.toast]))
  }

  /**
    Editing a project and saving it unchanged updates that project under its key,
    sends back its title and flag, sends no file, and sends its technologies as the
    same comma-joined text, as long as every name is clean.
   */
  lemma EditThenSave(e: Editor, p: StoredProject, host: Auth.Host, writeOk: bool, reload: Api.Outcome<Option<seq<StoredProject>>>)
    requires Auth.IsAuthenticated(host)
    requires p.technologies.Some?
    requires forall i :: 0 <= i < |p.technologies.value| ==> Clean(p.technologies.value[i])
    ensures var s := Save(Edit(e, p), host, writeOk, reload).sent.value;
            && s.call == Api.UpdateProject(RouteId(ProjectKey(p)), Auth.GetToken(host).value)
            && |s.body| == 6
            && s.body[0] == Api.FormEntry("title", Api.TextPart(p.title))
            && s.body[2] == Api.FormEntry("technologies", Api.TextPart(Join(p.technologies.value, ",")))
            && s.body[5] == Api.FormEntry("featured", Api.TextPart(if p.featured then "true" else "false"))
  {
    BodyParts(FormOf(p), false, None);
    TechnologiesRoundTrip(p.technologies.value);
  }

  datatype DeleteStep = DeleteStep(state: Editor, sent: Option<Api.Call>, toasts: seq<Toast>)

  /**
    `handleDelete(project._id || project.id)`: `ok` is the outcome of the delete and
    `reload` what the following `loadProjects` fetched.
   */
  function Delete(e: Editor, host: Auth.Host, p: StoredProject, ok: bool, reload: Api.Outcome<Option<seq<StoredProject>>>): (r: DeleteStep)
    ensures r.sent.Some? <==> Auth.IsAuthenticated(host)
    ensures r.sent.Some? ==> r.sent.value == Api.DeleteProject(RouteId(ProjectKey(p)), Auth.GetToken(host).value)
    ensures r.sent.Some? && ok ==>
              && r.state == Load(e, reload).state
              && r.toasts == [Success("Project deleted successfully!")]
                             + (if reload.Raised? then [Failure("Failed to load projects")] else [])
    ensures !(r.sent.Some? && ok) ==> r.state == e && r.toasts == [Failure("Failed to delete project")]
  {
    var token := Auth.GetToken(host);
    if token.None? || token.value == "" then DeleteStep(e, None, [Failure("Failed to delete project")])
    else
      var call := Api.DeleteProject(RouteId(ProjectKey(p)), token.value);
      if !ok then DeleteStep(e, Some(call), [Failure("Failed to delete project")])
      else
        var loaded := Load(e, reload);
        DeleteStep(loaded.state, Some(call), [Success("Project deleted successfully!")]
                                             + (if loaded.toast.Silent? then [] else [loaded.toast]))
  }

  /** A project whose `_id` is set is addressed by it, whatever its `id`; otherwise by its `id`. */
  lemma DeleteAddressesMongoId(e: Editor, host: Auth.Host, p: StoredProject, ok: bool, reload: Api.Outcome<Option<seq<StoredProject>>>)
    requires Auth.IsAuthenticated(host)
    ensures var path := Api.PathOf(Delete(e, host, p, ok, reload).sent.value);
            && (Truthy(p.mongoId) ==> path == "/projects/" + p.mongoId.value)
            && (!Truthy(p.mongoId) && p.id.Some? ==> path == "/projects/" + p.id.value)
            && (!Truthy(p.mongoId) && p.id.None? ==> path == "/projects/undefined")
  {
  }
}
