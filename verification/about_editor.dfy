/**
  The about editor of the admin dashboard (components/admin/AboutEditor.tsx): load
  the description and profile image, and save them, uploading a newly chosen image
  first.
 */
module AboutEditor {
  import opened Wrappers
  import opened JsText
  import Auth
  import Api
  import opened Content
  import opened Effects

  /** The editor's record: the description and the profile image URL. */
  datatype AboutData = AboutData(description: string, profileImage: string)

  datatype Editor = Editor(about: AboutData, selected: Option<Api.File>, preview: string, isLoading: bool, isSaving: bool)

  const Initial: Editor := Editor(AboutData("", ""), None, "", true, false)

  /** A payload is taken only when `data.about` is an object whose description is a string. */
  predicate Accepted(about: Option<AboutWire>)
  {
    about.Some? && about.value.description.Some?
  }

  /** `loadAboutData`; the loading flag is cleared on every path. */
  function Load(e: Editor, fetched: Api.Outcome<Option<AboutWire>>): (r: Step<Editor>)
    ensures !r.state.isLoading && r.state.selected == e.selected && r.state.isSaving == e.isSaving
    ensures fetched.Returned? && Accepted(fetched.value) ==>
              && r.state.about.description == fetched.value.value.description.value
              && r.state.about.profileImage == OrElse(fetched.value.value.profileImage, "")
              && r.state.preview == r.state.about.profileImage
    ensures !(fetched.Returned? && Accepted(fetched.value)) ==>
              r.state.about == e.about && r.state.preview == e.preview
    ensures r.toast == Failure("Failed to load about data") <==> fetched.Raised?
    ensures r.toast.Silent? <==> fetched.Returned?
  {
    match fetched
    case Raised(_) => Step(e.(isLoading := false), Failure("Failed to load about data"))
    case Returned(about) =>
      if Accepted(about) then
        var image := OrElse(about.value.profileImage, "");
        Step(e.(about := AboutData(about.value.description.value, image), preview := image, isLoading := false), Silent)
      else
        Step(e.(isLoading := false), Silent)
  }

  /** A missing or empty profile image is loaded as the empty string, and the preview follows it. */
  lemma LoadWithoutImage(e: Editor, description: string, image: Field)
    requires !Truthy(image)
    ensures var r := Load(e, Api.Returned(Some(AboutWire(Some(description), image)))).state;
            r.about == AboutData(description, "") && r.preview == ""
  {
  }

  datatype SaveStep = SaveStep(
    state: Editor,
    upload: Option<Api.Sent<Api.File>>,
    update: Option<Api.Sent<AboutData>>,
    toast: Toast)

  /**
    `handleSave`. `upload` is the outcome of the image upload (its `url`, or the
    error thrown for a rejected status); it is consulted only when a file is
    selected. `updateOk` is the outcome of `api.updateAbout`.
   */
  function Save(e: Editor, host: Auth.Host, upload: Api.Outcome<string>, updateOk: bool): (r: SaveStep)
    ensures !r.state.isSaving
    ensures r.upload.Some? <==> Auth.IsAuthenticated(host) && e.selected.Some?
    ensures r.upload.Some? ==> r.upload.value == Api.Sent(Api.UploadImage(Auth.GetToken(host).value), e.selected.value)
    ensures r.update.Some? <==> Auth.IsAuthenticated(host) && (e.selected.None? || upload.Returned?)
    ensures r.update.Some? ==>
              && r.update.value.call == Api.UpdateAbout(Auth.GetToken(host).value)
              && r.update.value.body.description == e.about.description
              && r.update.value.body.profileImage == (if e.selected.Some? then upload.value else e.about.profileImage)
    ensures r.update.Some? && updateOk ==>
              && r.state.about == AboutData(e.about.description, r.update.value.body.profileImage)
              && r.state.preview == r.update.value.body.profileImage
              && r.state.selected == None
              && r.toast == Success("About section updated successfully!")
    ensures !(r.update.Some? && updateOk) ==>
              r.state == e.(isSaving := false) && r.toast == Failure("Failed to update about section")
  {
    var done := e.(isSaving := false);
    var failed := SaveStep(done, None, None, Failure("Failed to update about section"));
    var token := Auth.GetToken(host);
    if token.None? || token.value == "" then failed
    else
      var uploadSent := if e.selected.Some? then Some(Api.Sent(Api.UploadImage(token.value), e.selected.value)) else None;
      if e.selected.Some? && upload.Raised? then failed.(upload := uploadSent)
      else
        var url := if e.selected.Some? then upload.value else e.about.profileImage;
        var update := Api.Sent(Api.UpdateAbout(token.value), AboutData(e.about.description, url));
        if updateOk then
          SaveStep(done.(about := done.about.(profileImage := url), selected := None, preview := url),
                   uploadSent, Some(update), Success("About section updated successfully!"))
        else
          SaveStep(done, uploadSent, Some(update), Failure("Failed to update about section"))
  }

  /** Without a token nothing is uploaded or updated and the editor is left as it was. */
  lemma SaveWithoutToken(e: Editor, host: Auth.Host, upload: Api.Outcome<string>, updateOk: bool)
    requires !Auth.IsAuthenticated(host)
    ensures var r := Save(e, host, upload, updateOk);
            r.upload == None && r.update == None && r.state.about == e.about && r.state.selected == e.selected
  {
  }

  /** A rejected upload aborts the save: the update is never sent and the record is unchanged. */
  lemma RejectedUploadAborts(e: Editor, host: Auth.Host, message: string, updateOk: bool)
    requires Auth.IsAuthenticated(host) && e.selected.Some?
    ensures var r := Save(e, host, Api.Raised(message), updateOk);
            r.upload.Some? && r.update == None && r.state.about == e.about && r.state.preview == e.preview
  {
  }
}
