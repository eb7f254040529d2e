/**
  The social links editor of the admin dashboard (components/admin/SocialsEditor.tsx):
  a local list edited by append, update-by-id and delete-by-id, then saved in bulk.
 */
module SocialsEditor {
  import opened Wrappers
  import opened JsText
  import Auth
  import Api
  import Keyed
  import Saving
  import opened Content
  import opened Effects

  /** The "add social link" form. */
  datatype NewSocial = NewSocial(platform: string, url: string, icon: string)

  /** A `Partial<Social>`: the properties present in the update. */
  datatype SocialPatch = SocialPatch(id: Field, platform: Field, url: Field, icon: Field)

  datatype Editor = Editor(socials: seq<Social>, form: NewSocial, isLoading: bool, isSaving: bool)

  const Initial: Editor := Editor([], NewSocial("", "", ""), true, false)

  /** `{ ...social, ...updates }`: every property the patch carries replaces the element's. */
  function Patch(s: Social, p: SocialPatch): (r: Social)
    ensures r.id == p.id.GetOr(s.id) && r.platform == p.platform.GetOr(s.platform)
    ensures r.url == p.url.GetOr(s.url) && r.icon == p.icon.GetOr(s.icon)
  {
    Social(p.id.GetOr(s.id), p.platform.GetOr(s.platform), p.url.GetOr(s.url), p.icon.GetOr(s.icon))
  }

  /** Applying the same patch twice is applying it once; the empty patch changes nothing. */
  lemma PatchIdempotent(s: Social, p: SocialPatch)
    ensures Patch(Patch(s, p), p) == Patch(s, p)
    ensures Patch(s, SocialPatch(None, None, None, None)) == s
  {
  }

  /** The id an element is addressed by. */
  function SocialId(s: Social): string
  {
    s.id
  }

  /** `addSocial`: append one element iff platform, url and icon are all filled in. */
  function Add(e: Editor, id: string): (r: Editor)
    ensures e.form.platform != "" && e.form.url != "" && e.form.icon != "" ==>
              && r.socials == e.socials + [Social(id, e.form.platform, e.form.url, e.form.icon)]
              && r.form == NewSocial("", "", "")
    ensures e.form.platform == "" || e.form.url == "" || e.form.icon == "" ==> r == e
    ensures r.isLoading == e.isLoading && r.isSaving == e.isSaving
  {
    if e.form.platform != "" && e.form.url != "" && e.form.icon != "" then
      e.(socials := e.socials + [Social(id, e.form.platform, e.form.url, e.form.icon)],
         form := NewSocial("", "", ""))
    else e
  }

  /**
    `updateSocial`: same length and order; every element with the id has the
    update merged in, every other element is left as it was.
   */
  function Update(e: Editor, id: string, p: SocialPatch): (r: Editor)
    ensures r == e.(socials := r.socials)
    ensures |r.socials| == |e.socials|
    ensures forall i :: 0 <= i < |e.socials| ==>
              r.socials[i] == if e.socials[i].id == id then Patch(e.socials[i], p) else e.socials[i]
  {
    e.(socials := Keyed.Revise(e.socials, id, SocialId, Patch, p))
  }

  /**
    `deleteSocial`: exactly the elements whose id differs survive, and nothing is
    removed iff no element has the id.
   */
  function Delete(e: Editor, id: string): (r: Editor)
    ensures r == e.(socials := r.socials)
    ensures forall i :: 0 <= i < |r.socials| ==> r.socials[i].id != id && r.socials[i] in e.socials
    ensures forall i :: 0 <= i < |e.socials| && e.socials[i].id != id ==> e.socials[i] in r.socials
    ensures |r.socials| == |e.socials| <==> forall i :: 0 <= i < |e.socials| ==> e.socials[i].id != id
  {
    e.(socials := Keyed.Without(e.socials, id, SocialId))
  }

  /** Survivors keep their relative order: deleting from a split list deletes from each part. */
  lemma DeleteKeepsOrder(e: Editor, a: seq<Social>, b: seq<Social>, id: string)
    requires e.socials == a + b
    ensures Delete(e, id).socials == Keyed.Without(a, id, SocialId) + Keyed.Without(b, id, SocialId)
  {
    Keyed.WithoutKeepsOrder(a, b, id, SocialId);
  }

  /** Deleting an id no element has changes nothing. */
  lemma DeleteNoMatch(e: Editor, id: string)
    requires forall i :: 0 <= i < |e.socials| ==> e.socials[i].id != id
    ensures Delete(e, id) == e
  {
    Keyed.WithoutNoMatch(e.socials, id, SocialId);
  }

  /** Deleting a freshly added element by its (unused) id restores the list. */
  lemma DeleteUndoesAdd(e: Editor, id: string)
    requires e.form.platform != "" && e.form.url != "" && e.form.icon != ""
    requires forall i :: 0 <= i < |e.socials| ==> e.socials[i].id != id
    ensures Delete(Add(e, id), id).socials == e.socials
  {
    Keyed.WithoutLast(e.socials, Social(id, e.form.platform, e.form.url, e.form.icon), id, SocialId);
  }

  /**
    Updating elements and then deleting them by the same id is just deleting, as
    long as the update does not move them to another id.
   */
  lemma DeleteAfterUpdate(e: Editor, id: string, p: SocialPatch)
    requires p.id.None? || p.id == Some(id)
    ensures Delete(Update(e, id, p), id) == Delete(e, id)
  {
    Keyed.WithoutAfterRevise(e.socials, id, SocialId, Patch, p);
  }

  /** `loadSocials`: the list is replaced by the response; a failure leaves it alone. */
  function Load(e: Editor, fetched: Api.Outcome<seq<Social>>): (r: Step<Editor>)
    ensures !r.state.isLoading && r.state.form == e.form && r.state.isSaving == e.isSaving
    ensures fetched.Returned? ==> r.state.socials == fetched.value && r.toast.Silent?
    ensures fetched.Raised? ==> r.state.socials == e.socials
    ensures r.toast == Failure("Failed to load social links") <==> fetched.Raised?
  {
    match fetched
    case Returned(ss) => Step(e.(socials := ss, isLoading := false), Silent)
    case Raised(_) => Step(e.(isLoading := false), Failure("Failed to load social links"))
  }

  /** A failed first load leaves the editor with an empty list and no spinner. */
  lemma FirstLoadFailure(message: string)
    ensures var r := Load(Initial, Api.Raised(message)).state;
            r.socials == [] && !r.isLoading
  {
  }

  datatype SaveStep = SaveStep(state: Editor, sent: Option<Api.Sent<seq<Social>>>, toast: Toast)

  /** `handleSave`: requires a token, sends the current list, and leaves the list as it is. */
  function Save(e: Editor, host: Auth.Host, updateOk: bool): (r: SaveStep)
    ensures r.state == e.(isSaving := false)
    ensures r.sent.Some? <==> Auth.IsAuthenticated(host)
    ensures r.sent.Some? ==> r.sent.value == Api.Sent(Api.UpdateSocials(Auth.GetToken(host).value), e.socials)
    ensures r.sent.Some? && updateOk ==> r.toast == Success("Social links updated successfully!")
    ensures !(r.sent.Some? && updateOk) ==> r.toast == Failure("Failed to update social links")
  {
    var attempt := Saving.Guarded(host, (t: string) => Api.UpdateSocials(t), e.socials, updateOk,
                                  "Social links updated successfully!", "Failed to update social links");
    SaveStep(e.(isSaving := false), attempt.sent, attempt.toast)
  }
}
