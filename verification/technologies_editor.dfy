/**
  The technologies editor of the admin dashboard
  (components/admin/TechnologiesEditor.tsx): a local list edited by append,
  update-by-id and delete-by-id, then saved in bulk.
 */
module TechnologiesEditor {
  import opened Wrappers
  import opened JsText
  import Auth
  import Api
  import Saving
  import Keyed
  import opened Content
  import opened Effects

  /** The "add technology" form. */
  datatype NewTech = NewTech(name: string, icon: string)

  /** A `Partial<Technology>`: the properties present in the update. */
  datatype TechPatch = TechPatch(id: Field, name: Field, icon: Field, category: Field)

  datatype Editor = Editor(technologies: seq<Technology>, form: NewTech, isLoading: bool, isSaving: bool)

  const Initial: Editor := Editor([], NewTech("", ""), true, false)

  /** `{ ...tech, ...updates }`: every property the patch carries replaces the element's. */
  function Patch(t: Technology, p: TechPatch): (r: Technology)
    ensures r.id == p.id.GetOr(t.id) && r.name == p.name.GetOr(t.name)
    ensures r.icon == p.icon.GetOr(t.icon) && r.category == p.category.GetOr(t.category)
  {
    Technology(p.id.GetOr(t.id), p.name.GetOr(t.name), p.icon.GetOr(t.icon), p.category.GetOr(t.category))
  }

  /** Applying the same patch twice is applying it once; the empty patch changes nothing. */
  lemma PatchIdempotent(t: Technology, p: TechPatch)
    ensures Patch(Patch(t, p), p) == Patch(t, p)
    ensures Patch(t, TechPatch(None, None, None, None)) == t
  {
  }

  /** The id an element is addressed by. */
  function TechId(t: Technology): string
  {
    t.id
  }

  /** `addTechnology`: append one element iff name and icon are both filled in. */
  function Add(e: Editor, id: string): (r: Editor)
    ensures e.form.name != "" && e.form.icon != "" ==>
              && r.technologies == e.technologies + [Technology(id, e.form.name, e.form.icon, "")]
              && r.form == NewTech("", "")
    ensures e.form.name == "" || e.form.icon == "" ==> r == e
    ensures r.isLoading == e.isLoading && r.isSaving == e.isSaving
  {
    if e.form.name != "" && e.form.icon != "" then
      e.(technologies := e.technologies + [Technology(id, e.form.name, e.form.icon, "")], form := NewTech("", ""))
    else e
  }

  /**
    `updateTechnology`: same length and order; every element with the id has the
    update merged in, every other element is left as it was.
   */
  function Update(e: Editor, id: string, p: TechPatch): (r: Editor)
    ensures r == e.(technologies := r.technologies)
    ensures |r.technologies| == |e.technologies|
    ensures forall i :: 0 <= i < |e.technologies| ==>
              r.technologies[i] == if e.technologies[i].id == id then Patch(e.technologies[i], p) else e.technologies[i]
  {
    e.(technologies := Keyed.Revise(e.technologies, id, TechId, Patch, p))
  }

  /**
    `deleteTechnology`: exactly the elements whose id differs survive, and nothing
    is removed iff no element has the id.
   */
  function Delete(e: Editor, id: string): (r: Editor)
    ensures r == e.(technologies := r.technologies)
    ensures forall i :: 0 <= i < |r.technologies| ==> r.technologies[i].id != id && r.technologies[i] in e.technologies
    ensures forall i :: 0 <= i < |e.technologies| && e.technologies[i].id != id ==> e.technologies[i] in r.technologies
    ensures |r.technologies| == |e.technologies| <==> forall i :: 0 <= i < |e.technologies| ==> e.technologies[i].id != id
  {
    e.(technologies := Keyed.Without(e.technologies, id, TechId))
  }

  /** Survivors keep their relative order: deleting from a split list deletes from each part. */
  lemma DeleteKeepsOrder(e: Editor, a: seq<Technology>, b: seq<Technology>, id: string)
    requires e.technologies == a + b
    ensures Delete(e, id).technologies == Keyed.Without(a, id, TechId) + Keyed.Without(b, id, TechId)
  {
    Keyed.WithoutKeepsOrder(a, b, id, TechId);
  }

  /** Deleting an id no element has changes nothing. */
  lemma DeleteNoMatch(e: Editor, id: string)
    requires forall i :: 0 <= i < |e.technologies| ==> e.technologies[i].id != id
    ensures Delete(e, id) == e
  {
    Keyed.WithoutNoMatch(e.technologies, id, TechId);
  }

  /** Deleting a freshly added element by its (unused) id restores the list. */
  lemma DeleteUndoesAdd(e: Editor, id: string)
    requires e.form.name != "" && e.form.icon != ""
    requires forall i :: 0 <= i < |e.technologies| ==> e.technologies[i].id != id
    ensures Delete(Add(e, id), id).technologies == e.technologies
  {
    Keyed.WithoutLast(e.technologies, Technology(id, e.form.name, e.form.icon, ""), id, TechId);
  }

  /**
    Updating elements and then deleting them by the same id is just deleting, as
    long as the update does not move them to another id.
   */
  lemma DeleteAfterUpdate(e: Editor, id: string, p: TechPatch)
    requires p.id.None? || p.id == Some(id)
    ensures Delete(Update(e, id, p), id) == Delete(e, id)
  {
    Keyed.WithoutAfterRevise(e.technologies, id, TechId, Patch, p);
  }

  /** `loadTechnologies`: the list is replaced by the response; a failure leaves it alone. */
  function Load(e: Editor, fetched: Api.Outcome<seq<Technology>>): (r: Step<Editor>)
    ensures !r.state.isLoading && r.state.form == e.form && r.state.isSaving == e.isSaving
    ensures fetched.Returned? ==> r.state.technologies == fetched.value && r.toast.Silent?
    ensures fetched.Raised? ==> r.state.technologies == e.technologies
    ensures r.toast == Failure("Failed to load technologies") <==> fetched.Raised?
  {
    match fetched
    case Returned(ts) => Step(e.(technologies := ts, isLoading := false), Silent)
    case Raised(_) => Step(e.(isLoading := false), Failure("Failed to load technologies"))
  }

  /** A failed first load leaves the editor with an empty list and no spinner. */
  lemma FirstLoadFailure(message: string)
    ensures var r := Load(Initial, Api.Raised(message)).state;
            r.technologies == [] && !r.isLoading
  {
  }

  datatype SaveStep = SaveStep(state: Editor, sent: Option<Api.Sent<seq<Technology>>>, toast: Toast)

  /** `handleSave`: requires a token, sends the current list, and leaves the list as it is. */
  function Save(e: Editor, host: Auth.Host, updateOk: bool): (r: SaveStep)
    ensures r.state == e.(isSaving := false)
    ensures r.sent.Some? <==> Auth.IsAuthenticated(host)
    ensures r.sent.Some? ==> r.sent.value == Api.Sent(Api.UpdateTechnologies(Auth.GetToken(host).value), e.technologies)
    ensures r.sent.Some? && updateOk ==> r.toast == Success("Technologies updated successfully!")
    ensures !(r.sent.Some? && updateOk) ==> r.toast == Failure("Failed to update technologies")
  {
    var attempt := Saving.Guarded(host, (t: string) => Api.UpdateTechnologies(t), e.technologies, updateOk,
                                  "Technologies updated successfully!", "Failed to update technologies");
    SaveStep(e.(isSaving := false), attempt.sent, attempt.toast)
  }
}
