/**
  The hero editor of the admin dashboard (components/admin/HeroEditor.tsx): load the
  hero copy into an all-blank record, and save the whole record back.
 */
module HeroEditor {
  import opened Wrappers
  import Auth
  import Api
  import Saving
  import opened Content
  import opened Effects

  datatype Editor = Editor(hero: HeroData, isLoading: bool, isSaving: bool)

  const Blank: HeroData := HeroData("", "", "", "", "")

  const Initial: Editor := Editor(Blank, true, false)

  /**
    `loadHeroData`: `fetched` is what `api.getHero()` produced, read as `data.hero`,
    or the error it threw. The loading flag is cleared on every path.
   */
  function Load(e: Editor, fetched: Api.Outcome<Option<HeroWire>>): (r: Step<Editor>)
    ensures !r.state.isLoading && r.state.isSaving == e.isSaving
    ensures fetched.Raised? ==> r.state.hero == e.hero
    ensures fetched.Returned? ==> r.state.hero == OverlayHero(e.hero, fetched.value)
    ensures r.toast == Failure("Failed to load hero data") <==> fetched.Raised?
    ensures r.toast.Silent? <==> fetched.Returned?
  {
    match fetched
    case Returned(hero) => Step(e.(hero := OverlayHero(e.hero, hero), isLoading := false), Silent)
    case Raised(_) => Step(e.(isLoading := false), Failure("Failed to load hero data"))
  }

  /**
    Loading into the fresh editor: the copy changes exactly when the payload is
    accepted, and the call-to-action fields are never taken from the response.
   */
  lemma LoadIntoFreshEditor(fetched: Api.Outcome<Option<HeroWire>>)
    ensures var hero := Load(Initial, fetched).state.hero;
            && hero.ctaText == "" && hero.ctaLink == ""
            && (hero != Blank <==> fetched.Returned? && HeroAccepted(fetched.value))
  {
  }

  /**
    Through the client's status rule: a response that is not ok never reaches the
    overlay, so the record stays as it was and the load failure is reported.
   */
  lemma StatusDecidesLoad(e: Editor, ok: bool, body: Option<HeroWire>)
    ensures var r := Load(e, Api.Settle(Api.GetHero, ok, body));
            && r.state.hero == (if ok then OverlayHero(e.hero, body) else e.hero)
            && (r.toast == Failure("Failed to load hero data") <==> !ok)
            && !r.state.isLoading
  {
  }

  datatype SaveStep = SaveStep(state: Editor, sent: Option<Api.Sent<HeroData>>, toast: Toast)

  /**
    `handleSave`: without a token it throws before `api.updateHero` is called;
    otherwise it sends the whole current record. Local state is never changed, and
    the saving flag ends cleared.
   */
  function Save(e: Editor, host: Auth.Host, updateOk: bool): (r: SaveStep)
    ensures r.state == e.(isSaving := false)
    ensures r.sent.Some? <==> Auth.IsAuthenticated(host)
    ensures r.sent.Some? ==> r.sent.value == Api.Sent(Api.UpdateHero(Auth.GetToken(host).value), e.hero)
    ensures r.sent.Some? && updateOk ==> r.toast == Success("Hero section updated successfully!")
    ensures !(r.sent.Some? && updateOk) ==> r.toast == Failure("Failed to update hero section")
  {
    var attempt := Saving.Guarded(host, (t: string) => Api.UpdateHero(t), e.hero, updateOk,
                                  "Hero section updated successfully!", "Failed to update hero section");
    SaveStep(e.(isSaving := false), attempt.sent, attempt.toast)
  }
}
