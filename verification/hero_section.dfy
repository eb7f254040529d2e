/**
  The public hero section (components/hero-section.tsx): built-in copy that a
  complete backend hero replaces, and a spinner until the one load settles.
 */
module HeroSection {
  import opened Wrappers
  import Api
  import opened Content

  datatype Section = Section(hero: HeroData, isLoading: bool)

  /** The copy shown when the backend has nothing usable. */
  const DefaultHero: HeroData := HeroData(
    "No Code Solution Expert",
    "Hi, I am Joash Adeoye",
    "I help startups and individuals bring their ideas and product to life by building responsive  and sellable MVPs .",
    "View My Work",
    "#projects")

  const Initial: Section := Section(DefaultHero, true)

  /**
    `loadHeroData`: `fetched` is `data.hero` (when an object) or the error thrown.
    Both paths end the spinner; an error, like an unusable payload, keeps the copy.
   */
  function Load(s: Section, fetched: Api.Outcome<Option<HeroWire>>): (r: Section)
    ensures !r.isLoading
    ensures fetched.Raised? ==> r.hero == s.hero
    ensures fetched.Returned? ==> r.hero == OverlayHero(s.hero, fetched.value)
  {
    match fetched
    case Returned(hero) => Section(OverlayHero(s.hero, hero), false)
    case Raised(_) => s.(isLoading := false)
  }

  /**
    After the first load the visitor sees the backend's copy exactly when it is
    complete, the built-in copy otherwise, and the built-in call to action always.
   */
  lemma FirstLoad(fetched: Api.Outcome<Option<HeroWire>>)
    ensures var r := Load(Initial, fetched);
            && !r.isLoading
            && r.hero.ctaText == "View My Work" && r.hero.ctaLink == "#projects"
            && (fetched.Returned? && HeroAccepted(fetched.value) ==>
                  r.hero == DefaultHero.(title := fetched.value.value.title.value,
                                         subtitle := fetched.value.value.subtitle.value,
                                         description := fetched.value.value.description.value))
            && (!(fetched.Returned? && HeroAccepted(fetched.value)) ==> r.hero == DefaultHero)
  {
  }

  /** The copy shown is never blank: every field of the default is non-empty, and an accepted payload's are too. */
  lemma NeverBlank(fetched: Api.Outcome<Option<HeroWire>>)
    ensures var h := Load(Initial, fetched).hero;
            h.title != "" && h.subtitle != "" && h.description != "" && h.ctaText != "" && h.ctaLink != ""
  {
  }
}
