/**
  The content records exchanged with the backend (the interfaces of lib/api.ts),
  the shapes in which the components actually read responses, and the hero
  acceptance rule that the hero editor and the public hero section share.
 */
module Content {
  import opened Wrappers
  import opened JsText

  datatype HeroData = HeroData(title: string, subtitle: string, description: string, ctaText: string, ctaLink: string)

  /** `data.hero` when it is an object: the three properties the loaders look at. */
  datatype HeroWire = HeroWire(title: Field, subtitle: Field, description: Field)

  /** `data.about` when it is an object. */
  datatype AboutWire = AboutWire(description: Field, profileImage: Field)

  datatype Technology = Technology(id: string, name: string, icon: string, category: string)

  datatype Social = Social(id: string, platform: string, url: string, icon: string)

  datatype ContactMessage = ContactMessage(name: string, email: string, message: string)

  /**
    The loaders accept `data.hero` only when it is an object whose title, subtitle
    and description are all truthy. `None` stands for a missing body, a missing
    `hero` property, or one that is not an object.
   */
  predicate HeroAccepted(hero: Option<HeroWire>)
  {
    hero.Some? && Truthy(hero.value.title) && Truthy(hero.value.subtitle) && Truthy(hero.value.description)
  }

  /** `setHeroData(prev => ({...prev, title, subtitle, description}))` when accepted. */
  function OverlayHero(prev: HeroData, hero: Option<HeroWire>): (r: HeroData)
    ensures HeroAccepted(hero) ==>
              && r.title == hero.value.title.value && r.title != ""
              && r.subtitle == hero.value.subtitle.value && r.subtitle != ""
              && r.description == hero.value.description.value && r.description != ""
    ensures !HeroAccepted(hero) ==> r == prev
    ensures r.ctaText == prev.ctaText && r.ctaLink == prev.ctaLink
  {
    if HeroAccepted(hero) then
      prev.(title := hero.value.title.value,
            subtitle := hero.value.subtitle.value,
            description := hero.value.description.value)
    else prev
  }

  /** Overlaying is idempotent: loading the same payload twice changes nothing more. */
  lemma OverlayHeroIdempotent(prev: HeroData, hero: Option<HeroWire>)
    ensures OverlayHero(OverlayHero(prev, hero), hero) == OverlayHero(prev, hero)
  {
  }
}
