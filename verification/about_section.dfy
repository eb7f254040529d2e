/**
  The public about section (components/about-section.tsx): a fixed title, a
  description and portrait that the backend may supply, and a monogram in place of
  a missing portrait.
 */
module AboutSection {
  import opened Wrappers
  import opened JsText
  import Api
  import opened Content

  datatype About = About(title: string, description: string, profileImage: string)

  const Initial: About := About("About Me", "", "")

  /**
    `fetchAbout`: an object in `data.about` replaces both fields, each falling back
    to the empty string; no object, or an error, changes nothing. The title is never
    taken from the response.
   */
  function Load(a: About, fetched: Api.Outcome<Option<AboutWire>>): (r: About)
    ensures r.title == a.title
    ensures fetched.Returned? && fetched.value.Some? ==>
              && r.description == OrElse(fetched.value.value.description, "")
              && r.profileImage == OrElse(fetched.value.value.profileImage, "")
    ensures !(fetched.Returned? && fetched.value.Some?) ==> r == a
  {
    match fetched
    case Returned(Some(about)) =>
      a.(description := OrElse(about.description, ""), profileImage := OrElse(about.profileImage, ""))
    case Returned(None) => a
    case Raised(_) => a
  }

  /** What the portrait slot shows: the image, or the title's first character on a gradient. */
  datatype Portrait = Picture(src: string) | Monogram(letter: string)

  function PortraitOf(a: About): (r: Portrait)
    ensures r.Picture? <==> a.profileImage != ""
    ensures r.Picture? ==> r.src == a.profileImage
    ensures r.Monogram? ==> r.letter == FirstChar(a.title)
  {
    if a.profileImage != "" then Picture(a.profileImage) else Monogram(FirstChar(a.title))
  }

  /** Without a portrait from the backend the section shows the monogram "A". */
  lemma MonogramWithoutImage(fetched: Api.Outcome<Option<AboutWire>>)
    requires !(fetched.Returned? && fetched.value.Some? && Truthy(fetched.value.value.profileImage))
    ensures PortraitOf(Load(Initial, fetched)) == Monogram("A")
  {
  }

  /** Through the client's status rule: a response that is not ok leaves the section as it was. */
  lemma StatusDecidesLoad(a: About, ok: bool, body: Option<AboutWire>)
    ensures !ok ==> Load(a, Api.Settle(Api.GetAbout, ok, body)) == a
    ensures ok ==> Load(a, Api.Settle(Api.GetAbout, ok, body)) == Load(a, Api.Returned(body))
  {
  }

  /** Loading is idempotent: the same response applied twice gives the same section. */
  lemma LoadIdempotent(a: About, fetched: Api.Outcome<Option<AboutWire>>)
    ensures Load(Load(a, fetched), fetched) == Load(a, fetched)
  {
  }
}
