/**
  The fixed social sidebar (components/social-sidebar.tsx): its own request for the
  social links, the built-in links it falls back to, and the icon each platform
  name selects.
 */
module SocialSidebar {
  import opened Wrappers
  import opened JsText
  import Api

  datatype SocialLink = SocialLink(platform: string, url: string, icon: string)

  /** The links shown whenever the backend offers none. */
  const Fallback: seq<SocialLink> := [
    SocialLink("github", "https://github.com", "github"),
    SocialLink("linkedin", "https://linkedin.com", "linkedin"),
    SocialLink("email", "mailto:oyerinde13@gmail.com", "email"),
    SocialLink("twitter", "https://twitter.com", "twitter")
  ]

  /** The request the sidebar makes itself, bypassing the client: JSON headers and no credentials. */
  const SidebarRequest: Api.Request := Api.Request(
    Api.Get,
    "https://joash-backend.onrender.com/api/socials",
    [Api.Header("Accept", "application/json"), Api.Header("Content-Type", "application/json")])

  /** The sidebar asks the same endpoint, with the same method, as the client's `getSocials`. */
  lemma SameEndpointAsClient()
    ensures SidebarRequest.url == Api.Build(Api.GetSocials).url
    ensures SidebarRequest.verb == Api.Build(Api.GetSocials).verb
    ensures Api.HeaderValue(SidebarRequest.headers, "Authorization").None?
  {
    assert Api.BaseUrl + "/socials" == "https://joash-backend.onrender.com/api/socials";
  }

  /**
    What the sidebar ends up listing. `fetched` is the parsed body (`None` when it
    is not an array) or the failure: a status that is not ok, a network error, or
    the abort after ten seconds. Only a non-empty array is used.
   */
  function Settle(fetched: Api.Outcome<Option<seq<SocialLink>>>): (r: seq<SocialLink>)
    ensures |r| > 0
    ensures r != Fallback ==> fetched.Returned? && fetched.value.Some? && r == fetched.value.value
    ensures fetched.Returned? && fetched.value.Some? && |fetched.value.value| > 0 ==> r == fetched.value.value
    ensures !(fetched.Returned? && fetched.value.Some? && |fetched.value.value| > 0) ==> r == Fallback
  {
    match fetched
    case Returned(Some(links)) => if |links| > 0 then links else Fallback
    case Returned(None) => Fallback
    case Raised(_) => Fallback
  }

  datatype Icon = GithubIcon | LinkedinIcon | TwitterIcon | MailIcon

  /** `getIcon`: the platform name, lower-cased, picks the icon; any other name gets the GitHub icon. */
  function IconFor(platform: string): (r: Icon)
    ensures r == LinkedinIcon <==> FoldCase(platform) == "linkedin"
    ensures r == TwitterIcon <==> FoldCase(platform) == "twitter"
    ensures r == MailIcon <==> FoldCase(platform) == "email"
    ensures r == GithubIcon <==> FoldCase(platform) !in {"linkedin", "twitter", "email"}
  {
    var name := FoldCase(platform);
    if name == "github" then GithubIcon
    else if name == "linkedin" then LinkedinIcon
    else if name == "twitter" then TwitterIcon
    else if name == "email" then MailIcon
    else GithubIcon
  }

  /** Lower-casing twice is lower-casing once. */
  lemma FoldCaseIdempotent(s: string)
    ensures FoldCase(FoldCase(s)) == FoldCase(s)
  {
    var once := FoldCase(s);
    var twice := FoldCase(once);
    forall i | 0 <= i < |s| ensures twice[i] == once[i] {
      assert once[i] == FoldChar(s[i]);
    }
  }

  /** The icon does not depend on the case of the platform name. */
  lemma IconIgnoresCase(platform: string)
    ensures IconFor(FoldCase(platform)) == IconFor(platform)
  {
    FoldCaseIdempotent(platform);
  }

  /** Each built-in link gets its own icon. */
  lemma FallbackIcons()
    ensures IconFor(Fallback[0].platform) == GithubIcon
    ensures IconFor(Fallback[1].platform) == LinkedinIcon
    ensures IconFor(Fallback[2].platform) == MailIcon
    ensures IconFor(Fallback[3].platform) == TwitterIcon
  {
    LowerStaysLower("github");
    LowerStaysLower("linkedin");
    LowerStaysLower("email");
    LowerStaysLower("twitter");
  }

  /** A name already in lower-case ASCII letters is its own lower-case form. */
  lemma LowerStaysLower(s: string)
    requires forall i :: 0 <= i < |s| ==> 'a' <= s[i] <= 'z'
    ensures FoldCase(s) == s
  {
  }
}
