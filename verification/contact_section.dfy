/**
  The public contact section (components/contact-section.tsx): the message form,
  its submission, and the social links it lists once they have loaded.
 */
module ContactSection {
  import opened Wrappers
  import Api
  import opened Content
  import opened Effects

  /** The three inputs, by their `name` attribute. */
  datatype InputName = NameInput | EmailInput | MessageInput

  datatype Section = Section(socials: seq<Social>, form: ContactMessage, isSubmitting: bool, isLoading: bool)

  const EmptyForm: ContactMessage := ContactMessage("", "", "")

  const Initial: Section := Section([], EmptyForm, false, true)

  /** `handleInputChange`: the named field takes the input's value; the other two stay. */
  function Change(s: Section, input: InputName, value: string): (r: Section)
    ensures r.socials == s.socials && r.isSubmitting == s.isSubmitting && r.isLoading == s.isLoading
    ensures r.form.name == (if input == NameInput then value else s.form.name)
    ensures r.form.email == (if input == EmailInput then value else s.form.email)
    ensures r.form.message == (if input == MessageInput then value else s.form.message)
  {
    match input
    case NameInput => s.(form := s.form.(name := value))
    case EmailInput => s.(form := s.form.(email := value))
    case MessageInput => s.(form := s.form.(message := value))
  }

  /** Typing into two different inputs gives the same form in either order. */
  lemma ChangesCommute(s: Section, a: InputName, x: string, b: InputName, y: string)
    requires a != b
    ensures Change(Change(s, a, x), b, y) == Change(Change(s, b, y), a, x)
  {
  }

  /** The last value typed into an input is the one kept. */
  lemma LastChangeWins(s: Section, input: InputName, x: string, y: string)
    ensures Change(Change(s, input, x), input, y) == Change(s, input, y)
  {
  }

  datatype SubmitStep = SubmitStep(state: Section, sent: Api.Sent<ContactMessage>, toast: Toast)

  /**
    `handleSubmit`: the form is always sent as it stands, without any token. A
    success clears it; a failure keeps it for another try.
   */
  function Submit(s: Section, ok: bool): (r: SubmitStep)
    ensures r.sent == Api.Sent(Api.SubmitContact, s.form)
    ensures !r.state.isSubmitting && r.state.socials == s.socials && r.state.isLoading == s.isLoading
    ensures ok ==>
              && r.state.form == EmptyForm
              && r.toast == Success("Message sent successfully! I'll get back to you soon.")
    ensures !ok ==> r.state.form == s.form && r.toast == Failure("Failed to send message. Please try again.")
  {
    var sent := Api.Sent(Api.SubmitContact, s.form);
    if ok then SubmitStep(s.(form := EmptyForm, isSubmitting := false), sent,
                          Success("Message sent successfully! I'll get back to you soon."))
    else SubmitStep(s.(isSubmitting := false), sent, Failure("Failed to send message. Please try again."))
  }

  /** The contact request carries no credentials, whoever is signed in. */
  lemma SubmitIsAnonymous(s: Section, ok: bool)
    ensures Api.TokenOf(Submit(s, ok).sent.call).None?
    ensures Api.HeaderValue(Api.Build(Submit(s, ok).sent.call).headers, "Authorization").None?
  {
    Api.AuthorizationCarriesToken(Api.SubmitContact);
  }

  /** `loadSocials`: the response replaces the list; an error is only logged. Either way loading ends. */
  function LoadSocials(s: Section, fetched: Api.Outcome<seq<Social>>): (r: Section)
    ensures !r.isLoading && r.form == s.form && r.isSubmitting == s.isSubmitting
    ensures fetched.Returned? ==> r.socials == fetched.value
    ensures fetched.Raised? ==> r.socials == s.socials
  {
    match fetched
    case Returned(ss) => s.(socials := ss, isLoading := false)
    case Raised(_) => s.(isLoading := false)
  }

  /** The "Connect with me" block appears only once loading is over and there is a link to show. */
  predicate ShowsSocials(s: Section)
  {
    !s.isLoading && |s.socials| > 0
  }

  /** Before the load nothing is listed; after it, the links are listed exactly when the backend returned some. */
  lemma SocialsVisibility(fetched: Api.Outcome<seq<Social>>)
    ensures !ShowsSocials(Initial)
    ensures ShowsSocials(LoadSocials(Initial, fetched)) <==> fetched.Returned? && |fetched.value| > 0
  {
  }
}
