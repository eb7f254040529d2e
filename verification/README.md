# Portfolio site: a Dafny model of its state transitions

The site is a Next.js portfolio with a public landing page and an admin
dashboard. Most of it is rendering and fetch glue. What this project models is
the deterministic logic buried in the components:

- the `admin_token` slot in local storage, and the cookie-based route guard;
- the content client: the URL, method and headers of every request; the rule
  that a response that is not ok becomes an error; and the multipart
  serialisation of a project;
- the admin login page and the dashboard's mount gate and logout;
- the admin editors for the hero copy, the about section, technologies, social
  links and projects;
- the public hero, about, contact, sidebar and projects sections.

Each handler becomes a pure function from (state, what the network or storage
returned) to (new state, requests made, notifications shown, navigation). A
network reply is an input: `Api.Outcome<T>` is `Returned(value)` or
`Raised(message)`, and a write's outcome is a `bool`. Browser versus server
execution is `Auth.Host`. Toasts and router calls are recorded as values of
`Effects.Toast` and `Effects.Nav`. A JSON property that may be absent is
`JsText.Field`, an `Option<string>`. JavaScript truthiness of such a property
means "present and non-empty".

The JavaScript string operations the code relies on are written out in
`JsText` with their ECMAScript meaning:

- `split` on one character always yields at least one piece;
- `join`;
- `trim`, using the WhiteSpace and LineTerminator code points of ECMA-262;
- `charAt(0)`;
- `toLowerCase`, as far as it decides equality with an all-ASCII name.

Modules follow the source files:

| module | file |
|---|---|
| `Auth` | lib/auth.ts |
| `RouteGuard` | middleware.ts |
| `Api` | lib/api.ts |
| `LoginPage` | app/admin/page.tsx |
| `DashboardPage` | app/admin/dashboard/page.tsx |
| `HeroEditor`, `AboutEditor`, `TechnologiesEditor`, `SocialsEditor`, `ProjectsEditor` | components/admin/*.tsx |
| `HeroSection`, `AboutSection`, `ContactSection`, `SocialSidebar`, `ProjectsSection` | components/*.tsx |

Supporting modules:

- `Content` holds the shared records and the hero acceptance rule. The hero editor and the public hero section both use that rule.
- `Saving` holds the token-guarded save that the hero, technologies and socials editors share.
- `Lists` holds `filter` and `map`.
- `Keyed` holds update-by-id and delete-by-id on lists of records. The technologies and social-links editors share them.
- `Wrappers` holds `Option`.

## Model

| member | source | states |
|---|---|---|
| Auth.GetToken | lib/auth.ts:4-7 | outside a browser the token is null; in a browser it is present exactly when the `admin_token` key is stored, and it is that key's value |
| Auth.SetToken | lib/auth.ts:9-12 | in a browser the slot then holds exactly the given token, the only key added is `admin_token`, and every other key keeps its value; on the server nothing changes |
| Auth.RemoveToken | lib/auth.ts:14-17 | afterwards the token is null; in a browser only `admin_token` is dropped and every other key keeps its value |
| Auth.AuthenticatedIff | lib/auth.ts:19-21 | the gate is open iff running in a browser whose slot holds a non-empty string, so an empty token counts as signed out |
| Auth.LastSetWins | lib/auth.ts:9-12 | a later set overwrites an earlier one: setting twice equals setting the second token once |
| Auth.SetThenAuthenticated | lib/auth.ts:9-21 | after setting a token the gate is open iff in a browser and the token is non-empty |
| Auth.RemoveThenSignedOut | lib/auth.ts:14-21 | after removal the token is null and the gate is closed |
| Auth.RemoveIdempotent | lib/auth.ts:14-17 | removing twice equals removing once |
| Auth.ServerIsInert | lib/auth.ts:4-17 | outside a browser set and remove change nothing, and the gate is closed |
| RouteGuard.Middleware | middleware.ts:10-19 | redirects iff the path starts with `/admin/dashboard` and there is no `token` cookie; a redirect always goes to `/admin` |
| RouteGuard.DashboardWithoutCookieRedirects | middleware.ts:12-16 | a dashboard path without the cookie is redirected to `/admin` |
| RouteGuard.DashboardWithCookiePasses | middleware.ts:12-18 | a dashboard path with a `token` cookie of any value passes |
| RouteGuard.OtherPathsPass | middleware.ts:12-18 | a path outside the dashboard prefix passes whatever the cookies |
| RouteGuard.OnlyPresenceMatters | middleware.ts:5-8 | two requests with the same path that agree on whether the cookie exists get the same decision; the cookie's value never matters |
| Api.Build | lib/api.ts:51-228 | every request goes to the base URL plus the call's path, with the call's method. It carries `Authorization: Bearer <token>` iff the call takes a token, and `Content-Type: application/json` iff its body is JSON. It has no other header. The upload that uses this shape is issued from the about editor; see Api.UploadRequest |
| Api.UploadRequest | components/admin/AboutEditor.tsx:62-69 | the about editor's direct upload is a POST to `https://joash-backend.onrender.com/api/upload`, the base URL plus `/upload`, with the bearer token as its only header |
| Api.AuthorizationCarriesToken | lib/api.ts:59-228 | a request carries `Authorization` iff it is a write or the logout, and its bearer credential is the token the call was given; reads, contact and login carry none |
| Api.BearerRoundTrip | lib/api.ts:64 | the header value `Bearer <token>` yields back exactly the token under the scheme of section 2.1 of RFC 6750 |
| Api.ProjectUrls | lib/api.ts:154-173 | project update and delete address `<base>/projects/<id>` with PUT and DELETE |
| Api.Settle | lib/api.ts:53-57 | a response that is not ok raises, with that call's own non-empty message, instead of returning a body; an ok response returns the body |
| HeroEditor.StatusDecidesLoad | lib/api.ts:53-57 | fed through the status rule, a response that is not ok leaves the hero record as it was and shows the load failure; an ok one overlays the body |
| AboutSection.StatusDecidesLoad | lib/api.ts:73-77 | fed through the status rule, a response that is not ok leaves the about section as it was; an ok one is applied as a reply |
| ProjectsEditor.StatusDecidesLoad | lib/api.ts:113-117 | fed through the status rule, a response that is not ok keeps the list and reports the failure; an ok one shows `data.projects`, or `[]` when that is not an array |
| LoginPage.StatusDecidesLogin | lib/api.ts:208-218 | fed through the status rule, a rejected status stores nothing, stays on the page and shows "Invalid credentials"; an accepted one stores the returned token |
| Api.BuildFormData | lib/api.ts:120-130 | the `forEach` serialisation loop produces exactly the entry list defined by filter-then-encode, followed by the image |
| Api.FormEntriesShape | lib/api.ts:121-130 | undefined and null properties produce no entry; every other property produces one text entry named after its key, in key order; a file entry exists iff an image is supplied, and then it is last |
| Api.TechnologiesJoined | lib/api.ts:122-123 | a technologies array becomes one text entry, its elements joined by `,` with no space |
| LoginPage.Begin | app/admin/page.tsx:20-22 | a plain transcription of `setIsLoading(true)`: the flag is raised and the credentials are kept |
| LoginPage.LoadingWhileInFlight | app/admin/page.tsx:20-34 | the flag is up from the submit until the reply settles; afterwards, on either outcome, it is down and the credentials are as typed |
| LoginPage.HandleLogin | app/admin/page.tsx:20-34 | on success the returned token is stored, the success toast shows and the router pushes `/admin/dashboard`; on failure the slot is untouched, there is no navigation, and "Invalid credentials" shows only then; the loading flag ends false |
| LoginPage.SuccessStoresToken | app/admin/page.tsx:25-28 | in a browser, success stores exactly the returned token, and the gate opens iff that token is non-empty |
| LoginPage.FailureKeepsSlot | app/admin/page.tsx:29-30 | a failed login leaves the token and the gate as they were and stays on the page |
| DashboardPage.Render | app/admin/dashboard/page.tsx:45-51 | the editors render iff the local flag is set; otherwise only the spinner |
| DashboardPage.Mount | app/admin/dashboard/page.tsx:21-27 | with the gate closed the page pushes `/admin` and the flag stays as it was; with it open the flag is set and there is no navigation |
| DashboardPage.MountGate | app/admin/dashboard/page.tsx:21-27 | mounted fresh, the editors show iff the gate is open, and the redirect happens iff it is closed |
| DashboardPage.HandleLogout | app/admin/dashboard/page.tsx:29-43 | the remote logout is called iff a non-empty token is stored, with that token; the token is removed, the flag cleared, "Logged out successfully" shown and `/admin` replaced in every case |
| DashboardPage.LogoutIgnoresRemoteResult | app/admin/dashboard/page.tsx:35-41 | the outcome of logout does not depend on whether the remote call failed. It holds by construction: the handler never reads the result, just as the source only logs a failure |
| DashboardPage.LoginThenMount | app/admin/page.tsx:25-28 | after a successful login with a non-empty token, mounting the dashboard shows the editors |
| DashboardPage.LogoutThenMount | app/admin/dashboard/page.tsx:29-43 | after logout the spinner shows, and mounting again sends the user to `/admin` |
| Content.OverlayHero | components/admin/HeroEditor.tsx:32-46 | title, subtitle and description are replaced, by non-empty strings, exactly when the payload is an object with all three truthy; otherwise nothing changes; the call-to-action fields never change |
| Content.OverlayHeroIdempotent | components/hero-section.tsx:27-41 | applying the same payload twice equals applying it once |
| Saving.Guarded | components/admin/HeroEditor.tsx:55-68 | the write is sent iff the gate is open, with the stored token and the given body; the success toast shows iff it was sent and succeeded, the failure toast otherwise |
| HeroEditor.Load | components/admin/HeroEditor.tsx:29-53 | an error keeps the record and shows "Failed to load hero data"; a reply overlays it under the acceptance rule; loading ends false on both paths |
| HeroEditor.LoadIntoFreshEditor | components/admin/HeroEditor.tsx:15-21 | from the blank initial record the call-to-action fields stay empty, and the record changes iff a complete payload arrived |
| HeroEditor.Save | components/admin/HeroEditor.tsx:55-68 | without a token nothing is sent; otherwise the whole current record is sent with the token; local state is unchanged except that saving ends false |
| AboutEditor.Load | components/admin/AboutEditor.tsx:28-48 | accepted only for an object with a string description; a missing or empty image becomes `''`; the preview then equals the loaded image; an error keeps the data and shows "Failed to load about data" |
| AboutEditor.LoadWithoutImage | components/admin/AboutEditor.tsx:38-42 | a payload without an image loads as the empty image and an empty preview |
| AboutEditor.Save | components/admin/AboutEditor.tsx:50-86 | an upload happens iff a token and a file are present; the update happens iff a token is present and no file is selected or the upload succeeded; the URL sent is the upload result or the current image; success sets image and preview to that URL and clears the file; any failure leaves the data unchanged; saving ends false |
| AboutEditor.SaveWithoutToken | components/admin/AboutEditor.tsx:54-55 | without a token neither upload nor update is sent and the data is unchanged |
| AboutEditor.RejectedUploadAborts | components/admin/AboutEditor.tsx:69 | a rejected upload means the update is never sent and the data and preview are unchanged |
| Keyed.Revise | components/admin/TechnologiesEditor.tsx:67-71 | updating by id keeps length and order, merges the update into every element with the id, and leaves the others identical |
| Keyed.Without | components/admin/TechnologiesEditor.tsx:73-75 | deleting by id keeps exactly the elements whose id differs; nothing is removed iff no element has the id |
| Keyed.WithoutKeepsOrder | components/admin/TechnologiesEditor.tsx:73-75 | deleting distributes over concatenation, so survivors keep their relative order |
| Keyed.WithoutNoMatch | components/admin/TechnologiesEditor.tsx:73-75 | deleting an id no element has leaves the list unchanged |
| Keyed.WithoutLast | components/admin/TechnologiesEditor.tsx:54-75 | deleting the id of an element just appended, an id no earlier element has, gives back the earlier list |
| Keyed.WithoutAfterRevise | components/admin/TechnologiesEditor.tsx:67-75 | an update that keeps elements under the id, followed by a delete of that id, equals the delete alone |
| TechnologiesEditor.Patch | components/admin/TechnologiesEditor.tsx:69 | a plain transcription of `{ ...tech, ...updates }`: each property present in the update replaces the element's, absent ones are kept |
| TechnologiesEditor.PatchIdempotent | components/admin/TechnologiesEditor.tsx:67-71 | the same update applied twice equals applying it once, and an empty update changes nothing |
| TechnologiesEditor.Add | components/admin/TechnologiesEditor.tsx:54-65 | iff name and icon are non-empty, one element with the given id, the form's name and icon and an empty category is appended and the form is reset; otherwise nothing changes |
| TechnologiesEditor.Update | components/admin/TechnologiesEditor.tsx:67-71 | only the list changes; it keeps its length, every element with the id has the update merged in, and every other element is unchanged |
| TechnologiesEditor.Delete | components/admin/TechnologiesEditor.tsx:73-75 | only the list changes; exactly the elements whose id differs survive, and nothing is removed iff no element has the id |
| TechnologiesEditor.DeleteKeepsOrder | components/admin/TechnologiesEditor.tsx:73-75 | deleting from a list split in two deletes from each part, so survivors keep their order |
| TechnologiesEditor.DeleteNoMatch | components/admin/TechnologiesEditor.tsx:73-75 | deleting an id no element has leaves the editor unchanged |
| TechnologiesEditor.DeleteAfterUpdate | components/admin/TechnologiesEditor.tsx:67-75 | an update that keeps the id, followed by a delete of that id, leaves the same editor as the delete alone |
| TechnologiesEditor.DeleteUndoesAdd | components/admin/TechnologiesEditor.tsx:54-75 | deleting a freshly added element by its unused id restores the list |
| TechnologiesEditor.Load | components/admin/TechnologiesEditor.tsx:28-37 | a reply replaces the list; an error keeps it and shows "Failed to load technologies"; loading ends false |
| TechnologiesEditor.FirstLoadFailure | components/admin/TechnologiesEditor.tsx:15-36 | a failed first load leaves an empty list and no spinner |
| TechnologiesEditor.Save | components/admin/TechnologiesEditor.tsx:39-52 | sent iff a token is present, with the current list; the list is unchanged and saving ends false |
| SocialsEditor.Patch | components/admin/SocialsEditor.tsx:67 | a plain transcription of `{ ...social, ...updates }`: each property present in the update replaces the element's, absent ones are kept |
| SocialsEditor.PatchIdempotent | components/admin/SocialsEditor.tsx:65-69 | the same update applied twice equals applying it once, and an empty update changes nothing |
| SocialsEditor.Add | components/admin/SocialsEditor.tsx:54-63 | iff platform, url and icon are all non-empty, one element copying them with the given id is appended and the form is reset; otherwise nothing changes |
| SocialsEditor.Update | components/admin/SocialsEditor.tsx:65-69 | only the list changes; it keeps its length, every element with the id has the update merged in, and every other element is unchanged |
| SocialsEditor.Delete | components/admin/SocialsEditor.tsx:71-73 | only the list changes; exactly the elements whose id differs survive, and nothing is removed iff no element has the id |
| SocialsEditor.DeleteKeepsOrder | components/admin/SocialsEditor.tsx:71-73 | deleting from a list split in two deletes from each part, so survivors keep their order |
| SocialsEditor.DeleteNoMatch | components/admin/SocialsEditor.tsx:71-73 | deleting an id no element has leaves the editor unchanged |
| SocialsEditor.DeleteAfterUpdate | components/admin/SocialsEditor.tsx:65-73 | an update that keeps the id, followed by a delete of that id, leaves the same editor as the delete alone |
| SocialsEditor.DeleteUndoesAdd | components/admin/SocialsEditor.tsx:54-73 | deleting a freshly added element by its unused id restores the list |
| SocialsEditor.Load | components/admin/SocialsEditor.tsx:28-37 | a reply replaces the list; an error keeps it and shows "Failed to load social links"; loading ends false |
| SocialsEditor.FirstLoadFailure | components/admin/SocialsEditor.tsx:15-36 | a failed first load leaves an empty list and no spinner |
| SocialsEditor.Save | components/admin/SocialsEditor.tsx:39-52 | sent iff a token is present, with the current list; the list is unchanged and saving ends false |
| ProjectsEditor.Load | components/admin/ProjectsEditor.tsx:38-47 | the list becomes `data.projects` when it is an array and `[]` otherwise; an error keeps the list and shows "Failed to load projects"; loading ends false |
| ProjectsEditor.ResetForm | components/admin/ProjectsEditor.tsx:49-61 | the form is emptied, nothing is being edited and the form is hidden; the list, file and preview are untouched |
| ProjectsEditor.OpenForm | components/admin/ProjectsEditor.tsx:170 | a plain transcription of the add button: only the form's visibility changes |
| ProjectsEditor.CancelUndoesOpen | components/admin/ProjectsEditor.tsx:170-188 | cancelling a freshly opened add form returns the editor to where it was, the initial editor included |
| ProjectsEditor.ImageText | components/admin/ProjectsEditor.tsx:127 | the stored image as text: a string image is itself, an object gives its `url` or `''`, and an absent image gives `''` |
| ProjectsEditor.FormOf | components/admin/ProjectsEditor.tsx:124-132 | the edit form takes title, description and flag as stored; technologies joined by `, `, or `''` for a non-array; `liveUrl \|\| liveLink \|\| ''` and the same for the GitHub link |
| ProjectsEditor.Edit | components/admin/ProjectsEditor.tsx:123-137 | editing fills the form from the project, clears any chosen file, previews the stored image, marks the project as edited and shows the form |
| ProjectsEditor.ShownImage | components/admin/ProjectsEditor.tsx:218-220 | the form shows the preview when set, else the form's image, and nothing iff both are empty |
| ProjectsEditor.SelectImage | components/admin/ProjectsEditor.tsx:210-214 | a plain transcription of the file input: the file is remembered and previewed through the given object URL; SelectedImageWins states what the form then shows |
| ProjectsEditor.EditShowsStoredImage | components/admin/ProjectsEditor.tsx:127-134 | after editing, the form shows the project's stored image exactly when it has one |
| ProjectsEditor.SelectedImageWins | components/admin/ProjectsEditor.tsx:212-220 | a chosen file's preview takes precedence over the stored image |
| ProjectsEditor.ParseTechnologies | components/admin/ProjectsEditor.tsx:86 | parsing yields at least one name; no name contains a comma or starts or ends with whitespace; text without a comma yields just its trimmed self |
| ProjectsEditor.JoinPadded | components/admin/ProjectsEditor.tsx:128 | a `, ` join of the names is the `,` join of the padded pieces |
| ProjectsEditor.TechnologiesRoundTrip | components/admin/ProjectsEditor.tsx:86-128 | for trimmed, comma-free names, editing then saving reproduces a non-empty list exactly; the empty list comes back as `['']`; either way the comma-joined text sent equals that of the original list |
| ProjectsEditor.Payload | components/admin/ProjectsEditor.tsx:83-104 | an update sends six defined properties in order: `title`, `description`, the parsed `technologies`, then the form's `liveUrl` and `githubUrl` renamed to `liveLink` and `githubLink`, then `featured`. A create adds a seventh, `image: ''` |
| ProjectsEditor.BodyParts | components/admin/ProjectsEditor.tsx:80-108 | the multipart body is title, description, technologies joined by `,`, `liveLink`, `githubLink` and `featured` as `true`/`false`; then, when creating, an empty `image` text; then the chosen file, last |
| ProjectsEditor.CreateSendsTwoImageParts | components/admin/ProjectsEditor.tsx:96-108 | creating with a chosen file sends two parts named `image`: the empty text, then the file |
| ProjectsEditor.Save | components/admin/ProjectsEditor.tsx:63-121 | sent iff a token is present; a successful write shows the created/updated toast, reloads the list, resets the form and clears file and preview; a failed write or a missing token leaves everything but the saving flag and shows "Failed to save project" |
| ProjectsEditor.EditThenSave | components/admin/ProjectsEditor.tsx:80-132 | saving a just-edited project updates it under its key, sends its title and flag back, sends no file, and sends clean technologies as the same comma-joined text |
| ProjectsEditor.Delete | components/admin/ProjectsEditor.tsx:139-150 | the delete is sent iff a token is present, for the project's key; success shows the toast and reloads; failure leaves the editor as it was and shows "Failed to delete project" |
| ProjectsEditor.ProjectKey | components/admin/ProjectsEditor.tsx:82 | the key a project is written and deleted under: `_id` when it is truthy, `id` otherwise |
| ProjectsEditor.DeleteAddressesMongoId | components/admin/ProjectsEditor.tsx:355 | the delete path is `/projects/` plus `_id` when truthy, else `id`, else `undefined` |
| HeroSection.Load | components/hero-section.tsx:23-50 | an error keeps the copy; a reply overlays it under the acceptance rule; the spinner ends on both paths |
| HeroSection.FirstLoad | components/hero-section.tsx:10-49 | after the first load the backend's copy shows iff it is complete, else the built-in copy; the built-in call to action `View My Work` → `#projects` always stays |
| HeroSection.NeverBlank | components/hero-section.tsx:10-41 | after the first load no hero field is empty |
| AboutSection.Load | components/about-section.tsx:14-28 | an object replaces description and image, each defaulting to `''`; no object or an error changes nothing; the title is never replaced |
| AboutSection.PortraitOf | components/about-section.tsx:64-75 | the image shows iff it is non-empty; otherwise the title's first character, empty iff the title is |
| AboutSection.MonogramWithoutImage | components/about-section.tsx:7-75 | without an image from the backend the section shows the monogram `A` of "About Me" |
| AboutSection.LoadIdempotent | components/about-section.tsx:17-23 | applying the same response twice equals applying it once |
| ContactSection.Change | components/contact-section.tsx:56-61 | an input changes only the field it names |
| ContactSection.ChangesCommute | components/contact-section.tsx:56-61 | edits to two different inputs commute |
| ContactSection.LastChangeWins | components/contact-section.tsx:56-61 | the last value typed into an input is the one kept |
| ContactSection.Submit | components/contact-section.tsx:41-54 | the current form is always sent; success clears the form with the thank-you toast; failure keeps it with the retry toast; submitting ends false |
| ContactSection.SubmitIsAnonymous | lib/api.ts:196-205 | the contact request carries no token and no `Authorization` header |
| ContactSection.LoadSocials | components/contact-section.tsx:30-39 | a reply replaces the links; an error keeps them; loading ends false |
| ContactSection.SocialsVisibility | components/contact-section.tsx:226 | nothing is listed before the load; afterwards the links are listed iff the backend returned a non-empty list |
| SocialSidebar.SameEndpointAsClient | components/social-sidebar.tsx:27-33 | the sidebar's own request hits the same URL with the same method as the client's `getSocials`, without credentials |
| SocialSidebar.Settle | components/social-sidebar.tsx:34-52 | a non-empty array is used as is; an empty array, a non-array, a bad status, an error or the abort all give the four built-in links; the result is never empty |
| SocialSidebar.IconFor | components/social-sidebar.tsx:63-76 | the lower-cased platform `linkedin`, `twitter` or `email` picks that icon; every other name gets the GitHub icon |
| SocialSidebar.IconIgnoresCase | components/social-sidebar.tsx:64 | the icon of a name equals the icon of its lower-cased form |
| SocialSidebar.FoldCaseIdempotent | components/social-sidebar.tsx:64 | lower-casing twice equals lower-casing once |
| SocialSidebar.FallbackIcons | components/social-sidebar.tsx:20-25 | the four built-in links get the GitHub, LinkedIn, mail and Twitter icons |
| ProjectsSection.Featured | components/projects-section.tsx:27 | exactly the featured projects of the list |
| ProjectsSection.Others | components/projects-section.tsx:28 | exactly the projects that are not featured |
| ProjectsSection.Partition | components/projects-section.tsx:27-28 | the two sections together hold every project exactly as often as the list |
| ProjectsSection.SectionsKeepOrder | components/projects-section.tsx:27-28 | each section distributes over concatenation, so relative order is kept |
| ProjectsSection.SectionVisibility | components/projects-section.tsx:59-154 | the featured section renders iff some project is featured, and the other section iff some project is not |
| ProjectsSection.SomeSectionShows | components/projects-section.tsx:59-154 | a non-empty list always renders at least one section |
| ProjectsSection.BuiltInLayout | components/projects-section.tsx:10-28 | the built-in list renders only the featured section, holding its one project |
| ProjectsSection.FeaturedCards | components/projects-section.tsx:62-72 | the featured section shows one card per featured project, in list order; consecutive cards never share a layout, and the first card is not mirrored |
| ProjectsSection.OthersKeepLayout | components/projects-section.tsx:27-72 | inserting a project that is not featured anywhere in the list changes no featured card, neither its project nor its side |
| ProjectsSection.CompactBadges | components/projects-section.tsx:202-215 | at most the first three technologies show, all of them when there are three or fewer; a `+n` badge appears iff there are more; shown plus `n` is the total |
| ProjectsSection.BadgesCoverList | components/projects-section.tsx:202-215 | the shown badges followed by the hidden rest are the whole list, and `n` counts exactly the rest |
| ProjectsSection.CoverOf | components/projects-section.tsx:131-143 | the image shows iff it is non-empty; otherwise the title's first character |
| ProjectsSection.LinksOf | components/projects-section.tsx:99-120 | each link button appears iff its URL is a non-empty string, and links to it |
| JsText.SplitJoin | components/admin/ProjectsEditor.tsx:86 | splitting a join of separator-free pieces on the separator gives the pieces back |
| JsText.JoinSplit | components/admin/ProjectsEditor.tsx:86 | joining the pieces of a split with the separator gives the text back |
| JsText.TrimAfterSpace | components/admin/ProjectsEditor.tsx:86 | a trimmed name preceded by one space trims back to itself |
| Lists.Filter | components/admin/TechnologiesEditor.tsx:74 | the result holds exactly the passing elements, and loses nothing iff every element passes |
| Lists.FilterComplement | components/projects-section.tsx:27-28 | a filter and its complement split the list as a multiset |

## Left out

- I/O: the network, FormData, JSON parsing, `localStorage`, cookies and `URL.createObjectURL` are external. Replies and storage are inputs: an `Api.Outcome`, a `bool`, an `Auth.Host` or a cookie map.
- Rendering, animation and layout classes are not modelled, apart from the choices named above (spinner or editors, sections shown, badges, covers, icons).
- Timers: the sidebar's 10-second abort is one of the failure inputs of `SocialSidebar.Settle`. The splash delay of the home page is not modelled.
- Ids from `Date.now()`: `TechnologiesEditor.Add` and `SocialsEditor.Add` take the id as a parameter. The model does not claim ids are unique.
- `addSkill` and `removeSkill` in the about editor refer to state that does not exist, so there is no behaviour to model.
- The `formDataToSend` that the projects editor builds and never sends is not modelled.
- The per-field input handlers of the admin forms only copy an input's value into one field, so they are not modelled. The contact form's handler is modelled as `ContactSection.Change`.
- Stale responses that arrive after a component unmounts are a concurrency matter and are not modelled.
- JSON values that are not strings where a string is read are not modelled, for example a numeric title. Nor is a JSON `null` as distinct from a missing property. Both are `None`.
- The `matcher` configuration of the route guard is a framework setting, not logic, and the redirect URL's origin is not modelled. `RouteGuard.Middleware` decides for any path it is given.
- Whether the local-storage gate and the cookie gate agree is not modelled. No code shown sets the cookie.
- SocialSidebar.IconFor: `toLowerCase` is modelled only as far as it decides equality with an all-ASCII name. `A`-`Z` and the Kelvin sign lower to one ASCII letter and are mapped. Every other character is kept unchanged. Every other ASCII character lowers to itself. Every other non-ASCII character lowers to a form that still contains a character outside ASCII. For U+0130 (capital I with dot above) that form is `i` followed by the combining dot U+0307, so it still contains a non-ASCII character. Either way the name can never equal `linkedin`, `twitter` or `email`, so the icon chosen is exact. The lowered string itself is not the full Unicode mapping: lowering U+0130 yields two characters where the model keeps one.
- AboutEditor.Save: an ok upload reply without a `url` property is not representable, because the upload result is a string. In the source it sends `profileImage: undefined`, which `JSON.stringify` drops, and stores `undefined` as the image and preview.
- A login reply without a `token` property would store `undefined`. `LoginPage.HandleLogin` takes the token as a string.
- The sidebar's request headers are modelled only by `SocialSidebar.SameEndpointAsClient`. Its reply is not parsed as `SocialLink` objects with every property checked.
