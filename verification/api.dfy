/**
  The content client of lib/api.ts: which request each call makes (method, URL,
  headers), the rule that turns a response into a value or an error, and the
  multipart serialisation of a project.  The network itself is not modelled: a
  response is an input.
 */
module Api {
  import opened Wrappers
  import opened JsText
  import Lists

  const BaseUrl: string := "https://joash-backend.onrender.com/api"

  datatype Method = Get | Post | Put | Delete

  /** Every request the client makes, with the token and id it is made with. */
  datatype Call =
    | GetHero | UpdateHero(token: string)
    | GetAbout | UpdateAbout(token: string)
    | GetTechnologies | UpdateTechnologies(token: string)
    | GetProjects | CreateProject(token: string)
    | UpdateProject(id: string, token: string) | DeleteProject(id: string, token: string)
    | GetSocials | UpdateSocials(token: string)
    | SubmitContact | Login | Logout(token: string)
    | UploadImage(token: string)

  /** The path below `BaseUrl`. */
  function PathOf(call: Call): string
  {
    match call
    case GetHero | UpdateHero(_) => "/hero"
    case GetAbout | UpdateAbout(_) => "/about"
    case GetTechnologies | UpdateTechnologies(_) => "/technologies"
    case GetProjects | CreateProject(_) => "/projects"
    case UpdateProject(id, _) => "/projects/" + id
    case DeleteProject(id, _) => "/projects/" + id
    case GetSocials | UpdateSocials(_) => "/socials"
    case SubmitContact => "/contact"
    case Login => "/admin/login"
    case Logout(_) => "/auth/logout"
    case UploadImage(_) => "/upload"
  }

  function MethodOf(call: Call): Method
  {
    match call
    case GetHero | GetAbout | GetTechnologies | GetProjects | GetSocials => Get
    case UpdateHero(_) | UpdateAbout(_) | UpdateTechnologies(_) | UpdateProject(_, _) | UpdateSocials(_) => Put
    case DeleteProject(_, _) => Delete
    case CreateProject(_) | SubmitContact | Login | Logout(_) | UploadImage(_) => Post
  }

  /** The calls that change content on the server. */
  predicate Writes(call: Call)
  {
    || call.UpdateHero? || call.UpdateAbout? || call.UpdateTechnologies? || call.UpdateSocials?
    || call.CreateProject? || call.UpdateProject? || call.DeleteProject? || call.UploadImage?
  }

  /** The calls whose body is JSON. */
  predicate SendsJson(call: Call)
  {
    || call.UpdateHero? || call.UpdateAbout? || call.UpdateTechnologies? || call.UpdateSocials?
    || call.SubmitContact? || call.Login?
  }

  /** The token a call is made with, if it takes one. */
  function TokenOf(call: Call): Option<string>
  {
    match call
    case UpdateHero(t) => Some(t)
    case UpdateAbout(t) => Some(t)
    case UpdateTechnologies(t) => Some(t)
    case CreateProject(t) => Some(t)
    case UpdateProject(_, t) => Some(t)
    case DeleteProject(_, t) => Some(t)
    case UpdateSocials(t) => Some(t)
    case Logout(t) => Some(t)
    case UploadImage(t) => Some(t)
    case _ => None
  }

  datatype Header = Header(name: string, value: string)

  datatype Request = Request(verb: Method, url: string, headers: seq<Header>)

  /** The `Authorization` value of section 2.1 of RFC 6750: the scheme, one space, the token. */
  function BearerValue(token: string): string
  {
    "Bearer " + token
  }

  /** The token of a bearer `Authorization` value, if it has that form. */
  function BearerCredential(value: string): Option<string>
  {
    if |value| >= 7 && value[..7] == "Bearer " then Some(value[7..]) else None
  }

  /**
    The request a call issues: `Authorization: Bearer <token>` exactly when the
    call takes a token, `Content-Type: application/json` exactly when its body is
    JSON, and no other header.
   */
  function Build(call: Call): (r: Request)
    ensures r.url == BaseUrl + PathOf(call)
    ensures r.verb == MethodOf(call)
    ensures HeaderValue(r.headers, "Authorization") ==
              (if TokenOf(call).Some? then Some(BearerValue(TokenOf(call).value)) else None)
    ensures HeaderValue(r.headers, "Content-Type") == (if SendsJson(call) then Some("application/json") else None)
    ensures forall i :: 0 <= i < |r.headers| ==> r.headers[i].name == "Authorization" || r.headers[i].name == "Content-Type"
    ensures |r.headers| == (if SendsJson(call) then 1 else 0) + (if TokenOf(call).Some? then 1 else 0)
  {
    var json := if SendsJson(call) then [Header("Content-Type", "application/json")] else [];
    var auth := if TokenOf(call).Some? then [Header("Authorization", BearerValue(TokenOf(call).value))] else [];
    Request(MethodOf(call), BaseUrl + PathOf(call), json + auth)
  }

  /** Updating and deleting a project address `/projects/<id>` below the base, with PUT and DELETE. */
  lemma ProjectUrls(id: string, token: string)
    ensures Build(UpdateProject(id, token)).url == BaseUrl + "/projects/" + id
    ensures Build(DeleteProject(id, token)).url == BaseUrl + "/projects/" + id
    ensures Build(UpdateProject(id, token)).verb == Put && Build(DeleteProject(id, token)).verb == Delete
  {
  }

  /**
    The image upload of the about editor, made with `fetch` directly rather than
    through the client: a POST to `<base>/upload` whose only header is the bearer
    token, since its body is multipart.
   */
  lemma UploadRequest(token: string)
    ensures Build(UploadImage(token)).url == "https://joash-backend.onrender.com/api/upload"
    ensures Build(UploadImage(token)) == Request(Post, BaseUrl + "/upload", [Header("Authorization", BearerValue(token))])
    ensures Build(UploadImage(token)).headers[0] == Header("Authorization", "Bearer " + token)
  {
  }

  /** The first header of the given name. */
  function HeaderValue(headers: seq<Header>, name: string): (r: Option<string>)
    ensures r.Some? <==> exists i :: 0 <= i < |headers| && headers[i].name == name
    decreases |headers|
  {
    if |headers| == 0 then None
    else if headers[0].name == name then Some(headers[0].value)
    else HeaderValue(headers[1..], name)
  }

  lemma BearerRoundTrip(token: string)
    ensures BearerCredential(BearerValue(token)) == Some(token)
  {
    assert BearerValue(token)[..7] == "Bearer ";
    assert BearerValue(token)[7..] == token;
  }

  /**
    Every write and the logout carry `Authorization: Bearer <token>` with the token
    they were given; reads, the contact form and the login carry none.
   */
  lemma AuthorizationCarriesToken(call: Call)
    ensures var auth := HeaderValue(Build(call).headers, "Authorization");
            && (auth.Some? <==> Writes(call) || call.Logout?)
            && (auth.Some? ==> BearerCredential(auth.value) == TokenOf(call))
  {
    var hs := Build(call).headers;
    if TokenOf(call).Some? {
      var t := TokenOf(call).value;
      BearerRoundTrip(t);
      if SendsJson(call) {
        assert hs == [Header("Content-Type", "application/json"), Header("Authorization", BearerValue(t))];
        assert hs[1..] == [Header("Authorization", BearerValue(t))];
      } else {
        assert hs == [Header("Authorization", BearerValue(t))];
      }
    } else if SendsJson(call) {
      assert hs == [Header("Content-Type", "application/json")];
    } else {
      assert hs == [];
    }
  }

  /** A write as a component issues it: the call and the body it sends. */
  datatype Sent<P> = Sent(call: Call, body: P)

  /** The result of a client call: the parsed body, or the error it throws. */
  datatype Outcome<T> = Returned(value: T) | Raised(message: string)

  /** The message each call throws when the response is not ok. */
  function ErrorMessage(call: Call): string
  {
    match call
    case GetHero => "Failed to fetch hero data"
    case UpdateHero(_) => "Failed to update hero data"
    case GetAbout => "Failed to fetch about data"
    case UpdateAbout(_) => "Failed to update about data"
    case GetTechnologies => "Failed to fetch technologies"
    case UpdateTechnologies(_) => "Failed to update technologies"
    case GetProjects => "Failed to fetch projects"
    case CreateProject(_) => "Failed to create project"
    case UpdateProject(_, _) => "Failed to update project"
    case DeleteProject(_, _) => "Failed to delete project"
    case GetSocials => "Failed to fetch social links"
    case UpdateSocials(_) => "Failed to update social links"
    case SubmitContact => "Failed to submit contact message"
    case Login => "Invalid credentials"
    case Logout(_) => "Failed to logout"
    case UploadImage(_) => "Image upload failed"
  }

  /** What a call does with a response: any status that is not ok throws instead of returning a body. */
  function Settle<T>(call: Call, ok: bool, body: T): (r: Outcome<T>)
    ensures r.Raised? <==> !ok
    ensures r.Raised? ==> r.message == ErrorMessage(call) && r.message != ""
    ensures r.Returned? ==> r.value == body
  {
    if ok then Returned(body) else Raised(ErrorMessage(call))
  }

  // ---------------------------------------------------------------------------
  // Multipart bodies of createProject / updateProject

  /** A property value of the object handed to `createProject` or `updateProject`. */
  datatype PayloadValue = Undefined | Null | Text(text: string) | Flag(flag: bool) | Texts(items: seq<string>)

  /** One own property, in the object's key order. */
  datatype Entry = Entry(key: string, value: PayloadValue)

  /** A file chosen in the browser; only its identity matters here. */
  datatype File = File(name: string)

  datatype Part = TextPart(text: string) | FilePart(file: File)

  /** One `formData.append(name, part)`. */
  datatype FormEntry = FormEntry(name: string, part: Part)

  /** `String(value)`, the conversion `FormData.append` applies to a value that is not a file. */
  function Stringify(v: PayloadValue): string
  {
    match v
    case Undefined => "undefined"
    case Null => "null"
    case Text(s) => s
    case Flag(b) => if b then "true" else "false"
    case Texts(xs) => Join(xs, ",")
  }

  predicate Defined(e: Entry)
  {
    !e.value.Undefined? && !e.value.Null?
  }

  /** The condition under which the `forEach` appends an entry for `e`. */
  predicate Appended(e: Entry)
  {
    (e.key == "technologies" && e.value.Texts?) || Defined(e)
  }

  /** The entry appended for `e`: a technologies array joined by commas, anything else stringified. */
  function Encode(e: Entry): FormEntry
  {
    if e.key == "technologies" && e.value.Texts? then FormEntry(e.key, TextPart(Join(e.value.items, ",")))
    else FormEntry(e.key, TextPart(Stringify(e.value)))
  }

  function EntryName(f: FormEntry): string
  {
    f.name
  }

  function EntryKey(e: Entry): string
  {
    e.key
  }

  /** The entries the `Object.entries(data).forEach` loop appends. */
  function DataEntries(payload: seq<Entry>): seq<FormEntry>
  {
    Lists.Map(Lists.Filter(payload, Appended), Encode)
  }

  function ImageEntries(image: Option<File>): seq<FormEntry>
  {
    if image.Some? then [FormEntry("image", FilePart(image.value))] else []
  }

  /** The whole multipart body: the data entries, then the image file when one is supplied. */
  function FormEntries(payload: seq<Entry>, image: Option<File>): seq<FormEntry>
  {
    DataEntries(payload) + ImageEntries(image)
  }

  lemma DataEntriesSnoc(xs: seq<Entry>, e: Entry)
    ensures DataEntries(xs + [e]) == DataEntries(xs) + (if Appended(e) then [Encode(e)] else [])
  {
    Lists.FilterAppend(xs, [e], Appended);
    assert [e][1..] == [];
    var tail := Lists.Filter([e], Appended);
    assert tail == (if Appended(e) then [e] else []);
    var all := Lists.Filter(xs, Appended) + tail;
    assert Lists.Map(all, Encode) == Lists.Map(Lists.Filter(xs, Appended), Encode) + Lists.Map(tail, Encode);
  }

  /** The serialisation loop of `createProject` and `updateProject`, entry by entry. */
  method BuildFormData(payload: seq<Entry>, image: Option<File>) returns (entries: seq<FormEntry>)
    ensures entries == FormEntries(payload, image)
  {
    entries := [];
    var i := 0;
    while i < |payload|
      invariant 0 <= i <= |payload|
      invariant entries == DataEntries(payload[..i])
    {
      var e := payload[i];
      if e.key == "technologies" && e.value.Texts? {
        entries := entries + [FormEntry(e.key, TextPart(Join(e.value.items, ",")))];
      } else if e.value != Undefined && e.value != Null {
        entries := entries + [FormEntry(e.key, TextPart(Stringify(e.value)))];
      }
      assert payload[..i + 1] == payload[..i] + [e];
      DataEntriesSnoc(payload[..i], e);
      i := i + 1;
    }
    assert payload[..i] == payload;
    if image.Some? {
      entries := entries + [FormEntry("image", FilePart(image.value))];
    }
  }

  lemma {:induction false} FilterSame<T>(xs: seq<T>, p: T -> bool, q: T -> bool)
    requires forall x :: p(x) == q(x)
    ensures Lists.Filter(xs, p) == Lists.Filter(xs, q)
    decreases |xs|
  {
    if |xs| > 0 {
      FilterSame(xs[1..], p, q);
    }
  }

  /**
    Keys whose value is `undefined` or `null` produce no entry; every other key
    produces exactly one, named after the key and in key order; the image file
    comes last, and only when supplied.
   */
  lemma FormEntriesShape(payload: seq<Entry>, image: Option<File>)
    ensures var entries := FormEntries(payload, image);
            var data := DataEntries(payload);
            && Lists.Map(data, EntryName) == Lists.Map(Lists.Filter(payload, Defined), EntryKey)
            && |entries| == |Lists.Filter(payload, Defined)| + (if image.Some? then 1 else 0)
            && (forall i :: 0 <= i < |data| ==> data[i].part.TextPart?)
            && (image.Some? <==> exists i :: 0 <= i < |entries| && entries[i].part.FilePart?)
            && (image.Some? ==> entries[|entries| - 1] == FormEntry("image", FilePart(image.value)))
  {
    FilterSame(payload, Appended, Defined);
    var entries := FormEntries(payload, image);
    var data := DataEntries(payload);
    if image.Some? {
      assert entries[|entries| - 1].part.FilePart?;
    } else {
      assert entries == data;
    }
  }

  lemma EncodeTechnologies(items: seq<string>)
    ensures Encode(Entry("technologies", Texts(items))) == FormEntry("technologies", TextPart(Join(items, ",")))
  {
  }

  /** A technologies array travels as one text entry: its elements joined by `,` with no space. */
  lemma TechnologiesJoined(payload: seq<Entry>, i: nat, image: Option<File>)
    requires i < |payload|
    requires payload[i].key == "technologies" && payload[i].value.Texts?
    ensures FormEntry("technologies", TextPart(Join(payload[i].value.items, ","))) in FormEntries(payload, image)
  {
    var kept := Lists.Filter(payload, Appended);
    assert payload[i] in kept;
    var k :| 0 <= k < |kept| && kept[k] == payload[i];
    assert DataEntries(payload)[k] == Encode(payload[i]);
  }
}
