/** The portfolio API server: the headers it sends to the hosted database, the
    bearer-token check in front of the admin routes, the request bodies built from
    the request models, and how each route turns the database's response into its
    own reply. The database, the auth service and storage are functions from the
    request sent to the response received. */
module Api {
  import opened Common

  // ---------------------------------------------------------------------------
  // Configuration

  datatype Config = Config(url: string, serviceKey: string, anonKey: string)

  /** `os.environ.get(name, default)`: the default only when the variable is not
      set at all. */
  function EnvOr(env: map<string, string>, name: string, default: string): string
  {
    if name in env then env[name] else default
  }

  function ConfigFrom(env: map<string, string>): Config
  {
    Config(EnvOr(env, "SUPABASE_URL", "https://placeholder.supabase.co"),
           EnvOr(env, "SUPABASE_SERVICE_KEY", "placeholder-key"),
           EnvOr(env, "SUPABASE_ANON_KEY", "placeholder-anon-key"))
  }

  /** Unset variables fall back to the placeholders; a variable set to the empty
      string is used as it is. */
  lemma PlaceholdersOnlyWhenUnset(env: map<string, string>)
    ensures var c := ConfigFrom(env);
      (c.url == "https://placeholder.supabase.co" <== "SUPABASE_URL" !in env)
      && ("SUPABASE_URL" in env ==> c.url == env["SUPABASE_URL"])
      && ("SUPABASE_SERVICE_KEY" !in env ==> c.serviceKey == "placeholder-key")
      && ("SUPABASE_SERVICE_KEY" in env ==> c.serviceKey == env["SUPABASE_SERVICE_KEY"])
      && ("SUPABASE_ANON_KEY" !in env ==> c.anonKey == "placeholder-anon-key")
      && ("SUPABASE_ANON_KEY" in env ==> c.anonKey == env["SUPABASE_ANON_KEY"])
    ensures ConfigFrom(map["SUPABASE_SERVICE_KEY" := ""]).serviceKey == ""
  {
  }

  // ---------------------------------------------------------------------------
  // Headers

  type Headers = map<string, string>

  const BearerPrefix: string := "Bearer "

  /** `supabase_headers(token)`: the service key as `apikey`, the token (or the
      service key when the token is missing or empty) as the bearer credential,
      a JSON body, and a request for the written rows back. */
  function SupabaseHeaders(cfg: Config, token: Option<string>): (h: Headers)
    ensures h.Keys == {"apikey", "Authorization", "Content-Type", "Prefer"}
  {
    map["apikey" := cfg.serviceKey,
        "Authorization" := BearerPrefix + OrDefault(token, cfg.serviceKey),
        "Content-Type" := "application/json",
        "Prefer" := "return=representation"]
  }

  /** The two headers the read and delete routes write out inline. */
  function ServiceHeaders(cfg: Config): (h: Headers)
    ensures h.Keys == {"apikey", "Authorization"}
  {
    map["apikey" := cfg.serviceKey, "Authorization" := BearerPrefix + cfg.serviceKey]
  }

  /** The service key is always the `apikey`; the bearer credential is the token
      exactly when the token is non-empty, and the service key otherwise, so an
      empty token and no token give the same headers. The inline headers agree
      with `supabase_headers()` on the keys they share. */
  lemma HeadersCarryServiceKey(cfg: Config, token: Option<string>)
    ensures SupabaseHeaders(cfg, token)["apikey"] == cfg.serviceKey
    ensures token.Some? && token.value != "" ==>
      SupabaseHeaders(cfg, token)["Authorization"] == BearerPrefix + token.value
    ensures !(token.Some? && token.value != "") ==>
      SupabaseHeaders(cfg, token)["Authorization"] == BearerPrefix + cfg.serviceKey
    ensures SupabaseHeaders(cfg, Some("")) == SupabaseHeaders(cfg, None)
    ensures forall k | k in ServiceHeaders(cfg) :: ServiceHeaders(cfg)[k] == SupabaseHeaders(cfg, None)[k]
  {
  }

  // ---------------------------------------------------------------------------
  // Token extraction

  /** Whether `pat` occurs in `s` starting at index `i`. */
  predicate OccursAt(s: string, pat: string, i: nat)
  {
    i + |pat| <= |s| && s[i..i + |pat|] == pat
  }

  /** Whether `pat` occurs anywhere in `s`. */
  predicate Occurs(s: string, pat: string)
  {
    exists i: nat | i <= |s| :: OccursAt(s, pat, i)
  }

  /** Python's `s.replace(pat, "")` for a non-empty `pat`: scanning from the left,
      each occurrence is cut out and the scan resumes after it. The result never
      grows. */
  function RemoveAll(s: string, pat: string): (r: string)
    requires |pat| > 0
    ensures |r| <= |s|
    decreases |s|
  {
    if |s| < |pat| then s
    else if s[..|pat|] == pat then RemoveAll(s[|pat|..], pat)
    else [s[0]] + RemoveAll(s[1..], pat)
  }

  /** An occurrence after the first character is an occurrence in the whole. */
  lemma OccursInTail(s: string, pat: string)
    requires |s| > 0
    ensures Occurs(s[1..], pat) ==> Occurs(s, pat)
  {
    if Occurs(s[1..], pat) {
      var t := s[1..];
      var j: nat :| j <= |t| && OccursAt(t, pat, j);
      assert s[j + 1..j + 1 + |pat|] == t[j..j + |pat|];
      assert OccursAt(s, pat, j + 1);
    }
  }

  /** Without an occurrence the scan keeps every character. */
  lemma {:induction false} UnchangedWithoutOccurrence(s: string, pat: string)
    requires |pat| > 0 && !Occurs(s, pat)
    ensures RemoveAll(s, pat) == s
    decreases |s|
  {
    if |s| >= |pat| {
      assert !OccursAt(s, pat, 0);
      assert s[0..|pat|] == s[..|pat|];
      OccursInTail(s, pat);
      UnchangedWithoutOccurrence(s[1..], pat);
      assert [s[0]] + s[1..] == s;
    }
  }

  /** With an occurrence the scan cuts at least one copy out. */
  lemma {:induction false} ShrinksWhenOccurs(s: string, pat: string)
    requires |pat| > 0 && Occurs(s, pat)
    ensures |RemoveAll(s, pat)| < |s|
    decreases |s|
  {
    var i: nat :| i <= |s| && OccursAt(s, pat, i);
    if s[..|pat|] == pat {
      assert |RemoveAll(s[|pat|..], pat)| <= |s| - |pat|;
    } else {
      var t := s[1..];
      assert s[0..|pat|] == s[..|pat|];
      assert i != 0;
      assert t[i - 1..i - 1 + |pat|] == s[i..i + |pat|];
      assert OccursAt(t, pat, i - 1);
      ShrinksWhenOccurs(t, pat);
    }
  }

  /** The text is left unchanged exactly when the pattern does not occur in it;
      when it occurs, something is removed. */
  lemma RemoveAllIffOccurs(s: string, pat: string)
    requires |pat| > 0
    ensures RemoveAll(s, pat) == s <==> !Occurs(s, pat)
    ensures Occurs(s, pat) ==> |RemoveAll(s, pat)| < |s|
  {
    if Occurs(s, pat) {
      ShrinksWhenOccurs(s, pat);
    } else {
      UnchangedWithoutOccurrence(s, pat);
    }
  }

  /** `authorization.replace("Bearer ", "")`. */
  function Token(authorization: string): string
  {
    RemoveAll(authorization, BearerPrefix)
  }

  /** The round trip with the header a client builds: `"Bearer " + t` yields `t`
      whenever `t` itself contains no `"Bearer "`. */
  lemma BearerRoundTrip(t: string)
    requires !Occurs(t, BearerPrefix)
    ensures Token(BearerPrefix + t) == t
  {
    var s := BearerPrefix + t;
    assert s[..|BearerPrefix|] == BearerPrefix;
    assert s[|BearerPrefix|..] == t;
    RemoveAllIffOccurs(t, BearerPrefix);
  }

  /** The replacement is global, not a prefix strip: a repeated prefix is
      removed entirely. */
  lemma RepeatedPrefixRemoved()
    ensures Token("Bearer Bearer abc") == "abc"
  {
    var s := "Bearer Bearer abc";
    assert s[..7] == BearerPrefix && s[7..] == "Bearer abc";
    var s1 := "Bearer abc";
    assert s1[..7] == BearerPrefix && s1[7..] == "abc";
  }

  /** The prefix alone leaves nothing. */
  lemma PrefixAloneRemoved()
    ensures Token(BearerPrefix) == ""
  {
    assert BearerPrefix[..7] == BearerPrefix && BearerPrefix[7..] == "";
  }

  /** An occurrence after other text is removed as well. */
  lemma TrailingOccurrenceRemoved()
    ensures Token("abcBearer ") == "abc"
  {
    var u := "abcBearer ";
    assert u[..7] != BearerPrefix && u[1..] == "bcBearer ";
    var u1 := "bcBearer ";
    assert u1[..7] != BearerPrefix && u1[1..] == "cBearer ";
    var u2 := "cBearer ";
    assert u2[..7] != BearerPrefix && u2[1..] == BearerPrefix;
    PrefixAloneRemoved();
  }

  /** One pass can leave a `"Bearer "` behind: cutting the inner occurrence out of
      `"BeBearer arer "` joins its two halves into a new one. */
  lemma ReplaceIsNotIdempotent()
    ensures Token("BeBearer arer ") == BearerPrefix
    ensures Token(Token("BeBearer arer ")) == ""
  {
    var s := "BeBearer arer ";
    assert s[..7][2] != BearerPrefix[2];
    assert s[1..] == "eBearer arer ";
    var s1 := "eBearer arer ";
    assert s1[..7] != BearerPrefix && s1[1..] == "Bearer arer ";
    var s2 := "Bearer arer ";
    assert s2[..7] == BearerPrefix && s2[7..] == "arer ";
    assert Token(s2) == "arer ";
    assert Token(s1) == "earer ";
    assert Token(s) == [s[0]] + "earer ";
    assert [s[0]] + "earer " == BearerPrefix;
    PrefixAloneRemoved();
  }

  // ---------------------------------------------------------------------------
  // JSON values, requests and replies

  datatype Json =
    | JNull
    | JBool(b: bool)
    | JInt(i: int)
    | JStr(s: string)
    | JArray(items: seq<Json>)
    | JObject(fields: seq<(string, Json)>)

  /** Python truthiness of a decoded JSON value. */
  predicate Truthy(j: Json)
  {
    match j
    case JNull => false
    case JBool(b) => b
    case JInt(i) => i != 0
    case JStr(s) => s != ""
    case JArray(items) => items != []
    case JObject(fields) => fields != []
  }

  datatype Verb = Get | Post | Patch | Delete

  datatype Body = NoBody | JsonBody(json: Json) | Bytes(data: seq<bv8>)

  datatype Request = Request(verb: Verb, url: string, headers: Headers, body: Body)

  /** The body of a response: empty, a JSON document, or bytes that are not
      JSON. */
  datatype Content = Empty | Parsed(json: Json) | Unparsable

  /** A response from one of the remote services. */
  datatype Response = Responded(status: int, content: Content)

  /** What a route answers: a JSON body, or an HTTP error with its detail. */
  datatype Reply = Ok(body: Json) | Raised(status: int, detail: string)

  /** An exception the handler does not catch, which the framework turns into a
      500. */
  const InternalError: Reply := Raised(500, "Internal Server Error")

  /** `res.json()`: decoding an empty body or one that is not JSON raises. */
  function Decoded(res: Response): (r: Reply)
    ensures r.Ok? <==> res.content.Parsed?
    ensures r.Ok? ==> r.body == res.content.json
    ensures r.Raised? ==> r == InternalError
  {
    if res.content.Parsed? then Ok(res.content.json) else InternalError
  }

  // ---------------------------------------------------------------------------
  // Request models

  datatype ProjectCreate = ProjectCreate(
    title: string, description: string, techStack: seq<string>,
    category: string, imageUrl: string, liveUrl: string, githubUrl: string)

  /** Validation of a create body; `None` is a field the client left out. */
  function NewProjectCreate(title: string, description: string, techStack: Option<seq<string>>,
                            category: Option<string>, imageUrl: Option<string>,
                            liveUrl: Option<string>, githubUrl: Option<string>): ProjectCreate
  {
    ProjectCreate(title, description,
                  if techStack.Some? then techStack.value else [],
                  if category.Some? then category.value else "frontend",
                  if imageUrl.Some? then imageUrl.value else "",
                  if liveUrl.Some? then liveUrl.value else "",
                  if githubUrl.Some? then githubUrl.value else "")
  }

  datatype ProjectUpdate = ProjectUpdate(
    title: Option<string>, description: Option<string>, techStack: Option<seq<string>>,
    category: Option<string>, imageUrl: Option<string>, liveUrl: Option<string>,
    githubUrl: Option<string>)

  datatype SkillCreate = SkillCreate(name: string, level: int, category: string)

  function NewSkillCreate(name: string, level: Option<int>, category: Option<string>): SkillCreate
  {
    SkillCreate(name, if level.Some? then level.value else 50,
                if category.Some? then category.value else "frontend")
  }

  datatype ContactMessage = ContactMessage(name: string, email: string, message: string)

  /** Omitted fields take their declared defaults and given ones are kept; only
      the title and description are required. */
  lemma DefaultsWhenOmitted(title: string, description: string, name: string)
    ensures NewProjectCreate(title, description, None, None, None, None, None)
      == ProjectCreate(title, description, [], "frontend", "", "", "")
    ensures forall ts, c, i, l, g ::
      NewProjectCreate(title, description, Some(ts), Some(c), Some(i), Some(l), Some(g))
      == ProjectCreate(title, description, ts, c, i, l, g)
    ensures NewSkillCreate(name, None, None) == SkillCreate(name, 50, "frontend")
    ensures forall lv, c :: NewSkillCreate(name, Some(lv), Some(c)) == SkillCreate(name, lv, c)
  {
  }

  function Strings(xs: seq<string>): (j: Json)
    ensures j.JArray? && |j.items| == |xs|
    ensures forall k | 0 <= k < |xs| :: j.items[k] == JStr(xs[k])
  {
    JArray(seq(|xs|, k requires 0 <= k < |xs| => JStr(xs[k])))
  }

  /** `Optional[str]` dumped: `None` becomes null. */
  function OptStr(x: Option<string>): Json
  {
    if x.Some? then JStr(x.value) else JNull
  }

  /** `model_dump()` of a create body, in declaration order. */
  function CreateFields(p: ProjectCreate): seq<(string, Json)>
  {
    [("title", JStr(p.title)), ("description", JStr(p.description)),
     ("tech_stack", Strings(p.techStack)), ("category", JStr(p.category)),
     ("image_url", JStr(p.imageUrl)), ("live_url", JStr(p.liveUrl)),
     ("github_url", JStr(p.githubUrl))]
  }

  /** `model_dump()` of an update body: every field, null when not given. */
  function UpdateFields(u: ProjectUpdate): seq<(string, Json)>
  {
    [("title", OptStr(u.title)), ("description", OptStr(u.description)),
     ("tech_stack", if u.techStack.Some? then Strings(u.techStack.value) else JNull),
     ("category", OptStr(u.category)), ("image_url", OptStr(u.imageUrl)),
     ("live_url", OptStr(u.liveUrl)), ("github_url", OptStr(u.githubUrl))]
  }

  /** The dict comprehension keeping the entries whose value is not `None`, in
      order. */
  function DropNulls(fields: seq<(string, Json)>): (r: seq<(string, Json)>)
    ensures forall kv :: kv in r <==> kv in fields && kv.1 != JNull
    ensures |r| <= |fields|
    decreases |fields|
  {
    if fields == [] then []
    else
      var rest := DropNulls(fields[1..]);
      assert forall kv :: kv in fields <==> kv == fields[0] || kv in fields[1..];
      if fields[0].1 == JNull then rest else [fields[0]] + rest
  }

  function UpdatePayload(u: ProjectUpdate): seq<(string, Json)>
  {
    DropNulls(UpdateFields(u))
  }

  function Keys(fields: seq<(string, Json)>): set<string>
  {
    set kv | kv in fields :: kv.0
  }

  /** Whether the update gives the field named `k`. */
  predicate IsGiven(u: ProjectUpdate, k: string)
  {
    (k == "title" && u.title.Some?) || (k == "description" && u.description.Some?)
    || (k == "tech_stack" && u.techStack.Some?) || (k == "category" && u.category.Some?)
    || (k == "image_url" && u.imageUrl.Some?) || (k == "live_url" && u.liveUrl.Some?)
    || (k == "github_url" && u.githubUrl.Some?)
  }

  /** Every given field is sent with its value unchanged, an empty list or an
      empty string included, and every entry sent is one of the dumped fields. */
  lemma UpdateKeepsGivenValues(u: ProjectUpdate)
    ensures forall kv | kv in UpdatePayload(u) :: kv in UpdateFields(u) && kv.1 != JNull
    ensures u.title.Some? ==> ("title", JStr(u.title.value)) in UpdatePayload(u)
    ensures u.description.Some? ==> ("description", JStr(u.description.value)) in UpdatePayload(u)
    ensures u.techStack.Some? ==> ("tech_stack", Strings(u.techStack.value)) in UpdatePayload(u)
    ensures u.category.Some? ==> ("category", JStr(u.category.value)) in UpdatePayload(u)
    ensures u.imageUrl.Some? ==> ("image_url", JStr(u.imageUrl.value)) in UpdatePayload(u)
    ensures u.liveUrl.Some? ==> ("live_url", JStr(u.liveUrl.value)) in UpdatePayload(u)
    ensures u.githubUrl.Some? ==> ("github_url", JStr(u.githubUrl.value)) in UpdatePayload(u)
  {
    var f := UpdateFields(u);
    assert f[0] in f && f[1] in f && f[2] in f && f[3] in f && f[4] in f && f[5] in f && f[6] in f;
  }

  lemma SentIfGiven(u: ProjectUpdate, k: string)
    requires IsGiven(u, k)
    ensures k in Keys(UpdatePayload(u))
  {
    var f := UpdateFields(u);
    var i := if k == "title" then 0 else if k == "description" then 1 else if k == "tech_stack" then 2
      else if k == "category" then 3 else if k == "image_url" then 4 else if k == "live_url" then 5 else 6;
    assert f[i].0 == k && f[i].1 != JNull;
    assert f[i] in f;
  }

  lemma GivenIfSent(u: ProjectUpdate, k: string)
    requires k in Keys(UpdatePayload(u))
    ensures IsGiven(u, k)
  {
    var f := UpdateFields(u);
    var kv :| kv in UpdatePayload(u) && kv.0 == k;
    UpdateKeepsGivenValues(u);
    var i :| 0 <= i < |f| && f[i] == kv;
    assert i == 0 || i == 1 || i == 2 || i == 3 || i == 4 || i == 5 || i == 6;
  }

  /** The update payload names exactly the given fields; an update that gives
      nothing sends an empty object. */
  lemma UpdateSendsExactlyGivenFields(u: ProjectUpdate)
    ensures forall k :: k in Keys(UpdatePayload(u)) <==> IsGiven(u, k)
    ensures (forall k :: !IsGiven(u, k)) ==> UpdatePayload(u) == []
  {
    var p := UpdatePayload(u);
    forall k
      ensures k in Keys(p) <==> IsGiven(u, k)
    {
      if IsGiven(u, k) {
        SentIfGiven(u, k);
      }
      if k in Keys(p) {
        GivenIfSent(u, k);
      }
    }
    if p != [] {
      assert p[0].0 in Keys(p);
    }
  }

  function ContactPayload(m: ContactMessage): Json
  {
    JObject([("name", JStr(m.name)), ("email", JStr(m.email)), ("message", JStr(m.message))])
  }

  // ---------------------------------------------------------------------------
  // Uploads

  datatype UploadFile = UploadFile(filename: Option<string>, contentType: Option<string>, contents: seq<bv8>)

  /** The f-string rendering of the file name: a missing name prints as `None`. */
  function UploadName(filename: Option<string>): string
  {
    if filename.Some? then filename.value else "None"
  }

  /** The object's path inside the bucket. */
  function ObjectPath(filename: Option<string>): string
  {
    "projects/" + UploadName(filename)
  }

  /** The bucket and the object path. */
  function ObjectKey(filename: Option<string>): string
  {
    "project-images/" + ObjectPath(filename)
  }

  function StorageRoot(cfg: Config): string
  {
    cfg.url + "/storage/v1/object/"
  }

  function UploadUrl(cfg: Config, filename: Option<string>): string
  {
    StorageRoot(cfg) + ObjectKey(filename)
  }

  function PublicUrl(cfg: Config, filename: Option<string>): string
  {
    StorageRoot(cfg) + ("public/" + ObjectKey(filename))
  }

  lemma SamePrefix(p: string, a: string, b: string)
    ensures p + a == p + b <==> a == b
  {
    if p + a == p + b {
      assert (p + a)[|p|..] == a && (p + b)[|p|..] == b;
    }
  }

  /** The public URL names the object the upload stored, with `public/` inserted
      after the storage root. Two uploads get the same URLs exactly when their
      names print the same, so a file literally named `None` collides with one
      that has no name. */
  lemma UploadUrlsShareObjectPath(cfg: Config, f: Option<string>, g: Option<string>)
    ensures PublicUrl(cfg, f) == StorageRoot(cfg) + "public/" + UploadUrl(cfg, f)[|StorageRoot(cfg)|..]
    ensures PublicUrl(cfg, f) == PublicUrl(cfg, g) <==> UploadName(f) == UploadName(g)
    ensures UploadUrl(cfg, f) == UploadUrl(cfg, g) <==> UploadName(f) == UploadName(g)
    ensures PublicUrl(cfg, None) == PublicUrl(cfg, Some("None"))
  {
    var root := StorageRoot(cfg);
    assert UploadUrl(cfg, f)[|root|..] == ObjectKey(f);
    SamePrefix(root, ObjectKey(f), ObjectKey(g));
    SamePrefix(root, "public/" + ObjectKey(f), "public/" + ObjectKey(g));
    SamePrefix("public/", ObjectKey(f), ObjectKey(g));
    SamePrefix("project-images/", ObjectPath(f), ObjectPath(g));
    SamePrefix("projects/", UploadName(f), UploadName(g));
  }

  // ---------------------------------------------------------------------------
  // Routes

  datatype Route =
    | ListProjects
    | ShowProject(projectId: string)
    | ListSkills
    | SubmitContact(msg: ContactMessage)
    | CreateProject(project: ProjectCreate)
    | UpdateProject(projectId: string, update: ProjectUpdate)
    | DeleteProject(projectId: string)
    | CreateSkill(skill: SkillCreate)
    | DeleteSkill(skillId: string)
    | UploadImage(file: UploadFile)
    | Root
    | Health

  /** The routes that depend on `verify_admin`. */
  predicate IsAdmin(r: Route)
  {
    r.CreateProject? || r.UpdateProject? || r.DeleteProject? || r.CreateSkill?
    || r.DeleteSkill? || r.UploadImage?
  }

  /** Every route except the root and health ones makes one database or storage
      call. */
  predicate CallsStore(r: Route)
  {
    !r.Root? && !r.Health?
  }

  /** The database or storage request a route makes. */
  function StoreRequest(cfg: Config, r: Route): Request
    requires CallsStore(r)
  {
    match r
    case ListProjects =>
      Request(Get, cfg.url + "/rest/v1/projects?order=created_at.desc", ServiceHeaders(cfg), NoBody)
    case ShowProject(id) =>
      Request(Get, cfg.url + "/rest/v1/projects?id=eq." + id, ServiceHeaders(cfg), NoBody)
    case ListSkills =>
      Request(Get, cfg.url + "/rest/v1/skills?order=created_at.asc", ServiceHeaders(cfg), NoBody)
    case SubmitContact(m) =>
      Request(Post, cfg.url + "/rest/v1/messages", SupabaseHeaders(cfg, None), JsonBody(ContactPayload(m)))
    case CreateProject(p) =>
      Request(Post, cfg.url + "/rest/v1/projects", SupabaseHeaders(cfg, None), JsonBody(JObject(CreateFields(p))))
    case UpdateProject(id, u) =>
      Request(Patch, cfg.url + "/rest/v1/projects?id=eq." + id, SupabaseHeaders(cfg, None),
              JsonBody(JObject(UpdatePayload(u))))
    case DeleteProject(id) =>
      Request(Delete, cfg.url + "/rest/v1/projects?id=eq." + id, ServiceHeaders(cfg), NoBody)
    case CreateSkill(s) =>
      Request(Post, cfg.url + "/rest/v1/skills", SupabaseHeaders(cfg, None),
              JsonBody(JObject([("name", JStr(s.name)), ("level", JInt(s.level)), ("category", JStr(s.category))])))
    case DeleteSkill(id) =>
      Request(Delete, cfg.url + "/rest/v1/skills?id=eq." + id, ServiceHeaders(cfg), NoBody)
    case UploadImage(f) =>
      Request(Post, UploadUrl(cfg, f.filename),
              ServiceHeaders(cfg)["Content-Type" := OrDefault(f.contentType, "image/png")],
              Bytes(f.contents))
  }

  /** Every call to the database or storage authenticates with the service key,
      never with the caller's token. Exactly the JSON writes ask for the written
      rows back, and an upload is labelled with the file's content type, `image/png`
      when that is missing or empty. */
  lemma StoreRequestsUseServiceKey(cfg: Config, r: Route)
    requires CallsStore(r)
    ensures var h := StoreRequest(cfg, r).headers;
      "apikey" in h && h["apikey"] == cfg.serviceKey
      && "Authorization" in h && h["Authorization"] == BearerPrefix + cfg.serviceKey
      && ("Prefer" in h <==> StoreRequest(cfg, r).body.JsonBody?)
      && ("Prefer" in h <==> r.SubmitContact? || r.CreateProject? || r.UpdateProject? || r.CreateSkill?)
      && (r.UploadImage? ==> "Content-Type" in h && (h["Content-Type"] == "image/png" || h["Content-Type"] == r.file.contentType.value))
      && (r.UploadImage? && r.file.contentType.Some? && r.file.contentType.value != "" ==>
            h["Content-Type"] == r.file.contentType.value)
  {
  }

  /** The codes a write route accepts. */
  function AcceptedCodes(r: Route): set<int>
  {
    if r.UpdateProject? || r.DeleteProject? || r.DeleteSkill? then {200, 204} else {200, 201}
  }

  /** The detail of the error a route raises when the database refuses it. */
  function FailureDetail(r: Route): string
  {
    match r
    case ListProjects => "Failed to fetch projects"
    case ListSkills => "Failed to fetch skills"
    case SubmitContact(_) => "Failed to save message"
    case CreateProject(_) => "Failed to create project"
    case UpdateProject(_, _) => "Failed to update project"
    case DeleteProject(_) => "Failed to delete project"
    case CreateSkill(_) => "Failed to create skill"
    case DeleteSkill(_) => "Failed to delete skill"
    case UploadImage(_) => "Failed to upload image"
    case _ => ""
  }

  function Status(s: string): Json
  {
    JObject([("status", JStr(s))])
  }

  /** `data[0]` after the `not data` test of `get_project`: the first row of an
      array, the first character of a string, and an uncaught error otherwise. */
  function FirstItem(data: Json): Reply
  {
    if !Truthy(data) then Raised(404, "Project not found")
    else match data
      case JArray(items) => Ok(items[0])
      case JStr(s) => Ok(JStr([s[0]]))
      case _ => InternalError
  }

  /** How a route answers once the store has responded. */
  function StoreReply(cfg: Config, r: Route, res: Response): Reply
    requires CallsStore(r)
  {
    match r
    case ListProjects =>
      if res.status != 200 then Raised(res.status, "Failed to fetch projects") else Decoded(res)
    case ShowProject(_) =>
      var d := Decoded(res);
      if d.Raised? then d else FirstItem(d.body)
    case ListSkills =>
      if res.status != 200 then Raised(res.status, "Failed to fetch skills") else Decoded(res)
    case SubmitContact(_) =>
      if res.status !in {200, 201} then Raised(500, "Failed to save message")
      else Ok(JObject([("status", JStr("ok")), ("message", JStr("Message sent successfully"))]))
    case CreateProject(_) =>
      if res.status !in {200, 201} then Raised(500, "Failed to create project") else Decoded(res)
    case UpdateProject(_, _) =>
      if res.status !in {200, 204} then Raised(500, "Failed to update project")
      else if res.content.Empty? then Ok(Status("updated")) else Decoded(res)
    case DeleteProject(_) =>
      if res.status !in {200, 204} then Raised(500, "Failed to delete project") else Ok(Status("deleted"))
    case CreateSkill(_) =>
      if res.status !in {200, 201} then Raised(500, "Failed to create skill") else Decoded(res)
    case DeleteSkill(_) =>
      if res.status !in {200, 204} then Raised(500, "Failed to delete skill") else Ok(Status("deleted"))
    case UploadImage(f) =>
      if res.status !in {200, 201} then Raised(500, "Failed to upload image")
      else Ok(JObject([("url", JStr(PublicUrl(cfg, f.filename)))]))
  }

  /** Writes raise a 500 with the route's own detail exactly when the status is
      outside the accepted pair (200/201 for inserts and uploads, 200/204 for
      updates and deletes); the list routes pass any status but 200 on to the
      caller; looking up one project ignores the status altogether and answers
      404 exactly when the decoded body is empty or null. */
  lemma StatusAcceptance(cfg: Config, r: Route, res: Response)
    requires CallsStore(r)
    ensures IsAdmin(r) || r.SubmitContact? ==>
      (StoreReply(cfg, r, res) == Raised(500, FailureDetail(r)) <==> res.status !in AcceptedCodes(r))
    ensures r.ListProjects? || r.ListSkills? ==>
      (StoreReply(cfg, r, res) == Raised(res.status, FailureDetail(r)) <==> res.status != 200)
    ensures r.ShowProject? ==>
      StoreReply(cfg, r, res) == StoreReply(cfg, r, res.(status := 200))
      && (StoreReply(cfg, r, res) == Raised(404, "Project not found") <==> res.content.Parsed? && !Truthy(res.content.json))
      && (res.content.Parsed? && res.content.json.JArray? && res.content.json.items != [] ==>
            StoreReply(cfg, r, res) == Ok(res.content.json.items[0]))
  {
  }

  /** An update or delete answered with 204 and no body still succeeds. */
  lemma NoContentIsSuccess(cfg: Config, id: string, u: ProjectUpdate)
    ensures StoreReply(cfg, UpdateProject(id, u), Responded(204, Empty)) == Ok(Status("updated"))
    ensures StoreReply(cfg, DeleteProject(id), Responded(204, Empty)) == Ok(Status("deleted"))
    ensures StoreReply(cfg, CreateProject(ProjectCreate("", "", [], "", "", "", "")), Responded(204, Empty))
      == Raised(500, "Failed to create project")
  {
  }

  /** A body that is not JSON makes every route that decodes it fail with a 500
      once the status has been accepted, `update_project` included, since its
      body is not empty; the routes that never decode the body answer the same
      whatever it holds. */
  lemma UnparsableBodyIsServerError(cfg: Config, r: Route, res: Response)
    requires CallsStore(r)
    ensures res.content.Unparsable? ==>
      ((r.ListProjects? || r.ListSkills?) && res.status == 200) || r.ShowProject?
      || ((r.CreateProject? || r.UpdateProject? || r.CreateSkill?) && res.status in AcceptedCodes(r))
      ==> StoreReply(cfg, r, res) == InternalError
    ensures r.SubmitContact? || r.DeleteProject? || r.DeleteSkill? || r.UploadImage? ==>
      forall c :: StoreReply(cfg, r, res) == StoreReply(cfg, r, res.(content := c))
  {
  }

  // ---------------------------------------------------------------------------
  // Serving a request

  /** The requests sent while serving a route, in order, and the reply. */
  datatype Exchange = Exchange(sent: seq<Request>, reply: Reply)

  function AuthRequest(cfg: Config, token: string): Request
  {
    Request(Get, cfg.url + "/auth/v1/user",
            map["apikey" := cfg.anonKey, "Authorization" := BearerPrefix + token], NoBody)
  }

  /** `verify_admin`: a missing or empty header is refused before any call; the
      extracted token is checked with the auth service, and anything but a 200
      is refused; otherwise the decoded user. */
  function VerifyAdmin(cfg: Config, authorization: Option<string>, auth: Request -> Response): Exchange
  {
    if !(authorization.Some? && authorization.value != "") then
      Exchange([], Raised(401, "Missing authorization header"))
    else
      var req := AuthRequest(cfg, Token(authorization.value));
      var res := auth(req);
      if res.status != 200 then Exchange([req], Raised(401, "Invalid or expired token"))
      else Exchange([req], Decoded(res))
  }

  /** One request to the API: the admin routes run `verify_admin` first and stop
      at its error; then the route makes its store call and answers. */
  function Serve(cfg: Config, r: Route, authorization: Option<string>,
                 auth: Request -> Response, store: Request -> Response): Exchange
  {
    if r.Root? then
      Exchange([], Ok(JObject([("message", JStr("Portfolio API is running")), ("docs", JStr("/docs")),
                               ("health", JStr("/api/health"))])))
    else if r.Health? then
      Exchange([], Ok(JObject([("status", JStr("ok")), ("version", JStr("1.0.0"))])))
    else
      var v := if IsAdmin(r) then VerifyAdmin(cfg, authorization, auth) else Exchange([], Ok(JNull));
      if v.reply.Raised? then v
      else
        var req := StoreRequest(cfg, r);
        Exchange(v.sent + [req], StoreReply(cfg, r, store(req)))
  }

  /** Without a non-empty header an admin route answers 401 and sends
      nothing. */
  lemma MissingHeaderRefused(cfg: Config, r: Route, authorization: Option<string>,
                             auth: Request -> Response, store: Request -> Response)
    requires IsAdmin(r) && !(authorization.Some? && authorization.value != "")
    ensures Serve(cfg, r, authorization, auth, store) == Exchange([], Raised(401, "Missing authorization header"))
  {
  }

  /** With a header, the first request is the auth check carrying the extracted
      token, and a refusal answers 401 without calling the store. */
  lemma RefusedTokenStops(cfg: Config, r: Route, a: string,
                          auth: Request -> Response, store: Request -> Response)
    requires IsAdmin(r) && a != ""
    ensures var e := Serve(cfg, r, Some(a), auth, store);
      |e.sent| >= 1 && e.sent[0] == AuthRequest(cfg, Token(a))
      && (auth(e.sent[0]).status != 200 ==> e == Exchange([e.sent[0]], Raised(401, "Invalid or expired token")))
  {
  }

  /** An admin route reaches the store only after a 200 from the auth service,
      and then answers from the store's response; at most two requests are
      ever sent. */
  lemma StoreOnlyAfterApproval(cfg: Config, r: Route, authorization: Option<string>,
                               auth: Request -> Response, store: Request -> Response)
    requires IsAdmin(r)
    ensures var e := Serve(cfg, r, authorization, auth, store);
      |e.sent| <= 2
      && (|e.sent| == 2 ==>
        auth(e.sent[0]).status == 200 && e.sent[1] == StoreRequest(cfg, r)
        && e.reply == StoreReply(cfg, r, store(e.sent[1])))
  {
  }

  /** Public routes never consult the auth service: the store call, if any, is the
      only request. */
  lemma PublicRoutesUnguarded(cfg: Config, r: Route, authorization: Option<string>,
                              auth: Request -> Response, store: Request -> Response)
    requires !IsAdmin(r)
    ensures var e := Serve(cfg, r, authorization, auth, store);
      (CallsStore(r) ==> e == Exchange([StoreRequest(cfg, r)], StoreReply(cfg, r, store(StoreRequest(cfg, r)))))
      && (!CallsStore(r) ==> e.sent == [] && e.reply.Ok?)
  {
  }

  /** A client that sends `"Bearer " + t` with a valid token `t` (one without
      `"Bearer "` in it) has `t` itself checked by the auth service. */
  lemma ClientTokenReachesAuthService(cfg: Config, r: Route, t: string,
                                      auth: Request -> Response, store: Request -> Response)
    requires IsAdmin(r) && !Occurs(t, BearerPrefix)
    ensures Serve(cfg, r, Some(BearerPrefix + t), auth, store).sent[0] == AuthRequest(cfg, t)
  {
    BearerRoundTrip(t);
  }
}
