/** From a client's path to a provider's path, and the model the policy is asked
    about. path.Clean and JSON decoding are parameters. */
module Routes {
  import opened JsonValues
  import opened Wrappers

  datatype Provider = OpenAI | Anthropic | Google

  /** A provider and the path to forward to it. */
  datatype Target = Target(provider: Provider, path: string)

  function Named(name: string): Option<Provider> {
    match name
    case "openai" => Some(OpenAI)
    case "anthropic" => Some(Anthropic)
    case "google" => Some(Google)
    case _ => None
  }

  /** The position of the first of the characters, or the length. */
  function IndexAny(s: string, chars: set<char>): (i: nat)
    ensures i <= |s| && (i < |s| ==> s[i] in chars)
    ensures forall k :: 0 <= k < i ==> s[k] !in chars
  {
    if s == "" || s[0] in chars then 0 else 1 + IndexAny(s[1..], chars)
  }

  const PROXY := "/proxy/"
  const V1 := "/v1"
  const V1BETA := "/v1beta"

  /** DetectProvider. */
  function DetectProvider(path: string): Option<Target> {
    if PROXY <= path then Explicit(path[|PROXY|..])
    else if "/v1/messages" <= path then Some(Target(Anthropic, path))
    else if "/v1beta/" <= path then Some(Target(Google, path))
    else if "/v1/" <= path then Some(Target(OpenAI, path))
    else None
  }

  function Explicit(rest: string): Option<Target> {
    var slash := IndexAny(rest, {'/'});
    var provider := Named(rest[..slash]);
    if provider.None? then None
    else if slash == |rest| then Some(Target(provider.value, "/"))
    else if provider.value.OpenAI? && !(V1 <= rest[slash..]) then Some(Target(OpenAI, V1 + rest[slash..]))
    else Some(Target(provider.value, rest[slash..]))
  }

  // ---- The inference routes ----

  const OPENAI_ROUTES := {"/v1/chat/completions", "/v1/completions", "/v1/responses", "/v1/embeddings"}
  const ANTHROPIC_ROUTES := {"/v1/messages", "/v1/messages/count_tokens", "/v1/complete"}
  const GOOGLE_ACTIONS := {"generateContent", "streamGenerateContent", "countTokens", "embedContent",
                           "batchEmbedContents"}
  const MODELS := "/models/"

  predicate IsModelChar(c: char) {
    'A' <= c <= 'Z' || 'a' <= c <= 'z' || '0' <= c <= '9' || c == '.' || c == '_' || c == '-'
  }

  predicate IsModelName(model: string) {
    model != "" && forall i :: 0 <= i < |model| ==> IsModelChar(model[i])
  }

  function GooglePath(version: string, model: string, action: string): string {
    version + MODELS + model + ":" + action
  }

  ghost predicate IsGoogleRoute(path: string) {
    exists version, model, action ::
      && version in {V1, V1BETA} && IsModelName(model) && action in GOOGLE_ACTIONS
      && path == GooglePath(version, model, action)
  }

  /** IsInferenceRoute, for a POST. */
  ghost predicate IsInferenceRoute(t: Target) {
    match t.provider
    case OpenAI => t.path in OPENAI_ROUTES
    case Anthropic => t.path in ANTHROPIC_ROUTES
    case Google => IsGoogleRoute(t.path)
  }

  /** What a POST to this path is forwarded to, if it is. */
  ghost function Forwarded(path: string, clean: string -> string): Option<Target> {
    var found := DetectProvider(path);
    if found.None? then None
    else
      var t := if found.value.provider.Google? then Target(Google, clean(found.value.path)) else found.value;
      if IsInferenceRoute(t) then Some(t) else None
  }

  // ---- Which paths reach which provider ----

  function NameOf(provider: Provider): string {
    match provider
    case OpenAI => "openai"
    case Anthropic => "anthropic"
    case Google => "google"
  }

  lemma NamesAreUnique(name: string, provider: Provider)
    ensures Named(name) == Some(provider) <==> name == NameOf(provider)
    ensures '/' !in NameOf(provider)
  {
  }

  lemma IndexAnyIs(s: string, chars: set<char>, i: nat)
    requires i <= |s| && (i < |s| ==> s[i] in chars) && forall k :: 0 <= k < i ==> s[k] !in chars
    ensures IndexAny(s, chars) == i
  {
  }

  /** What follows the provider's name in an explicit path: nothing or a path. */
  predicate IsTail(tail: string) {
    tail == "" || tail[0] == '/'
  }

  function Remaining(provider: Provider, tail: string): string {
    if tail == "" then "/" else if provider.OpenAI? && !(V1 <= tail) then V1 + tail else tail
  }

  lemma ExplicitOfName(provider: Provider, tail: string)
    requires IsTail(tail)
    ensures Explicit(NameOf(provider) + tail) == Some(Target(provider, Remaining(provider, tail)))
  {
    var name := NameOf(provider);
    NamesAreUnique(name, provider);
    IndexAnyIs(name + tail, {'/'}, |name|);
    assert (name + tail)[..|name|] == name && (name + tail)[|name|..] == tail;
  }

  lemma NameOfExplicit(rest: string) returns (tail: string)
    requires Explicit(rest).Some?
    ensures var provider := Explicit(rest).value.provider;
            IsTail(tail) && rest == NameOf(provider) + tail
            && Explicit(rest) == Some(Target(provider, Remaining(provider, tail)))
  {
    var slash := IndexAny(rest, {'/'});
    tail := rest[slash..];
    NamesAreUnique(rest[..slash], Explicit(rest).value.provider);
    assert rest == rest[..slash] + tail;
  }

  /** The path a provider is handed is the client's own, or what follows the
      provider's name in an explicit one. */
  ghost predicate Reaches(path: string, t: Target) {
    if PROXY <= path then
      exists tail ::
        IsTail(tail) && path[|PROXY|..] == NameOf(t.provider) + tail && t.path == Remaining(t.provider, tail)
    else
      path == t.path && DirectTo(path, t.provider)
  }

  predicate DirectTo(path: string, provider: Provider) {
    match provider
    case Anthropic => "/v1/messages" <= path
    case Google => "/v1beta/" <= path
    case OpenAI => "/v1/" <= path && !("/v1/messages" <= path)
  }

  lemma DirectPathsDiffer(path: string)
    ensures !(DirectTo(path, Anthropic) && DirectTo(path, Google))
    ensures !(DirectTo(path, OpenAI) && DirectTo(path, Google))
  {
    assert "/v1beta/"[3] == 'b' && "/v1/"[3] == '/' && "/v1/messages"[3] == '/';
    if DirectTo(path, Google) { assert path[3] == "/v1beta/"[3]; }
    if DirectTo(path, OpenAI) { assert path[3] == "/v1/"[3]; }
    if DirectTo(path, Anthropic) { assert path[3] == "/v1/messages"[3]; }
  }

  lemma ExplicitExactly(rest: string, t: Target)
    ensures Explicit(rest) == Some(t)
            <==> exists tail ::
                   IsTail(tail) && rest == NameOf(t.provider) + tail && t.path == Remaining(t.provider, tail)
  {
    if Explicit(rest).Some? {
      var tail := NameOfExplicit(rest);
    }
    if tail :| IsTail(tail) && rest == NameOf(t.provider) + tail && t.path == Remaining(t.provider, tail) {
      ExplicitOfName(t.provider, tail);
    }
  }

  lemma DetectedExactly(path: string, t: Target)
    ensures DetectProvider(path) == Some(t) <==> Reaches(path, t)
  {
    if PROXY <= path { ExplicitExactly(path[|PROXY|..], t); } else { DirectPathsDiffer(path); }
  }

  lemma DetectedOrNot(path: string)
    ensures DetectProvider(path).Some? <==> exists t :: Reaches(path, t)
  {
    if DetectProvider(path).Some? { DetectedExactly(path, DetectProvider(path).value); }
    if t :| Reaches(path, t) { DetectedExactly(path, t); }
  }

  lemma ExplicitPath(path: string, provider: Provider, tail: string)
    ensures path == PROXY + NameOf(provider) + tail <==> PROXY <= path && path[|PROXY|..] == NameOf(provider) + tail
  {
    assert PROXY + NameOf(provider) + tail == PROXY + (NameOf(provider) + tail);
    if PROXY <= path { assert path == PROXY + path[|PROXY|..]; }
  }

  lemma OpenAIRouteStarts(up: string)
    requires up in OPENAI_ROUTES
    ensures V1 <= up && "/v1/" <= up && !("/v1/messages" <= up) && !(PROXY <= up)
    ensures up[4] != 'm'
    ensures IsTail(up) && IsTail(up[|V1|..]) && up[|V1|..] != "" && !(V1 <= up[|V1|..]) && V1 + up[|V1|..] == up
  {
    assert up[1] == 'v' && PROXY[1] == 'p';
    assert up[4] != 'm' && up[4] != 'v' && up[|V1|..][1] == up[4];
    assert "/v1/messages"[4] == 'm' && V1[1] == 'v';
  }

  /** A request is forwarded to OpenAI exactly when its path is the route, alone
      or after the provider's name, where the version may be left out. */
  lemma OpenAIRequestsExactly(path: string, clean: string -> string, up: string)
    ensures Forwarded(path, clean) == Some(Target(OpenAI, up))
            <==> up in OPENAI_ROUTES
                 && (path == up || path == PROXY + "openai" + up || path == PROXY + "openai" + up[|V1|..])
  {
    DetectedExactly(path, Target(OpenAI, up));
    if up in OPENAI_ROUTES { OpenAIReachedExactly(path, up); }
  }

  lemma OpenAIReachedExactly(path: string, up: string)
    requires up in OPENAI_ROUTES
    ensures Reaches(path, Target(OpenAI, up))
            <==> path == up || path == PROXY + "openai" + up || path == PROXY + "openai" + up[|V1|..]
  {
    OpenAIRouteStarts(up);
    ExplicitPath(path, OpenAI, up);
    ExplicitPath(path, OpenAI, up[|V1|..]);
    OpenAITails(up);
  }

  /** What may stand after the name: the route, or the route without its version. */
  lemma OpenAITails(up: string)
    requires up in OPENAI_ROUTES
    ensures forall tail :: IsTail(tail) && up == Remaining(OpenAI, tail) <==> tail == up || tail == up[|V1|..]
  {
    OpenAIRouteStarts(up);
    forall tail | IsTail(tail) && up == Remaining(OpenAI, tail) ensures tail == up || tail == up[|V1|..] {
      if !(V1 <= tail) { assert up[|V1|..] == tail; }
    }
  }

  /** And to Anthropic exactly when it is the route alone or after the name;
      alone, `/v1/complete` counts as an OpenAI path and is refused. */
  lemma AnthropicRequestsExactly(path: string, clean: string -> string, up: string)
    ensures Forwarded(path, clean) == Some(Target(Anthropic, up))
            <==> up in ANTHROPIC_ROUTES && (path == PROXY + "anthropic" + up || (path == up && up != "/v1/complete"))
  {
    DetectedExactly(path, Target(Anthropic, up));
    if up in ANTHROPIC_ROUTES { AnthropicReachedExactly(path, up); }
  }

  lemma AnthropicRouteStarts(up: string)
    requires up in ANTHROPIC_ROUTES
    ensures IsTail(up) && up != "" && up != "/" && !(PROXY <= up)
    ensures "/v1/messages" <= up <==> up != "/v1/complete"
  {
    assert up[1] == 'v' && PROXY[1] == 'p';
    assert "/v1/complete"[4] == 'c' && "/v1/messages"[4] == 'm';
  }

  lemma AnthropicReachedExactly(path: string, up: string)
    requires up in ANTHROPIC_ROUTES
    ensures Reaches(path, Target(Anthropic, up))
            <==> path == PROXY + "anthropic" + up || (path == up && up != "/v1/complete")
  {
    AnthropicRouteStarts(up);
    ExplicitPath(path, Anthropic, up);
    assert forall tail :: IsTail(tail) && up == Remaining(Anthropic, tail) <==> tail == up;
  }

  /** Google is reached after its name, or by a beta path alone. */
  lemma GoogleRequestsExactly(path: string, clean: string -> string, up: string)
    ensures Forwarded(path, clean) == Some(Target(Google, up))
            <==> IsGoogleRoute(up) && exists p :: clean(p) == up && Reaches(path, Target(Google, p))
  {
    if Forwarded(path, clean) == Some(Target(Google, up)) {
      var p := DetectProvider(path).value.path;
      DetectedExactly(path, Target(Google, p));
      assert clean(p) == up;
    }
    if p :| clean(p) == up && Reaches(path, Target(Google, p)) {
      DetectedExactly(path, Target(Google, p));
    }
  }

  /** A `/v1/models` path of Google's own route, sent alone, counts as an OpenAI
      path and is refused. */
  lemma StableGooglePathsNeedTheName(model: string, action: string, clean: string -> string)
    ensures Forwarded(GooglePath(V1, model, action), clean) == None
  {
    var path := GooglePath(V1, model, action);
    assert path == V1 + MODELS + (model + ":" + action);
    assert path[1] == 'v' && path[3] == '/' && path[4] == 'm' && path[5] == 'o';
    assert PROXY[1] == 'p' && "/v1beta/"[3] == 'b' && "/v1/messages"[5] == 'e';
    assert "/v1/" <= path;
    assert DirectTo(path, OpenAI);
    DetectedExactly(path, Target(OpenAI, path));
    if path in OPENAI_ROUTES { OpenAIRouteStarts(path); }
  }

  // ---- The model ----

  /** The position of the first occurrence of a part, if there is one. */
  function Find(s: string, part: string): (at: Option<nat>)
    ensures at.Some? ==> at.value + |part| <= |s|
  {
    if part <= s then Some(0)
    else if s == "" then None
    else
      var later := Find(s[1..], part);
      if later.None? then None else Some(1 + later.value)
  }

  /** extractModel. */
  function ExtractModel(body: string, t: Target, decode: Decoder): string {
    var named := if t.provider.Google? then ModelInPath(t.path) else "";
    if named != "" then named
    else if body == "" then ""
    else
      var parsed := decode(body);
      if parsed.Some? && parsed.value.JObject? && "model" in parsed.value.o && parsed.value.o["model"].JString?
      then parsed.value.o["model"].s
      else ""
  }

  function ModelInPath(path: string): string {
    var at := Find(path, MODELS);
    if at.None? then ""
    else
      var rest := path[at.value + |MODELS|..];
      rest[..IndexAny(rest, {':', '/'})]
  }

  lemma {:induction false} FindFirst(s: string, part: string, at: nat)
    requires at + |part| <= |s| && part <= s[at..]
    requires forall i :: 0 <= i < at ==> !(part <= s[i..])
    ensures Find(s, part) == Some(at)
  {
    if at > 0 {
      assert s[0..] == s;
      forall i | 0 <= i < at - 1 ensures !(part <= s[1..][i..]) {
        assert s[1..][i..] == s[i + 1..];
      }
      assert s[1..][at - 1..] == s[at..];
      FindFirst(s[1..], part, at - 1);
    }
  }

  lemma ModelsStartAfterTheVersion(version: string, rest: string)
    requires version in {V1, V1BETA}
    ensures Find(version + MODELS + rest, MODELS) == Some(|version|)
  {
    var path := version + MODELS + rest;
    assert path[|version|..] == MODELS + rest;
    forall i | 0 <= i < |version| ensures !(MODELS <= path[i..]) {
      assert path[i..][0] == version[i];
      assert path[i..][1] == path[i + 1];
      assert i == 0 ==> path[1] == version[1] == 'v';
      assert i > 0 ==> version[i] != '/';
    }
    FindFirst(path, MODELS, |version|);
  }

  /** The model in a path of the Google route is read back whole. */
  lemma ModelOfGooglePath(version: string, model: string, action: string)
    requires version in {V1, V1BETA} && IsModelName(model)
    ensures ModelInPath(GooglePath(version, model, action)) == model
  {
    var rest := model + ":" + action;
    assert GooglePath(version, model, action) == version + MODELS + rest;
    ModelsStartAfterTheVersion(version, rest);
    assert (version + MODELS + rest)[|version| + |MODELS|..] == rest;
    IndexAnyIs(rest, {':', '/'}, |model|);
  }

  /** A nonempty body is a JSON object with this string under "model". */
  ghost predicate NamesModel(body: string, model: string, decode: Decoder) {
    body != "" && exists fields: Object ::
      decode(body) == Some(JObject(fields)) && "model" in fields && fields["model"] == JString(model)
  }

  /** What a request to this target is for: of Google the model in the path; of the
      others the string under "model" of the body, or none where there is no such string. */
  ghost predicate IsModelOf(model: string, t: Target, body: string, decode: Decoder) {
    match t.provider
    case Google =>
      IsModelName(model) && exists version, action ::
        version in {V1, V1BETA} && action in GOOGLE_ACTIONS && t.path == GooglePath(version, model, action)
    case _ =>
      && (forall named :: NamesModel(body, named, decode) ==> model == named)
      && ((forall named :: !NamesModel(body, named, decode)) ==> model == "")
  }

  lemma NamesOneModel(body: string, named: string, decode: Decoder)
    requires body != ""
    ensures NamesModel(body, named, decode)
            <==> && decode(body).Some? && decode(body).value.JObject?
                 && "model" in decode(body).value.o && decode(body).value.o["model"] == JString(named)
  {
    if decode(body).Some? && decode(body).value.JObject? {
      assert decode(body) == Some(JObject(decode(body).value.o));
    }
  }

  /** For every target that is forwarded to and every body, the policy is asked about
      the model the request is for. */
  lemma PolicySeesTheModel(t: Target, body: string, decode: Decoder)
    requires IsInferenceRoute(t)
    ensures IsModelOf(ExtractModel(body, t, decode), t, body, decode)
  {
    if t.provider.Google? {
      var version, model, action :|
        && version in {V1, V1BETA} && IsModelName(model) && action in GOOGLE_ACTIONS
        && t.path == GooglePath(version, model, action);
      ModelOfGooglePath(version, model, action);
    } else if body != "" {
      forall named ensures NamesModel(body, named, decode) ==> ExtractModel(body, t, decode) == named {
        NamesOneModel(body, named, decode);
      }
      NamesOneModel(body, ExtractModel(body, t, decode), decode);
    }
  }
}
