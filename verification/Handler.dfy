/** One proxied request, from the client's headers to the usage report, over every
    answer its surroundings can give; and many of them at once. */
module Handler {
  import opened Basics
  import opened JsonValues
  import opened Routes
  import opened Stream
  import opened Text
  import opened Usage
  import UsageShapes
  import opened Wrappers

  // ---- Effects, and the order they may come in ----

  datatype Effect =
    | AskPolicy(target: Target, model: string)
    | PolicyAllows(filter: bool)
    | PolicyDenies
    | CountBlocked
    | ResolveKey
    | CallProvider(to: Target)
    | ProviderResponds
    | AskFilter(text: Bytes)
    | FilterAllows
    | FilterDenies
    | Deliver                 // from here on the provider's status and bytes go to the client
    | Meter(usage: UsageData, outcome: string)
    | Refuse(code: nat)       // the gateway's own error answer

  datatype Phase =
    | Fresh
    | Asked(target: Target)
    | Denied(counted: bool)
    | Allowed(target: Target, filter: bool)
    | Keyed(target: Target, filter: bool)
    | Called(filter: bool)
    | Responded(filter: bool)
    | Judging
    | Withheld(counted: bool)
    | Cleared
    | Delivering
    | OwesRefusal(counted: bool)
    | Done(counted: bool)

  /** What a handler may do next. */
  function Next(p: Phase, e: Effect): Option<Phase> {
    match p
    case Fresh => if e.AskPolicy? then Some(Asked(e.target)) else if e.Refuse? then Some(Done(false)) else None
    case Asked(target) =>
      if e.PolicyAllows? then Some(Allowed(target, e.filter)) else if e.PolicyDenies? then Some(Denied(false)) else None
    case Denied(counted) =>
      if !counted && e.CountBlocked? then Some(Denied(true))
      else if counted && e.Refuse? then Some(Done(true))
      else None
    case Allowed(target, filter) =>
      if e.ResolveKey? then Some(Keyed(target, filter)) else if e.Refuse? then Some(Done(false)) else None
    case Keyed(target, filter) =>
      if e.CallProvider? && e.to == target then Some(Called(filter)) else if e.Refuse? then Some(Done(false)) else None
    case Called(filter) =>
      if e.ProviderResponds? then Some(Responded(filter)) else if e.Refuse? then Some(Done(false)) else None
    case Responded(filter) =>
      if !filter then if e.Deliver? then Some(Delivering) else None
      else if e.AskFilter? then Some(Judging)
      else if e.Meter? then Some(OwesRefusal(false))
      else None
    case Judging => if e.FilterAllows? then Some(Cleared) else if e.FilterDenies? then Some(Withheld(false)) else None
    case Withheld(counted) =>
      if !counted && e.CountBlocked? then Some(Withheld(true))
      else if counted && e.Meter? then Some(OwesRefusal(true))
      else None
    case Cleared => if e.Deliver? then Some(Delivering) else None
    case Delivering => if e.Meter? then Some(Done(false)) else None
    case OwesRefusal(counted) => if e.Refuse? then Some(Done(counted)) else None
    case Done(_) => None
  }

  function After(effects: seq<Effect>): Option<Phase> {
    if effects == [] then Some(Fresh)
    else
      var before := After(effects[..|effects| - 1]);
      if before.None? then None else Next(before.value, effects[|effects| - 1])
  }

  lemma AfterOneMore(effects: seq<Effect>, e: Effect)
    ensures After(effects + [e]) == if After(effects).None? then None else Next(After(effects).value, e)
  {
    assert (effects + [e])[..|effects|] == effects;
  }

  lemma {:induction false} PrefixesAreAllowed(effects: seq<Effect>, i: nat)
    requires After(effects).Some? && i <= |effects|
    ensures After(effects[..i]).Some?
  {
    if i == |effects| {
      assert effects[..i] == effects;
    } else {
      var n := |effects| - 1;
      PrefixesAreAllowed(effects[..n], i);
      assert effects[..n][..i] == effects[..i];
    }
  }

  lemma AfterAt(es: seq<Effect>, i: nat)
    requires After(es).Some? && i < |es|
    ensures After(es[..i]).Some? && After(es[..i + 1]) == Next(After(es[..i]).value, es[i]) != None
  {
    PrefixesAreAllowed(es, i);
    PrefixesAreAllowed(es, i + 1);
    assert es[..i + 1][..i] == es[..i];
  }

  function Count(effects: seq<Effect>, kind: Effect -> bool): nat {
    if effects == [] then 0
    else Count(effects[..|effects| - 1], kind) + if kind(effects[|effects| - 1]) then 1 else 0
  }

  function Calls(): Effect -> bool { (e: Effect) => e.CallProvider? }
  function Responses(): Effect -> bool { (e: Effect) => e.ProviderResponds? }
  function Reports(): Effect -> bool { (e: Effect) => e.Meter? }
  function Deliveries(): Effect -> bool { (e: Effect) => e.Deliver? }
  function Refusals(): Effect -> bool { (e: Effect) => e.Refuse? }
  function Blocks(): Effect -> bool { (e: Effect) => e.CountBlocked? }

  /** How many of each effect led to a phase. */
  ghost predicate Explains(p: Phase, es: seq<Effect>) {
    var calls, responses, reports := Count(es, Calls()), Count(es, Responses()), Count(es, Reports());
    var deliveries, refusals, blocks := Count(es, Deliveries()), Count(es, Refusals()), Count(es, Blocks());
    match p
    case Fresh => calls + responses + reports + deliveries + refusals + blocks == 0
    case Asked(_) => calls + responses + reports + deliveries + refusals + blocks == 0
    case Allowed(_, _) => calls + responses + reports + deliveries + refusals + blocks == 0
    case Keyed(_, _) => calls + responses + reports + deliveries + refusals + blocks == 0
    case Denied(counted) => calls + responses + reports + deliveries + refusals == 0 && blocks == Counts(counted)
    case Called(_) => calls == 1 && responses + reports + deliveries + refusals + blocks == 0
    case Responded(_) => calls == responses == 1 && reports + deliveries + refusals + blocks == 0
    case Judging => calls == responses == 1 && reports + deliveries + refusals + blocks == 0
    case Cleared => calls == responses == 1 && reports + deliveries + refusals + blocks == 0
    case Withheld(counted) =>
      calls == responses == 1 && reports + deliveries + refusals == 0 && blocks == Counts(counted)
    case Delivering => calls == responses == deliveries == 1 && reports + refusals + blocks == 0
    case OwesRefusal(counted) =>
      calls == responses == reports == 1 && deliveries + refusals == 0 && blocks == Counts(counted)
    case Done(counted) =>
      && reports == responses <= calls <= 1 && deliveries + refusals == 1
      && deliveries <= responses && blocks == Counts(counted)
  }

  function Counts(b: bool): nat { if b then 1 else 0 }

  lemma {:induction false} PhasesAreExplained(es: seq<Effect>)
    requires After(es).Some?
    ensures Explains(After(es).value, es)
  {
    if es != [] { PhasesAreExplained(es[..|es| - 1]); }
  }

  /** A finished request called the provider at most once, was metered once if the
      provider answered and not at all otherwise, and got one answer: the
      provider's or the gateway's own. */
  lemma MeteredOnceExactlyWhenAnswered(es: seq<Effect>)
    requires After(es).Some? && After(es).value.Done?
    ensures Count(es, Calls()) <= 1
    ensures Count(es, Reports()) == Count(es, Responses()) <= Count(es, Calls())
    ensures Count(es, Deliveries()) + Count(es, Refusals()) == 1
    ensures Count(es, Blocks()) <= 1
  {
    PhasesAreExplained(es);
  }

  /** The policy was asked about this target first. */
  predicate Begun(es: seq<Effect>, target: Target) {
    es != [] && es[0].AskPolicy? && es[0].target == target
  }

  lemma {:induction false} BeforeTheCall(es: seq<Effect>)
    requires After(es).Some?
    ensures After(es).value.Fresh? ==> es == []
    ensures After(es).value.Asked? ==> |es| == 1 && Begun(es, After(es).value.target)
    ensures After(es).value.Allowed? ==>
              |es| == 2 && Begun(es, After(es).value.target) && es[1] == PolicyAllows(After(es).value.filter)
    ensures After(es).value.Keyed? ==>
              && |es| == 3 && Begun(es, After(es).value.target) && es[1] == PolicyAllows(After(es).value.filter)
              && es[2] == ResolveKey
  {
    if es != [] { BeforeTheCall(es[..|es| - 1]); }
  }

  /** The provider is called only after the policy allowed that very target and a
      key resolved, and nothing else came before. */
  lemma CalledOnlyWhenAllowed(es: seq<Effect>, i: nat) returns (model: string, filter: bool)
    requires After(es).Some? && i < |es| && es[i].CallProvider?
    ensures es[..i] == [AskPolicy(es[i].to, model), PolicyAllows(filter), ResolveKey]
  {
    AfterAt(es, i);
    BeforeTheCall(es[..i]);
    model, filter := es[..i][0].model, After(es[..i]).value.filter;
  }

  lemma {:induction false} TheFilterIsRemembered(es: seq<Effect>)
    requires After(es).Some?
    ensures After(es).value.Called? ==> |es| == 4 && es[1] == PolicyAllows(After(es).value.filter)
    ensures After(es).value.Responded? ==> |es| == 5 && es[1] == PolicyAllows(After(es).value.filter)
    ensures After(es).value.Judging? || After(es).value.Cleared? ==> |es| > 1 && es[1] == PolicyAllows(true)
    ensures After(es).value.Cleared? ==> es[|es| - 1] == FilterAllows
  {
    if es != [] {
      BeforeTheCall(es[..|es| - 1]);
      TheFilterIsRemembered(es[..|es| - 1]);
    }
  }

  /** Where an output filter applies, the provider's answer goes to the client only
      right after the filter allowed it. */
  lemma DeliveredOnlyWhenCleared(es: seq<Effect>, i: nat)
    requires After(es).Some? && i < |es| && es[i].Deliver?
    ensures i > 1 && es[1].PolicyAllows? && (es[1].filter ==> es[i - 1] == FilterAllows)
  {
    AfterAt(es, i);
    TheFilterIsRemembered(es[..i]);
  }

  /** The filter is asked in one place, so what the handler says of that place it
      says of every time the filter is asked. */
  lemma FilterIsAskedSixth(es: seq<Effect>, i: nat)
    requires After(es).Some? && i < |es| && es[i].AskFilter?
    ensures i == 5
  {
    AfterAt(es, i);
    TheFilterIsRemembered(es[..i]);
  }

  /** The last report among the effects: the last effect, or the last before a refusal. */
  function Report(effects: seq<Effect>): Option<Effect> {
    var n := |effects|;
    if n > 0 && effects[n - 1].Meter? then Some(effects[n - 1])
    else if n > 1 && effects[n - 2].Meter? then Some(effects[n - 2])
    else None
  }

  lemma ReportLeadsTo(p: Phase, e: Effect)
    requires Next(p, e) != None && e.Meter?
    ensures Next(p, e).value.Done? || Next(p, e).value.OwesRefusal?
  {
  }

  lemma NotDoneBefore(es: seq<Effect>, k: nat)
    requires After(es).Some? && k < |es|
    ensures After(es[..k]).Some? && !After(es[..k]).value.Done?
  {
    AfterAt(es, k);
  }

  lemma RefusalIsLast(es: seq<Effect>, k: nat)
    requires After(es).Some? && k < |es| && After(es[..k]).Some? && After(es[..k]).value.OwesRefusal?
    ensures k + 1 == |es|
  {
    AfterAt(es, k);
    if k + 1 < |es| { NotDoneBefore(es, k + 1); }
  }

  /** And that is the only report a finished request makes. */
  lemma TheOnlyReport(es: seq<Effect>, i: nat)
    requires After(es).Some? && After(es).value.Done? && i < |es| && es[i].Meter?
    ensures Report(es) == Some(es[i])
  {
    AfterAt(es, i);
    ReportLeadsTo(After(es[..i]).value, es[i]);
    if i + 1 < |es| {
      NotDoneBefore(es, i + 1);
      RefusalIsLast(es, i + 1);
      AfterAt(es, i + 1);
    }
  }

  // ---- The surroundings ----

  datatype Request = Request(key: string, path: string, post: bool, body: Bytes, readable: bool, compressed: bool,
                             streaming: bool)

  datatype Response = Response(status: nat, script: seq<Stream.Read>, events: bool)

  /** What the policy service, the key lookup, the provider and the client's
      context answer during one request. A zero key status is a resolved key. */
  datatype World = World(allowed: bool, filter: bool, keyStatus: nat, builds: bool, response: Option<Response>,
                         outputAllowed: bool, clientEnded: bool)

  /** What the handler leans on: path.Clean, the route expressions, JSON, content
      encodings, ExtractUsage, sseText, and the body of an error answer. */
  datatype Library = Library(clean: string -> string, onRoute: Target -> bool, decode: Decoder,
                             unpack: Bytes -> (Bytes, bool), usage: (Bytes, Provider) -> UsageData,
                             eventText: Bytes -> Bytes, says: nat -> Bytes)

  ghost predicate MatchesRoutes(lib: Library) {
    forall t :: lib.onRoute(t) <==> IsInferenceRoute(t)
  }

  predicate Answers(w: World) {
    w.response.Some? ==> Complete(w.response.value.script)
  }

  predicate Whole(script: seq<Stream.Read>, limit: nat) {
    |Body(script)| <= limit && !Breaks(script)
  }

  const COMPLETED := "completed"
  const FILTERED := "output_filtered"
  const TOO_LARGE := "response_too_large"
  const DISCONNECTED := "client_disconnected"
  const READ_FAILED := "upstream_read_failed"
  const UNINSPECTED := "inspection_failed"

  function OutcomeName(err: Option<Failure>, streamed: bool, clientEnded: bool): string {
    if err.None? then COMPLETED
    else if err.value.TooLarge? then TOO_LARGE
    else if (err.value.ClientGone? && streamed) || clientEnded then DISCONNECTED
    else READ_FAILED
  }

  // ---- The handler ----

  /** One request, what it meets, and the gateway's limit. */
  datatype Context = Context(r: Request, w: World, lib: Library, limit: nat)

  /** The filter judges the whole decoded body. */
  predicate JudgesBody(text: Bytes, resp: Response, c: Context) {
    var decoded := c.lib.unpack(Body(resp.script));
    && Whole(resp.script, c.limit) && decoded.1
    && text == if c.r.streaming || resp.events then c.lib.eventText(decoded.0) else decoded.0
  }

  /** One effect more, where the order allows it. */
  method Do(effects: seq<Effect>, e: Effect) returns (more: seq<Effect>)
    requires After(effects).Some? && Next(After(effects).value, e) != None
    ensures more == effects + [e] && After(more) == Next(After(effects).value, e)
  {
    AfterOneMore(effects, e);
    more := effects + [e];
  }

  predicate Untouched(client: Client)
    reads client
  {
    client.status.None? && client.statusLines == 0 && client.received == "" && !client.gone
  }

  /** The client got one of the gateway's own error answers and nothing else. */
  predicate OnlyRefused(client: Client, lib: Library)
    reads client
  {
    client.statusLines == 1 && client.status.Some? && client.received <= lib.says(client.status.value)
  }

  /** The client got the provider's status, or none, and a prefix of its body. */
  predicate GotPart(client: Client, resp: Response)
    reads client
  {
    && client.received <= Body(resp.script)
    && (client.status.None? ==> client.statusLines == 0 && client.received == "")
    && (client.status.Some? ==> client.statusLines == 1 && client.status.value == resp.status)
  }

  /** writeJSONError. */
  method WriteError(client: Client, code: nat, lib: Library)
    requires Untouched(client)
    modifies client
    ensures OnlyRefused(client, lib) && client.status == Some(code)
  {
    client.WriteHeader(code);
    var _ := client.Write(lib.says(code));
  }

  function RequestLimit(limit: nat): nat {
    if limit > 0 then limit else 52428800
  }

  /** The body is no larger than the configured limit, or than 50 MiB where none is configured. */
  predicate Fits(body: Bytes, limit: nat) {
    if limit == 0 then |body| <= 50 * 1024 * 1024 else |body| <= limit
  }

  ghost predicate Askable(r: Request, clean: string -> string, limit: nat) {
    && r.key != "" && r.post && Forwarded(r.path, clean).Some?
    && r.readable && !r.compressed && Fits(r.body, limit)
  }

  ghost predicate Responds(c: Context) {
    && Askable(c.r, c.lib.clean, c.limit) && c.w.allowed && c.w.keyStatus == 0 && c.w.builds && c.w.response.Some?
  }

  /** How a request ends: in an allowed order, with one answer. */
  ghost predicate Ended(effects: seq<Effect>, client: Client, c: Context)
    reads client
  {
    && After(effects).Some? && After(effects).value.Done?
    && (Refused(effects) ==> OnlyRefused(client, c.lib) && client.status == Some(effects[|effects| - 1].code))
    && (!Refused(effects) ==> c.w.response.Some? && GotPart(client, c.w.response.value))
  }

  predicate Refused(effects: seq<Effect>) {
    effects != [] && effects[|effects| - 1].Refuse?
  }

  /** Why a request is turned away before anything is asked for it. */
  ghost predicate TurnedAwayFor(code: nat, r: Request, clean: string -> string, limit: nat) {
    match code
    case 401 => r.key == ""
    case 404 => r.key != "" && forall t :: !Reaches(r.path, t)
    case 403 => r.key != "" && (exists t :: Reaches(r.path, t)) && !(r.post && Forwarded(r.path, clean).Some?)
    case 400 => r.key != "" && r.post && Forwarded(r.path, clean).Some? && !r.readable
    case 413 => r.key != "" && r.post && Forwarded(r.path, clean).Some? && r.readable && !Fits(r.body, limit)
    case 415 =>
      && r.key != "" && r.post && Forwarded(r.path, clean).Some? && r.readable && Fits(r.body, limit)
      && r.compressed
    case _ => false
  }

  /** Why a request that was asked for gets an error answer after all: the policy, the
      key, the building of the call, the provider, the filter (a block), or a response
      that cannot be judged. */
  predicate FailedWith(code: nat, counted: bool, c: Context) {
    if !c.w.allowed then code == 403 && counted
    else if c.w.keyStatus != 0 then code == c.w.keyStatus && !counted
    else if !c.w.builds then code == 500 && !counted
    else if c.w.response.None? then code == 502 && !counted
    else code == if counted then 403 else 502
  }

  /** Sent on as it is read, which no response under an output filter is. */
  predicate Streamed(resp: Response, c: Context) {
    !c.w.filter && (c.r.streaming || resp.events)
  }

  /** A response that is neither streamed nor held back for a filter. */
  predicate Copied(resp: Response, c: Context) {
    !c.w.filter && !Streamed(resp, c)
  }

  /** A copied response whose read ended in an error. */
  predicate CopyBroke(resp: Response, c: Context) {
    Copied(resp, c) && BreaksWithin(resp.script, c.limit + 1)
  }

  /** What is read of the body and fits the limit; a response that is read before
      it is sent is read for one byte more, to see that it is too large. */
  function WasRead(resp: Response, c: Context): Bytes {
    Cut(Body(resp.script), if Streamed(resp, c) then c.limit else c.limit + 1)
  }

  /** What is metered of it: all, but nothing of a copied response that broke. */
  function Metered(resp: Response, c: Context): Bytes {
    if CopyBroke(resp, c) then "" else WasRead(resp, c)
  }

  /** What the report of a delivered response says of how it ended. A failed write
      is the client's only where the response was streamed or the request's
      context has ended; elsewhere it is put down to the provider. */
  predicate NamesTheEnd(outcome: string, client: Client, resp: Response, c: Context)
    reads client
  {
    var length := |Body(resp.script)|;
    var lost := if c.w.clientEnded then DISCONNECTED else READ_FAILED;
    if client.gone then
      outcome == if length > c.limit then TOO_LARGE else if Streamed(resp, c) then DISCONNECTED else lost
    else if Whole(resp.script, c.limit) then outcome == COMPLETED
    else outcome == if length <= c.limit || CopyBroke(resp, c) then lost else TOO_LARGE
  }

  /** The report is of the usage in what is metered of the body, and names how the
      request ended: completed exactly of a whole body that was delivered and that
      the client, with this much room, holds; filtered exactly of a request that
      counts as blocked. */
  ghost predicate ReportsRight(effects: seq<Effect>, part: Bytes, client: Client, room: Option<nat>, t: Target,
                               resp: Response, c: Context)
    reads client
  {
    && (!Refused(effects) && Whole(resp.script, c.limit) ==> (client.gone <==> Overruns(room, Body(resp.script))))
    && part == Metered(resp, c)
    && Report(effects).Some? && Report(effects).value.usage == c.lib.usage(c.lib.unpack(part).0, t.provider)
    && After(effects).Some? && After(effects).value.Done?
    && OutcomeRight(Report(effects).value.outcome, Refused(effects), After(effects).value.counted, client, resp, c)
  }

  predicate OutcomeRight(outcome: string, refused: bool, counted: bool, client: Client, resp: Response, c: Context)
    reads client
  {
    && (refused ==> c.w.filter && outcome == if counted then FILTERED else UNINSPECTED)
    && (outcome == FILTERED <==> refused && counted)
    && (!refused ==> !counted && NamesTheEnd(outcome, client, resp, c))
    && (outcome == COMPLETED <==> !refused && Whole(resp.script, c.limit) && client.received == Body(resp.script))
  }

  /** The policy is asked about this target, and the model the request is for. */
  ghost predicate AsksAbout(e: Effect, t: Target, c: Context) {
    e.AskPolicy? && e.target == t && IsModelOf(e.model, t, c.r.body, c.lib.decode)
  }

  class Gateway {
    var requests: nat
    var blocked: nat
    const limit: nat

    constructor (limit: nat)
      ensures requests == 0 && blocked == 0 && this.limit == limit
    {
      requests, blocked := 0, 0;
      this.limit := limit;
    }

    /** A response under an output filter: all of it is read and judged before any
        of it is delivered. */
    method Inspect(t: Target, resp: Response, c: Context, client: Client, so: seq<Effect>)
      returns (effects: seq<Effect>, part: Bytes)
      requires After(so) == Some(Responded(true)) && c.w.filter && Untouched(client)
      requires c.limit == limit && c.w.response == Some(resp) && Complete(resp.script)
      modifies this`blocked, client
      ensures Ended(effects, client, c) && ReportsRight(effects, part, client, old(client.room), t, resp, c)
      ensures blocked == old(blocked) + Counts(After(effects).value.counted)
      ensures Refused(effects) ==> effects[|effects| - 1].code == if After(effects).value.counted then 403 else 502
      ensures so < effects && (effects[|so|].AskFilter? ==> JudgesBody(effects[|so|].text, resp, c))
    {
      var err;
      part, err := BufferResponse(resp.script, limit);
      var inspected := c.lib.unpack(part);
      var usage := c.lib.usage(inspected.0, t.provider);
      if err.Some? || !inspected.1 {
        effects := Abandon(usage, so, c, client);
        return;
      }
      var text := inspected.0;
      if c.r.streaming || resp.events { text := c.lib.eventText(inspected.0); }
      effects := Judge(text, usage, t, resp, c, client, so);
    }

    /** A whole response is shown to the filter, and withheld or released. */
    method Judge(text: Bytes, usage: UsageData, t: Target, resp: Response, c: Context, client: Client, so: seq<Effect>)
      returns (effects: seq<Effect>)
      requires After(so) == Some(Responded(true)) && c.w.filter && Untouched(client)
      requires c.limit == limit && c.w.response == Some(resp) && Whole(resp.script, limit)
      requires usage == c.lib.usage(c.lib.unpack(Body(resp.script)).0, t.provider)
      modifies this`blocked, client
      ensures Ended(effects, client, c)
      ensures ReportsRight(effects, Body(resp.script), client, old(client.room), t, resp, c)
      ensures blocked == old(blocked) + Counts(After(effects).value.counted)
      ensures Refused(effects) ==> effects[|effects| - 1].code == 403 && After(effects).value.counted
      ensures so < effects && effects[|so|] == AskFilter(text)
    {
      effects := Do(so, AskFilter(text));
      if !c.w.outputAllowed {
        effects := Withhold(usage, effects, c, client);
        return;
      }
      effects := Release(usage, Body(resp.script), resp.status, effects, c, client);
    }

    method Abandon(usage: UsageData, so: seq<Effect>, c: Context, client: Client) returns (effects: seq<Effect>)
      requires After(so) == Some(Responded(true)) && Untouched(client)
      modifies client
      ensures effects == so + [Meter(usage, UNINSPECTED), Refuse(502)] && After(effects) == Some(Done(false))
      ensures OnlyRefused(client, c.lib) && client.status == Some(502)
    {
      effects := Do(so, Meter(usage, UNINSPECTED));
      effects := Do(effects, Refuse(502));
      WriteError(client, 502, c.lib);
    }

    method Release(usage: UsageData, body: Bytes, status: nat, so: seq<Effect>, c: Context, client: Client)
      returns (effects: seq<Effect>)
      requires After(so) == Some(Judging) && Untouched(client)
      modifies client
      ensures After(effects) == Some(Done(false)) && so < effects && effects[|effects| - 1].Meter?
      ensures Report(effects).value.usage == usage
      ensures !Refused(effects) && (client.gone <==> client.received != body)
      ensures client.gone <==> Overruns(old(client.room), body)
      ensures Report(effects).value.outcome
           == if !client.gone then COMPLETED else if c.w.clientEnded then DISCONNECTED else READ_FAILED
      ensures client.received <= body && client.statusLines == 1 && client.status == Some(status)
    {
      effects := Do(so, FilterAllows);
      effects := Do(effects, Deliver);
      var failed := DeliverBuffered(client, status, body);
      effects := Do(effects, Meter(usage, OutcomeName(failed, false, c.w.clientEnded)));
    }

    /** A refusal by the policy or the filter, counted once. */
    method Block(so: seq<Effect>, denial: Effect) returns (effects: seq<Effect>)
      requires After(so).Some? && Next(After(so).value, denial) != None
      requires denial.PolicyDenies? || denial.FilterDenies?
      modifies this`blocked
      ensures so < effects && |effects| == |so| + 2 && blocked == old(blocked) + 1
      ensures After(effects) == Some(if denial.PolicyDenies? then Denied(true) else Withheld(true))
      ensures effects[|effects| - 1] == CountBlocked
    {
      effects := Do(so, denial);
      effects := Do(effects, CountBlocked);
      blocked := blocked + 1;
    }

    method Withhold(usage: UsageData, so: seq<Effect>, c: Context, client: Client) returns (effects: seq<Effect>)
      requires After(so) == Some(Judging) && Untouched(client)
      modifies this`blocked, client
      ensures After(effects) == Some(Done(true)) && OnlyRefused(client, c.lib) && client.status == Some(403)
      ensures Refused(effects) && effects[|effects| - 1].code == 403
      ensures so < effects && Report(effects) == Some(Meter(usage, FILTERED))
      ensures blocked == old(blocked) + 1
    {
      effects := Block(so, FilterDenies);
      effects := Do(effects, Meter(usage, FILTERED));
      effects := Do(effects, Refuse(403));
      WriteError(client, 403, c.lib);
    }

    /** A response without a filter is streamed or copied. */
    method Send(resp: Response, c: Context, client: Client) returns (part: Bytes, outcome: string)
      requires !c.w.filter && Untouched(client) && c.limit == limit && Complete(resp.script)
      modifies client
      ensures part == Metered(resp, c) && GotPart(client, resp)
      ensures OutcomeRight(outcome, false, false, client, resp, c)
      ensures Whole(resp.script, limit) ==> (client.gone <==> Overruns(old(client.room), Body(resp.script)))
    {
      var err;
      var stream := c.r.streaming || resp.events;
      if stream {
        part, err := StreamResponse(client, resp.status, resp.script, limit);
      } else {
        part, err := CopyResponse(client, resp.status, resp.script, limit);
      }
      outcome := OutcomeName(err, stream, c.w.clientEnded);
    }

    /** What was sent is then metered. */
    method Forward(t: Target, resp: Response, c: Context, client: Client, so: seq<Effect>)
      returns (effects: seq<Effect>, part: Bytes)
      requires After(so) == Some(Responded(false)) && !c.w.filter && Untouched(client)
      requires c.limit == limit && c.w.response == Some(resp) && Complete(resp.script)
      modifies client
      ensures Ended(effects, client, c) && ReportsRight(effects, part, client, old(client.room), t, resp, c)
      ensures After(effects) == Some(Done(false)) && so < effects && effects[|so|] == Deliver
    {
      effects := Do(so, Deliver);
      var outcome;
      part, outcome := Send(resp, c, client);
      effects := Do(effects, Meter(c.lib.usage(c.lib.unpack(part).0, t.provider), outcome));
    }

    /** An error answer that ends the request before there is a response. */
    method GiveUp(code: nat, so: seq<Effect>, c: Context, client: Client) returns (effects: seq<Effect>)
      requires After(so).Some? && Next(After(so).value, Refuse(code)) == Some(Done(false)) && Untouched(client)
      requires so == [] || !so[|so| - 1].Meter?
      modifies client
      ensures effects == so + [Refuse(code)] && After(effects) == Some(Done(false)) && Report(effects).None?
      ensures Ended(effects, client, c)
    {
      effects := Do(so, Refuse(code));
      WriteError(client, code, c.lib);
    }

    /** The key and the call: a response, or the status of the refusal. */
    method Call(t: Target, c: Context, so: seq<Effect>) returns (effects: seq<Effect>, code: nat)
      requires After(so) == Some(Allowed(t, c.w.filter))
      ensures so <= effects && (code == 0 <==> c.w.keyStatus == 0 && c.w.builds && c.w.response.Some?)
      ensures code == 0 ==> After(effects) == Some(Responded(c.w.filter)) && |effects| == |so| + 3
      ensures code != 0 ==> After(effects).Some? && Next(After(effects).value, Refuse(code)) == Some(Done(false))
      ensures code != 0 ==> code == if c.w.keyStatus != 0 then c.w.keyStatus else if !c.w.builds then 500 else 502
      ensures code != 0 ==> |effects| < |so| + 3 && (effects == so || !effects[|effects| - 1].Meter?)
    {
      if c.w.keyStatus != 0 { return so, c.w.keyStatus; }
      effects := Do(so, ResolveKey);
      if !c.w.builds { return effects, 500; }
      effects := Do(effects, CallProvider(t));
      if c.w.response.None? { return effects, 502; }
      effects := Do(effects, ProviderResponds);
      code := 0;
    }

    /** The response, judged first or sent on at once. */
    method HandOn(t: Target, resp: Response, c: Context, client: Client, so: seq<Effect>)
      returns (effects: seq<Effect>, part: Bytes)
      requires After(so) == Some(Responded(c.w.filter)) && Untouched(client)
      requires c.limit == limit && c.w.response == Some(resp) && Complete(resp.script)
      modifies this`blocked, client
      ensures Ended(effects, client, c) && so < effects
      ensures ReportsRight(effects, part, client, old(client.room), t, resp, c)
      ensures blocked == old(blocked) + Counts(After(effects).value.counted)
      ensures Refused(effects) ==> effects[|effects| - 1].code == if After(effects).value.counted then 403 else 502
      ensures effects[|so|].AskFilter? ==> JudgesBody(effects[|so|].text, resp, c)
    {
      if c.w.filter {
        effects, part := Inspect(t, resp, c, client, so);
      } else {
        effects, part := Forward(t, resp, c, client, so);
      }
    }

    /** The rest of handleProxy, once the policy allowed the request. */
    method Fetch(t: Target, c: Context, client: Client, so: seq<Effect>) returns (effects: seq<Effect>, part: Bytes)
      requires After(so) == Some(Allowed(t, c.w.filter)) && Untouched(client) && so != [] && !so[|so| - 1].Meter?
      requires c.limit == limit && Answers(c.w)
      modifies this`blocked, client
      ensures Ended(effects, client, c) && so < effects
      ensures blocked == old(blocked) + Counts(After(effects).value.counted)
      ensures c.w.allowed && Refused(effects) ==>
                FailedWith(effects[|effects| - 1].code, After(effects).value.counted, c)
      ensures if c.w.keyStatus == 0 && c.w.builds && c.w.response.Some?
              then ReportsRight(effects, part, client, old(client.room), t, c.w.response.value, c)
              else Refused(effects) && Report(effects).None?
      ensures |effects| > |so| + 3 && effects[|so| + 3].AskFilter? ==>
                c.w.response.Some? && JudgesBody(effects[|so| + 3].text, c.w.response.value, c)
    {
      var code;
      effects, code := Call(t, c, so);
      part := "";
      if code != 0 {
        effects := GiveUp(code, effects, c, client);
      } else {
        effects, part := HandOn(t, c.w.response.value, c, client, effects);
      }
    }

    method Deny(c: Context, client: Client, so: seq<Effect>) returns (effects: seq<Effect>)
      requires After(so).Some? && After(so).value.Asked? && Untouched(client)
      modifies this`blocked, client
      ensures so < effects && |effects| == |so| + 3 && After(effects) == Some(Done(true))
      ensures Refused(effects) && effects[|effects| - 1].code == 403 && Report(effects).None?
      ensures OnlyRefused(client, c.lib) && client.status == Some(403) && blocked == old(blocked) + 1
    {
      effects := Block(so, PolicyDenies);
      effects := Do(effects, Refuse(403));
      WriteError(client, 403, c.lib);
    }

    /** What is refused before anything is asked: no key, an unknown or unlisted
        route, a body that is broken, too large or compressed. */
    method Refusal(r: Request, lib: Library) returns (code: nat, t: Target)
      requires MatchesRoutes(lib)
      ensures code == 0 <==> Askable(r, lib.clean, limit)
      ensures code == 0 ==> Forwarded(r.path, lib.clean) == Some(t)
      ensures code != 0 ==> TurnedAwayFor(code, r, lib.clean, limit)
    {
      t := Target(OpenAI, "");
      DetectedOrNot(r.path);
      if r.key == "" { return 401, t; }
      var found := DetectProvider(r.path);
      if found.None? { return 404, t; }
      t := found.value;
      if t.provider.Google? { t := Target(Google, lib.clean(t.path)); }
      if !(r.post && lib.onRoute(t)) { return 403, t; }
      if !r.readable { return 400, t; }
      if |r.body| > RequestLimit(limit) { return 413, t; }
      if r.compressed { return 415, t; }
      code := 0;
    }

    /** The policy check. */
    method Ask(t: Target, c: Context) returns (effects: seq<Effect>)
      requires IsInferenceRoute(t)
      ensures |effects| == 1 && AsksAbout(effects[0], t, c) && After(effects) == Some(Asked(t))
    {
      PolicySeesTheModel(t, c.r.body, c.lib.decode);
      effects := Do([], AskPolicy(t, ExtractModel(c.r.body, t, c.lib.decode)));
    }

    /** The policy check, and what follows from its answer. */
    method Check(t: Target, c: Context, client: Client) returns (effects: seq<Effect>, part: Bytes)
      requires c.limit == limit && Answers(c.w) && Untouched(client) && IsInferenceRoute(t)
      modifies this`blocked, client
      ensures Ended(effects, client, c)
      ensures blocked == old(blocked) + Counts(After(effects).value.counted)
      ensures effects != [] && AsksAbout(effects[0], t, c)
      ensures Refused(effects) ==> FailedWith(effects[|effects| - 1].code, After(effects).value.counted, c)
      ensures if c.w.allowed && c.w.keyStatus == 0 && c.w.builds && c.w.response.Some?
              then ReportsRight(effects, part, client, old(client.room), t, c.w.response.value, c)
              else Refused(effects) && Report(effects).None?
      ensures |effects| > 5 && effects[5].AskFilter? ==>
                c.w.response.Some? && JudgesBody(effects[5].text, c.w.response.value, c)
    {
      part := "";
      effects := Ask(t, c);
      if !c.w.allowed {
        effects := Deny(c, client, effects);
      } else {
        effects := Do(effects, PolicyAllows(c.w.filter));
        effects, part := Fetch(t, c, client, effects);
      }
    }

    /** A request that is turned away before anything is asked. */
    method TurnAway(code: nat, c: Context, client: Client) returns (effects: seq<Effect>)
      requires !Askable(c.r, c.lib.clean, limit) && Untouched(client)
      modifies client
      ensures Ended(effects, client, c) && effects == [Refuse(code)] && !After(effects).value.counted
      ensures Refused(effects) && Report(effects).None?
    {
      effects := GiveUp(code, [], c, client);
    }

    /** handleProxy. */
    method HandleProxy(c: Context, client: Client) returns (effects: seq<Effect>, part: Bytes)
      requires c.limit == limit && MatchesRoutes(c.lib) && Answers(c.w) && Untouched(client)
      modifies this`blocked, client
      ensures Ended(effects, client, c) && effects != []
      ensures blocked == old(blocked) + Counts(After(effects).value.counted)
      // The policy is asked exactly for a request that may be forwarded, and about the model it names.
      ensures if Askable(c.r, c.lib.clean, limit)
              then AsksAbout(effects[0], Forwarded(c.r.path, c.lib.clean).value, c)
              else |effects| == 1 && effects[0].Refuse? && TurnedAwayFor(effects[0].code, c.r, c.lib.clean, limit)
      // An error answer says why.
      ensures Askable(c.r, c.lib.clean, limit) && Refused(effects) ==>
                FailedWith(effects[|effects| - 1].code, After(effects).value.counted, c)
      // A call is metered right, and exactly when every step up to the response went well.
      ensures if Responds(c)
              then var t := Forwarded(c.r.path, c.lib.clean).value;
                   ReportsRight(effects, part, client, old(client.room), t, c.w.response.value, c)
              else Refused(effects) && Report(effects).None?
      // A filter that is asked is shown all of the body.
      ensures |effects| > 5 && effects[5].AskFilter? ==>
                c.w.response.Some? && JudgesBody(effects[5].text, c.w.response.value, c)
    {
      var code, t := Refusal(c.r, c.lib);
      if code != 0 {
        part := "";
        effects := TurnAway(code, c, client);
      } else {
        effects, part := Check(t, c, client);
      }
    }

    /** ServeHTTP, for a request that is proxied. */
    method ServeProxied(c: Context, client: Client) returns (effects: seq<Effect>, part: Bytes)
      requires c.limit == limit && MatchesRoutes(c.lib) && Answers(c.w) && Untouched(client)
      modifies this`requests, this`blocked, client
      ensures Ended(effects, client, c)
      ensures requests == old(requests) + 1
      ensures blocked == old(blocked) + Count(effects, Blocks())
    {
      requests := requests + 1;
      effects, part := HandleProxy(c, client);
      PhasesAreExplained(effects);
    }
  }

  // ---- With the gateway's own readers ----

  /** The library the gateway has: it meters what ExtractUsage finds, and shows the
      filter the text sseText takes out of a stream. */
  function GatewayLibrary(clean: string -> string, onRoute: Target -> bool, decode: Decoder,
                          unpack: Bytes -> (Bytes, bool), says: nat -> Bytes): Library {
    Library(clean, onRoute, decode, unpack, (b: Bytes, p: Provider) => Extracted(b, NameOf(p), decode),
            (b: Bytes) => StreamText(b), says)
  }

  /** A response is metered at the usage extracted from what was read of it, unless
      it was copied and broke. */
  lemma MetersTheExtractedUsage(effects: seq<Effect>, part: Bytes, client: Client, room: Option<nat>, t: Target,
                                resp: Response, c: Context)
    requires c.lib == GatewayLibrary(c.lib.clean, c.lib.onRoute, c.lib.decode, c.lib.unpack, c.lib.says)
    requires ReportsRight(effects, part, client, room, t, resp, c)
    ensures Report(effects).value.usage == Extracted(c.lib.unpack(Metered(resp, c)).0, NameOf(t.provider), c.lib.decode)
  {
  }

  /** So a JSON response that was read whole is metered at exactly the counts its
      usage object was written from, whatever the provider's shape. */
  lemma MetersTheBill(effects: seq<Effect>, part: Bytes, client: Client, room: Option<nat>, t: Target,
                      resp: Response, c: Context, text: Bytes, outer: Object, bill: UsageShapes.Bill)
    requires c.lib == GatewayLibrary(c.lib.clean, c.lib.onRoute, c.lib.decode, c.lib.unpack, c.lib.says)
    requires ReportsRight(effects, part, client, room, t, resp, c)
    requires Whole(resp.script, c.limit) && c.lib.unpack(Body(resp.script)).0 == text
    requires Trimmed(text) && text != "" && text[0] == '{' && c.lib.decode(text) == Some(JObject(outer))
    requires UsageShapes.Reports(outer, Some(bill), NameOf(t.provider))
    ensures Report(effects).value.usage == UsageShapes.Due(bill)
  {
    MetersTheExtractedUsage(effects, part, client, room, t, resp, c);
    WholeBodyIsMetered(resp, c);
    UsageShapes.TextReportsItsBill(text, outer, bill, NameOf(t.provider), c.lib.decode);
  }

  lemma WholeBodyIsMetered(resp: Response, c: Context)
    requires Whole(resp.script, c.limit)
    ensures Metered(resp, c) == Body(resp.script)
  {
  }

  /** A streamed response is judged on the text of all its data lines: every payload
      but the end marker is in it, whole and in its place. */
  lemma JudgesTheStreamText(text: Bytes, resp: Response, c: Context, a: Bytes, line: Bytes, payload: Bytes, b: Bytes)
    requires c.lib == GatewayLibrary(c.lib.clean, c.lib.onRoute, c.lib.decode, c.lib.unpack, c.lib.says)
    requires JudgesBody(text, resp, c) && (c.r.streaming || resp.events)
    ensures text == StreamText(c.lib.unpack(Body(resp.script)).0)
    ensures c.lib.unpack(Body(resp.script)).0 == a + "\n" + line + "\n" + b && '\n' !in line
            && IsDataLine(line, payload) && payload != "" && payload != "[DONE]"
            ==> text == StreamText(a) + (payload + "\n") + StreamText(b)
  {
    if '\n' !in line && IsDataLine(line, payload) && payload != "" && payload != "[DONE]" {
      EveryPayloadIsJudged(a, line, payload, b);
    }
  }

  // ---- What is metered of a response that broke ----

  /** Everything that was read is metered if and only if the response was not copied
      and ended by a read error, or nothing of it had been read. */
  lemma ReadIsMeteredExactlyWhen(effects: seq<Effect>, part: Bytes, client: Client, room: Option<nat>, t: Target,
                                 resp: Response, c: Context)
    requires ReportsRight(effects, part, client, room, t, resp, c)
    ensures part == WasRead(resp, c) <==> !CopyBroke(resp, c) || Body(resp.script) == ""
  {
  }

  lemma ChatPathIsForwarded(clean: string -> string)
    ensures Forwarded("/v1/chat/completions", clean).Some?
  {
    OpenAIRequestsExactly("/v1/chat/completions", clean, "/v1/chat/completions");
  }

  /** A chat request that is allowed, and answered by a response that is copied. */
  function CopiedChat(lib: Library, script: seq<Stream.Read>, limit: nat): Context {
    Context(Request("key", "/v1/chat/completions", true, "", true, false, false),
            World(true, false, 0, true, Some(Response(200, script, false)), true, false), lib, limit)
  }

  lemma OneRead(script: seq<Stream.Read>, text: Bytes)
    requires |script| == 1 && script[0].data == text && !script[0].end.More?
    ensures Complete(script) && Body(script) == text && Body(script[..|script| - 1]) == ""
  {
    assert script[..0] == [];
    assert Body(script) == Body(script[..0]) + text;
  }

  lemma NothingIsExtractedFromNothing(provider: string, decode: Decoder)
    ensures Extracted("", provider, decode) == NO_USAGE
  {
    assert FlatMap([], UsageReader()) == [];
  }

  /** Whatever usage the text of a copied response carries, if the connection breaks
      right after it the call is metered at none. */
  method BrokenCopyIsMeteredAtNothing(lib: Library, text: Bytes)
    returns (usage: UsageData, part: Bytes)
    requires MatchesRoutes(lib) && lib.unpack("") == ("", true)
    requires lib == GatewayLibrary(lib.clean, lib.onRoute, lib.decode, lib.unpack, lib.says)
    ensures usage == NO_USAGE && part == ""
  {
    ChatPathIsForwarded(lib.clean);
    var script := [Stream.Read(text, ReadError)];
    OneRead(script, text);
    usage, part := BrokenCopy(CopiedChat(lib, script, |text|));
    NothingIsExtractedFromNothing("openai", lib.decode);
  }

  method BrokenCopy(c: Context) returns (usage: UsageData, part: Bytes)
    requires MatchesRoutes(c.lib) && Responds(c)
    requires Complete(c.w.response.value.script) && CopyBroke(c.w.response.value, c)
    ensures part == "" && usage == c.lib.usage(c.lib.unpack("").0, Forwarded(c.r.path, c.lib.clean).value.provider)
  {
    var client := new Client(None);
    var gateway := new Gateway(c.limit);
    var effects;
    effects, part := gateway.HandleProxy(c, client);
    usage := Report(effects).value.usage;
  }

  // ---- Who is named for a failed write ----

  /** Of every delivered response within the limit whose write failed: the client
      is named if and only if the response was streamed without a filter or the
      request's context has ended, and otherwise the provider is. */
  lemma WriteFailureIsNamedExactly(effects: seq<Effect>, part: Bytes, client: Client, room: Option<nat>, t: Target,
                                   resp: Response, c: Context)
    requires ReportsRight(effects, part, client, room, t, resp, c) && !Refused(effects)
    requires client.gone && |Body(resp.script)| <= c.limit
    ensures var outcome := Report(effects).value.outcome;
            && (outcome == DISCONNECTED <==> Streamed(resp, c) || c.w.clientEnded)
            && (outcome == READ_FAILED <==> !Streamed(resp, c) && !c.w.clientEnded)
  {
  }

  /** A client that takes nothing of a copied response, its context still open: the
      provider is named, although its body was read whole. */
  method CopiedWriteFailureIsPutOnTheProvider(lib: Library) returns (outcome: string, part: Bytes)
    requires MatchesRoutes(lib)
    ensures outcome == READ_FAILED && part == "x"
  {
    ChatPathIsForwarded(lib.clean);
    var script := [Stream.Read("x", Eof)];
    OneRead(script, "x");
    outcome, part := CopiedTo(CopiedChat(lib, script, 10), script);
  }

  /** A whole copied response to a client that takes nothing of it. */
  method CopiedTo(c: Context, script: seq<Stream.Read>) returns (outcome: string, part: Bytes)
    requires MatchesRoutes(c.lib) && Responds(c) && c.w.response.value.script == script
    requires !c.w.filter && !c.w.clientEnded
    requires !Streamed(c.w.response.value, c) && Complete(script) && Whole(script, c.limit) && Body(script) != ""
    ensures outcome == READ_FAILED && part == Body(script)
  {
    var client := new Client(Some(0));
    var gateway := new Gateway(c.limit);
    var effects;
    effects, part := gateway.HandleProxy(c, client);
    outcome := Report(effects).value.outcome;
  }

  // ---- Many requests at once ----

  /** The counters a heartbeat reads, and how far each request has got. */
  datatype Fleet = Fleet(requests: nat, blocked: nat, phases: map<nat, Phase>)

  datatype Event = Begin(id: nat) | Act(id: nat, e: Effect)

  const IDLE := Fleet(0, 0, map[])

  predicate CanStep(f: Fleet, ev: Event) {
    match ev
    case Begin(id) => id !in f.phases
    case Act(id, e) => id in f.phases && Next(f.phases[id], e).Some?
  }

  /** Each atomic step of one handler, in any order with the others' steps. */
  function Step(f: Fleet, ev: Event): Fleet
    requires CanStep(f, ev)
  {
    match ev
    case Begin(id) => Fleet(f.requests + 1, f.blocked, f.phases[id := Fresh])
    case Act(id, e) =>
      Fleet(f.requests, f.blocked + (if e.CountBlocked? then 1 else 0), f.phases[id := Next(f.phases[id], e).value])
  }

  predicate IsRun(f: Fleet, events: seq<Event>)
    decreases events
  {
    events != [] ==> CanStep(f, events[0]) && IsRun(Step(f, events[0]), events[1..])
  }

  function EndOf(f: Fleet, events: seq<Event>): Fleet
    requires IsRun(f, events)
    decreases events
  {
    if events == [] then f else EndOf(Step(f, events[0]), events[1..])
  }

  predicate Blocked(p: Phase) {
    (p.Denied? || p.Withheld? || p.OwesRefusal? || p.Done?) && p.counted
  }

  function BlockedIds(f: Fleet): set<nat> {
    set id | id in f.phases && Blocked(f.phases[id])
  }

  ghost predicate Inv(f: Fleet) {
    f.requests == |f.phases| && f.blocked == |BlockedIds(f)|
  }

  lemma StepKeepsInv(f: Fleet, ev: Event)
    requires Inv(f) && CanStep(f, ev)
    ensures Inv(Step(f, ev))
  {
    match ev
    case Begin(id) => BeginKeepsInv(f, id);
    case Act(id, e) => ActKeepsInv(f, id, e);
  }

  lemma BeginKeepsInv(f: Fleet, id: nat)
    requires Inv(f) && CanStep(f, Begin(id))
    ensures Inv(Step(f, Begin(id)))
  {
    var after := Step(f, Begin(id));
    assert after.phases.Keys == f.phases.Keys + {id};
    assert BlockedIds(after) == BlockedIds(f);
  }

  lemma ActBlocks(p: Phase, e: Effect)
    requires Next(p, e).Some?
    ensures Blocked(Next(p, e).value) <==> Blocked(p) || e.CountBlocked?
    ensures e.CountBlocked? ==> !Blocked(p)
  {
  }

  lemma ActKeepsInv(f: Fleet, id: nat, e: Effect)
    requires Inv(f) && CanStep(f, Act(id, e))
    ensures Inv(Step(f, Act(id, e)))
  {
    var after := Step(f, Act(id, e));
    ActBlocks(f.phases[id], e);
    assert after.phases.Keys == f.phases.Keys;
    assert BlockedIds(after) == if e.CountBlocked? then BlockedIds(f) + {id} else BlockedIds(f);
  }

  lemma {:induction false} RunKeepsInv(f: Fleet, events: seq<Event>)
    requires Inv(f) && IsRun(f, events)
    ensures Inv(EndOf(f, events)) && f.requests <= EndOf(f, events).requests
    decreases events
  {
    if events != [] {
      StepKeepsInv(f, events[0]);
      RunKeepsInv(Step(f, events[0]), events[1..]);
    }
  }

  /** At every moment of every interleaving the blocked requests are counted as
      requests too. */
  lemma BlockedNeverExceedsRequests(events: seq<Event>)
    requires IsRun(IDLE, events)
    ensures EndOf(IDLE, events).blocked <= EndOf(IDLE, events).requests
    ensures EndOf(IDLE, events).blocked == |BlockedIds(EndOf(IDLE, events))|
  {
    assert BlockedIds(IDLE) == {};
    RunKeepsInv(IDLE, events);
    var f := EndOf(IDLE, events);
    SubsetIsSmaller(BlockedIds(f), f.phases.Keys);
  }

  lemma {:induction false} RunsAppend(f: Fleet, a: seq<Event>, b: seq<Event>)
    requires IsRun(f, a) && IsRun(EndOf(f, a), b)
    ensures IsRun(f, a + b) && EndOf(f, a + b) == EndOf(EndOf(f, a), b)
    decreases a
  {
    if a == [] {
      assert a + b == b;
    } else {
      assert (a + b)[1..] == a[1..] + b;
      RunsAppend(Step(f, a[0]), a[1..], b);
    }
  }

  /** Requests that have begun stay begun, and blocked ones stay blocked. */
  lemma {:induction false} RunsOnlyAdd(f: Fleet, events: seq<Event>)
    requires IsRun(f, events)
    ensures f.phases.Keys <= EndOf(f, events).phases.Keys
    ensures BlockedIds(f) <= BlockedIds(EndOf(f, events))
    decreases events
  {
    if events != [] {
      var next := Step(f, events[0]);
      if events[0].Act? { ActBlocks(f.phases[events[0].id], events[0].e); }
      assert f.phases.Keys <= next.phases.Keys && BlockedIds(f) <= BlockedIds(next);
      RunsOnlyAdd(next, events[1..]);
    }
  }

  lemma Halves<T>(a: set<T>, b: set<T>)
    ensures |a| == |a * b| + |a - b|
  {
    assert a == a * b + (a - b);
  }

  /** The requests of the second load that the first one missed, and which the
      reported counters can therefore disagree about: begun after it, and blocked. */
  function MissedBlocks(first: Fleet, later: Fleet): set<nat> {
    BlockedIds(later) - first.phases.Keys
  }

  /** A heartbeat loads the requests first and the blocked ones later. It reports no
      more blocked than requests if and only if the requests that began and were
      blocked in between are no more than those that had begun and are not blocked. */
  lemma ReportedCountersAgreeExactlyWhen(before: seq<Event>, between: seq<Event>)
    requires IsRun(IDLE, before) && IsRun(EndOf(IDLE, before), between)
    ensures var first := EndOf(IDLE, before); var later := EndOf(first, between);
            later.blocked <= first.requests <==> |MissedBlocks(first, later)| <= |first.phases.Keys - BlockedIds(later)|
  {
    var first := EndOf(IDLE, before);
    var later := EndOf(first, between);
    assert BlockedIds(IDLE) == {};
    RunKeepsInv(IDLE, before);
    RunKeepsInv(first, between);
    Halves(BlockedIds(later), first.phases.Keys);
    Halves(first.phases.Keys, BlockedIds(later));
    assert BlockedIds(later) * first.phases.Keys == first.phases.Keys * BlockedIds(later);
  }

  /** So it does whenever no request that begins between the loads is blocked there. */
  lemma ReportedCountersAgreeWithoutNewBlocks(before: seq<Event>, between: seq<Event>)
    requires IsRun(IDLE, before) && IsRun(EndOf(IDLE, before), between)
    requires var first := EndOf(IDLE, before); MissedBlocks(first, EndOf(first, between)) == {}
    ensures var first := EndOf(IDLE, before); EndOf(first, between).blocked <= first.requests
  {
    ReportedCountersAgreeExactlyWhen(before, between);
  }

  /** It reports at most as many blocked too many as requests began in between. */
  lemma ReportedExcessIsBounded(before: seq<Event>, between: seq<Event>)
    requires IsRun(IDLE, before) && IsRun(EndOf(IDLE, before), between)
    ensures var first := EndOf(IDLE, before); var later := EndOf(first, between);
            later.blocked - first.requests <= |MissedBlocks(first, later)| <= later.requests - first.requests
  {
    var first := EndOf(IDLE, before);
    var later := EndOf(first, between);
    assert BlockedIds(IDLE) == {};
    RunKeepsInv(IDLE, before);
    RunKeepsInv(first, between);
    RunsOnlyAdd(first, between);
    PartOfLarger(BlockedIds(later), first.phases.Keys, later.phases.Keys);
  }

  lemma PartOfLarger(part: set<nat>, a: set<nat>, b: set<nat>)
    requires a <= b && part <= b
    ensures |part| - |a| <= |part - a| <= |b| - |a|
  {
    Halves(part, a);
    SubsetIsSmaller(part * a, a);
    SubsetIsSmaller(part - a, b - a);
    Halves(b, a);
    assert b * a == a;
  }

  lemma OneStep(f: Fleet, ev: Event, rest: seq<Event>)
    requires CanStep(f, ev) && IsRun(Step(f, ev), rest)
    ensures IsRun(f, [ev] + rest) && EndOf(f, [ev] + rest) == EndOf(Step(f, ev), rest)
  {
    assert ([ev] + rest)[1..] == rest;
  }

  /** One more request begins and is denied by the policy. */
  lemma OneIsDenied(f: Fleet, t: Target) returns (events: seq<Event>)
    ensures IsRun(f, events)
    ensures EndOf(f, events).requests == f.requests + 1 && EndOf(f, events).blocked == f.blocked + 1
  {
    var id := FreshId(f.phases.Keys);
    var f1 := Step(f, Begin(id));
    var f2 := Step(f1, Act(id, AskPolicy(t, "")));
    var f3 := Step(f2, Act(id, PolicyDenies));
    OneStep(f3, Act(id, CountBlocked), []);
    OneStep(f2, Act(id, PolicyDenies), [Act(id, CountBlocked)] + []);
    OneStep(f1, Act(id, AskPolicy(t, "")), [Act(id, PolicyDenies)] + ([Act(id, CountBlocked)] + []));
    events := [Act(id, AskPolicy(t, ""))] + ([Act(id, PolicyDenies)] + ([Act(id, CountBlocked)] + []));
    OneStep(f, Begin(id), events);
    events := [Begin(id)] + events;
  }

  lemma {:induction false} ManyAreDenied(f: Fleet, n: nat, t: Target) returns (events: seq<Event>)
    ensures IsRun(f, events)
    ensures EndOf(f, events).requests == f.requests + n && EndOf(f, events).blocked == f.blocked + n
    decreases n
  {
    if n == 0 {
      events := [];
    } else {
      var first := OneIsDenied(f, t);
      var rest := ManyAreDenied(EndOf(f, first), n - 1, t);
      RunsAppend(f, first, rest);
      events := first + rest;
    }
  }

  /** The bound is attained: whatever number of requests came before, and whatever
      number begins in between, there are runs in which all of those are too many. */
  lemma ReportedExcessIsAttained(m: nat, n: nat, t: Target) returns (before: seq<Event>, between: seq<Event>)
    ensures IsRun(IDLE, before) && IsRun(EndOf(IDLE, before), between)
    ensures var first := EndOf(IDLE, before); var later := EndOf(first, between);
            first.requests == m && later.requests - first.requests == n && later.blocked - first.requests == n
  {
    before := ManyAreDenied(IDLE, m, t);
    between := ManyAreDenied(EndOf(IDLE, before), n, t);
  }
}
