/** Any number of requests resolving provider keys at once, over one cache, while
    tenants store, rotate and remove keys in the backend and time passes. */
module ProviderKeyRuns {
  import opened Basics
  import opened Wrappers
  import opened ProviderKeys

  type RequestId = nat

  /** `latency` bounds the time from the backend's answer to caching it: the
      lookup's own timeout does. */
  datatype Config = Config(ttl: nat, bound: nat, latency: nat, env: EnvKeys)

  datatype Phase =
    | Start
    | Asking(attempt: nat)                      // missed the cache; a lookup is out
    | Holding(answer: Answer, fetchedAt: int)   // answered, not cached yet
    | Done(resolved: Resolved, at: int)

  datatype Request = Request(key: CacheKey, phase: Phase)

  /** `said` is everything the backend ever answered, and when. `changedAt` is
      when a tenant's stored key last changed. `heldSince` is when the gateway got
      a credential, which it then never is without, though it may be another.
      `failed` are the requests whose lookup failed. */
  datatype State = State(
    now: int,
    stored: map<CacheKey, string>,
    changedAt: map<CacheKey, int>,
    cache: map<CacheKey, Entry>,
    said: set<(CacheKey, Answer, int)>,
    requests: map<RequestId, Request>,
    heldSince: Option<int>,
    failed: set<RequestId>)

  datatype Step =
    | Tick(elapsed: nat)
    | Change(key: CacheKey, value: Option<string>)
    | Hold                                      // the credential file is there to be read
    | Arrive(id: RequestId, key: CacheKey)
    | NoCredential(id: RequestId)
    | Hit(id: RequestId)
    | Miss(id: RequestId)
    | BackendAnswers(id: RequestId)
    | RetryWithNewCredential(id: RequestId)
    | LookupFails(id: RequestId)
    | Put(id: RequestId, after: map<CacheKey, Entry>)

  /** What the backend says about `key` now. */
  function Backend(s: State, key: CacheKey): Answer {
    if key in s.stored then Found(s.stored[key]) else NotFound
  }

  predicate LiveEntry(s: State, key: CacheKey) {
    key in s.cache && !Expired(s.cache[key], s.now)
  }

  ghost predicate Enabled(c: Config, s: State, step: Step) {
    match step
    case Tick(_) => true
    case Change(_, _) => true
    case Arrive(id, _) => id !in s.requests
    case Hold => s.heldSince.None?
    case NoCredential(id) => id in s.requests && s.requests[id].phase.Start? && s.heldSince.None?
    case Hit(id) =>
      id in s.requests && s.requests[id].phase.Start? && s.heldSince.Some? && LiveEntry(s, s.requests[id].key)
    case Miss(id) =>
      id in s.requests && s.requests[id].phase.Start? && s.heldSince.Some? && !LiveEntry(s, s.requests[id].key)
    case BackendAnswers(id) => id in s.requests && s.requests[id].phase.Asking?
    case RetryWithNewCredential(id) => id in s.requests && s.requests[id].phase == Asking(1)
    case LookupFails(id) => id in s.requests && s.requests[id].phase.Asking?
    case Put(id, after) =>
      && id in s.requests && s.requests[id].phase.Holding?
      && s.now <= s.requests[id].phase.fetchedAt + c.latency
      && var entry := Entry(s.requests[id].phase.answer, s.now + c.ttl);
         PutLeaves(s.cache, c.bound, s.requests[id].key, entry, s.now, after)
  }

  function SetPhase(s: State, id: RequestId, phase: Phase): State
    requires id in s.requests
  {
    s.(requests := s.requests[id := s.requests[id].(phase := phase)])
  }

  /** The answer settles the request: the tenant's key, the allowed fallback, or none. */
  function Finish(c: Config, s: State, id: RequestId, answer: Option<Answer>): State
    requires id in s.requests
  {
    SetPhase(s, id, Done(Settle(answer, c.env, s.requests[id].key.provider), s.now))
  }

  ghost function Apply(c: Config, s: State, step: Step): State
    requires Enabled(c, s, step)
  {
    match step
    case Tick(elapsed) => s.(now := s.now + elapsed)
    case Change(key, value) =>
      s.(stored := if value.Some? then s.stored[key := value.value] else s.stored - {key},
         changedAt := s.changedAt[key := s.now])
    case Hold => s.(heldSince := Some(s.now))
    case Arrive(id, key) => s.(requests := s.requests[id := Request(key, Start)])
    case NoCredential(id) => Finish(c, s, id, None)
    case Hit(id) => Finish(c, s, id, Some(s.cache[s.requests[id].key].answer))
    case Miss(id) => SetPhase(s, id, Asking(1)).(cache := s.cache - {s.requests[id].key})
    case BackendAnswers(id) =>
      var answer := Backend(s, s.requests[id].key);
      SetPhase(s, id, Holding(answer, s.now)).(said := s.said + {(s.requests[id].key, answer, s.now)})
    case RetryWithNewCredential(id) => SetPhase(s, id, Asking(2))
    case LookupFails(id) => SetPhase(s, id, Done(LookupUnavailable, s.now)).(failed := s.failed + {id})
    case Put(id, after) => Finish(c, s, id, Some(s.requests[id].phase.answer)).(cache := after)
  }

  ghost predicate Run(c: Config, s: State, steps: seq<Step>)
    decreases |steps|
  {
    steps == [] || (Enabled(c, s, steps[0]) && Run(c, Apply(c, s, steps[0]), steps[1..]))
  }

  ghost function End(c: Config, s: State, steps: seq<Step>): State
    requires Run(c, s, steps)
    decreases |steps|
  {
    if steps == [] then s else End(c, Apply(c, s, steps[0]), steps[1..])
  }

  ghost predicate Init(s: State) {
    && s.cache == map[] && s.said == {} && s.requests == map[] && s.changedAt == map[]
    && s.heldSince.None? && s.failed == {}
  }

  // ---- What every step keeps ----

  /** The backend gave this answer for this agent and provider in [from, to]. */
  ghost predicate SaidWithin(said: set<(CacheKey, Answer, int)>, key: CacheKey, answer: Answer, from: int, to: int) {
    exists t :: (key, answer, t) in said && from <= t <= to
  }

  /** A key served at `at` rests on an answer no older than this. */
  function Oldest(c: Config, at: int): int { at - c.ttl - c.latency }

  /** The gateway held no credential up to `at`. */
  predicate NoneHeldAt(s: State, at: int) {
    s.heldSince.None? || at <= s.heldSince.value
  }

  ghost predicate DoneInv(c: Config, s: State, key: CacheKey, resolved: Resolved, at: int) {
    match resolved
    case Key(k, Tenant) => SaidWithin(s.said, key, Found(k), Oldest(c, at), at)
    case Key(k, Env) =>
      && c.env.allowed && k != "" && k == EnvKey(c.env, key.provider)
      && (NoneHeldAt(s, at) || SaidWithin(s.said, key, NotFound, Oldest(c, at), at))
    case _ => true
  }

  ghost predicate RequestInv(c: Config, s: State, r: Request) {
    match r.phase
    case Start => true
    case Asking(attempt) => 1 <= attempt <= 2
    case Holding(answer, fetchedAt) => fetchedAt <= s.now && (r.key, answer, fetchedAt) in s.said
    case Done(resolved, at) => at <= s.now && DoneInv(c, s, r.key, resolved, at)
  }

  ghost predicate EntryInv(c: Config, s: State, key: CacheKey, e: Entry) {
    var cachedAt := e.expires - c.ttl;
    cachedAt <= s.now && SaidWithin(s.said, key, e.answer, cachedAt - c.latency, cachedAt)
  }

  /** What was said after the last change is what the backend says now. */
  ghost predicate Truthful(s: State) {
    forall key, answer, t :: (key, answer, t) in s.said ==>
      t <= s.now && (key !in s.changedAt || s.changedAt[key] < t ==> answer == Backend(s, key))
  }

  ghost predicate Inv(c: Config, s: State) {
    && (forall id :: id in s.requests ==> RequestInv(c, s, s.requests[id]))
    && (forall key :: key in s.cache ==> EntryInv(c, s, key, s.cache[key]))
    && Truthful(s)
    && (forall key :: key in s.changedAt ==> s.changedAt[key] <= s.now)
    && |s.cache| <= c.bound
    && (s.heldSince.Some? ==> s.heldSince.value <= s.now)
    && (forall id :: id in s.failed ==> id in s.requests && Unavailable(s.requests[id].phase))
  }

  predicate Unavailable(p: Phase) {
    p.Done? && p.resolved.LookupUnavailable?
  }

  lemma InvIsKept(c: Config, s: State, step: Step)
    requires c.bound >= 1 && Inv(c, s) && Enabled(c, s, step)
    ensures Inv(c, Apply(c, s, step))
  {
    match step
    case Tick(_) => OutsideStepKeepsInv(c, s, step);
    case Change(_, _) => OutsideStepKeepsInv(c, s, step);
    case Hold => OutsideStepKeepsInv(c, s, step);
    case Put(_, _) => PutKeepsInv(c, s, step);
    case _ => RequestStepKeepsInv(c, s, step);
  }

  lemma OutsideStepKeepsInv(c: Config, s: State, step: Step)
    requires Inv(c, s) && Enabled(c, s, step) && (step.Tick? || step.Change? || step.Hold?)
    ensures Inv(c, Apply(c, s, step))
  {
    OldFactsStay(c, s, Apply(c, s, step));
    OutsideStepKeepsTruth(c, s, step);
  }

  lemma OutsideStepKeepsTruth(c: Config, s: State, step: Step)
    requires Truthful(s) && Enabled(c, s, step) && (step.Tick? || step.Change? || step.Hold?)
    requires forall key :: key in s.changedAt ==> s.changedAt[key] <= s.now
    ensures var t := Apply(c, s, step); Truthful(t) && forall key :: key in t.changedAt ==> t.changedAt[key] <= t.now
  {
  }

  lemma OldFactsStay(c: Config, s: State, t: State)
    requires s.said <= t.said && s.now <= t.now
    requires s.heldSince.Some? ==> t.heldSince == s.heldSince
    requires t.heldSince.Some? && s.heldSince.None? ==> s.now <= t.heldSince.value
    ensures forall r :: RequestInv(c, s, r) ==> RequestInv(c, t, r)
    ensures forall key, e :: EntryInv(c, s, key, e) ==> EntryInv(c, t, key, e)
  {
    SaidGrows(s.said, t.said);
  }

  /** A step of one request leaves time, the stored keys and the other requests
      alone, and adds nothing to the cache. */
  lemma RequestStepTouches(c: Config, s: State, step: Step)
    requires Enabled(c, s, step) && !step.Tick? && !step.Change? && !step.Hold? && !step.Put?
    ensures var t := Apply(c, s, step);
            && t.now == s.now && t.stored == s.stored && t.changedAt == s.changedAt && s.said <= t.said
            && t.heldSince == s.heldSince
            && (forall id :: id in t.failed && id !in s.failed ==>
                  id in t.requests && Unavailable(t.requests[id].phase))
            && (forall id :: id in s.failed && id in s.requests && Unavailable(s.requests[id].phase) ==>
                  id in t.requests && t.requests[id] == s.requests[id])
            && (forall key :: key in t.cache ==> key in s.cache && t.cache[key] == s.cache[key])
            && (forall id :: id in t.requests && id != step.id ==> id in s.requests && t.requests[id] == s.requests[id])
            && (forall x :: x in t.said && x !in s.said ==> x.1 == Backend(s, x.0) && x.2 == s.now)
  {
  }

  lemma RequestStepKeepsInv(c: Config, s: State, step: Step)
    requires c.bound >= 1 && Inv(c, s) && Enabled(c, s, step)
    requires !step.Tick? && !step.Change? && !step.Hold? && !step.Put?
    ensures Inv(c, Apply(c, s, step))
  {
    var t := Apply(c, s, step);
    RequestStepTouches(c, s, step);
    SteppedRequestIsSound(c, s, step);
    SoundStep(c, s, t, step.id);
  }

  lemma SoundStep(c: Config, s: State, t: State, stepped: RequestId)
    requires Inv(c, s)
    requires t.now == s.now && t.stored == s.stored && t.changedAt == s.changedAt && s.said <= t.said
    requires t.heldSince == s.heldSince
    requires forall id :: id in t.failed && id !in s.failed ==> id in t.requests && Unavailable(t.requests[id].phase)
    requires forall id :: id in s.failed && id in s.requests && Unavailable(s.requests[id].phase) ==>
      id in t.requests && t.requests[id] == s.requests[id]
    requires forall key :: key in t.cache ==> key in s.cache && t.cache[key] == s.cache[key]
    requires forall id :: id in t.requests && id != stepped ==> id in s.requests && t.requests[id] == s.requests[id]
    requires forall x :: x in t.said && x !in s.said ==> x.1 == Backend(s, x.0) && x.2 == s.now
    requires stepped in t.requests ==> RequestInv(c, t, t.requests[stepped])
    ensures Inv(c, t)
  {
    OldFactsStay(c, s, t);
    assert t.cache.Keys <= s.cache.Keys;
    SubsetIsSmaller(t.cache.Keys, s.cache.Keys);
  }

  lemma SteppedRequestIsSound(c: Config, s: State, step: Step)
    requires Inv(c, s) && Enabled(c, s, step)
    requires !step.Tick? && !step.Change? && !step.Hold? && !step.Put?
    ensures RequestInv(c, Apply(c, s, step), Apply(c, s, step).requests[step.id])
  {
    if step.Hit? {
      var key := s.requests[step.id].key;
      assert EntryInv(c, s, key, s.cache[key]);
    }
  }

  lemma SaidGrows(said: set<(CacheKey, Answer, int)>, more: set<(CacheKey, Answer, int)>)
    requires said <= more
    ensures forall key, answer, from, to :: SaidWithin(said, key, answer, from, to) ==>
              SaidWithin(more, key, answer, from, to)
  {
  }

  lemma PutKeepsInv(c: Config, s: State, step: Step)
    requires c.bound >= 1 && Inv(c, s) && Enabled(c, s, step) && step.Put?
    ensures Inv(c, Apply(c, s, step))
  {
    var t := Apply(c, s, step);
    var r := s.requests[step.id];
    PutKeepsTheBound(s.cache, c.bound, r.key, Entry(r.phase.answer, s.now + c.ttl), s.now, step.after);
    PutEntryIsSound(c, s, step);
    PutCacheIsSound(c, s, step);
    forall id | id in t.requests ensures RequestInv(c, t, t.requests[id]) {
      if id != step.id {
        assert id in s.requests && t.requests[id] == s.requests[id] && RequestInv(c, s, s.requests[id]);
      }
    }
  }

  lemma PutCacheIsSound(c: Config, s: State, step: Step)
    requires Inv(c, s) && Enabled(c, s, step) && step.Put?
    ensures var t := Apply(c, s, step); forall key :: key in t.cache ==> EntryInv(c, t, key, t.cache[key])
  {
    var t, r := Apply(c, s, step), s.requests[step.id];
    PutEntryIsSound(c, s, step);
    forall key | key in t.cache ensures EntryInv(c, t, key, t.cache[key]) {
      if key != r.key {
        assert key in step.after - {r.key};
        assert EntryInv(c, s, key, s.cache[key]);
      }
    }
  }

  lemma PutEntryIsSound(c: Config, s: State, step: Step)
    requires Inv(c, s) && Enabled(c, s, step) && step.Put?
    ensures var t := Apply(c, s, step); var r := s.requests[step.id];
            && EntryInv(c, t, r.key, Entry(r.phase.answer, s.now + c.ttl))
            && RequestInv(c, t, t.requests[step.id])
  {
    var r := s.requests[step.id];
    assert RequestInv(c, s, r);
    assert SaidWithin(s.said, r.key, r.phase.answer, s.now - c.latency, s.now);
  }

  lemma {:induction false} InvHoldsThroughout(c: Config, s: State, steps: seq<Step>)
    requires c.bound >= 1 && Inv(c, s) && Run(c, s, steps)
    ensures Inv(c, End(c, s, steps))
    decreases |steps|
  {
    if steps != [] {
      InvIsKept(c, s, steps[0]);
      InvHoldsThroughout(c, Apply(c, s, steps[0]), steps[1..]);
    }
  }

  // ---- What callers may rely on ----

  /** The cache never outgrows its bound. */
  lemma CacheStaysBounded(c: Config, s: State, steps: seq<Step>)
    requires c.bound >= 1 && Init(s) && Run(c, s, steps)
    ensures |End(c, s, steps).cache| <= c.bound
  {
    InvHoldsThroughout(c, s, steps);
  }

  /** A tenant key served is one the backend answered for that same agent and
      provider, no longer ago than the TTL and one lookup's latency. */
  lemma TenantKeysComeFromTheBackend(c: Config, s: State, steps: seq<Step>, id: RequestId)
    requires c.bound >= 1 && Init(s) && Run(c, s, steps) && id in End(c, s, steps).requests
    ensures var t := End(c, s, steps); var r := t.requests[id];
            r.phase.Done? && r.phase.resolved.Key? && r.phase.resolved.source.Tenant? ==>
              SaidWithin(t.said, r.key, Found(r.phase.resolved.key), Oldest(c, r.phase.at), r.phase.at)
  {
    InvHoldsThroughout(c, s, steps);
    var t := End(c, s, steps);
    assert RequestInv(c, t, t.requests[id]);
  }

  /** The steps that hand a request its answer. */
  ghost predicate Serves(c: Config, s: State, step: Step, id: RequestId, answer: Answer) {
    && Enabled(c, s, step)
    && ((step == Hit(id) && answer == s.cache[s.requests[id].key].answer)
        || (step.Put? && step.id == id && answer == s.requests[id].phase.answer))
  }

  /** The cache agrees with the backend it speeds up: an answer (a key, or that
      there is none) is acted on only if it is what the backend says now, or the
      stored key changed less than the TTL and one lookup's latency ago. */
  lemma StaleAnswersRunOut(c: Config, s: State, steps: seq<Step>, step: Step, id: RequestId, answer: Answer)
    requires c.bound >= 1 && c.ttl >= 1 && Init(s) && Run(c, s, steps)
    requires Serves(c, End(c, s, steps), step, id, answer)
    ensures var t := End(c, s, steps); var key := t.requests[id].key;
            || answer == Backend(t, key)
            || (key in t.changedAt && t.now < t.changedAt[key] + c.ttl + c.latency)
  {
    InvHoldsThroughout(c, s, steps);
    var t := End(c, s, steps);
    var key := t.requests[id].key;
    assert RequestInv(c, t, t.requests[id]);
    if step.Hit? {
      assert EntryInv(c, t, key, t.cache[key]);
    }
  }

  /** The environment's key is served only where the fallback is allowed, never
      after a failed lookup, and only if the gateway held no credential to ask with
      or the backend had answered that the tenant has no key. */
  lemma EnvKeyNeedsAnAnswer(c: Config, s: State, steps: seq<Step>, id: RequestId)
    requires c.bound >= 1 && Init(s) && Run(c, s, steps) && id in End(c, s, steps).requests
    ensures var t := End(c, s, steps); var r := t.requests[id];
            r.phase.Done? && r.phase.resolved.Key? && r.phase.resolved.source.Env? ==>
              && c.env.allowed && r.phase.resolved.key == EnvKey(c.env, r.key.provider) != ""
              && id !in t.failed
              && (NoneHeldAt(t, r.phase.at) || SaidWithin(t.said, r.key, NotFound, Oldest(c, r.phase.at), r.phase.at))
  {
    InvHoldsThroughout(c, s, steps);
    var t := End(c, s, steps);
    assert RequestInv(c, t, t.requests[id]);
  }

  /** A request whose lookup failed gets no key of either kind. */
  lemma FailedLookupsGetNoKey(c: Config, s: State, steps: seq<Step>, id: RequestId)
    requires c.bound >= 1 && Init(s) && Run(c, s, steps) && id in End(c, s, steps).failed
    ensures var t := End(c, s, steps); id in t.requests && Unavailable(t.requests[id].phase)
  {
    InvHoldsThroughout(c, s, steps);
  }

  /** A request that has just been answered with the key the tenant stored. */
  function JustAnswered(key: CacheKey): State {
    State(0, map[key := "old"], map[], map[], {(key, Found("old"), 0)},
          map[0 := Request(key, Holding(Found("old"), 0))], Some(0), {})
  }

  function JustAsking(key: CacheKey): State {
    State(0, map[key := "old"], map[], map[], {}, map[0 := Request(key, Asking(1))], Some(0), {})
  }

  lemma AnswerComes(c: Config, key: CacheKey)
    ensures Run(c, JustAsking(key), [BackendAnswers(0)])
    ensures End(c, JustAsking(key), [BackendAnswers(0)]) == JustAnswered(key)
  {
    var s := Apply(c, JustAsking(key), BackendAnswers(0));
    assert s.said == {(key, Found("old"), 0)} && s.requests == JustAnswered(key).requests;
    RunOne(c, JustAsking(key), BackendAnswers(0), []);
  }

  lemma AnswerArrives(c: Config, key: CacheKey) returns (s: State, steps: seq<Step>)
    ensures Init(s) && Run(c, s, steps) && End(c, s, steps) == JustAnswered(key)
  {
    s := State(0, map[key := "old"], map[], map[], {}, map[], None, {});
    var s1 := Apply(c, s, Hold);
    var s2 := Apply(c, s1, Arrive(0, key));
    var s3 := Apply(c, s2, Miss(0));
    assert s3.cache == map[] && s3.requests == JustAsking(key).requests;
    AnswerComes(c, key);
    RunOne(c, s2, Miss(0), [BackendAnswers(0)]);
    RunOne(c, s1, Arrive(0, key), [Miss(0)] + [BackendAnswers(0)]);
    RunOne(c, s, Hold, [Arrive(0, key)] + ([Miss(0)] + [BackendAnswers(0)]));
    steps := [Hold] + ([Arrive(0, key)] + ([Miss(0)] + [BackendAnswers(0)]));
  }

  /** The key is rotated, and the answer from before is cached a full latency later. */
  lemma LateCachedAnswer(c: Config, key: CacheKey) returns (steps: seq<Step>)
    requires c.bound >= 1
    ensures Run(c, JustAnswered(key), steps)
    ensures var t := End(c, JustAnswered(key), steps);
            && t.now == c.latency && t.stored == map[key := "new"] && t.changedAt == map[key := 0]
            && t.cache == map[key := Entry(Found("old"), c.latency + c.ttl)] && 1 !in t.requests && t.heldSince.Some?
  {
    var s := JustAnswered(key);
    var after := map[key := Entry(Found("old"), c.latency + c.ttl)];
    var s1 := Apply(c, s, Change(key, Some("new")));
    var s2 := Apply(c, s1, Tick(c.latency));
    assert |s2.cache| == 0 && s2.cache[key := Entry(Found("old"), s2.now + c.ttl)] == after;
    RunOne(c, s2, Put(0, after), []);
    RunOne(c, s1, Tick(c.latency), [Put(0, after)]);
    RunOne(c, s, Change(key, Some("new")), [Tick(c.latency)] + [Put(0, after)]);
    steps := [Change(key, Some("new"))] + ([Tick(c.latency)] + [Put(0, after)]);
  }

  lemma {:induction false} RunOn(c: Config, s: State, first: seq<Step>, more: seq<Step>)
    requires Run(c, s, first) && Run(c, End(c, s, first), more)
    ensures Run(c, s, first + more) && End(c, s, first + more) == End(c, End(c, s, first), more)
    decreases |first|
  {
    if first == [] {
      assert first + more == more;
    } else {
      assert (first + more)[1..] == first[1..] + more;
      RunOn(c, Apply(c, s, first[0]), first[1..], more);
    }
  }

  /** The bound is attained: a rotated key can be served until the last instant
      before a TTL and a lookup's latency have passed since the rotation. */
  lemma StaleUntilTheBound(c: Config, key: CacheKey) returns (s: State, steps: seq<Step>)
    requires c.bound >= 1 && c.ttl >= 1
    ensures Init(s) && Run(c, s, steps)
    ensures var t := End(c, s, steps);
            && Serves(c, t, Hit(1), 1, Found("old")) && Backend(t, key) == Found("new") && t.requests[1].key == key
            && key in t.changedAt && t.now == t.changedAt[key] + c.ttl + c.latency - 1
  {
    var first;
    s, first := AnswerArrives(c, key);
    var late := LateCachedAnswer(c, key);
    RunOn(c, s, first, late);
    late := first + late;
    var s6 := End(c, s, late);
    var s7 := Apply(c, s6, Arrive(1, key));
    RunOne(c, s7, Tick(c.ttl - 1), []);
    RunOne(c, s6, Arrive(1, key), [Tick(c.ttl - 1)]);
    RunOn(c, s, late, [Arrive(1, key)] + [Tick(c.ttl - 1)]);
    steps := late + ([Arrive(1, key)] + [Tick(c.ttl - 1)]);
  }

  /** Nobody is ever served a stale answer past the TTL since the key changed. */
  ghost predicate NoneStaleBeyondTheTtl(c: Config) {
    forall s, steps, step, id, answer ::
      Init(s) && Run(c, s, steps) && Serves(c, End(c, s, steps), step, id, answer) ==>
        CurrentOrWithinTheTtl(c, End(c, s, steps), id, answer)
  }

  ghost predicate CurrentOrWithinTheTtl(c: Config, t: State, id: RequestId, answer: Answer) {
    id in t.requests &&
    var key := t.requests[id].key;
    answer == Backend(t, key) || (key in t.changedAt && t.now <= t.changedAt[key] + c.ttl)
  }

  /** The TTL alone is the bound, as the documentation has it, if and only if a
      lookup's answer is cached within one tick of the clock. */
  lemma TtlIsTheBoundExactlyWhen(c: Config, key: CacheKey)
    requires c.bound >= 1 && c.ttl >= 1
    ensures NoneStaleBeyondTheTtl(c) <==> c.latency <= 1
  {
    if c.latency <= 1 {
      forall s, steps, step, id, answer | Init(s) && Run(c, s, steps) && Serves(c, End(c, s, steps), step, id, answer)
        ensures CurrentOrWithinTheTtl(c, End(c, s, steps), id, answer)
      {
        StaleAnswersRunOut(c, s, steps, step, id, answer);
      }
    } else {
      var s, steps := StaleUntilTheBound(c, key);
      assert !CurrentOrWithinTheTtl(c, End(c, s, steps), 1, Found("old"));
    }
  }

  lemma RunOne(c: Config, s: State, step: Step, rest: seq<Step>)
    requires Enabled(c, s, step) && Run(c, Apply(c, s, step), rest)
    ensures Run(c, s, [step] + rest) && End(c, s, [step] + rest) == End(c, Apply(c, s, step), rest)
  {
    assert ([step] + rest)[1..] == rest;
  }
}
