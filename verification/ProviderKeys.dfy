/** The gateway's credential, its cache of provider keys, and the resolution
    that uses both (one call at a time; ProviderKeyRuns interleaves many). */
module ProviderKeys {
  import opened Wrappers

  /** An agent key stands for its SHA-256 digest, which is taken to be injective. */
  datatype CacheKey = CacheKey(agent: string, provider: string)

  /** A lookup answer: the tenant's key, or that it has none. */
  datatype Answer = Found(key: string) | NotFound

  datatype Entry = Entry(answer: Answer, expires: int)

  predicate Expired(e: Entry, now: int) { now >= e.expires }

  function Unexpired(entries: map<CacheKey, Entry>, now: int): map<CacheKey, Entry> {
    map k | k in entries && now < entries[k].expires :: entries[k]
  }

  ghost predicate SubMap(a: map<CacheKey, Entry>, b: map<CacheKey, Entry>) {
    forall k :: k in a ==> k in b && a[k] == b[k]
  }

  /** What put may do: store the answer, and when that needs room drop the
      expired entries first and then only as many others as must go. */
  ghost predicate PutLeaves(before: map<CacheKey, Entry>, bound: nat, k: CacheKey, e: Entry, now: int,
                            after: map<CacheKey, Entry>)
  {
    if k in before || |before| < bound then after == before[k := e]
    else
      var live := Unexpired(before, now);
      if |live| < bound then after == live[k := e]
      else k in after && after[k] == e && SubMap(after - {k}, live) && |after| == if bound == 0 then 1 else bound
  }

  lemma PutKeepsTheBound(before: map<CacheKey, Entry>, bound: nat, k: CacheKey, e: Entry, now: int,
                         after: map<CacheKey, Entry>)
    requires bound >= 1 && |before| <= bound && PutLeaves(before, bound, k, e, now, after)
    ensures |after| <= bound
    ensures k in after && after[k] == e && SubMap(after - {k}, before)
  {
    if k in before {
      assert before[k := e].Keys == before.Keys;
      assert |before[k := e].Keys| == |before.Keys|;
    } else {
      var live := Unexpired(before, now);
      assert before[k := e].Keys == before.Keys + {k} && live[k := e].Keys == live.Keys + {k};
      assert |before[k := e].Keys| == |before.Keys| + 1 && |live[k := e].Keys| == |live.Keys| + 1;
    }
  }

  class ProviderKeyCache {
    const ttl: nat
    const maxEntries: nat
    var entries: map<CacheKey, Entry>

    constructor (ttl: nat, maxEntries: nat)
      ensures this.ttl == ttl && this.maxEntries == maxEntries && entries == map[]
    {
      this.ttl, this.maxEntries := ttl, maxEntries;
      entries := map[];
    }

    /** get: a live answer, or None. An expired entry goes. */
    method Get(k: CacheKey, now: int) returns (hit: Option<Answer>)
      modifies this
      ensures hit.Some? <==> k in old(entries) && now < old(entries)[k].expires
      ensures hit.Some? ==> hit.value == old(entries)[k].answer
      ensures entries == if hit.Some? then old(entries) else old(entries) - {k}
    {
      if k !in entries { return None; }
      if Expired(entries[k], now) {
        entries := entries - {k};
        return None;
      }
      hit := Some(entries[k].answer);
    }

    method DropExpired(now: int)
      modifies this
      ensures entries == Unexpired(old(entries), now)
    {
      var todo := entries.Keys;
      while todo != {}
        invariant todo <= entries.Keys <= old(entries).Keys
        invariant SubMap(entries, old(entries))
        invariant forall k :: k in old(entries) && k !in todo ==> (k in entries <==> !Expired(old(entries)[k], now))
        decreases todo
      {
        var ek :| ek in todo;
        if Expired(entries[ek], now) { entries := entries - {ek}; }
        todo := todo - {ek};
      }
    }

    /** Deletes arbitrary entries until there is room for one more. */
    method MakeRoom()
      modifies this
      ensures SubMap(entries, old(entries))
      ensures |old(entries)| < maxEntries ==> entries == old(entries)
      ensures |old(entries)| >= maxEntries ==> |entries| == if maxEntries == 0 then 0 else maxEntries - 1
    {
      var todo := entries.Keys;
      while todo != {}
        invariant todo == entries.Keys
        invariant SubMap(entries, old(entries))
        invariant entries == old(entries) || |entries| + 1 >= maxEntries
        invariant |old(entries)| < maxEntries ==> entries == old(entries)
        decreases todo
      {
        var ek :| ek in todo;
        if |entries| < maxEntries { break; }
        assert |entries.Keys - {ek}| == |entries.Keys| - 1;
        entries := entries - {ek};
        todo := todo - {ek};
      }
    }

    /** put. */
    method Put(k: CacheKey, answer: Answer, now: int)
      modifies this
      ensures PutLeaves(old(entries), maxEntries, k, Entry(answer, now + ttl), now, entries)
    {
      if k !in entries && |entries| >= maxEntries {
        DropExpired(now);
        ghost var live := entries;
        assert k !in live;
        MakeRoom();
        assert k !in entries;
        assert entries[k := Entry(answer, now + ttl)] - {k} == entries;
        assert |(entries.Keys + {k})| == |entries.Keys| + 1;
        assert entries[k := Entry(answer, now + ttl)].Keys == entries.Keys + {k};
      }
      entries := entries[k := Entry(answer, now + ttl)];
    }
  }

  // ---- The gateway credential ----

  /** What the credential file gives when opened: nothing, or its trimmed text. */
  datatype CredentialFile = Unreadable | Text(trimmed: string)

  const CREDENTIAL_PREFIX := "sk_gateway_"

  /** validGatewayCredential. */
  predicate ValidCredential(value: string) {
    CREDENTIAL_PREFIX <= value && |value| >= |CREDENTIAL_PREFIX| + 16
  }

  /** readGatewayCredentialFile: the credential, if the file holds one. */
  function ReadCredential(file: CredentialFile): (credential: Option<string>)
    ensures credential.Some? ==> credential.value != ""
  {
    if file.Text? && ValidCredential(file.trimmed) then Some(file.trimmed) else None
  }

  /** A file gives a credential exactly when its text is the prefix and at least
      sixteen characters, and then gives that text. */
  lemma ReadsPrefixedText(file: CredentialFile, value: string)
    ensures ReadCredential(file) == Some(value)
            <==> file == Text(value) && exists random :: |random| >= 16 && value == "sk_gateway_" + random
  {
    if ReadCredential(file) == Some(value) {
      assert value == "sk_gateway_" + value[|CREDENTIAL_PREFIX|..];
    }
  }

  class GatewayCredential {
    const path: string
    const interval: nat
    var value: string
    var lastRead: Option<int>
    ghost var readTimes: seq<int>   // every time the file was read

    /** Reads are an interval apart, however often one was asked for. */
    ghost predicate Valid()
      reads this
    {
      && lastRead == (if readTimes == [] then None else Some(readTimes[|readTimes| - 1]))
      && (forall i :: 0 <= i < |readTimes| - 1 ==> readTimes[i] + interval <= readTimes[i + 1])
      && (path == "" ==> readTimes == [])
    }

    constructor (value: string, path: string, interval: nat)
      ensures Valid() && this.value == value && this.path == path && this.interval == interval && readTimes == []
    {
      this.value, this.path, this.interval := value, path, interval;
      lastRead, readTimes := None, [];
    }

    predicate MayRead(now: int)
      reads this
    {
      path != "" && (lastRead.Some? ==> now - lastRead.value >= interval)
    }

    /** There is a file, and an interval has passed since it was last read. */
    ghost predicate Due(now: int)
      reads this
    {
      path != "" && (readTimes != [] ==> readTimes[|readTimes| - 1] + interval <= now)
    }

    /** rereadLocked. */
    method RereadLocked(now: int, file: CredentialFile)
      requires Valid()
      modifies this
      ensures Valid()
      ensures readTimes == if old(Due(now)) then old(readTimes) + [now] else old(readTimes)
      ensures value == if old(Due(now)) && ReadCredential(file).Some? then ReadCredential(file).value else old(value)
    {
      if !MayRead(now) { return; }
      lastRead, readTimes := Some(now), readTimes + [now];
      var credential := ReadCredential(file);
      if credential.Some? { value := credential.value; }
    }

    /** current: the credential in use, looked for in the file while there is none. */
    method Current(now: int, file: CredentialFile) returns (credential: string)
      requires Valid()
      modifies this
      ensures Valid() && credential == value
      ensures old(value) != "" ==> value == old(value) && readTimes == old(readTimes)
      ensures old(value) == "" ==>
                value == if old(Due(now)) && ReadCredential(file).Some? then ReadCredential(file).value else ""
    {
      if value == "" { RereadLocked(now, file); }
      credential := value;
    }

    /** reread: whether the file gave a different credential worth retrying with. */
    method Reread(now: int, file: CredentialFile) returns (changed: bool)
      requires Valid()
      modifies this
      ensures Valid()
      ensures changed <==> old(Due(now)) && ReadCredential(file).Some? && ReadCredential(file).value != old(value)
      ensures value == if changed then ReadCredential(file).value else old(value)
    {
      var before := value;
      RereadLocked(now, file);
      changed := value != "" && value != before;
    }
  }

  /** Reads under Valid are an interval apart, any two of them. */
  lemma {:induction false} ReadsAreAnIntervalApart(times: seq<int>, interval: nat, i: nat, j: nat)
    requires forall k :: 0 <= k < |times| - 1 ==> times[k] + interval <= times[k + 1]
    requires i < j < |times|
    ensures times[i] + (j - i) * interval <= times[j]
    decreases j
  {
    if i < j - 1 {
      ReadsAreAnIntervalApart(times, interval, i, j - 1);
      assert (j - i) * interval == (j - 1 - i) * interval + interval;
    }
  }

  // ---- One lookup ----

  /** The parsed body: the fields a lookup answer may carry. */
  datatype Body = Body(apiKey: string, error: string)

  /** The HTTP side of a lookup. */
  datatype Reply = NoReply | Reply(status: nat, body: Option<Body>)   // body None: not JSON

  datatype Lookup = Answered(answer: Answer) | LookupRefused | LookupFailed

  const NOT_FOUND_CODE := "provider_key_not_found"

  /** LookupProviderKey: which replies are answers. */
  function Classify(reply: Reply): Lookup {
    match reply
    case NoReply => LookupFailed
    case Reply(status, body) =>
      if status == 200 then
        if body.Some? && body.value.apiKey != "" then Answered(Found(body.value.apiKey)) else LookupFailed
      else if status == 404 then
        if body.Some? && body.value.error == NOT_FOUND_CODE then Answered(NotFound) else LookupFailed
      else if status == 401 || status == 403 then LookupRefused
      else LookupFailed
  }

  /** A 200 that carries this key. */
  predicate GivesKey(reply: Reply, key: string) {
    reply.Reply? && reply.status == 200 && reply.body.Some? && reply.body.value.apiKey == key && key != ""
  }

  /** A 404 that says the tenant has no key, and is not just a missing route. */
  predicate SaysNoKey(reply: Reply) {
    reply.Reply? && reply.status == 404 && reply.body.Some? && reply.body.value.error == "provider_key_not_found"
  }

  predicate Refuses(reply: Reply) {
    reply.Reply? && reply.status in {401, 403}
  }

  /** Neither of the two answers: no reply, no JSON, no key, a bare 404, any other status. */
  ghost predicate AnswersNothing(reply: Reply) {
    !SaysNoKey(reply) && forall key :: !GivesKey(reply, key)
  }

  /** A lookup tells the two answers from every other reply, and a refusal from the rest. */
  lemma ClassifiedRight(reply: Reply)
    ensures Classify(reply).LookupRefused? <==> Refuses(reply)
    ensures Classify(reply).Answered? <==> !AnswersNothing(reply)
    ensures forall key :: GivesKey(reply, key) <==> Classify(reply) == Answered(Found(key))
    ensures SaysNoKey(reply) <==> Classify(reply) == Answered(NotFound)
  {
    var result := Classify(reply);
    if result.Answered? && result.answer.Found? { assert GivesKey(reply, result.answer.key); }
  }

  // ---- One resolution ----

  datatype Source = Tenant | Env

  datatype Resolved = Key(key: string, source: Source) | NoApiKey | LookupUnavailable

  /** The gateway's own keys, by provider. */
  datatype EnvKeys = EnvKeys(allowed: bool, keys: map<string, string>)

  function EnvKey(env: EnvKeys, provider: string): string {
    if provider in env.keys then env.keys[provider] else ""
  }

  /** What the tenant's answer (None: no credential to ask with) comes to. */
  function Settle(answer: Option<Answer>, env: EnvKeys, provider: string): Resolved {
    if answer.Some? && answer.value.Found? then Key(answer.value.key, Tenant)
    else if env.allowed && EnvKey(env, provider) != "" then Key(EnvKey(env, provider), Env)
    else NoApiKey
  }

  /** Without a key of the tenant: the gateway's own where that is allowed and there is one. */
  predicate FallsBack(r: Resolved, env: EnvKeys, provider: string) {
    if env.allowed && provider in env.keys && env.keys[provider] != "" then r == Key(env.keys[provider], Env)
    else r == NoApiKey
  }

  /** The cache is one that put leaves, with this answer stored. */
  ghost predicate Stores(cache: ProviderKeyCache, before: map<CacheKey, Entry>, k: CacheKey, answer: Answer, now: int)
    reads cache
  {
    PutLeaves(before, cache.maxEntries, k, Entry(answer, now + cache.ttl), now, cache.entries)
  }

  /** One call to Zentinelle: the credential presented, and what came back. */
  datatype Exchange = Exchange(presented: string, reply: Reply)

  /** What the reply to the last lookup leads to: only an answer that there is no key
      falls back. */
  ghost predicate FollowsFrom(last: Reply, r: Resolved, env: EnvKeys, provider: string) {
    && (r == LookupUnavailable <==> AnswersNothing(last))
    && (forall key :: r == Key(key, Tenant) <==> GivesKey(last, key))
    && (r.Key? && r.source.Env? ==> SaysNoKey(last))
    && (SaysNoKey(last) ==> FallsBack(r, env, provider))
  }

  /** What a live answer in the cache leads to. */
  predicate RecallsRight(answer: Answer, r: Resolved, env: EnvKeys, provider: string) {
    match answer
    case Found(key) => r == Key(key, Tenant)
    case NotFound => FallsBack(r, env, provider)
  }

  /** What it leaves in the cache. */
  ghost predicate Leaves(last: Reply, cache: ProviderKeyCache, before: map<CacheKey, Entry>, k: CacheKey, now: int)
    reads cache
  {
    && (AnswersNothing(last) ==> cache.entries == before)
    && (forall key :: GivesKey(last, key) ==> Stores(cache, before, k, Found(key), now))
    && (SaysNoKey(last) ==> Stores(cache, before, k, NotFound, now))
  }

  class Resolver {
    const cache: ProviderKeyCache
    const credential: GatewayCredential
    const env: EnvKeys

    constructor (cache: ProviderKeyCache, credential: GatewayCredential, env: EnvKeys)
      ensures this.cache == cache && this.credential == credential && this.env == env
    {
      this.cache, this.credential, this.env := cache, credential, env;
    }

    /** The lookup, asked again once when a refused credential turns out rotated. */
    method Ask(held: string, now: int, file: CredentialFile, first: Reply, second: Reply)
      returns (result: Lookup, lookups: seq<Exchange>)
      requires credential.Valid() && held == credential.value && held != ""
      modifies credential
      ensures credential.Valid() && credential.value != ""
      ensures 1 <= |lookups| <= 2 && lookups[0] == Exchange(held, first)
      ensures |lookups| == 2 <==>
              && Refuses(first) && old(credential.Due(now))
              && ReadCredential(file).Some? && ReadCredential(file).value != held
      ensures |lookups| == 2 ==> lookups[1] == Exchange(ReadCredential(file).value, second)
      ensures credential.value == lookups[|lookups| - 1].presented
      ensures result == Classify(lookups[|lookups| - 1].reply)
    {
      result, lookups := Classify(first), [Exchange(held, first)];
      ClassifiedRight(first);
      if result.LookupRefused? {
        var changed := credential.Reread(now, file);
        if changed {
          result, lookups := Classify(second), lookups + [Exchange(credential.value, second)];
        }
      }
    }

    /** On a miss: the last lookup settles it, and an answer is cached. */
    method Fetch(k: CacheKey, held: string, now: int, file: CredentialFile, first: Reply, second: Reply)
      returns (r: Resolved, lookups: seq<Exchange>)
      requires credential.Valid() && held == credential.value && held != "" && k !in cache.entries
      modifies cache, credential
      ensures credential.Valid() && credential.value != ""
      ensures 1 <= |lookups| <= 2 && lookups[0] == Exchange(held, first)
      ensures |lookups| == 2 <==>
              && Refuses(first) && old(credential.Due(now))
              && ReadCredential(file).Some? && ReadCredential(file).value != held
      ensures |lookups| == 2 ==> lookups[1] == Exchange(ReadCredential(file).value, second)
      ensures credential.value == lookups[|lookups| - 1].presented
      ensures FollowsFrom(lookups[|lookups| - 1].reply, r, env, k.provider)
      ensures Leaves(lookups[|lookups| - 1].reply, cache, old(cache.entries), k, now)
    {
      var result;
      result, lookups := Ask(held, now, file, first, second);
      ClassifiedRight(lookups[|lookups| - 1].reply);
      r := LookupUnavailable;
      if result.Answered? {
        cache.Put(k, result.answer, now);
        r := Settle(Some(result.answer), env, k.provider);
      }
    }

    /** The tenant's side, with a credential to ask with. */
    method AskOrRecall(k: CacheKey, held: string, now: int, file: CredentialFile, first: Reply, second: Reply)
      returns (r: Resolved, lookups: seq<Exchange>)
      requires credential.Valid() && held == credential.value && held != ""
      modifies cache, credential
      ensures credential.Valid() && credential.value != ""
      ensures lookups == [] <==> k in old(cache.entries) && now < old(cache.entries)[k].expires
      ensures lookups != [] ==> |lookups| <= 2 && lookups[0] == Exchange(held, first)
      ensures |lookups| == 2 <==>
              && lookups != [] && Refuses(first) && old(credential.Due(now))
              && ReadCredential(file).Some? && ReadCredential(file).value != held
      ensures |lookups| == 2 ==> lookups[1] == Exchange(ReadCredential(file).value, second)
      ensures credential.value == if lookups == [] then held else lookups[|lookups| - 1].presented
      ensures lookups != [] ==> FollowsFrom(lookups[|lookups| - 1].reply, r, env, k.provider)
      ensures lookups != [] ==> Leaves(lookups[|lookups| - 1].reply, cache, old(cache.entries) - {k}, k, now)
      ensures lookups == [] ==> cache.entries == old(cache.entries)
      ensures lookups == [] ==> RecallsRight(old(cache.entries)[k].answer, r, env, k.provider)
    {
      var hit := cache.Get(k, now);
      if hit.Some? {
        r, lookups := Settle(hit, env, k.provider), [];
      } else {
        r, lookups := Fetch(k, held, now, file, first, second);
      }
    }

    /** resolveProviderKey, with the replies its one or two lookups would get. */
    method Resolve(k: CacheKey, now: int, file: CredentialFile, first: Reply, second: Reply)
      returns (r: Resolved, lookups: seq<Exchange>)
      requires credential.Valid()
      modifies cache, credential
      ensures credential.Valid()
      // The credential it asks with is the one it holds, or the one the file gives if it holds none.
      ensures old(credential.value) == "" ==>
                credential.value == if old(credential.Due(now)) && ReadCredential(file).Some?
                                    then ReadCredential(file).value else ""
      ensures old(credential.value) != "" ==> credential.value != ""
      // Zentinelle is asked exactly when there is a credential and no live answer in the cache,
      ensures lookups == [] <==>
              credential.value == "" || (k in old(cache.entries) && now < old(cache.entries)[k].expires)
      ensures lookups != [] ==> |lookups| <= 2 && lookups[0].reply == first
      ensures lookups != [] && old(credential.value) != "" ==> lookups[0].presented == old(credential.value)
      // and a second time exactly when it refused and the file gives another credential.
      ensures |lookups| == 2 <==>
              && lookups != [] && Refuses(first) && old(credential.value) != "" && old(credential.Due(now))
              && ReadCredential(file).Some? && ReadCredential(file).value != old(credential.value)
      ensures |lookups| == 2 ==> lookups[1] == Exchange(ReadCredential(file).value, second)
      ensures lookups != [] ==> credential.value == lookups[|lookups| - 1].presented != ""
      // The last reply decides.
      ensures lookups != [] ==> FollowsFrom(lookups[|lookups| - 1].reply, r, env, k.provider)
      ensures lookups != [] ==> Leaves(lookups[|lookups| - 1].reply, cache, old(cache.entries) - {k}, k, now)
      // A live answer, or having no credential, decides without asking and leaves the cache alone.
      ensures lookups == [] ==> cache.entries == old(cache.entries)
      ensures lookups == [] && credential.value != "" ==>
                RecallsRight(old(cache.entries)[k].answer, r, env, k.provider)
      ensures credential.value == "" ==> FallsBack(r, env, k.provider)
    {
      var held := credential.Current(now, file);
      if held == "" {
        return Settle(None, env, k.provider), [];
      }
      r, lookups := AskOrRecall(k, held, now, file, first, second);
    }
  }
}
