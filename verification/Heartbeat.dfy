/** The gateway's reports on its cluster: what each status is judged over, how the
    beats are spaced, and when a refused credential is waited out. Durations are
    nanoseconds. */
module Heartbeat {

  const SECOND := 1_000_000_000
  const MIN_INTERVAL := 10 * SECOND
  const MAX_INTERVAL := 3600 * SECOND
  const MAX_BACKOFF := 300 * SECOND

  // ---- Counters ----

  datatype Snapshot = Snapshot(requests: nat, blocked: nat, agentsSeen: nat, checksAnswered: nat, checksUnanswered: nat,
                               lookupsAnswered: nat, lookupsFailed: nat)

  const NOTHING := Snapshot(0, 0, 0, 0, 0, 0, 0)

  datatype Counter =
    | Requests | Blocked | AgentsSeen
    | ChecksAnswered | ChecksUnanswered
    | LookupsAnswered | LookupsFailed

  function Read(s: Snapshot, c: Counter): nat {
    match c
    case Requests => s.requests
    case Blocked => s.blocked
    case AgentsSeen => s.agentsSeen
    case ChecksAnswered => s.checksAnswered
    case ChecksUnanswered => s.checksUnanswered
    case LookupsAnswered => s.lookupsAnswered
    case LookupsFailed => s.lookupsFailed
  }

  /** No counter has gone down. */
  predicate AtMost(a: Snapshot, b: Snapshot) {
    && a.requests <= b.requests && a.blocked <= b.blocked && a.agentsSeen <= b.agentsSeen
    && a.checksAnswered <= b.checksAnswered && a.checksUnanswered <= b.checksUnanswered
    && a.lookupsAnswered <= b.lookupsAnswered && a.lookupsFailed <= b.lookupsFailed
  }

  datatype Status = Healthy | Degraded | Unhealthy

  /** heartbeatStatus. */
  function StatusOver(from: Snapshot, to: Snapshot): Status {
    var answered, unanswered := to.checksAnswered - from.checksAnswered, to.checksUnanswered - from.checksUnanswered;
    var found, failed := to.lookupsAnswered - from.lookupsAnswered, to.lookupsFailed - from.lookupsFailed;
    if (unanswered > 0 && answered == 0) || (failed > 0 && found == 0) then Unhealthy
    else if unanswered > 0 || failed > 0 then Degraded
    else Healthy
  }

  // ---- The agents seen ----

  /** agentSet: distinct agents, up to a bound. Digests of distinct keys differ. */
  class AgentSet {
    const max: nat
    var seen: set<string>

    constructor (max: nat)
      ensures this.max == max && seen == {}
    {
      this.max := max;
      seen := {};
    }

    method Add(agent: string)
      modifies this
      ensures seen == SeenNext(old(seen), agent, max)
    {
      var added := agent !in seen && |seen| < max;
      if added { seen := seen + {agent}; }
    }
  }

  function SeenNext(seen: set<string>, agent: string, max: nat): set<string> {
    if |seen| < max then seen + {agent} else seen
  }

  function Seen(agents: seq<string>, max: nat): set<string> {
    if agents == [] then {} else SeenNext(Seen(agents[..|agents| - 1], max), agents[|agents| - 1], max)
  }

  function Distinct(agents: seq<string>): set<string> {
    set a | a in agents
  }

  lemma OneMoreAgent(agents: seq<string>)
    requires agents != []
    ensures var before := Distinct(agents[..|agents| - 1]);
            Distinct(agents) == before + {agents[|agents| - 1]} && |before| <= |Distinct(agents)| <= |before| + 1
  {
    assert agents == agents[..|agents| - 1] + [agents[|agents| - 1]];
    var before, last := Distinct(agents[..|agents| - 1]), agents[|agents| - 1];
    assert Distinct(agents) == before + {last};
    if last in before { assert Distinct(agents) == before; }
  }

  lemma {:induction false} SeenBelowTheBound(agents: seq<string>, max: nat)
    requires |Distinct(agents)| <= max
    ensures Seen(agents, max) == Distinct(agents)
  {
    if agents != [] {
      OneMoreAgent(agents);
      SeenBelowTheBound(agents[..|agents| - 1], max);
    }
  }

  lemma {:induction false} SeenAtTheBound(agents: seq<string>, max: nat)
    requires |Distinct(agents)| > max
    ensures |Seen(agents, max)| == max && Seen(agents, max) <= Distinct(agents)
  {
    var before := agents[..|agents| - 1];
    OneMoreAgent(agents);
    if |Distinct(before)| <= max { SeenBelowTheBound(before, max); } else { SeenAtTheBound(before, max); }
  }

  /** The agents counted are the distinct ones until those reach the bound, and as
      many as the bound from then on. */
  lemma SeenCountsDistinctAgents(agents: seq<string>, max: nat)
    ensures Seen(agents, max) <= Distinct(agents)
    ensures |Seen(agents, max)| == if |Distinct(agents)| <= max then |Distinct(agents)| else max
  {
    if |Distinct(agents)| <= max { SeenBelowTheBound(agents, max); } else { SeenAtTheBound(agents, max); }
  }

  // ---- Windows ----

  /** What a delivered beat judged, and its judgement. */
  datatype Window = Window(from: Snapshot, to: Snapshot, status: Status)

  /** Each window starts where the one before ended; the last ends at `end`. */
  predicate Chained(windows: seq<Window>, end: Snapshot) {
    if windows == [] then end == NOTHING
    else
      var w := windows[|windows| - 1];
      && w.to == end && AtMost(w.from, w.to) && w.status == StatusOver(w.from, w.to)
      && Chained(windows[..|windows| - 1], w.from)
  }

  /** The k-th increment of a counter is in this window. */
  predicate Holds(w: Window, c: Counter, k: nat) {
    Read(w.from, c) < k <= Read(w.to, c)
  }

  lemma {:induction false} WindowsStayBelow(windows: seq<Window>, end: Snapshot, i: nat)
    requires Chained(windows, end) && i < |windows|
    ensures AtMost(windows[i].to, end) && AtMost(windows[i].from, windows[i].to)
    ensures windows[i].status == StatusOver(windows[i].from, windows[i].to)
  {
    var n := |windows| - 1;
    if i < n {
      WindowsStayBelow(windows[..n], windows[n].from, i);
    }
  }

  /** The windows partition every counter's history: each increment up to the last
      delivered snapshot is in exactly one. */
  lemma {:induction false} EveryIncrementIsInOneWindow(windows: seq<Window>, end: Snapshot, c: Counter, k: nat)
    returns (i: nat)
    requires Chained(windows, end) && 0 < k <= Read(end, c)
    ensures i < |windows| && Holds(windows[i], c, k)
    ensures forall j :: 0 <= j < |windows| && Holds(windows[j], c, k) ==> j == i
  {
    var n := |windows| - 1;
    if Holds(windows[n], c, k) {
      i := n;
      forall j | 0 <= j < n ensures !Holds(windows[j], c, k) {
        WindowsStayBelow(windows[..n], windows[n].from, j);
        assert Read(windows[j].to, c) <= Read(windows[n].from, c);
      }
    } else {
      i := EveryIncrementIsInOneWindow(windows[..n], windows[n].from, c, k);
    }
  }

  /** A delivered beat says healthy exactly when its window holds no failed check
      and no failed lookup. */
  lemma HealthyExactlyWithoutFailures(windows: seq<Window>, end: Snapshot, i: nat)
    requires Chained(windows, end) && i < |windows|
    ensures windows[i].status == Healthy
            <==> forall k: nat :: !Holds(windows[i], ChecksUnanswered, k) && !Holds(windows[i], LookupsFailed, k)
  {
    WindowsStayBelow(windows, end, i);
    var w := windows[i];
    assert Read(w.from, ChecksUnanswered) <= Read(w.to, ChecksUnanswered);
    assert Read(w.from, LookupsFailed) <= Read(w.to, LookupsFailed);
    if w.status != Healthy {
      if Read(w.from, ChecksUnanswered) < Read(w.to, ChecksUnanswered) {
        assert Holds(w, ChecksUnanswered, Read(w.to, ChecksUnanswered));
      } else {
        assert Holds(w, LookupsFailed, Read(w.to, LookupsFailed));
      }
    }
  }

  /** Every failure up to the last delivered snapshot spoils exactly one beat. */
  lemma EveryFailureIsReported(windows: seq<Window>, end: Snapshot, c: Counter, k: nat) returns (i: nat)
    requires Chained(windows, end) && 0 < k <= Read(end, c) && c in {ChecksUnanswered, LookupsFailed}
    ensures i < |windows| && Holds(windows[i], c, k) && windows[i].status != Healthy
    ensures forall j :: 0 <= j < |windows| && Holds(windows[j], c, k) ==> j == i
  {
    i := EveryIncrementIsInOneWindow(windows, end, c, k);
    HealthyExactlyWithoutFailures(windows, end, i);
  }

  /** A delivered beat says unhealthy exactly when of one kind of call some failed
      and none was answered in its window. */
  lemma UnhealthyExactlyWhenAKindFailed(windows: seq<Window>, end: Snapshot, i: nat)
    requires Chained(windows, end) && i < |windows|
    ensures var w := windows[i];
            w.status == Unhealthy <==>
            || ((exists k: nat :: Holds(w, ChecksUnanswered, k)) && forall k: nat :: !Holds(w, ChecksAnswered, k))
            || ((exists k: nat :: Holds(w, LookupsFailed, k)) && forall k: nat :: !Holds(w, LookupsAnswered, k))
  {
    WindowsStayBelow(windows, end, i);
    var w := windows[i];
    HoldsExactlyWhenRaised(w, ChecksUnanswered);
    HoldsExactlyWhenRaised(w, ChecksAnswered);
    HoldsExactlyWhenRaised(w, LookupsFailed);
    HoldsExactlyWhenRaised(w, LookupsAnswered);
  }

  lemma HoldsExactlyWhenRaised(w: Window, c: Counter)
    requires AtMost(w.from, w.to)
    ensures (exists k: nat :: Holds(w, c, k)) <==> Read(w.from, c) < Read(w.to, c)
    ensures (forall k: nat :: !Holds(w, c, k)) <==> Read(w.from, c) == Read(w.to, c)
  {
    assert Read(w.from, c) <= Read(w.to, c);
    if Read(w.from, c) < Read(w.to, c) { assert Holds(w, c, Read(w.to, c)); }
  }

  // ---- Delays ----

  function Pow2(n: nat): nat {
    if n == 0 then 1 else 2 * Pow2(n - 1)
  }

  /** The wait after the given number of failures: 10 s doubled each time, at most 300 s. */
  function BackoffOf(failures: nat): nat {
    var doubled := MIN_INTERVAL * Pow2(if failures == 0 then 0 else failures - 1);
    if doubled < MAX_BACKOFF then doubled else MAX_BACKOFF
  }

  lemma {:induction false} Pow2Grows(m: nat, n: nat)
    requires m <= n
    ensures Pow2(m) <= Pow2(n)
  {
    if m < n { Pow2Grows(m, n - 1); }
  }

  /** heartbeatBackoff. The delay is never doubled past twice the bound. */
  method Backoff(failures: nat) returns (delay: nat)
    ensures delay == BackoffOf(failures)
  {
    delay := MIN_INTERVAL;
    var i := 1;
    while i < failures && delay < MAX_BACKOFF
      invariant 1 <= i && (i <= failures || i == 1)
      invariant delay == MIN_INTERVAL * Pow2(i - 1) && delay < 2 * MAX_BACKOFF
    {
      delay := delay * 2;
      i := i + 1;
    }
    if failures > 0 { Pow2Grows(i - 1, failures - 1); }
    if delay > MAX_BACKOFF { delay := MAX_BACKOFF; }
  }

  lemma BackoffIsPaced(m: nat, n: nat)
    requires m <= n
    ensures MIN_INTERVAL <= BackoffOf(m) <= BackoffOf(n) <= MAX_BACKOFF
    ensures m >= 6 ==> BackoffOf(m) == MAX_BACKOFF
  {
    Pow2Grows(0, if m == 0 then 0 else m - 1);
    Pow2Grows(if m == 0 then 0 else m - 1, if n == 0 then 0 else n - 1);
    if m >= 6 {
      assert Pow2(5) == 32;
      Pow2Grows(5, m - 1);
    }
  }

  /** jitter, for the random number drawn. */
  function Jitter(d: nat, random: nat): (jittered: nat)
    ensures d - d / 10 <= jittered <= d + d / 10
  {
    var spread := d / 10;
    if spread == 0 then d else d + random % (2 * spread + 1) - spread
  }

  /** And every delay within the tenth is drawn by some number. */
  lemma JitterReachesEveryDelay(d: nat, delay: nat) returns (random: nat)
    requires d - d / 10 <= delay <= d + d / 10
    ensures Jitter(d, random) == delay
  {
    random := delay - (d - d / 10);
    SmallRemainder(random, 2 * (d / 10) + 1);
  }

  lemma SmallRemainder(n: nat, m: nat)
    requires n < m
    ensures n % m == n
  {
  }

  // ---- One beat ----

  /** What came back of a post: nothing usable, or a status and the answer read. */
  datatype Answer = Lost | Answered(status: int, acknowledged: bool, next: int)

  datatype Outcome = Delivered | BeatFailed | NotRegistered | NoCredential

  predicate Refused(a: Answer) {
    a.Answered? && (a.status == 401 || a.status == 403)
  }

  predicate Acknowledges(a: Answer) {
    a.Answered? && 200 <= a.status <= 299 && a.acknowledged
  }

  /** What the gateway and its surroundings supply to a beat. */
  datatype Turn = Turn(current: string, snapshot: Snapshot, first: Answer, fileChanged: bool, reread: string,
                       second: Answer, took: nat, ended: bool, random: nat, late: nat, cut: bool, awaits: seq<Await>)

  /** One look for a new credential: how the wait before it went, and what is then held. */
  datatype Await = Await(random: nat, late: nat, cut: bool, held: string)

  predicate Retries(t: Turn) {
    t.current != "" && Refused(t.first) && t.fileChanged
  }

  function FinalAnswer(t: Turn): Answer {
    if Retries(t) then t.second else t.first
  }

  function OutcomeOf(t: Turn): Outcome {
    var a := FinalAnswer(t);
    if t.current == "" then NoCredential
    else if Acknowledges(a) then Delivered
    else if a.Answered? && a.status == 404 then NotRegistered
    else BeatFailed
  }

  /** The interval an answer asks for, inside 10 s to an hour. */
  function IntervalAfter(interval: nat, a: Answer): nat {
    if !Acknowledges(a) || a.next <= 0 then interval
    else if a.next < 10 then MIN_INTERVAL
    else if a.next > 3600 then MAX_INTERVAL
    else a.next * SECOND
  }

  /** The last answer of a beat, and what it makes of the beat. */
  predicate BeatEnds(outcome: Outcome, posts: nat, last: Answer) {
    && (outcome.NoCredential? <==> posts == 0)
    && (outcome.Delivered? <==> posts > 0 && last.Answered? && 200 <= last.status < 300 && last.acknowledged)
    && (outcome.NotRegistered? <==> posts > 0 && last.Answered? && last.status == 404)
  }

  /** The seconds an acknowledgement asks for, if it asks for any, inside 10 to 3600. */
  predicate AsksFor(before: nat, seconds: int, interval: nat) {
    if seconds <= 0 then interval == before
    else
      && (seconds <= 10 ==> interval == 10_000_000_000)
      && (10 <= seconds <= 3600 ==> interval == seconds * 1_000_000_000)
      && (seconds >= 3600 ==> interval == 3_600_000_000_000)
  }

  function Posts(t: Turn): nat {
    if t.current == "" then 0 else if Retries(t) then 2 else 1
  }

  /** One turn of the run: when it began, what it sent, and the delay that followed. */
  datatype Beat = Beat(at: nat, posts: nat, outcome: Outcome, interval: nat, delay: nat)

  /** Failures in a row: a delivered beat and a 404 end the row, a beat not sent
      for want of a credential neither ends nor extends it. */
  function Failures(beats: seq<Beat>): nat {
    if beats == [] then 0
    else
      var b := beats[|beats| - 1];
      match b.outcome
      case BeatFailed => Failures(beats[..|beats| - 1]) + 1
      case NoCredential => Failures(beats[..|beats| - 1])
      case Delivered => 0
      case NotRegistered => 0
  }

  /** The delay a turn calls for, before jitter. */
  function Called(beats: seq<Beat>): nat
    requires beats != []
  {
    var b := beats[|beats| - 1];
    if b.outcome.BeatFailed? then BackoffOf(Failures(beats)) else b.interval
  }

  predicate Near(delay: nat, d: nat) {
    d - d / 10 <= delay <= d + d / 10
  }

  /** The pacing of a run, turn by turn. */
  predicate Paced(beats: seq<Beat>) {
    beats == [] ||
    var n := |beats| - 1;
    var b := beats[n];
    && Paced(beats[..n])
    && b.posts <= 2 && MIN_INTERVAL <= b.interval <= MAX_INTERVAL
    && Near(b.delay, Called(beats))
    && (n > 0 ==> beats[n - 1].at + beats[n - 1].delay <= b.at)
  }

  /** Two beats in a row are at least 9 seconds apart, whatever happened. */
  lemma {:induction false} BeatsAreApart(beats: seq<Beat>, i: nat)
    requires Paced(beats) && i + 1 < |beats|
    ensures beats[i].at + 9 * SECOND <= beats[i + 1].at
    ensures beats[i].posts <= 2 && MIN_INTERVAL <= beats[i].interval <= MAX_INTERVAL
  {
    var n := |beats| - 1;
    if i + 1 < n {
      BeatsAreApart(beats[..n], i);
    } else {
      var before := beats[..n];
      assert Paced(before) && before[|before| - 1] == beats[i];
      BackoffIsPaced(Failures(before), Failures(before));
      assert Called(before) >= MIN_INTERVAL;
    }
  }

  /** And after n failures in a row at least nine tenths of min(10 * 2^(n-1), 300)
      seconds apart, and the wait planned at most eleven tenths of it. */
  lemma {:induction false} FailuresBackOff(beats: seq<Beat>, i: nat)
    requires Paced(beats) && i + 1 < |beats| && beats[i].outcome.BeatFailed?
    ensures var d := BackoffOf(Failures(beats[..i + 1]));
            && Near(beats[i].delay, d) && beats[i].at + (d - d / 10) <= beats[i + 1].at
  {
    var n := |beats| - 1;
    if i + 1 < n {
      FailuresBackOff(beats[..n], i);
      assert beats[..n][..i + 1] == beats[..i + 1];
    } else {
      assert beats[..n] == beats[..i + 1];
    }
  }

  /** After any other beat the wait is within a tenth of the interval in force. */
  lemma {:induction false} OthersWaitAnInterval(beats: seq<Beat>, i: nat)
    requires Paced(beats) && i < |beats| && !beats[i].outcome.BeatFailed?
    ensures Near(beats[i].delay, beats[i].interval)
  {
    var n := |beats| - 1;
    if i < n { OthersWaitAnInterval(beats[..n], i); }
  }

  predicate EndsARow(b: Beat) {
    b.outcome in {Delivered, NotRegistered}
  }

  function FailedIn(beats: seq<Beat>): nat {
    if beats == [] then 0
    else FailedIn(beats[..|beats| - 1]) + if beats[|beats| - 1].outcome == BeatFailed then 1 else 0
  }

  /** The failures in a row are those since the last delivered beat or 404: a beat not
      sent for want of a credential changes nothing. */
  lemma {:induction false} FailuresSinceTheLastEnd(before: seq<Beat>, since: seq<Beat>)
    requires before == [] || EndsARow(before[|before| - 1])
    requires forall i :: 0 <= i < |since| ==> !EndsARow(since[i])
    ensures Failures(before + since) == FailedIn(since)
  {
    if since == [] {
      assert before + since == before;
    } else {
      var n := |since| - 1;
      assert (before + since)[..|before + since| - 1] == before + since[..n];
      FailuresSinceTheLastEnd(before, since[..n]);
    }
  }

  // ---- The loop ----

  /** The credential the beat was last sent with. */
  function PresentedBy(t: Turn): string {
    if Retries(t) then t.reread else t.current
  }

  /** A look that ends the waiting finds a credential other than the refused one. */
  predicate Resumes(awaits: seq<Await>, presented: string) {
    awaits != [] && !awaits[0].cut
    && ((awaits[0].held != "" && awaits[0].held != presented) || Resumes(awaits[1..], presented))
  }

  /** Some look, none up to it cut short, finds a credential other than the refused one. */
  ghost predicate FindsAnother(awaits: seq<Await>, presented: string) {
    exists k :: 0 <= k < |awaits| && awaits[k].held != "" && awaits[k].held != presented
                && forall j :: 0 <= j <= k ==> !awaits[j].cut
  }

  lemma {:induction false} ResumesExactly(awaits: seq<Await>, presented: string)
    ensures Resumes(awaits, presented) <==> FindsAnother(awaits, presented)
  {
    if awaits != [] {
      var rest := awaits[1..];
      ResumesExactly(rest, presented);
      if k :| 0 <= k < |awaits| && awaits[k].held != "" && awaits[k].held != presented
              && forall j :: 0 <= j <= k ==> !awaits[j].cut
      {
        assert !awaits[0].cut;
        if k > 0 {
          assert rest[k - 1] == awaits[k];
          assert forall j :: 0 <= j <= k - 1 ==> !awaits[j + 1].cut && rest[j] == awaits[j + 1];
        }
      }
      if k :| 0 <= k < |rest| && rest[k].held != "" && rest[k].held != presented
              && (forall j :: 0 <= j <= k ==> !rest[j].cut) && !awaits[0].cut
      {
        assert awaits[k + 1] == rest[k];
        assert forall j :: 1 <= j <= k + 1 ==> awaits[j] == rest[j - 1];
      }
    }
  }

  predicate Stops(t: Turn, fromFile: bool) {
    if OutcomeOf(t).NotRegistered? then t.ended || !fromFile || !Resumes(t.awaits, PresentedBy(t))
    else t.ended || t.cut
  }

  /** A turn is the last if the context ends in it, or, after a 404, if no look in a
      file finds a credential other than the one last presented. */
  lemma StopsExactly(t: Turn, fromFile: bool, presented: string)
    requires presented == if Posts(t) == 2 then t.reread else t.current
    ensures Stops(t, fromFile)
            <==> || t.ended
                 || if OutcomeOf(t).NotRegistered? then !fromFile || !FindsAnother(t.awaits, presented) else t.cut
  {
    ResumesExactly(t.awaits, presented);
  }

  /** The snapshots of the turns whose beats were delivered. */
  function Reported(turns: seq<Turn>): seq<Snapshot> {
    if turns == [] then []
    else
      var t := turns[|turns| - 1];
      Reported(turns[..|turns| - 1]) + if OutcomeOf(t).Delivered? then [t.snapshot] else []
  }

  function Ends(windows: seq<Window>): seq<Snapshot> {
    if windows == [] then [] else Ends(windows[..|windows| - 1]) + [windows[|windows| - 1].to]
  }

  lemma ReportedNext(turns: seq<Turn>, i: nat)
    requires i < |turns|
    ensures Reported(turns[..i + 1])
         == Reported(turns[..i]) + if OutcomeOf(turns[i]).Delivered? then [turns[i].snapshot] else []
  {
    assert turns[..i + 1][..i] == turns[..i];
  }

  /** No counter goes down from one turn's snapshot to the next. */
  predicate Growing(from: Snapshot, turns: seq<Turn>)
    decreases turns
  {
    turns == [] || (AtMost(from, turns[0].snapshot) && Growing(turns[0].snapshot, turns[1..]))
  }

  lemma GrowingNext(from: Snapshot, turns: seq<Turn>, i: nat)
    requires i < |turns| && Growing(from, turns[i..])
    ensures AtMost(from, turns[i].snapshot)
    ensures Growing(turns[i].snapshot, turns[i + 1..]) && Growing(from, turns[i + 1..])
  {
    assert turns[i..][1..] == turns[i + 1..];
  }

  /** The beats are those of the first turns, each reached because none before it
      stopped the run. */
  predicate Follows(beats: seq<Beat>, turns: seq<Turn>, fromFile: bool) {
    beats == [] ||
    var n := |beats| - 1;
    && n < |turns| && beats[n].outcome == OutcomeOf(turns[n])
    && (n > 0 ==> !Stops(turns[n - 1], fromFile))
    && Follows(beats[..n], turns, fromFile)
  }

  lemma FollowsNext(beats: seq<Beat>, turns: seq<Turn>, fromFile: bool, beat: Beat)
    requires Follows(beats, turns, fromFile) && |beats| < |turns|
    requires beat.outcome == OutcomeOf(turns[|beats|]) && (beats != [] ==> !Stops(turns[|beats| - 1], fromFile))
    ensures Follows(beats + [beat], turns, fromFile)
  {
    assert (beats + [beat])[..|beats|] == beats;
  }

  /** The first turns have been taken: their beats sent, their windows delivered. */
  predicate Taken(turns: seq<Turn>, fromFile: bool, beats: seq<Beat>, ends: seq<Snapshot>, delivered: Snapshot) {
    && |beats| <= |turns| && Growing(delivered, turns[|beats|..]) && Follows(beats, turns, fromFile)
    && ends == Reported(turns[..|beats|])
  }

  lemma TakenNext(turns: seq<Turn>, fromFile: bool, beats: seq<Beat>, ends: seq<Snapshot>, delivered: Snapshot,
                  beat: Beat)
    requires Taken(turns, fromFile, beats, ends, delivered) && |beats| < |turns|
    requires beat.outcome == OutcomeOf(turns[|beats|]) && (beats != [] ==> !Stops(turns[|beats| - 1], fromFile))
    ensures var t := turns[|beats|];
            && AtMost(delivered, t.snapshot)
            && if OutcomeOf(t).Delivered?
               then Taken(turns, fromFile, beats + [beat], ends + [t.snapshot], t.snapshot)
               else Taken(turns, fromFile, beats + [beat], ends + [], delivered)
  {
    GrowingNext(delivered, turns, |beats|);
    ReportedNext(turns, |beats|);
    FollowsNext(beats, turns, fromFile, beat);
  }

  class Heartbeat {
    const fromFile: bool
    var interval: nat
    var delivered: Snapshot
    var presented: string
    var now: nat
    ghost var windows: seq<Window>
    ghost var beats: seq<Beat>

    ghost predicate Valid()
      reads this
    {
      && MIN_INTERVAL <= interval <= MAX_INTERVAL
      && Chained(windows, delivered) && Paced(beats)
    }

    /** The delay after the last beat is over. */
    ghost predicate Waited()
      reads this
    {
      beats == [] || beats[|beats| - 1].at + beats[|beats| - 1].delay <= now
    }

    constructor (fromFile: bool, interval: nat)
      requires MIN_INTERVAL <= interval <= MAX_INTERVAL
      ensures Valid() && Waited() && this.fromFile == fromFile && windows == [] && beats == [] && delivered == NOTHING
    {
      this.fromFile, this.interval := fromFile, interval;
      delivered, presented, now := NOTHING, "", 0;
      windows, beats := [], [];
    }

    /** The posts of a beat: a refused one is sent again if the file gives another credential. */
    method Post(t: Turn) returns (answer: Answer, posts: nat)
      requires t.current != ""
      modifies this`presented
      ensures answer == FinalAnswer(t) && presented == PresentedBy(t) && posts == if Retries(t) then 2 else 1
    {
      presented := t.current;
      answer := t.first;
      posts := 1;
      if Refused(answer) && t.fileChanged {
        presented := t.reread;
        answer := t.second;
        posts := 2;
      }
    }

    /** An acknowledged beat closes its window and may change the interval. */
    method Deliver(snapshot: Snapshot, status: Status, answer: Answer)
      requires Valid() && AtMost(delivered, snapshot) && status == StatusOver(delivered, snapshot)
      requires Acknowledges(answer)
      modifies this`windows, this`delivered, this`interval
      ensures Valid() && delivered == snapshot && interval == IntervalAfter(old(interval), answer)
      ensures windows == old(windows) + [Window(old(delivered), snapshot, status)]
      ensures Ends(windows) == Ends(old(windows)) + [snapshot]
    {
      assert (windows + [Window(delivered, snapshot, status)])[..|windows|] == windows;
      windows := windows + [Window(delivered, snapshot, status)];
      delivered := snapshot;
      if answer.next > 0 {
        interval := (if answer.next < 10 then 10 else if answer.next > 3600 then 3600 else answer.next) * SECOND;
      }
    }

    /** beat: at most two posts of one body, and the window moves only when the
        beat was acknowledged. */
    method SendBeat(t: Turn) returns (outcome: Outcome, posts: nat)
      requires Valid() && AtMost(delivered, t.snapshot)
      modifies this
      ensures Valid() && beats == old(beats) && now == old(now) + t.took
      ensures outcome == OutcomeOf(t)
      // Without a credential nothing is sent; a refusal is answered with another one from the file, once.
      ensures posts == 0 <==> t.current == ""
      ensures posts == 2 <==>
              && t.current != "" && t.first.Answered? && (t.first.status == 401 || t.first.status == 403)
              && t.fileChanged
      ensures posts <= 2 && posts == Posts(t)
      ensures presented == if posts == 0 then old(presented) else if posts == 1 then t.current else t.reread
      // The last answer decides: an acknowledgement with a status from 200 to 299, a 404, or a failure.
      ensures BeatEnds(outcome, posts, if posts == 2 then t.second else t.first)
      // Only an acknowledged beat closes its window and moves the interval.
      ensures outcome.Delivered? ==>
                && delivered == t.snapshot
                && var status := StatusOver(old(delivered), t.snapshot);
                   windows == old(windows) + [Window(old(delivered), t.snapshot, status)]
      ensures outcome.Delivered? ==>
                AsksFor(old(interval), (if posts == 2 then t.second else t.first).next, interval)
      ensures !outcome.Delivered? ==>
                delivered == old(delivered) && interval == old(interval) && windows == old(windows)
      ensures Ends(windows) == Ends(old(windows)) + if outcome.Delivered? then [t.snapshot] else []
    {
      now := now + t.took;
      if t.current == "" { return NoCredential, 0; }
      var status := StatusOver(delivered, t.snapshot);
      var answer;
      answer, posts := Post(t);
      if answer.Lost? { return BeatFailed, posts; }
      if answer.status == 404 { return NotRegistered, posts; }
      if Refused(answer) || answer.status < 200 || answer.status > 299 || !answer.acknowledged {
        return BeatFailed, posts;
      }
      Deliver(t.snapshot, status, answer);
      outcome := Delivered;
    }

    /** awaitNewCredential: one look an interval, until the credential in hand is
        not the refused one. */
    method AwaitNewCredential(awaits: seq<Await>) returns (resumed: bool)
      requires MIN_INTERVAL <= interval
      modifies this`now
      ensures resumed == (fromFile && Resumes(awaits, presented))
      ensures now >= old(now) && (resumed ==> now >= old(now) + Jitter(interval, awaits[0].random))
    {
      if !fromFile { return false; }
      for i := 0 to |awaits|
        invariant Resumes(awaits, presented) == Resumes(awaits[i..], presented)
        invariant now >= old(now) && (i > 0 ==> now >= old(now) + Jitter(interval, awaits[0].random))
      {
        if awaits[i].cut { return false; }
        now := now + Jitter(interval, awaits[i].random) + awaits[i].late;
        var current := awaits[i].held;
        if current != "" && current != presented { return true; }
        assert awaits[i..][1..] == awaits[i + 1..];
      }
      return false;
    }

    /** The delay before jitter after a beat, and the failures in a row. */
    method DelayAfter(outcome: Outcome, failures: nat) returns (d: nat, row: nat)
      ensures row == match outcome case BeatFailed => failures + 1 case NoCredential => failures case _ => 0
      ensures d == if outcome.BeatFailed? then BackoffOf(row) else interval
    {
      d, row := interval, failures;
      match outcome {
        case Delivered => row := 0;
        case BeatFailed => row := failures + 1; d := Backoff(row);
        case NotRegistered => row := 0;
        case NoCredential =>
      }
    }

    ghost method LogBeat(b: Beat, row: nat, d: nat)
      requires Paced(beats) && b.posts <= 2 && MIN_INTERVAL <= b.interval <= MAX_INTERVAL
      requires beats != [] ==> beats[|beats| - 1].at + beats[|beats| - 1].delay <= b.at
      requires row == match b.outcome
                      case BeatFailed => Failures(beats) + 1
                      case NoCredential => Failures(beats)
                      case _ => 0
      requires Near(b.delay, d) && d == if b.outcome.BeatFailed? then BackoffOf(row) else b.interval
      modifies this`beats
      ensures beats == old(beats) + [b] && Paced(beats) && Failures(beats) == row
    {
      assert (beats + [b])[..|beats|] == beats;
      beats := beats + [b];
    }

    /** The wait planned after a beat, and the beat it belongs to. */
    method PlanWait(t: Turn, at: nat, outcome: Outcome, posts: nat, failures: nat)
      returns (row: nat, delay: nat, ghost beat: Beat)
      requires Paced(beats) && failures == Failures(beats) && posts <= 2 && MIN_INTERVAL <= interval <= MAX_INTERVAL
      requires beats != [] ==> beats[|beats| - 1].at + beats[|beats| - 1].delay <= at
      modifies this`beats
      ensures beats == old(beats) + [beat] && Paced(beats) && row == Failures(beats)
      ensures beat.outcome == outcome && beat.at == at && beat.delay == delay && beat.interval == interval
      ensures outcome.NotRegistered? && t.awaits != [] ==> delay == Jitter(interval, t.awaits[0].random)
    {
      var d;
      d, row := DelayAfter(outcome, failures);
      delay := Jitter(d, if outcome.NotRegistered? && t.awaits != [] then t.awaits[0].random else t.random);
      beat := Beat(at, posts, outcome, interval, delay);
      LogBeat(beat, row, d);
    }

    /** One pass of the loop of run: a beat and the wait after it. */
    method TakeTurn(t: Turn, failures: nat) returns (row: nat, goesOn: bool, ghost beat: Beat)
      requires Valid() && Waited() && AtMost(delivered, t.snapshot) && failures == Failures(beats)
      modifies this
      ensures Valid() && (goesOn ==> Waited()) && row == Failures(beats)
      ensures beats == old(beats) + [beat] && beat.outcome == OutcomeOf(t)
      ensures beat.at == old(now) && beat.interval == interval
      ensures goesOn == !Stops(t, fromFile)
      ensures delivered == if OutcomeOf(t).Delivered? then t.snapshot else old(delivered)
      ensures Ends(windows) == Ends(old(windows)) + if OutcomeOf(t).Delivered? then [t.snapshot] else []
    {
      var at := now;
      var outcome, posts := SendBeat(t);
      var delay;
      row, delay, beat := PlanWait(t, at, outcome, posts, failures);
      if t.ended { return row, false, beat; }
      if outcome.NotRegistered? {
        goesOn := AwaitNewCredential(t.awaits);
      } else if t.cut {
        goesOn := false;
      } else {
        now := now + delay + t.late;
        goesOn := true;
      }
    }

    /** Where run stands after its first turns. */
    ghost predicate After(turns: seq<Turn>, failures: nat, goesOn: bool)
      reads this
    {
      && failures == Failures(beats) && Valid() && (goesOn ==> Waited())
      && Taken(turns, fromFile, beats, Ends(windows), delivered)
      && goesOn == (beats == [] || !Stops(turns[|beats| - 1], fromFile))
    }

    method NextTurn(turns: seq<Turn>, i: nat, failures: nat) returns (row: nat, goesOn: bool)
      requires i == |beats| < |turns| && After(turns, failures, true)
      modifies this
      ensures After(turns, row, goesOn) && |beats| == i + 1
    {
      GrowingNext(delivered, turns, i);
      ghost var before, ends, last := beats, Ends(windows), delivered;
      ghost var beat;
      row, goesOn, beat := TakeTurn(turns[i], failures);
      TakenNext(turns, fromFile, before, ends, last, beat);
    }

    /** run, over the turns its surroundings grant it. */
    method Run(turns: seq<Turn>)
      requires Valid() && beats == [] && windows == [] && delivered == NOTHING
      requires Growing(NOTHING, turns)
      modifies this
      ensures Valid() && Follows(beats, turns, fromFile)
      ensures |beats| < |turns| ==> beats != [] && Stops(turns[|beats| - 1], fromFile)
      ensures Ends(windows) == Reported(turns[..|beats|])
    {
      var failures, i, goesOn := 0, 0, true;
      while i < |turns| && goesOn
        invariant i == |beats| && After(turns, failures, goesOn)
      {
        failures, goesOn := NextTurn(turns, i, failures);
        i := i + 1;
      }
    }
  }
}
