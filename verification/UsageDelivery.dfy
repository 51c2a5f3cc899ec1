/** Delivery of usage reports, and the drain of a replica that still owes some.

    Any number of gateway replicas report to one event store over a network that
    may lose a request, lose an answer, answer late, or refuse. A copy put on
    the wire may be ingested at any later time, even after the report gave up.
 */
module UsageDelivery {
  import opened Wrappers

  type ReplicaId = nat
  type ConnId = nat
  type EventId = nat
  type Endpoint = nat
  type Body = string
  type Stamp = nat   // what the backend adds when it ingests: the usage source, the capture rules

  const RETRIES: nat := 3  // the number of retry delays

  datatype Ending = Answered(status: nat) | DroppedAfterRetries

  /** One delivery goroutine. */
  datatype Phase =
    | Ready                  // the next attempt is due
    | Waiting                // a copy is on the wire, its answer not read yet
    | Settled(ending: Ending)

  datatype Report = Report(home: ReplicaId, endpoint: Endpoint, id: EventId, body: Body, sends: nat, phase: Phase)

  /** A row of the event table: at most one per (endpoint, id). */
  datatype Row = Row(endpoint: Endpoint, id: EventId, body: Body, stamp: Stamp)

  datatype Copy = Copy(report: nat, attempt: nat)

  datatype Ingested = Created | Duplicate | Conflict

  datatype Drain =
    | Serving
    | Draining                    // /ready fails, requests are still served
    | ShuttingDown                // the listener is closed
    | Flushing(clean: bool)
    | Stopped(clean: bool)

  /** One gateway process. `conns` says of each open connection whether a
      handler is running on it. */
  datatype Replica = Replica(drain: Drain, conns: map<ConnId, bool>, pending: int)

  datatype State = State(
    reports: seq<Report>,
    wire: set<Copy>,
    ingested: map<Copy, Ingested>,
    rows: seq<Row>,
    replicas: map<ReplicaId, Replica>)

  datatype Step =
    | Connect(g: ReplicaId, c: ConnId)
    | BeginRequest(g: ReplicaId, c: ConnId)
    | ReportUsage(g: ReplicaId, c: ConnId, endpoint: Endpoint, id: EventId, body: Body)
    | EndRequest(g: ReplicaId, c: ConnId)
    | CloseConn(g: ReplicaId, c: ConnId)
    | Send(i: nat)
    | Ingest(copy: Copy, stamp: Stamp)
    | ForeignPost(row: Row)
    | Answer(i: nat, status: Option<nat>)     // None: no response
    | SetDraining(g: ReplicaId)
    | CloseListener(g: ReplicaId)
    | ShutdownDone(g: ReplicaId)
    | ShutdownTimeout(g: ReplicaId)
    | FlushDone(g: ReplicaId)
    | FlushTimeout(g: ReplicaId)

  predicate HasKey(row: Row, endpoint: Endpoint, id: EventId) {
    row.endpoint == endpoint && row.id == id
  }

  predicate Stored(rows: seq<Row>, endpoint: Endpoint, id: EventId) {
    exists k :: 0 <= k < |rows| && HasKey(rows[k], endpoint, id)
  }

  /** sendUsageReport: whether an attempt that ended like this is worth another. */
  predicate Retryable(status: Option<nat>) {
    status.None? || status.value >= 500 || status.value == 429
  }

  /** An answer no retry can fix: any status but 429 and those from 500 on. */
  predicate Final(status: Option<nat>) {
    status.Some? && status.value != 429 && status.value < 500
  }

  predicate Listening(d: Drain) { d.Serving? || d.Draining? }

  predicate Enabled(s: State, step: Step) {
    match step
    case Connect(g, c) => g in s.replicas && Listening(s.replicas[g].drain) && c !in s.replicas[g].conns
    case BeginRequest(g, c) => g in s.replicas && c in s.replicas[g].conns && !s.replicas[g].conns[c]
    case ReportUsage(g, c, endpoint, id, body) =>
      && g in s.replicas && c in s.replicas[g].conns && s.replicas[g].conns[c]
      // The ID is random: nobody has used it.
      && (forall i :: 0 <= i < |s.reports| ==> s.reports[i].id != id)
      && (forall k :: 0 <= k < |s.rows| ==> s.rows[k].id != id)
    case EndRequest(g, c) => g in s.replicas && c in s.replicas[g].conns && s.replicas[g].conns[c]
    case CloseConn(g, c) => g in s.replicas && c in s.replicas[g].conns && !s.replicas[g].conns[c]
    case Send(i) => i < |s.reports| && s.reports[i].phase.Ready?
    case Ingest(copy, stamp) => copy in s.wire && copy.report < |s.reports|
    case ForeignPost(row) =>
      // An agent can post events too, but never guesses a gateway's ID.
      && (forall i :: 0 <= i < |s.reports| ==> s.reports[i].id != row.id)
      && !Stored(s.rows, row.endpoint, row.id)
    case Answer(i, status) =>
      && i < |s.reports| && s.reports[i].phase.Waiting?
      // Only the events endpoint answers below 300, and only for what it took.
      && (status.Some? && status.value < 300 ==>
            var copy := Copy(i, s.reports[i].sends);
            copy in s.ingested && !s.ingested[copy].Conflict?)
    case SetDraining(g) => g in s.replicas && s.replicas[g].drain.Serving?
    case CloseListener(g) => g in s.replicas && s.replicas[g].drain.Draining?
    case ShutdownDone(g) => g in s.replicas && s.replicas[g].drain.ShuttingDown? && s.replicas[g].conns == map[]
    case ShutdownTimeout(g) => g in s.replicas && s.replicas[g].drain.ShuttingDown?
    case FlushDone(g) => g in s.replicas && s.replicas[g].drain.Flushing? && s.replicas[g].pending <= 0
    case FlushTimeout(g) => g in s.replicas && s.replicas[g].drain.Flushing?
  }

  /** The row a key is already stored under, or |rows|. */
  function FindRow(rows: seq<Row>, endpoint: Endpoint, id: EventId): (k: nat)
    ensures k <= |rows|
    ensures k < |rows| ==> HasKey(rows[k], endpoint, id)
    ensures k < |rows| <==> Stored(rows, endpoint, id)
  {
    if rows == [] then 0
    else if HasKey(rows[0], endpoint, id) then 0
    else
      var k := FindRow(rows[1..], endpoint, id);
      assert forall j :: 1 <= j < |rows| ==> rows[j] == rows[1..][j - 1];
      assert k < |rows[1..]| ==> HasKey(rows[k + 1], endpoint, id);
      k + 1
  }

  /** get_or_create under the unique constraint, then the comparison that tells
      a repeated delivery from a reused ID. */
  function IngestRow(rows: seq<Row>, row: Row): (seq<Row>, Ingested) {
    var k := FindRow(rows, row.endpoint, row.id);
    if k == |rows| then (rows + [row], Created)
    else if rows[k] == row then (rows, Duplicate)
    else (rows, Conflict)
  }

  function AfterAnswer(r: Report, status: Option<nat>): Report {
    if !Retryable(status) then r.(phase := Settled(Answered(status.value)))
    else if r.sends > RETRIES then r.(phase := Settled(DroppedAfterRetries))
    else r.(phase := Ready)
  }

  function SetReplica(s: State, g: ReplicaId, r: Replica): State {
    s.(replicas := s.replicas[g := r])
  }

  function Apply(s: State, step: Step): State
    requires Enabled(s, step)
  {
    match step
    case Connect(g, c) =>
      SetReplica(s, g, s.replicas[g].(conns := s.replicas[g].conns[c := false]))
    case BeginRequest(g, c) =>
      SetReplica(s, g, s.replicas[g].(conns := s.replicas[g].conns[c := true]))
    case ReportUsage(g, c, endpoint, id, body) =>
      SetReplica(s, g, s.replicas[g].(pending := s.replicas[g].pending + 1))
        .(reports := s.reports + [Report(g, endpoint, id, body, 0, Ready)])
    case EndRequest(g, c) =>
      SetReplica(s, g, s.replicas[g].(conns := s.replicas[g].conns[c := false]))
    case CloseConn(g, c) =>
      SetReplica(s, g, s.replicas[g].(conns := s.replicas[g].conns - {c}))
    case Send(i) =>
      var r := s.reports[i].(sends := s.reports[i].sends + 1, phase := Waiting);
      s.(reports := s.reports[i := r], wire := s.wire + {Copy(i, r.sends)})
    case Ingest(copy, stamp) =>
      var r := s.reports[copy.report];
      var (rows, how) := IngestRow(s.rows, Row(r.endpoint, r.id, r.body, stamp));
      s.(rows := rows, wire := s.wire - {copy}, ingested := s.ingested[copy := how])
    case ForeignPost(row) => s.(rows := s.rows + [row])
    case Answer(i, status) =>
      var r := AfterAnswer(s.reports[i], status);
      var t := s.(reports := s.reports[i := r]);
      if r.phase.Settled? && r.home in s.replicas
      then SetReplica(t, r.home, s.replicas[r.home].(pending := s.replicas[r.home].pending - 1))
      else t
    case SetDraining(g) => SetReplica(s, g, s.replicas[g].(drain := Draining))
    case CloseListener(g) => SetReplica(s, g, s.replicas[g].(drain := ShuttingDown))
    case ShutdownDone(g) => SetReplica(s, g, s.replicas[g].(drain := Flushing(true)))
    case ShutdownTimeout(g) => SetReplica(s, g, s.replicas[g].(drain := Flushing(false)))
    case FlushDone(g) => SetReplica(s, g, s.replicas[g].(drain := Stopped(s.replicas[g].drain.clean)))
    case FlushTimeout(g) => SetReplica(s, g, s.replicas[g].(drain := Stopped(false)))
  }

  ghost predicate Run(s: State, steps: seq<Step>)
    decreases |steps|
  {
    steps == [] || (Enabled(s, steps[0]) && Run(Apply(s, steps[0]), steps[1..]))
  }

  ghost function End(s: State, steps: seq<Step>): State
    requires Run(s, steps)
    decreases |steps|
  {
    if steps == [] then s else End(Apply(s, steps[0]), steps[1..])
  }

  ghost predicate DistinctKeys(rows: seq<Row>) {
    forall k, l :: 0 <= k < l < |rows| ==> !(rows[k].endpoint == rows[l].endpoint && rows[k].id == rows[l].id)
  }

  ghost predicate Init(s: State) {
    && s.reports == [] && s.wire == {} && s.ingested == map[]
    && DistinctKeys(s.rows)
    && forall g :: g in s.replicas ==> s.replicas[g] == Replica(Serving, map[], 0)
  }

  // ---- What every step keeps about deliveries ----

  ghost predicate PhaseInv(r: Report) {
    match r.phase
    case Ready => r.sends <= RETRIES
    case Waiting => 1 <= r.sends <= RETRIES + 1
    case Settled(Answered(n)) => 1 <= r.sends <= RETRIES + 1 && !Retryable(Some(n))
    case Settled(DroppedAfterRetries) => r.sends == RETRIES + 1
  }

  ghost predicate SentCopy(s: State, copy: Copy) {
    copy.report < |s.reports| && 1 <= copy.attempt <= s.reports[copy.report].sends
  }

  /** A row with a report's ID is that report's event. */
  ghost predicate RowsMatch(rows: seq<Row>, reports: seq<Report>) {
    forall i, k :: 0 <= i < |reports| && 0 <= k < |rows| && rows[k].id == reports[i].id ==>
      rows[k].endpoint == reports[i].endpoint && rows[k].body == reports[i].body
  }

  ghost predicate DeliveryInv(s: State) {
    && DistinctKeys(s.rows)
    && (forall i, j :: 0 <= i < j < |s.reports| ==> s.reports[i].id != s.reports[j].id)
    && (forall i :: 0 <= i < |s.reports| ==> PhaseInv(s.reports[i]))
    && (forall copy :: copy in s.wire || copy in s.ingested ==> SentCopy(s, copy))
    && RowsMatch(s.rows, s.reports)
    && (forall copy :: copy in s.ingested ==>
          Stored(s.rows, s.reports[copy.report].endpoint, s.reports[copy.report].id))
    && (forall i :: 0 <= i < |s.reports| && EndedBelow300(s.reports[i]) ==> Copy(i, s.reports[i].sends) in s.ingested)
  }

  predicate EndedBelow300(r: Report) {
    r.phase.Settled? && r.phase.ending.Answered? && r.phase.ending.status < 300
  }

  lemma DeliveryInvIsKept(s: State, step: Step)
    requires DeliveryInv(s) && Enabled(s, step)
    ensures DeliveryInv(Apply(s, step))
  {
    match step
    case ReportUsage(_, _, _, _, _) => ReportKeepsDelivery(s, step);
    case Send(_) => SendKeepsDelivery(s, step);
    case Ingest(_, _) => IngestKeepsDelivery(s, step);
    case ForeignPost(_) => ForeignPostKeepsDelivery(s, step);
    case Answer(_, _) => AnswerKeepsDelivery(s, step);
    case _ =>
  }

  lemma ReportKeepsDelivery(s: State, step: Step)
    requires step.ReportUsage? && DeliveryInv(s) && Enabled(s, step)
    ensures DeliveryInv(Apply(s, step))
  {
    var t := Apply(s, step);
    assert forall i :: 0 <= i < |s.reports| ==> t.reports[i] == s.reports[i];
  }

  lemma SendKeepsDelivery(s: State, step: Step)
    requires step.Send? && DeliveryInv(s) && Enabled(s, step)
    ensures DeliveryInv(Apply(s, step))
  {
    var t := Apply(s, step);
    assert forall copy :: SentCopy(s, copy) ==> SentCopy(t, copy);
  }

  lemma AnswerKeepsDelivery(s: State, step: Step)
    requires step.Answer? && DeliveryInv(s) && Enabled(s, step)
    ensures DeliveryInv(Apply(s, step))
  {
    var r := AfterAnswer(s.reports[step.i], step.status);
    assert PhaseInv(s.reports[step.i]) && PhaseInv(r);
    NewPhaseKeepsDelivery(s, s.(reports := s.reports[step.i := r]), step.i);
  }

  lemma NewPhaseKeepsDelivery(s: State, t: State, i: nat)
    requires DeliveryInv(s) && i < |s.reports| == |t.reports|
    requires t == s.(reports := s.reports[i := s.reports[i].(phase := t.reports[i].phase)])
    requires PhaseInv(t.reports[i])
    requires EndedBelow300(t.reports[i]) ==> Copy(i, t.reports[i].sends) in t.ingested
    ensures DeliveryInv(t)
  {
    assert forall copy :: SentCopy(s, copy) ==> SentCopy(t, copy);
  }

  lemma ForeignPostKeepsDelivery(s: State, step: Step)
    requires step.ForeignPost? && DeliveryInv(s) && Enabled(s, step)
    ensures DeliveryInv(Apply(s, step))
  {
    var t := Apply(s, step);
    StoredStays(s.rows, t.rows);
    forall k | 0 <= k < |s.rows| ensures !HasKey(s.rows[k], step.row.endpoint, step.row.id) {}
  }

  lemma IngestRowFacts(rows: seq<Row>, row: Row)
    requires DistinctKeys(rows)
    ensures var (after, how) := IngestRow(rows, row);
            && DistinctKeys(after) && rows <= after && Stored(after, row.endpoint, row.id)
            && (forall k :: |rows| <= k < |after| ==> after[k] == row)
  {
    var k := FindRow(rows, row.endpoint, row.id);
    if k == |rows| {
      forall j | 0 <= j < |rows| ensures !HasKey(rows[j], row.endpoint, row.id) {}
      assert HasKey((rows + [row])[k], row.endpoint, row.id);
    }
  }

  lemma IngestKeepsDelivery(s: State, step: Step)
    requires step.Ingest? && DeliveryInv(s) && Enabled(s, step)
    ensures DeliveryInv(Apply(s, step))
  {
    var r := s.reports[step.copy.report];
    var row := Row(r.endpoint, r.id, r.body, step.stamp);
    IngestRowFacts(s.rows, row);
    IngestedStayStored(s, IngestRow(s.rows, row).0, step.copy);
    OwnRowsMatch(s.rows, IngestRow(s.rows, row).0, s.reports, step.copy.report, row);
  }

  lemma IngestedStayStored(s: State, more: seq<Row>, copy: Copy)
    requires DeliveryInv(s) && s.rows <= more && SentCopy(s, copy)
    requires Stored(more, s.reports[copy.report].endpoint, s.reports[copy.report].id)
    ensures forall other :: other in s.ingested || other == copy ==>
              Stored(more, s.reports[other.report].endpoint, s.reports[other.report].id)
  {
    StoredStays(s.rows, more);
  }

  lemma OwnRowsMatch(rows: seq<Row>, more: seq<Row>, reports: seq<Report>, i: nat, row: Row)
    requires RowsMatch(rows, reports) && rows <= more && forall k :: |rows| <= k < |more| ==> more[k] == row
    requires forall a, b :: 0 <= a < b < |reports| ==> reports[a].id != reports[b].id
    requires i < |reports| && row.id == reports[i].id
    requires row.endpoint == reports[i].endpoint && row.body == reports[i].body
    ensures RowsMatch(more, reports)
  {
    forall j, k | 0 <= j < |reports| && 0 <= k < |more| && more[k].id == reports[j].id
      ensures more[k].endpoint == reports[j].endpoint && more[k].body == reports[j].body
    {
      if k < |rows| { assert more[k] == rows[k]; }
    }
  }

  lemma StoredStays(rows: seq<Row>, more: seq<Row>)
    requires rows <= more
    ensures forall e, id :: Stored(rows, e, id) ==> Stored(more, e, id)
  {
    forall e, id | Stored(rows, e, id) ensures Stored(more, e, id) {
      var k :| 0 <= k < |rows| && HasKey(rows[k], e, id);
      assert HasKey(more[k], e, id);
    }
  }

  lemma {:induction false} DeliveryInvThroughout(s: State, steps: seq<Step>)
    requires DeliveryInv(s) && Run(s, steps)
    ensures DeliveryInv(End(s, steps))
    decreases |steps|
  {
    if steps != [] {
      DeliveryInvIsKept(s, steps[0]);
      DeliveryInvThroughout(Apply(s, steps[0]), steps[1..]);
    }
  }

  // ---- Metering is exact ----

  predicate IsEventOf(rows: seq<Row>, k: int, r: Report) {
    0 <= k < |rows| && rows[k].id == r.id
  }

  /** `r` is stored once: exactly one row carries its ID, under its endpoint and
      with its own body. */
  ghost predicate StoredOnce(rows: seq<Row>, r: Report) {
    exists k :: IsEventOf(rows, k, r) && rows[k].endpoint == r.endpoint && rows[k].body == r.body
                && forall l :: IsEventOf(rows, l, r) ==> l == k
  }

  /** However the network behaves, the store holds at most one event per report,
      every event with a report's ID carries that report's body, and no report
      is sent more than four times. */
  lemma AtMostOneEventPerReport(s: State, steps: seq<Step>, i: nat, k: int, l: int)
    requires Init(s) && Run(s, steps) && i < |End(s, steps).reports|
    ensures var t := End(s, steps); t.reports[i].sends <= 4
    ensures var t := End(s, steps); var r := t.reports[i];
            IsEventOf(t.rows, k, r) ==> t.rows[k].endpoint == r.endpoint && t.rows[k].body == r.body
    ensures var t := End(s, steps); var r := t.reports[i];
            IsEventOf(t.rows, k, r) && IsEventOf(t.rows, l, r) ==> k == l
  {
    DeliveryInvThroughout(s, steps);
    var t := End(s, steps);
    assert PhaseInv(t.reports[i]);
  }

  /** Any copy that reached the events endpoint left the report stored exactly
      once, even when the endpoint called it a conflict. */
  lemma IngestedIsStoredOnce(s: State, steps: seq<Step>, copy: Copy)
    requires Init(s) && Run(s, steps) && copy in End(s, steps).ingested
    ensures var t := End(s, steps);
            copy.report < |t.reports| && StoredOnce(t.rows, t.reports[copy.report])
  {
    DeliveryInvThroughout(s, steps);
    var t := End(s, steps);
    assert SentCopy(t, copy);
    var r := t.reports[copy.report];
    var k := FindRow(t.rows, r.endpoint, r.id);
    assert IsEventOf(t.rows, k, r);
  }

  /** A report that ended on a status below 300 is stored exactly once. */
  lemma AcceptedIsStoredOnce(s: State, steps: seq<Step>, i: nat)
    requires Init(s) && Run(s, steps) && i < |End(s, steps).reports|
    requires EndedBelow300(End(s, steps).reports[i])
    ensures StoredOnce(End(s, steps).rows, End(s, steps).reports[i])
  {
    DeliveryInvThroughout(s, steps);
    IngestedIsStoredOnce(s, steps, Copy(i, End(s, steps).reports[i].sends));
  }

  /** A report is given up on only after four attempts that each failed for a
      reason a retry can fix, or at once on an answer no retry can fix. */
  lemma GivenUpOnlyWhenSpent(s: State, steps: seq<Step>, i: nat)
    requires Init(s) && Run(s, steps) && i < |End(s, steps).reports|
    ensures var r := End(s, steps).reports[i];
            r.phase.Settled? ==>
              match r.phase.ending
              case Answered(n) => n < 500 && n != 429 && 1 <= r.sends
              case DroppedAfterRetries => r.sends == 4
  {
    DeliveryInvThroughout(s, steps);
    assert PhaseInv(End(s, steps).reports[i]);
  }

  /** An answer settles a report exactly if no retry can fix it or it was the fourth. */
  lemma AnswerSettlesExactlyWhen(s: State, i: nat, status: Option<nat>)
    requires Enabled(s, Answer(i, status))
    ensures var after := Apply(s, Answer(i, status)).reports[i];
            && (after.phase.Settled? <==> Final(status) || s.reports[i].sends >= 4)
            && (Final(status) ==> after.phase == Settled(Answered(status.value)))
            && (!Final(status) && s.reports[i].sends >= 4 ==> after.phase == Settled(DroppedAfterRetries))
            && (!after.phase.Settled? ==> after.phase == Ready)
  {
  }

  /** A repeated delivery of an already stored report is answered as a
      duplicate exactly when the backend still stamps it as it did the first
      time; a gateway credential revoked in between turns it into a conflict. */
  lemma RepeatIsDuplicateExactlyWhenStampedAlike(s: State, steps: seq<Step>, copy: Copy, stamp: Stamp)
    requires Init(s) && Run(s, steps) && Enabled(End(s, steps), Ingest(copy, stamp))
    requires var t := End(s, steps); Stored(t.rows, t.reports[copy.report].endpoint, t.reports[copy.report].id)
    ensures var t := End(s, steps); var r := t.reports[copy.report];
            var first := t.rows[FindRow(t.rows, r.endpoint, r.id)];
            var after := Apply(t, Ingest(copy, stamp));
            && after.rows == t.rows
            && (after.ingested[copy] == Duplicate <==> first.stamp == stamp)
            && (after.ingested[copy] == Conflict <==> first.stamp != stamp)
  {
    DeliveryInvThroughout(s, steps);
    var t := End(s, steps);
    var r := t.reports[copy.report];
    var k := FindRow(t.rows, r.endpoint, r.id);
    assert t.rows[k].id == r.id;
  }

  // ---- Draining a replica ----

  function Started(reports: seq<Report>, g: ReplicaId): nat {
    if reports == [] then 0
    else Started(reports[..|reports| - 1], g) + (if reports[|reports| - 1].home == g then 1 else 0)
  }

  function SettledCount(reports: seq<Report>, g: ReplicaId): nat {
    if reports == [] then 0
    else
      var last := reports[|reports| - 1];
      SettledCount(reports[..|reports| - 1], g) + (if last.home == g && last.phase.Settled? then 1 else 0)
  }

  lemma {:induction false} CountsAfterUpdate(reports: seq<Report>, i: nat, r: Report, g: ReplicaId)
    requires i < |reports| && r.home == reports[i].home && !reports[i].phase.Settled?
    ensures Started(reports[i := r], g) == Started(reports, g)
    ensures SettledCount(reports[i := r], g) ==
            SettledCount(reports, g) + if r.home == g && r.phase.Settled? then 1 else 0
  {
    var n := |reports| - 1;
    if i < n {
      assert reports[i := r][..n] == reports[..n][i := r];
      CountsAfterUpdate(reports[..n], i, r, g);
    } else {
      assert reports[i := r][..n] == reports[..n];
    }
  }

  lemma {:induction false} AllSettledWhenCountsAgree(reports: seq<Report>, g: ReplicaId)
    ensures SettledCount(reports, g) <= Started(reports, g)
    ensures SettledCount(reports, g) == Started(reports, g) <==>
            forall i :: 0 <= i < |reports| && reports[i].home == g ==> reports[i].phase.Settled?
  {
    if reports != [] {
      var n := |reports| - 1;
      AllSettledWhenCountsAgree(reports[..n], g);
      assert forall i :: 0 <= i < n ==> reports[..n][i] == reports[i];
    }
  }

  predicate DrainedCleanly(r: Replica) {
    r.drain.Stopped? && r.drain.clean
  }

  ghost predicate ReplicaInv(reports: seq<Report>, g: ReplicaId, r: Replica) {
    && r.pending == Started(reports, g) - SettledCount(reports, g)
    && (r.drain == Flushing(true) || r.drain == Stopped(true) ==> r.conns == map[])
    && (DrainedCleanly(r) ==> r.pending == 0)
  }

  ghost predicate DrainInv(s: State) {
    && (forall g :: g in s.replicas ==> ReplicaInv(s.reports, g, s.replicas[g]))
    && (forall i :: 0 <= i < |s.reports| ==> s.reports[i].home in s.replicas)
  }

  lemma DrainInvIsKept(s: State, step: Step)
    requires DrainInv(s) && Enabled(s, step)
    ensures DrainInv(Apply(s, step))
  {
    match step
    case ReportUsage(_, _, _, _, _) => ReportKeepsDrain(s, step);
    case Send(_) => SendKeepsDrain(s, step);
    case Answer(_, _) => AnswerKeepsDrain(s, step);
    case Ingest(_, _) =>
    case ForeignPost(_) =>
    case _ => ReplicaStepKeepsDrain(s, step);
  }

  lemma ReplicaStepKeepsDrain(s: State, step: Step)
    requires DrainInv(s) && Enabled(s, step)
    requires !step.ReportUsage? && !step.Send? && !step.Answer? && !step.Ingest? && !step.ForeignPost?
    ensures DrainInv(Apply(s, step))
  {
    var t := Apply(s, step);
    assert ReplicaInv(s.reports, step.g, s.replicas[step.g]);
    AllSettledWhenCountsAgree(s.reports, step.g);
    assert ReplicaInv(t.reports, step.g, t.replicas[step.g]);
    assert t == SetReplica(s, step.g, t.replicas[step.g]);
  }

  lemma ReportKeepsDrain(s: State, step: Step)
    requires step.ReportUsage? && DrainInv(s) && Enabled(s, step)
    ensures DrainInv(Apply(s, step))
  {
    var t := Apply(s, step);
    assert t.reports[..|t.reports| - 1] == s.reports;
    forall h | h in t.replicas ensures ReplicaInv(t.reports, h, t.replicas[h]) {
      assert ReplicaInv(s.reports, h, s.replicas[h]);
    }
  }

  lemma SendKeepsDrain(s: State, step: Step)
    requires step.Send? && DrainInv(s) && Enabled(s, step)
    ensures DrainInv(Apply(s, step))
  {
    var t := Apply(s, step);
    forall h | h in t.replicas ensures ReplicaInv(t.reports, h, t.replicas[h]) {
      assert ReplicaInv(s.reports, h, s.replicas[h]);
      CountsAfterUpdate(s.reports, step.i, t.reports[step.i], h);
    }
  }

  lemma AnswerKeepsDrain(s: State, step: Step)
    requires step.Answer? && DrainInv(s) && Enabled(s, step)
    ensures DrainInv(Apply(s, step))
  {
    var t := Apply(s, step);
    var r := t.reports[step.i];
    forall h | h in t.replicas ensures ReplicaInv(t.reports, h, t.replicas[h]) {
      assert ReplicaInv(s.reports, h, s.replicas[h]);
      CountsAfterUpdate(s.reports, step.i, r, h);
      AllSettledWhenCountsAgree(s.reports, h);
      if DrainedCleanly(s.replicas[h]) {
        assert h != r.home;
      }
    }
  }

  lemma {:induction false} DrainInvThroughout(s: State, steps: seq<Step>)
    requires DrainInv(s) && Run(s, steps)
    ensures DrainInv(End(s, steps))
    decreases |steps|
  {
    if steps != [] {
      DrainInvIsKept(s, steps[0]);
      DrainInvThroughout(Apply(s, steps[0]), steps[1..]);
    }
  }

  /** In every run the pending counter is the reports started minus those settled. */
  lemma PendingCountsUnsettledReports(s: State, steps: seq<Step>, g: ReplicaId)
    requires Init(s) && Run(s, steps) && g in End(s, steps).replicas
    ensures var t := End(s, steps);
            t.replicas[g].pending == Started(t.reports, g) - SettledCount(t.reports, g) >= 0
  {
    DrainInvThroughout(s, steps);
    AllSettledWhenCountsAgree(End(s, steps).reports, g);
  }

  /** When drain returns clean, no request is in flight on the replica and every
      report it ever started has settled. */
  lemma CleanDrainFinishedEverything(s: State, steps: seq<Step>, g: ReplicaId)
    requires Init(s) && Run(s, steps)
    requires g in End(s, steps).replicas && DrainedCleanly(End(s, steps).replicas[g])
    ensures var t := End(s, steps);
            && t.replicas[g].conns == map[]
            && forall i :: 0 <= i < |t.reports| && t.reports[i].home == g ==> t.reports[i].phase.Settled?
  {
    DrainInvThroughout(s, steps);
    AllSettledWhenCountsAgree(End(s, steps).reports, g);
  }

  /** ... and no later step of anyone starts another: from then on the replica's
      reports are exactly the ones it had. */
  lemma {:induction false} CleanDrainIsFinal(s: State, steps: seq<Step>, g: ReplicaId)
    requires DrainInv(s) && Run(s, steps)
    requires g in s.replicas && DrainedCleanly(s.replicas[g])
    ensures var t := End(s, steps);
            && g in t.replicas && DrainedCleanly(t.replicas[g]) && t.replicas[g].conns == map[]
            && |s.reports| <= |t.reports|
            && forall i :: 0 <= i < |t.reports| && t.reports[i].home == g ==>
                             i < |s.reports| && t.reports[i] == s.reports[i] && t.reports[i].phase.Settled?
    decreases |steps|
  {
    AllSettledWhenCountsAgree(s.reports, g);
    assert ReplicaInv(s.reports, g, s.replicas[g]);
    if steps != [] {
      DrainInvIsKept(s, steps[0]);
      DrainedReplicaIsLeftAlone(s, steps[0], g);
      CleanDrainIsFinal(Apply(s, steps[0]), steps[1..], g);
    }
  }

  lemma DrainedReplicaIsLeftAlone(s: State, step: Step, g: ReplicaId)
    requires Enabled(s, step) && g in s.replicas && DrainedCleanly(s.replicas[g]) && s.replicas[g].conns == map[]
    requires forall i :: 0 <= i < |s.reports| && s.reports[i].home == g ==> s.reports[i].phase.Settled?
    ensures var t := Apply(s, step);
            && g in t.replicas && t.replicas[g] == s.replicas[g]
            && |s.reports| <= |t.reports|
            && forall i :: 0 <= i < |t.reports| && t.reports[i].home == g ==>
                             i < |s.reports| && t.reports[i] == s.reports[i]
  {
  }

  // ---- A repeat that conflicts ----

  lemma OneStep(s: State, run: seq<Step>, step: Step)
    requires Run(s, run) && Enabled(End(s, run), step)
    ensures Run(s, run + [step]) && End(s, run + [step]) == Apply(End(s, run), step)
  {
    RunsAppend(s, run, [step]);
  }

  lemma ReportIsSent(body: Body) returns (s: State, steps: seq<Step>)
    ensures Init(s) && Run(s, steps)
    ensures var t := End(s, steps);
            && t.reports == [Report(0, 0, 0, body, 1, Waiting)] && t.wire == {Copy(0, 1)}
            && t.ingested == map[] && t.rows == []
  {
    s := State([], {}, map[], [], map[0 := Replica(Serving, map[], 0)]);
    OneStep(s, [], Connect(0, 0));
    steps := [] + [Connect(0, 0)];
    OneStep(s, steps, BeginRequest(0, 0));
    steps := steps + [BeginRequest(0, 0)];
    OneStep(s, steps, ReportUsage(0, 0, 0, 0, body));
    steps := steps + [ReportUsage(0, 0, 0, 0, body)];
    OneStep(s, steps, Send(0));
    steps := steps + [Send(0)];
  }

  /** A report is sent and stored under one stamp, its answer is lost, and it is sent
      again: ingested under another stamp, the second copy is a conflict. */
  lemma LostAnswerThenOtherStampConflicts(body: Body, first: Stamp, second: Stamp)
    returns (s: State, steps: seq<Step>)
    requires first != second
    ensures Init(s) && Run(s, steps)
    ensures var t := End(s, steps); var copy := Copy(0, 2);
            && copy in t.wire && copy.report < |t.reports|
            && t.rows == [Row(0, 0, body, first)] && t.reports[0].body == body
            && Apply(t, Ingest(copy, second)).ingested[copy] == Conflict
  {
    s, steps := ReportIsSent(body);
    steps := FirstCopyIsStored(s, steps, body, first);
    OneStep(s, steps, Answer(0, None));
    steps := steps + [Answer(0, None)];
    OneStep(s, steps, Send(0));
    steps := steps + [Send(0)];
    assert Stored(End(s, steps).rows, 0, 0) by { assert HasKey(End(s, steps).rows[0], 0, 0); }
    RepeatIsDuplicateExactlyWhenStampedAlike(s, steps, Copy(0, 2), second);
  }

  lemma FirstCopyIsStored(s: State, run: seq<Step>, body: Body, stamp: Stamp) returns (steps: seq<Step>)
    requires Run(s, run)
    requires var t := End(s, run);
             && t.reports == [Report(0, 0, 0, body, 1, Waiting)] && t.wire == {Copy(0, 1)}
             && t.ingested == map[] && t.rows == []
    ensures Run(s, steps)
    ensures var t := End(s, steps);
            && t.reports == [Report(0, 0, 0, body, 1, Waiting)] && t.wire == {}
            && t.rows == [Row(0, 0, body, stamp)]
  {
    OneStep(s, run, Ingest(Copy(0, 1), stamp));
    steps := run + [Ingest(Copy(0, 1), stamp)];
  }

  // ---- The goroutine and the drain as one process runs them ----

  /** The Send and Answer steps of one report, taken with these answers. */
  function Attempts(r: Report, answers: seq<Option<nat>>): Report
    requires r.phase.Ready?
    decreases |answers|
  {
    if answers == [] then r
    else
      var after := AfterAnswer(r.(sends := r.sends + 1, phase := Waiting), answers[0]);
      if after.phase.Ready? then Attempts(after, answers[1..]) else after
  }

  // ---- A drain among everybody else's steps ----

  predicate IsDrainStep(step: Step, g: ReplicaId) {
    step in {SetDraining(g), CloseListener(g), ShutdownDone(g), ShutdownTimeout(g), FlushDone(g), FlushTimeout(g)}
  }

  /** Steps in which drain of this replica has no part. */
  predicate Outside(g: ReplicaId, steps: seq<Step>) {
    forall i :: 0 <= i < |steps| ==> !IsDrainStep(steps[i], g)
  }

  lemma OutsideKeepsDrainOnce(s: State, step: Step, g: ReplicaId)
    requires g in s.replicas && Enabled(s, step) && !IsDrainStep(step, g)
    ensures g in Apply(s, step).replicas && Apply(s, step).replicas[g].drain == s.replicas[g].drain
  {
  }

  lemma {:induction false} OutsideKeepsDrain(s: State, steps: seq<Step>, g: ReplicaId)
    requires g in s.replicas && Run(s, steps) && Outside(g, steps)
    ensures g in End(s, steps).replicas && End(s, steps).replicas[g].drain == s.replicas[g].drain
    decreases |steps|
  {
    if steps != [] {
      OutsideKeepsDrainOnce(s, steps[0], g);
      OutsideKeepsDrain(Apply(s, steps[0]), steps[1..], g);
    }
  }

  lemma {:induction false} RunsAppend(s: State, a: seq<Step>, b: seq<Step>)
    requires Run(s, a) && Run(End(s, a), b)
    ensures Run(s, a + b) && End(s, a + b) == End(End(s, a), b)
    decreases |a|
  {
    if a == [] {
      assert a + b == b;
    } else {
      assert (a + b)[1..] == a[1..] + b;
      RunsAppend(Apply(s, a[0]), a[1..], b);
    }
  }

  /** One step of drain, and what everybody else does after it. */
  lemma DrainStep(s: State, run: seq<Step>, step: Step, others: seq<Step>, g: ReplicaId)
    requires Run(s, run) && Enabled(End(s, run), step) && Run(Apply(End(s, run), step), others)
    requires g in Apply(End(s, run), step).replicas && Outside(g, others)
    ensures var longer := run + [step] + others;
            && Run(s, longer) && End(s, longer) == End(Apply(End(s, run), step), others)
            && g in End(s, longer).replicas
            && End(s, longer).replicas[g].drain == Apply(End(s, run), step).replicas[g].drain
  {
    RunsAppend(s, run, [step]);
    RunsAppend(s, run + [step], others);
    OutsideKeepsDrain(Apply(End(s, run), step), others, g);
  }

  /** A replica that is told to drain, and what everybody else does meanwhile: until
      the listener closes, until shutdown ends, and up to each poll of the counter. */
  datatype Surroundings = Surroundings(s: State, g: ReplicaId, serving: seq<Step>, finishing: seq<Step>,
                                       polls: seq<seq<Step>>)

  ghost predicate Fits(sur: Surroundings, finished: bool, samples: seq<int>) {
    var g := sur.g;
    && g in sur.s.replicas && sur.s.replicas[g].drain.Serving?
    && Outside(g, sur.serving) && Outside(g, sur.finishing)
    && Run(Apply(sur.s, SetDraining(g)), sur.serving)
    && var closing := End(Apply(sur.s, SetDraining(g)), sur.serving);
    && Enabled(closing, CloseListener(g)) && Run(Apply(closing, CloseListener(g)), sur.finishing)
    && var shut := End(Apply(closing, CloseListener(g)), sur.finishing);
    && g in shut.replicas && (finished ==> shut.replicas[g].conns == map[])
    && Enabled(shut, ShutdownStep(g, finished))
    && samples != [] && |sur.polls| == |samples|
    && forall j :: 0 <= j < |samples| ==> PollFits(Apply(shut, ShutdownStep(g, finished)), g, sur.polls[j], samples[j])
  }

  /** What is sampled is the pending counter as it stands by then. */
  ghost predicate PollFits(s: State, g: ReplicaId, others: seq<Step>, sample: int) {
    Outside(g, others) && Run(s, others) && g in End(s, others).replicas && End(s, others).replicas[g].pending == sample
  }

  function ShutdownStep(g: ReplicaId, finished: bool): Step {
    if finished then ShutdownDone(g) else ShutdownTimeout(g)
  }

  function FlushStep(g: ReplicaId, flushed: bool): Step {
    if flushed then FlushDone(g) else FlushTimeout(g)
  }

  lemma DrainRun(sur: Surroundings, finished: bool, samples: seq<int>, flushed: bool, last: nat)
    returns (run: seq<Step>)
    requires Fits(sur, finished, samples) && last < |samples| && (flushed <==> samples[last] <= 0)
    ensures Run(sur.s, run) && sur.g in End(sur.s, run).replicas
    ensures End(sur.s, run).replicas[sur.g].drain == Stopped(finished && flushed)
  {
    var g := sur.g;
    run := [] + [SetDraining(g)] + sur.serving;
    DrainStep(sur.s, [], SetDraining(g), sur.serving, g);
    DrainStep(sur.s, run, CloseListener(g), sur.finishing, g);
    run := run + [CloseListener(g)] + sur.finishing;
    assert PollFits(Apply(End(sur.s, run), ShutdownStep(g, finished)), g, sur.polls[last], samples[last]);
    DrainStep(sur.s, run, ShutdownStep(g, finished), sur.polls[last], g);
    run := run + [ShutdownStep(g, finished)] + sur.polls[last];
    DrainStep(sur.s, run, FlushStep(g, flushed), [], g);
    run := run + [FlushStep(g, flushed)] + [];
  }

  class GatewayProcess {
    var draining: bool
    var listening: bool
    var pending: int

    constructor ()
      ensures !draining && listening && pending == 0
    {
      draining, listening, pending := false, true, 0;
    }

    /** The delivery goroutine of ReportUsage, given what each attempt comes
        back with. It stops at the first answer no retry can fix, or at the
        fourth attempt, and gives its pending count back either way. */
    method Deliver(r: Report, answers: seq<Option<nat>>) returns (sends: nat, ending: Ending)
      requires r.phase.Ready? && r.sends == 0 && |answers| > RETRIES
      modifies this`pending
      ensures pending == old(pending)
      ensures 1 <= sends <= RETRIES + 1
      ensures forall j :: 0 <= j < sends - 1 ==> !Final(answers[j])
      ensures !Final(answers[sends - 1]) ==> sends == 4 && ending == DroppedAfterRetries
      ensures Final(answers[sends - 1]) ==> ending == Answered(answers[sends - 1].value)
      ensures Attempts(r, answers) == r.(sends := sends, phase := Settled(ending))
    {
      pending := pending + 1;
      var attempt := 0;
      while Retryable(answers[attempt]) && attempt < RETRIES
        invariant 0 <= attempt <= RETRIES
        invariant forall j :: 0 <= j < attempt ==> Retryable(answers[j])
        invariant Attempts(r, answers) == Attempts(r.(sends := attempt), answers[attempt..])
      {
        attempt := attempt + 1;
        assert answers[attempt - 1..][1..] == answers[attempt..];
      }
      sends := attempt + 1;
      ending := if Retryable(answers[attempt]) then DroppedAfterRetries else Answered(answers[attempt].value);
      pending := pending - 1;
    }

    /** drainUsageReports: `samples` are the counter's values at the polls that
        fit before the context ends, the first of them taken at once. */
    method DrainUsageReports(samples: seq<int>) returns (clean: bool, last: nat)
      requires samples != []
      ensures last < |samples| && forall j :: 0 <= j < last ==> samples[j] > 0
      ensures if clean then samples[last] <= 0 else last == |samples| - 1 && samples[last] > 0
    {
      last := 0;
      while samples[last] > 0
        invariant 0 <= last < |samples|
        invariant forall j :: 0 <= j < last ==> samples[j] > 0
        decreases |samples| - last
      {
        if last == |samples| - 1 { return false, last; }
        last := last + 1;
      }
      clean := true;
    }

    /** drain: fail readiness, close the listener, wait, flush. `surroundings` are
        the runs that everybody else's steps make of it, and Drain takes one of them
        to the end: its answer is the one the protocol's drain stops with. */
    method Drain(requestsFinished: bool, samples: seq<int>, ghost sur: Surroundings)
      returns (clean: bool, ghost run: seq<Step>)
      requires Fits(sur, requestsFinished, samples)
      modifies this`draining, this`listening
      ensures draining && !listening
      ensures clean <==> requestsFinished && exists j :: 0 <= j < |samples| && samples[j] <= 0
      ensures Run(sur.s, run) && sur.g in End(sur.s, run).replicas
      ensures End(sur.s, run).replicas[sur.g].drain == Stopped(clean)
    {
      draining := true;
      listening := false;
      clean := requestsFinished;
      var flushed, last := DrainUsageReports(samples);
      if !flushed { clean := false; }
      run := DrainRun(sur, requestsFinished, samples, flushed, last);
    }
  }
}
