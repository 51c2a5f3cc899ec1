/** Acceptance of Astrolift audit deliveries.

    Each delivery claims a marker in one database, commits its evidence (and, for
    model spend, the spend record) in another, and releases the marker when that
    fails. Deliveries and retries of the same event interleave freely.
 */
module AuditWebhook {
  import opened Wrappers

  type Tenant = nat
  type Key = string
  type DeliveryId = nat

  // ---- The idempotency key ----

  function Digit(d: nat): char
    requires d < 10
  {
    "0123456789"[d]
  }

  function Decimal(n: nat): string {
    if n < 10 then [Digit(n)] else Decimal(n / 10) + [Digit(n % 10)]
  }

  /** org_id as Python sees it: `true` is an int too, and prints as "True". */
  datatype OrgId = Number(n: nat) | JsonTrue

  function OrgText(org: OrgId): string {
    match org
    case Number(n) => Decimal(n)
    case JsonTrue => "True"
  }

  /** The organisation the integration is looked up by. */
  function OrgNumber(org: OrgId): nat {
    match org
    case Number(n) => n
    case JsonTrue => 1
  }

  function KeyFor(org: OrgId, eventId: string): Key {
    "zentinelle-" + (OrgText(org) + ("-" + eventId))
  }

  lemma {:induction false} DecimalInjective(m: nat, n: nat)
    requires Decimal(m) == Decimal(n)
    ensures m == n
    decreases m
  {
    var s := Decimal(m);
    assert s[|s| - 1] == Digit(m % 10) && s[|s| - 1] == Digit(n % 10);
    if m >= 10 && n >= 10 {
      assert Decimal(m / 10) == s[..|s| - 1] == Decimal(n / 10);
      DecimalInjective(m / 10, n / 10);
    } else if m >= 10 {
      DecimalNonEmpty(m / 10);
    } else if n >= 10 {
      DecimalNonEmpty(n / 10);
    }
  }

  lemma {:induction false} DecimalNonEmpty(n: nat)
    ensures Decimal(n) != [] && forall i :: 0 <= i < |Decimal(n)| ==> Decimal(n)[i] != '-' && Decimal(n)[i] != 'T'
  {
    if n >= 10 { DecimalNonEmpty(n / 10); }
  }

  /** The number a text of digits stands for. */
  function ValueOf(digits: string): int {
    if digits == "" then 0 else 10 * ValueOf(digits[..|digits| - 1]) + (digits[|digits| - 1] as int - '0' as int)
  }

  lemma {:induction false} DecimalIsTheNumber(n: nat)
    ensures ValueOf(Decimal(n)) == n && (n > 0 ==> Decimal(n)[0] != '0')
  {
    var s := Decimal(n);
    assert s[..|s| - 1] == if n < 10 then "" else Decimal(n / 10);
    if n >= 10 { DecimalIsTheNumber(n / 10); }
  }

  lemma OrgTextHasNoDash(org: OrgId)
    ensures OrgText(org) != [] && forall i :: 0 <= i < |OrgText(org)| ==> OrgText(org)[i] != '-'
  {
    if org.Number? { DecimalNonEmpty(org.n); }
  }

  /** Cutting at the first dash gives the two halves back. */
  lemma CutAtDash(a: string, x: string, b: string, y: string)
    requires a + ("-" + x) == b + ("-" + y)
    requires forall i :: 0 <= i < |a| ==> a[i] != '-'
    requires forall i :: 0 <= i < |b| ==> b[i] != '-'
    ensures a == b && x == y
  {
    var whole := a + ("-" + x);
    assert whole[|a|] == '-' && whole[|b|] == '-';
    assert |a| == |b|;
    assert a == whole[..|a|] && b == whole[..|b|];
    assert x == whole[|a| + 1..] && y == whole[|b| + 1..];
  }

  /** Two deliveries share a key only when they name the same organisation, in
      the same form, and the same event. */
  lemma KeyInjective(o: OrgId, e: string, p: OrgId, f: string)
    requires KeyFor(o, e) == KeyFor(p, f)
    ensures o == p && e == f
  {
    assert KeyFor(o, e)[11..] == OrgText(o) + ("-" + e);
    assert KeyFor(p, f)[11..] == OrgText(p) + ("-" + f);
    OrgTextHasNoDash(o);
    OrgTextHasNoDash(p);
    CutAtDash(OrgText(o), e, OrgText(p), f);
    OrgTextInjective(o, p);
  }

  lemma OrgTextInjective(o: OrgId, p: OrgId)
    requires OrgText(o) == OrgText(p)
    ensures o == p
  {
    if o.Number? { DecimalNonEmpty(o.n); }
    if p.Number? { DecimalNonEmpty(p.n); }
    assert "True"[0] == 'T';
    if o.Number? && p.Number? { DecimalInjective(o.n, p.n); }
  }

  /** Over plain numbers one organisation and event have one key, but the JSON
      literal `true` reaches organisation 1 under a second key. */
  lemma OneKeyPerOrganisationExactlyForNumbers(o: OrgId, p: OrgId, e: string)
    requires OrgNumber(o) == OrgNumber(p)
    ensures KeyFor(o, e) == KeyFor(p, e) <==> (o.JsonTrue? <==> p.JsonTrue?)
  {
    if KeyFor(o, e) == KeyFor(p, e) { KeyInjective(o, e, p, e); }
  }

  // ---- Model spend payloads ----

  datatype Field = Absent | Int(n: int) | Bool(b: bool) | Text(s: string) | OtherJson

  datatype SpendPayload = SpendPayload(input: Field, output: Field, provider: Field, modelId: Field, model: Field)

  datatype Spend = Spend(input: nat, output: nat, provider: string, model: string)

  const TOKEN_LIMIT: nat := 10_000_000_000

  function IntOr0(f: Field): Option<int> {
    match f
    case Absent => Some(0)
    case Int(n) => Some(n)
    case _ => None
  }

  function TextOrEmpty(f: Field): Option<string> {
    match f
    case Absent => Some("")
    case Text(s) => Some(s)
    case _ => None
  }

  /** _model_spend_fields; None where it raises ValueError. */
  function ModelSpendFields(p: SpendPayload): Option<Spend> {
    var input, output := IntOr0(p.input), IntOr0(p.output);
    var provider := TextOrEmpty(p.provider);
    var model := TextOrEmpty(if p.modelId.Absent? then p.model else p.modelId);
    if input.None? || output.None? || input.value < 0 || output.value < 0
       || input.value > TOKEN_LIMIT || output.value > TOKEN_LIMIT || provider.None? || model.None?
    then None
    else Some(Spend(input.value, output.value, provider.value, model.value))
  }

  /** The spend record keeps 50 characters of the provider and 100 of the model. */
  function Shortened(spend: Spend): Spend {
    spend.(provider := FirstOf(spend.provider, 50), model := FirstOf(spend.model, 100))
  }

  function FirstOf(s: string, n: nat): string {
    if |s| <= n then s else s[..n]
  }

  // ---- What a payload declares ----

  /** A count that may be charged: none where the field is absent, else a whole number
      that is not negative and not above ten thousand million. */
  predicate CountIs(f: Field, n: nat) {
    (f.Absent? && n == 0) || (f == Int(n) && n <= 10_000_000_000)
  }

  predicate TextIs(f: Field, s: string) {
    (f.Absent? && s == "") || f == Text(s)
  }

  /** The first `n` characters, or all of fewer. */
  predicate Begins(start: string, whole: string, n: nat) {
    start <= whole && |start| == if |whole| < n then |whole| else n
  }

  ghost predicate StartOf(f: Field, n: nat, start: string) {
    exists whole :: TextIs(f, whole) && Begins(start, whole, n)
  }

  /** This spend is what the payload's own fields say: the model under model_id, or
      where that is absent under model. */
  ghost predicate Declares(p: SpendPayload, spend: Spend) {
    && CountIs(p.input, spend.input) && CountIs(p.output, spend.output)
    && StartOf(p.provider, 50, spend.provider)
    && StartOf(if p.modelId.Absent? then p.model else p.modelId, 100, spend.model)
  }

  lemma TextIsRead(f: Field, n: nat)
    ensures forall start :: StartOf(f, n, start)
                            <==> TextOrEmpty(f).Some? && start == FirstOf(TextOrEmpty(f).value, n)
  {
    forall start ensures StartOf(f, n, start) <==> TextOrEmpty(f).Some? && start == FirstOf(TextOrEmpty(f).value, n) {
      if TextOrEmpty(f).Some? {
        var whole := TextOrEmpty(f).value;
        assert TextIs(f, whole);
        if Begins(start, whole, n) { assert start == whole[..|start|]; }
      }
    }
  }

  /** What is charged is what is declared; a payload that declares nothing (a boolean,
      negative or oversized count, a name that is no text) is not read. */
  lemma DeclaredIsRead(p: SpendPayload)
    ensures forall spend :: Declares(p, spend)
                            <==> ModelSpendFields(p).Some? && spend == Shortened(ModelSpendFields(p).value)
    ensures ModelSpendFields(p).Some? <==> exists spend :: Declares(p, spend)
  {
    TextIsRead(p.provider, 50);
    TextIsRead(if p.modelId.Absent? then p.model else p.modelId, 100);
    if ModelSpendFields(p).Some? { assert Declares(p, Shortened(ModelSpendFields(p).value)); }
  }

  // ---- The protocol ----

  datatype Kind = SessionEvent | ModelSpend(payload: SpendPayload, timeReadable: bool) | OtherEvent

  datatype Envelope = Envelope(org: OrgId, eventId: string, key: Key, kind: Kind)

  /** What gets as far as claiming a marker: the key is the expected one, and a
      spend payload can be read. */
  predicate Acceptable(e: Envelope) {
    && e.key == KeyFor(e.org, e.eventId)
    && (e.kind.ModelSpend? ==> ModelSpendFields(e.kind.payload).Some? && e.kind.timeReadable)
  }

  datatype Response = Rejected | AlreadyAccepted | ServerError | Accepted

  datatype Phase =
    | Received
    | Claimed           // holds the marker, evidence not written
    | Written           // evidence committed; a session event still has to be observed
    | Failed            // evidence or observation failed; the marker is to be released
    | Recorded          // everything is written; the bookkeeping is left
    | Done(response: Response)

  datatype Delivery = Delivery(env: Envelope, phase: Phase)

  datatype Row = Row(env: Envelope, tenant: Tenant)

  /** `tenantOf` says which tenant's integration each organisation has. */
  datatype State = State(
    tenantOf: map<nat, Tenant>,
    markers: set<Key>,
    rows: seq<Row>,
    spend: seq<(Key, Spend)>,
    deliveries: map<DeliveryId, Delivery>)

  datatype Step =
    | Arrive(d: DeliveryId, env: Envelope)
    | Reject(d: DeliveryId)
    | Claim(d: DeliveryId)
    | Write(d: DeliveryId)
    | WriteFails(d: DeliveryId)
    | Observe(d: DeliveryId)
    | ObserveFails(d: DeliveryId)
    | Release(d: DeliveryId)
    | Finish(d: DeliveryId)
    | FinishFails(d: DeliveryId)
    | Crash(d: DeliveryId)

  predicate Is(s: State, d: DeliveryId, phase: Phase) {
    d in s.deliveries && s.deliveries[d].phase == phase
  }

  predicate Enabled(s: State, step: Step) {
    match step
    case Arrive(d, env) => d !in s.deliveries && OrgNumber(env.org) in s.tenantOf
    case Reject(d) => Is(s, d, Received)
    case Claim(d) => Is(s, d, Received) && Acceptable(s.deliveries[d].env)
    case Write(d) => Is(s, d, Claimed)
    case WriteFails(d) => Is(s, d, Claimed)
    case Observe(d) => Is(s, d, Written)
    case ObserveFails(d) => Is(s, d, Written) && s.deliveries[d].env.kind.SessionEvent?
    case Release(d) => Is(s, d, Failed)
    case Finish(d) => Is(s, d, Recorded)
    case FinishFails(d) => Is(s, d, Recorded)
    case Crash(d) => d in s.deliveries
  }

  /** The session evidence _write_evidence finds instead of writing again. */
  predicate SameSession(row: Row, tenant: Tenant, eventId: string) {
    row.env.kind.SessionEvent? && row.tenant == tenant && row.env.eventId == eventId
  }

  predicate SessionWritten(rows: seq<Row>, tenant: Tenant, eventId: string) {
    exists k :: 0 <= k < |rows| && SameSession(rows[k], tenant, eventId)
  }

  function SpendOf(row: Row): seq<(Key, Spend)> {
    if row.env.kind.ModelSpend? && ModelSpendFields(row.env.kind.payload).Some?
    then [(row.env.key, Shortened(ModelSpendFields(row.env.kind.payload).value))]
    else []
  }

  function SetPhase(s: State, d: DeliveryId, phase: Phase): State
    requires d in s.deliveries
  {
    s.(deliveries := s.deliveries[d := s.deliveries[d].(phase := phase)])
  }

  /** One transaction on the analytics database. */
  function WriteEvidence(s: State, env: Envelope): State
    requires OrgNumber(env.org) in s.tenantOf
  {
    var tenant := s.tenantOf[OrgNumber(env.org)];
    if env.kind.SessionEvent? && SessionWritten(s.rows, tenant, env.eventId) then s
    else
      var row := Row(env, tenant);
      s.(rows := s.rows + [row], spend := s.spend + SpendOf(row))
  }

  function Apply(s: State, step: Step): State
    requires Enabled(s, step) && KnownOrgs(s)
  {
    match step
    case Arrive(d, env) => s.(deliveries := s.deliveries[d := Delivery(env, Received)])
    case Reject(d) => SetPhase(s, d, Done(Rejected))
    case Claim(d) =>
      var key := s.deliveries[d].env.key;
      if key in s.markers then SetPhase(s, d, Done(AlreadyAccepted))
      else SetPhase(s, d, Claimed).(markers := s.markers + {key})
    case Write(d) => SetPhase(WriteEvidence(s, s.deliveries[d].env), d, Written)
    case WriteFails(d) => SetPhase(s, d, Failed)
    case Observe(d) => SetPhase(s, d, Recorded)
    case ObserveFails(d) => SetPhase(s, d, Failed)
    case Release(d) =>
      SetPhase(s, d, Done(ServerError)).(markers := s.markers - {s.deliveries[d].env.key})
    case Finish(d) => SetPhase(s, d, Done(Accepted))
    case FinishFails(d) => SetPhase(s, d, Done(ServerError))
    case Crash(d) => SetPhase(s, d, Done(ServerError))
  }

  ghost predicate KnownOrgs(s: State) {
    forall d :: d in s.deliveries ==> OrgNumber(s.deliveries[d].env.org) in s.tenantOf
  }

  predicate HoldsMarker(p: Phase) { p.Claimed? || p.Written? || p.Failed? || p.Recorded? }

  predicate Unsettled(p: Phase) { p.Claimed? || p.Failed? }

  /** It may still release its marker: only a session event can fail after its
      evidence is written. */
  predicate MayWithdraw(d: Delivery) {
    Unsettled(d.phase) || (d.phase.Written? && d.env.kind.SessionEvent?)
  }

  /** `row` is the evidence of `env`, whose organisation belongs to `tenant`. */
  predicate Proves(row: Row, tenant: Tenant, env: Envelope) {
    if env.kind.SessionEvent?
    then row.env.kind.SessionEvent? && row.tenant == tenant && row.env.eventId == env.eventId
    else !row.env.kind.SessionEvent? && row.env.key == env.key
  }

  predicate Evidenced(rows: seq<Row>, tenant: Tenant, env: Envelope) {
    exists k :: 0 <= k < |rows| && Proves(rows[k], tenant, env)
  }

  function SpendRows(rows: seq<Row>): seq<(Key, Spend)> {
    if rows == [] then [] else SpendRows(rows[..|rows| - 1]) + SpendOf(rows[|rows| - 1])
  }

  /** A crash that loses no evidence: the delivery held no marker, or its evidence
      is already committed. A session event that is not observed yet still loses
      its observation. */
  predicate CrashHarmless(s: State, d: DeliveryId) {
    d in s.deliveries ==> !Unsettled(s.deliveries[d].phase)
  }

  ghost predicate Allowed(s: State, step: Step) {
    KnownOrgs(s) && Enabled(s, step) && (step.Crash? ==> CrashHarmless(s, step.d))
  }

  ghost predicate Run(s: State, steps: seq<Step>)
    decreases |steps|
  {
    steps == [] || (Allowed(s, steps[0]) && Run(Apply(s, steps[0]), steps[1..]))
  }

  ghost function End(s: State, steps: seq<Step>): State
    requires Run(s, steps)
    decreases |steps|
  {
    if steps == [] then s else End(Apply(s, steps[0]), steps[1..])
  }

  ghost predicate Init(s: State) {
    s.markers == {} && s.rows == [] && s.spend == [] && s.deliveries == map[]
  }

  // ---- What every allowed step keeps ----

  ghost predicate MarkersInv(s: State) {
    && (forall d :: d in s.deliveries && HoldsMarker(s.deliveries[d].phase) ==>
          s.deliveries[d].env.key in s.markers)
    && (forall d, e :: d in s.deliveries && e in s.deliveries
          && HoldsMarker(s.deliveries[d].phase) && HoldsMarker(s.deliveries[e].phase)
          && s.deliveries[d].env.key == s.deliveries[e].env.key
          ==> d == e)
    && (forall d :: d in s.deliveries && HoldsMarker(s.deliveries[d].phase) ==> Acceptable(s.deliveries[d].env))
  }

  predicate RowKnown(row: Row, tenantOf: map<nat, Tenant>) {
    && OrgNumber(row.env.org) in tenantOf
    && row.tenant == tenantOf[OrgNumber(row.env.org)]
    && Acceptable(row.env)
  }

  ghost predicate RowsDiffer(rows: seq<Row>) {
    forall i, j :: 0 <= i < |rows| && 0 <= j < |rows| && i != j ==> !Proves(rows[i], rows[j].tenant, rows[j].env)
  }

  ghost predicate RowsInv(s: State) {
    && s.spend == SpendRows(s.rows)
    && (forall i :: 0 <= i < |s.rows| ==> RowKnown(s.rows[i], s.tenantOf))
    && RowsDiffer(s.rows)
  }

  /** A row other than a session's is behind its marker, and nobody who could
      still write or withdraw is working under that marker. */
  ghost predicate SettledRows(s: State) {
    forall i :: 0 <= i < |s.rows| && !s.rows[i].env.kind.SessionEvent? ==>
      && s.rows[i].env.key in s.markers
      && forall d :: d in s.deliveries && MayWithdraw(s.deliveries[d]) ==>
           s.deliveries[d].env.key != s.rows[i].env.key
  }

  /** Whose marker it is: somebody still working, or written evidence. */
  ghost predicate MarkerBacked(s: State, key: Key)
    requires KnownOrgs(s)
  {
    exists d :: d in s.deliveries && s.deliveries[d].env.key == key
                && (Unsettled(s.deliveries[d].phase)
                    || Evidenced(s.rows, s.tenantOf[OrgNumber(s.deliveries[d].env.org)], s.deliveries[d].env))
  }

  ghost predicate EvidenceInv(s: State)
    requires KnownOrgs(s)
  {
    && (forall d :: d in s.deliveries && ClaimsEvidence(s.deliveries[d].phase) ==>
          Evidenced(s.rows, s.tenantOf[OrgNumber(s.deliveries[d].env.org)], s.deliveries[d].env))
    && (forall key :: key in s.markers ==> MarkerBacked(s, key))
  }

  predicate ClaimsEvidence(p: Phase) { p.Written? || p.Recorded? || p == Done(Accepted) }

  ghost predicate Inv(s: State) {
    KnownOrgs(s) && MarkersInv(s) && RowsInv(s) && SettledRows(s) && EvidenceInv(s)
  }

  lemma InvIsKept(s: State, step: Step)
    requires Inv(s) && Allowed(s, step)
    ensures Inv(Apply(s, step))
  {
    match step
    case Write(d) => WriteKeepsInv(s, d);
    case Claim(d) => ClaimKeepsInv(s, d);
    case Release(d) => ReleaseKeepsInv(s, d);
    case Arrive(d, env) => ArriveKeepsInv(s, d, env);
    case _ => PhaseStepKeepsInv(s, step);
  }

  lemma ArriveKeepsInv(s: State, d: DeliveryId, env: Envelope)
    requires Inv(s) && Allowed(s, Arrive(d, env))
    ensures Inv(Apply(s, Arrive(d, env)))
  {
    var t := Apply(s, Arrive(d, env));
    NoNewHolderKeeps(s, t);
    GrowthKeepsEvidence(s, t);
  }

  /** Markers and settled rows stay sound when nobody newly holds a marker or
      becomes able to withdraw one. */
  lemma NoNewHolderKeeps(s: State, t: State)
    requires MarkersInv(s) && SettledRows(s) && t.markers == s.markers && t.rows == s.rows
    requires forall d :: d in t.deliveries && HoldsMarker(t.deliveries[d].phase) ==>
      && d in s.deliveries && HoldsMarker(s.deliveries[d].phase) && t.deliveries[d].env == s.deliveries[d].env
      && (MayWithdraw(t.deliveries[d]) ==> MayWithdraw(s.deliveries[d]))
    ensures MarkersInv(t) && SettledRows(t)
  {
  }

  /** Evidence and markers stay backed when the same markers stand over at least
      the same rows, and nobody newly claims evidence. */
  lemma GrowthKeepsEvidence(s: State, t: State)
    requires KnownOrgs(s) && EvidenceInv(s) && KnownOrgs(t)
    requires t.tenantOf == s.tenantOf && s.rows <= t.rows
    requires forall d :: d in s.deliveries ==>
      && d in t.deliveries && t.deliveries[d].env == s.deliveries[d].env
      && (Unsettled(s.deliveries[d].phase) ==>
            || Unsettled(t.deliveries[d].phase)
            || Evidenced(t.rows, t.tenantOf[OrgNumber(t.deliveries[d].env.org)], t.deliveries[d].env))
    requires forall d :: d in t.deliveries && ClaimsEvidence(t.deliveries[d].phase) ==>
      || (d in s.deliveries && ClaimsEvidence(s.deliveries[d].phase))
      || Evidenced(t.rows, t.tenantOf[OrgNumber(t.deliveries[d].env.org)], t.deliveries[d].env)
    requires forall key :: key in t.markers && key !in s.markers ==> MarkerBacked(t, key)
    ensures EvidenceInv(t)
  {
    BackedStays(s, t);
  }

  lemma BackedStays(s: State, t: State)
    requires KnownOrgs(s) && KnownOrgs(t) && t.tenantOf == s.tenantOf && s.rows <= t.rows
    requires forall d :: d in s.deliveries ==>
      && d in t.deliveries && t.deliveries[d].env == s.deliveries[d].env
      && (Unsettled(s.deliveries[d].phase) ==>
            || Unsettled(t.deliveries[d].phase)
            || Evidenced(t.rows, t.tenantOf[OrgNumber(t.deliveries[d].env.org)], t.deliveries[d].env))
    ensures forall key :: MarkerBacked(s, key) ==> MarkerBacked(t, key)
    ensures forall tenant, env :: Evidenced(s.rows, tenant, env) ==> Evidenced(t.rows, tenant, env)
  {
    forall tenant, env | Evidenced(s.rows, tenant, env) ensures Evidenced(t.rows, tenant, env) {
      var k :| 0 <= k < |s.rows| && Proves(s.rows[k], tenant, env);
      assert Proves(t.rows[k], tenant, env);
    }
    forall key | MarkerBacked(s, key) ensures MarkerBacked(t, key) {
      var d :| d in s.deliveries && s.deliveries[d].env.key == key
               && (Unsettled(s.deliveries[d].phase)
                   || Evidenced(s.rows, s.tenantOf[OrgNumber(s.deliveries[d].env.org)], s.deliveries[d].env));
      assert t.deliveries[d].env == s.deliveries[d].env;
    }
  }

  predicate PhaseOnly(step: Step) {
    !step.Arrive? && !step.Write? && !step.Claim? && !step.Release?
  }

  /** The other steps move one delivery on, without taking a marker and without
      becoming able to withdraw one. */
  lemma PhaseStepMovesOn(s: State, step: Step)
    requires Allowed(s, step) && PhaseOnly(step)
    ensures var t := Apply(s, step); var d := step.d;
            && d in s.deliveries && t == SetPhase(s, d, t.deliveries[d].phase)
            && (HoldsMarker(t.deliveries[d].phase) ==> HoldsMarker(s.deliveries[d].phase))
            && (MayWithdraw(t.deliveries[d]) ==> MayWithdraw(s.deliveries[d]))
            && (Unsettled(s.deliveries[d].phase) ==> Unsettled(t.deliveries[d].phase))
            && (ClaimsEvidence(t.deliveries[d].phase) ==> ClaimsEvidence(s.deliveries[d].phase))
  {
  }

  lemma PhaseStepKeepsInv(s: State, step: Step)
    requires Inv(s) && Allowed(s, step) && PhaseOnly(step)
    ensures Inv(Apply(s, step))
  {
    PhaseStepMovesOn(s, step);
    MovingOnKeepsInv(s, step.d, Apply(s, step).deliveries[step.d].phase);
  }

  lemma MovingOnKeepsInv(s: State, d: DeliveryId, phase: Phase)
    requires Inv(s) && d in s.deliveries
    requires var now := s.deliveries[d].(phase := phase);
             && (HoldsMarker(phase) ==> HoldsMarker(s.deliveries[d].phase))
             && (MayWithdraw(now) ==> MayWithdraw(s.deliveries[d]))
             && (Unsettled(s.deliveries[d].phase) ==> Unsettled(phase))
             && (ClaimsEvidence(phase) ==> ClaimsEvidence(s.deliveries[d].phase))
    ensures Inv(SetPhase(s, d, phase))
  {
    var t := SetPhase(s, d, phase);
    NoNewHolderKeeps(s, t);
    MovingOnKeepsEvidence(s, d, phase);
  }

  lemma MovingOnKeepsEvidence(s: State, d: DeliveryId, phase: Phase)
    requires KnownOrgs(s) && EvidenceInv(s) && d in s.deliveries
    requires Unsettled(s.deliveries[d].phase) ==> Unsettled(phase)
    requires ClaimsEvidence(phase) ==> ClaimsEvidence(s.deliveries[d].phase)
    ensures KnownOrgs(SetPhase(s, d, phase)) && EvidenceInv(SetPhase(s, d, phase))
  {
    GrowthKeepsEvidence(s, SetPhase(s, d, phase));
  }

  lemma ClaimKeepsInv(s: State, d: DeliveryId)
    requires Inv(s) && Allowed(s, Claim(d))
    ensures Inv(Apply(s, Claim(d)))
  {
    var t := Apply(s, Claim(d));
    var key := s.deliveries[d].env.key;
    if key in s.markers {
      MovingOnKeepsInv(s, d, Done(AlreadyAccepted));
    } else {
      FreshClaimKeepsMarkers(s, d);
      assert t.deliveries[d].env.key == key && Unsettled(t.deliveries[d].phase);
      GrowthKeepsEvidence(s, t);
    }
  }

  lemma FreshClaimKeepsMarkers(s: State, d: DeliveryId)
    requires Inv(s) && Allowed(s, Claim(d)) && s.deliveries[d].env.key !in s.markers
    ensures MarkersInv(Apply(s, Claim(d))) && SettledRows(Apply(s, Claim(d)))
  {
  }

  lemma ReleaseKeepsInv(s: State, d: DeliveryId)
    requires Inv(s) && Allowed(s, Release(d))
    ensures Inv(Apply(s, Release(d)))
  {
    ReleaseKeepsMarkers(s, d);
    ReleaseKeepsSettled(s, d);
    ReleaseKeepsEvidence(s, d);
  }

  lemma ReleaseKeepsMarkers(s: State, d: DeliveryId)
    requires KnownOrgs(s) && MarkersInv(s) && Is(s, d, Failed)
    ensures MarkersInv(Apply(s, Release(d)))
  {
  }

  lemma ReleaseKeepsSettled(s: State, d: DeliveryId)
    requires KnownOrgs(s) && SettledRows(s) && Is(s, d, Failed)
    ensures SettledRows(Apply(s, Release(d)))
  {
    assert MayWithdraw(s.deliveries[d]);
  }

  lemma ReleaseKeepsEvidence(s: State, d: DeliveryId)
    requires KnownOrgs(s) && EvidenceInv(s) && Is(s, d, Failed)
    ensures KnownOrgs(Apply(s, Release(d))) && EvidenceInv(Apply(s, Release(d)))
  {
    var t := Apply(s, Release(d));
    forall other | other in t.markers ensures MarkerBacked(t, other) {
      assert MarkerBacked(s, other);
      var e :| e in s.deliveries && s.deliveries[e].env.key == other
               && (Unsettled(s.deliveries[e].phase)
                   || Evidenced(s.rows, s.tenantOf[OrgNumber(s.deliveries[e].env.org)], s.deliveries[e].env));
      assert e != d && t.deliveries[e] == s.deliveries[e];
    }
  }

  lemma WriteKeepsInv(s: State, d: DeliveryId)
    requires Inv(s) && Allowed(s, Write(d))
    ensures Inv(Apply(s, Write(d)))
  {
    WriteKeepsRows(s, d);
    WriteKeepsSettled(s, d);
    WriteKeepsMarkers(s, d);
    WriteKeepsEvidence(s, d);
  }

  lemma WriteKeepsEvidence(s: State, d: DeliveryId)
    requires KnownOrgs(s) && EvidenceInv(s) && Is(s, d, Claimed)
    ensures var t := SetPhase(WriteEvidence(s, s.deliveries[d].env), d, Written);
            KnownOrgs(t) && EvidenceInv(t)
  {
    var env := s.deliveries[d].env;
    var w := WriteEvidence(s, env);
    WrittenIsEvidenced(s, env);
    assert w.deliveries == s.deliveries && w.markers == s.markers && w.tenantOf == s.tenantOf && s.rows <= w.rows;
    GrowthKeepsEvidence(s, SetPhase(w, d, Written));
  }

  lemma WriteKeepsMarkers(s: State, d: DeliveryId)
    requires KnownOrgs(s) && MarkersInv(s) && Is(s, d, Claimed)
    ensures MarkersInv(SetPhase(WriteEvidence(s, s.deliveries[d].env), d, Written))
  {
  }

  lemma WrittenIsEvidenced(s: State, env: Envelope)
    requires OrgNumber(env.org) in s.tenantOf
    ensures Evidenced(WriteEvidence(s, env).rows, s.tenantOf[OrgNumber(env.org)], env)
  {
    var w := WriteEvidence(s, env);
    var tenant := s.tenantOf[OrgNumber(env.org)];
    if env.kind.SessionEvent? && SessionWritten(s.rows, tenant, env.eventId) {
      var k :| 0 <= k < |s.rows| && SameSession(s.rows[k], tenant, env.eventId);
      assert Proves(w.rows[k], tenant, env);
    } else {
      assert Proves(w.rows[|s.rows|], tenant, env);
    }
  }

  lemma WriteKeepsRows(s: State, d: DeliveryId)
    requires KnownOrgs(s) && MarkersInv(s) && RowsInv(s) && SettledRows(s) && Is(s, d, Claimed)
    ensures RowsInv(WriteEvidence(s, s.deliveries[d].env))
  {
    var env := s.deliveries[d].env;
    var tenant := s.tenantOf[OrgNumber(env.org)];
    if !(env.kind.SessionEvent? && SessionWritten(s.rows, tenant, env.eventId)) {
      assert HoldsMarker(s.deliveries[d].phase);
      NewRowDiffersFromAll(s, d);
      OneRowMore(s, Row(env, tenant));
    }
  }

  lemma OneRowMore(s: State, row: Row)
    requires RowsInv(s) && RowKnown(row, s.tenantOf) && DiffersFromAll(row, s.rows)
    ensures RowsInv(s.(rows := s.rows + [row], spend := s.spend + SpendOf(row)))
  {
    assert (s.rows + [row])[..|s.rows|] == s.rows;
    OneRowMoreDiffers(s.rows, row);
  }

  ghost predicate DiffersFromAll(row: Row, rows: seq<Row>) {
    forall i :: 0 <= i < |rows| ==> !Proves(rows[i], row.tenant, row.env) && !Proves(row, rows[i].tenant, rows[i].env)
  }

  lemma NewRowDiffersFromAll(s: State, d: DeliveryId)
    requires KnownOrgs(s) && SettledRows(s) && Is(s, d, Claimed)
    requires var env := s.deliveries[d].env;
             !(env.kind.SessionEvent? && SessionWritten(s.rows, s.tenantOf[OrgNumber(env.org)], env.eventId))
    ensures var env := s.deliveries[d].env; DiffersFromAll(Row(env, s.tenantOf[OrgNumber(env.org)]), s.rows)
  {
    forall i | 0 <= i < |s.rows|
      ensures var env := s.deliveries[d].env; var tenant := s.tenantOf[OrgNumber(env.org)];
              !Proves(s.rows[i], tenant, env) && !Proves(Row(env, tenant), s.rows[i].tenant, s.rows[i].env)
    {
      NewRowDiffers(s, d, i);
    }
  }

  lemma NewRowDiffers(s: State, d: DeliveryId, i: nat)
    requires KnownOrgs(s) && SettledRows(s) && Is(s, d, Claimed) && i < |s.rows|
    requires var env := s.deliveries[d].env;
             !(env.kind.SessionEvent? && SessionWritten(s.rows, s.tenantOf[OrgNumber(env.org)], env.eventId))
    ensures var env := s.deliveries[d].env; var tenant := s.tenantOf[OrgNumber(env.org)];
            !Proves(s.rows[i], tenant, env) && !Proves(Row(env, tenant), s.rows[i].tenant, s.rows[i].env)
  {
    var env := s.deliveries[d].env;
    if env.kind.SessionEvent? {
      assert !SameSession(s.rows[i], s.tenantOf[OrgNumber(env.org)], env.eventId);
    } else {
      assert MayWithdraw(s.deliveries[d]);
    }
  }

  lemma OneRowMoreDiffers(rows: seq<Row>, row: Row)
    requires RowsDiffer(rows) && DiffersFromAll(row, rows)
    ensures RowsDiffer(rows + [row])
  {
  }

  lemma WriteKeepsSettled(s: State, d: DeliveryId)
    requires KnownOrgs(s) && MarkersInv(s) && SettledRows(s) && Is(s, d, Claimed)
    ensures SettledRows(SetPhase(WriteEvidence(s, s.deliveries[d].env), d, Written))
  {
    var t := SetPhase(WriteEvidence(s, s.deliveries[d].env), d, Written);
    forall i, e |
      && 0 <= i < |t.rows| && !t.rows[i].env.kind.SessionEvent?
      && e in t.deliveries && MayWithdraw(t.deliveries[e])
      ensures t.deliveries[e].env.key != t.rows[i].env.key
    {
      assert MayWithdraw(s.deliveries[e]);
    }
  }

  lemma {:induction false} InvHoldsThroughout(s: State, steps: seq<Step>)
    requires Inv(s) && Run(s, steps)
    ensures Inv(End(s, steps))
    decreases |steps|
  {
    if steps != [] {
      InvIsKept(s, steps[0]);
      InvHoldsThroughout(Apply(s, steps[0]), steps[1..]);
    }
  }

  // ---- What the chain of evidence may rely on ----

  /** Each idempotency key has at most one evidence row of a session event and
      at most one of any other event. */
  lemma OneEvidenceRowPerKey(s: State, steps: seq<Step>, i: nat, j: nat)
    requires Init(s) && Run(s, steps)
    requires i < |End(s, steps).rows| && j < |End(s, steps).rows|
    requires End(s, steps).rows[i].env.key == End(s, steps).rows[j].env.key
    requires End(s, steps).rows[i].env.kind.SessionEvent? <==> End(s, steps).rows[j].env.kind.SessionEvent?
    ensures i == j
  {
    InvHoldsThroughout(s, steps);
    var t := End(s, steps);
    var a, b := t.rows[i].env, t.rows[j].env;
    KeyInjective(a.org, a.eventId, b.org, b.eventId);
    assert Proves(t.rows[i], t.rows[j].tenant, b);
  }

  lemma {:induction false} SpendOrigin(rows: seq<Row>, k: nat) returns (i: nat)
    requires k < |SpendRows(rows)|
    ensures i < |rows| && SpendOf(rows[i]) == [SpendRows(rows)[k]]
  {
    var n := |rows| - 1;
    if k < |SpendRows(rows[..n])| {
      i := SpendOrigin(rows[..n], k);
    } else {
      i := n;
    }
  }

  lemma {:induction false} SpendRecorded(rows: seq<Row>, i: nat) returns (k: nat)
    requires i < |rows| && SpendOf(rows[i]) != []
    ensures k < |SpendRows(rows)| && SpendOf(rows[i]) == [SpendRows(rows)[k]]
  {
    var n := |rows| - 1;
    if i < n {
      k := SpendRecorded(rows[..n], i);
    } else {
      k := |SpendRows(rows[..n])|;
    }
  }

  lemma {:induction false} SpendOriginsDiffer(rows: seq<Row>, k: nat, l: nat) returns (i: nat, j: nat)
    requires k < l < |SpendRows(rows)|
    ensures i < j < |rows| && SpendOf(rows[i]) == [SpendRows(rows)[k]] && SpendOf(rows[j]) == [SpendRows(rows)[l]]
  {
    var n := |rows| - 1;
    if l < |SpendRows(rows[..n])| {
      i, j := SpendOriginsDiffer(rows[..n], k, l);
    } else {
      i := SpendOrigin(rows[..n], k);
      j := n;
    }
  }

  /** This is a record of the row's spend: under its key, of what its payload declares. */
  ghost predicate Charges(row: Row, entry: (Key, Spend)) {
    row.env.kind.ModelSpend? && entry.0 == row.env.key && Declares(row.env.kind.payload, entry.1)
  }

  lemma ChargesExactly(row: Row)
    ensures forall entry :: Charges(row, entry) <==> SpendOf(row) == [entry]
  {
    if row.env.kind.ModelSpend? { DeclaredIsRead(row.env.kind.payload); }
  }

  /** Some evidence row declares exactly this spend. */
  ghost predicate Declared(rows: seq<Row>, entry: (Key, Spend)) {
    exists i :: 0 <= i < |rows| && Charges(rows[i], entry)
  }

  /** Exactly this row's spend is on record. */
  ghost predicate Charged(spend: seq<(Key, Spend)>, row: Row) {
    exists k :: 0 <= k < |spend| && Charges(row, spend[k])
  }

  /** Spend records and model-spend evidence match one to one: each record has
      its evidence row, each such row its record with the amounts it declared,
      and no event is charged twice. */
  lemma SpendMatchesEvidence(s: State, steps: seq<Step>)
    requires Init(s) && Run(s, steps)
    ensures var t := End(s, steps);
            && (forall k :: 0 <= k < |t.spend| ==> Declared(t.rows, t.spend[k]))
            && (forall i :: 0 <= i < |t.rows| && t.rows[i].env.kind.ModelSpend? ==> Charged(t.spend, t.rows[i]))
            && (forall k, l :: 0 <= k < l < |t.spend| ==> t.spend[k].0 != t.spend[l].0)
  {
    InvHoldsThroughout(s, steps);
    var t := End(s, steps);
    SpendRowsMatchRows(t);
    forall k, l | 0 <= k < l < |t.spend| ensures t.spend[k].0 != t.spend[l].0 {
      NoEventIsChargedTwice(t, k, l);
    }
  }

  lemma NoEventIsChargedTwice(t: State, k: nat, l: nat)
    requires RowsInv(t) && k < l < |t.spend|
    ensures t.spend[k].0 != t.spend[l].0
  {
    var i, j := SpendOriginsDiffer(t.rows, k, l);
    assert !Proves(t.rows[i], t.rows[j].tenant, t.rows[j].env);
    assert SpendOf(t.rows[i])[0] == t.spend[k] && SpendOf(t.rows[j])[0] == t.spend[l];
  }

  lemma SpendRowsMatchRows(t: State)
    requires RowsInv(t)
    ensures forall k :: 0 <= k < |t.spend| ==> Declared(t.rows, t.spend[k])
    ensures forall i :: 0 <= i < |t.rows| && t.rows[i].env.kind.ModelSpend? ==> Charged(t.spend, t.rows[i])
  {
    forall k | 0 <= k < |t.spend| ensures Declared(t.rows, t.spend[k]) {
      var i := SpendOrigin(t.rows, k);
      ChargesExactly(t.rows[i]);
    }
    forall i | 0 <= i < |t.rows| && t.rows[i].env.kind.ModelSpend? ensures Charged(t.spend, t.rows[i]) {
      var k := SpendRecorded(t.rows, i);
      ChargesExactly(t.rows[i]);
    }
  }

  /** A delivery that failed leaves no marker behind and, unless it was a session
      event, neither evidence nor a spend record. */
  lemma FailedDeliveryLeavesNothing(s: State, steps: seq<Step>, d: DeliveryId)
    requires Init(s) && Run(s, steps) && Allowed(End(s, steps), Release(d))
    ensures var t := Apply(End(s, steps), Release(d)); var env := t.deliveries[d].env;
            && t.deliveries[d].phase == Done(ServerError)
            && env.key !in t.markers
            && (forall i :: 0 <= i < |t.rows| && t.rows[i].env.key == env.key ==> t.rows[i].env.kind.SessionEvent?)
            && (forall k :: 0 <= k < |t.spend| ==> t.spend[k].0 != env.key)
  {
    InvHoldsThroughout(s, steps);
    var u := End(s, steps);
    InvIsKept(u, Release(d));
    var t := Apply(u, Release(d));
    forall k | 0 <= k < |t.spend| ensures t.spend[k].0 != t.deliveries[d].env.key {
      var i := SpendOrigin(t.rows, k);
      assert SpendOf(t.rows[i])[0] == t.spend[k];
    }
  }

  /** So a later retry that meets no failure is accepted, and writes the evidence
      once: a session event's only when the tenant does not have it yet. */
  lemma CleanRetryIsAccepted(s: State, d: DeliveryId, env: Envelope) returns (t: State)
    requires Inv(s) && d !in s.deliveries && OrgNumber(env.org) in s.tenantOf
    requires Acceptable(env) && env.key !in s.markers
    ensures Run(s, [Arrive(d, env), Claim(d), Write(d), Observe(d), Finish(d)])
    ensures t == End(s, [Arrive(d, env), Claim(d), Write(d), Observe(d), Finish(d)])
    ensures d in t.deliveries && t.deliveries[d].phase == Done(Accepted) && env.key in t.markers
    ensures var tenant := s.tenantOf[OrgNumber(env.org)];
            t.rows == if Evidenced(s.rows, tenant, env) then s.rows else s.rows + [Row(env, tenant)]
  {
    AloneRuns(s, d, env, Luck(true, true, true));
    assert AloneSteps(s, d, env, Luck(true, true, true)) == [Arrive(d, env), Claim(d), Write(d), Observe(d), Finish(d)];
    t := AloneEnd(s, d, env, Luck(true, true, true));
    EvidencedAlready(s, env);
  }

  /** Of an event whose marker is free, only a session can be evidenced already. */
  lemma EvidencedAlready(s: State, env: Envelope)
    requires RowsInv(s) && SettledRows(s) && OrgNumber(env.org) in s.tenantOf && env.key !in s.markers
    ensures var tenant := s.tenantOf[OrgNumber(env.org)];
            Evidenced(s.rows, tenant, env) <==> env.kind.SessionEvent? && SessionWritten(s.rows, tenant, env.eventId)
  {
    var tenant := s.tenantOf[OrgNumber(env.org)];
    if env.kind.SessionEvent? && SessionWritten(s.rows, tenant, env.eventId) {
      var k :| 0 <= k < |s.rows| && SameSession(s.rows[k], tenant, env.eventId);
      assert Proves(s.rows[k], tenant, env);
    }
  }

  lemma RunOne(s: State, step: Step, rest: seq<Step>)
    requires Allowed(s, step) && Run(Apply(s, step), rest)
    ensures Run(s, [step] + rest) && End(s, [step] + rest) == End(Apply(s, step), rest)
  {
    assert ([step] + rest)[1..] == rest;
  }

  /** An accepted delivery has its evidence, and so does every marked key that
      nobody is still working on: a duplicate answer is then backed by evidence. */
  lemma AcceptedAndMarkedAreEvidenced(s: State, steps: seq<Step>, d: DeliveryId, key: Key)
    requires Init(s) && Run(s, steps)
    ensures var t := End(s, steps);
            && KnownOrgs(t)
            && (d in t.deliveries && t.deliveries[d].phase == Done(Accepted) ==>
                  Evidenced(t.rows, t.tenantOf[OrgNumber(t.deliveries[d].env.org)], t.deliveries[d].env))
            && (key in t.markers && (forall e :: e in t.deliveries && Unsettled(t.deliveries[e].phase) ==>
                                       t.deliveries[e].env.key != key) ==>
                  exists e :: e in t.deliveries && t.deliveries[e].env.key == key &&
                    Evidenced(t.rows, t.tenantOf[OrgNumber(t.deliveries[e].env.org)], t.deliveries[e].env))
  {
    InvHoldsThroughout(s, steps);
    var t := End(s, steps);
    if key in t.markers {
      assert MarkerBacked(t, key);
    }
  }

  // ---- The one thing no retry repairs ----

  /** The marker stands, and nobody works under it. */
  ghost predicate Stuck(s: State, key: Key) {
    && key in s.markers
    && forall d :: d in s.deliveries && s.deliveries[d].env.key == key ==> !HoldsMarker(s.deliveries[d].phase)
  }

  /** ... and there is no evidence, but for earlier session events. */
  ghost predicate Suppressed(s: State, key: Key) {
    && Stuck(s, key)
    && (forall i :: 0 <= i < |s.rows| && s.rows[i].env.key == key ==> s.rows[i].env.kind.SessionEvent?)
  }

  /** Rows are only added, and none of the added ones is under `key`. */
  ghost predicate NothingAdded(rows: seq<Row>, more: seq<Row>, key: Key) {
    rows <= more && forall i :: |rows| <= i < |more| ==> more[i].env.key != key
  }

  /** The condition on crashes is exact: a process that dies between claiming the
      marker and writing or releasing loses the event for good. Whatever is retried
      afterwards, no row is ever written for it, be it a session event or not. */
  lemma HarmfulCrashSuppressesForever(s: State, d: DeliveryId, steps: seq<Step>)
    requires Inv(s) && d in s.deliveries && !CrashHarmless(s, d)
    requires Run(Apply(s, Crash(d)), steps)
    ensures var t := End(Apply(s, Crash(d)), steps); var key := s.deliveries[d].env.key;
            Suppressed(t, key) && NothingAdded(s.rows, t.rows, key)
  {
    assert MayWithdraw(s.deliveries[d]);
    SuppressionStays(Apply(s, Crash(d)), steps, s.deliveries[d].env.key);
  }

  lemma {:induction false} SuppressionStays(s: State, steps: seq<Step>, key: Key)
    requires Suppressed(s, key) && Run(s, steps)
    ensures Suppressed(End(s, steps), key) && NothingAdded(s.rows, End(s, steps).rows, key)
    decreases |steps|
  {
    if steps != [] {
      var next := Apply(s, steps[0]);
      SuppressionStaysOnce(s, steps[0], key);
      SuppressionStays(next, steps[1..], key);
      NothingAddedTwice(s.rows, next.rows, End(s, steps).rows, key);
    }
  }

  lemma NothingAddedTwice(a: seq<Row>, b: seq<Row>, c: seq<Row>, key: Key)
    requires NothingAdded(a, b, key) && NothingAdded(b, c, key)
    ensures NothingAdded(a, c, key)
  {
    forall i | |a| <= i < |c| ensures c[i].env.key != key {
      if i < |b| { assert c[i] == b[i]; }
    }
  }

  lemma SuppressionStaysOnce(s: State, step: Step, key: Key)
    requires Suppressed(s, key) && Allowed(s, step)
    ensures Suppressed(Apply(s, step), key) && NothingAdded(s.rows, Apply(s, step).rows, key)
  {
    if PhaseOnly(step) { PhaseStepMovesOn(s, step); }
  }

  // ---- The webhook as one request runs it ----

  /** Which of a request's writes succeed. */
  datatype Luck = Luck(writes: bool, observes: bool, finishes: bool)

  predicate FailsAfterClaim(env: Envelope, luck: Luck) {
    !luck.writes || (env.kind.SessionEvent? && !luck.observes)
  }

  /** The steps one request takes when nothing interleaves. */
  function AloneSteps(s: State, d: DeliveryId, env: Envelope, luck: Luck): seq<Step> {
    if !Acceptable(env) then [Arrive(d, env)] + [Reject(d)]
    else if env.key in s.markers then [Arrive(d, env)] + [Claim(d)]
    else [Arrive(d, env)] + ([Claim(d)] + WorkSteps(d, env, luck))
  }

  function WorkSteps(d: DeliveryId, env: Envelope, luck: Luck): seq<Step> {
    if !luck.writes then [WriteFails(d)] + [Release(d)]
    else if FailsAfterClaim(env, luck) then [Write(d)] + ([ObserveFails(d)] + [Release(d)])
    else [Write(d)] + ([Observe(d)] + [if luck.finishes then Finish(d) else FinishFails(d)])
  }

  function WorkResponse(env: Envelope, luck: Luck): Response {
    if FailsAfterClaim(env, luck) || !luck.finishes then ServerError else Accepted
  }

  function AloneEnd(s: State, d: DeliveryId, env: Envelope, luck: Luck): State
    requires OrgNumber(env.org) in s.tenantOf
  {
    if !Acceptable(env) then s.(deliveries := s.deliveries[d := Delivery(env, Done(Rejected))])
    else if env.key in s.markers then s.(deliveries := s.deliveries[d := Delivery(env, Done(AlreadyAccepted))])
    else
      var w := if luck.writes then WriteEvidence(s, env) else s;
      w.(markers := if FailsAfterClaim(env, luck) then s.markers else s.markers + {env.key},
         deliveries := s.deliveries[d := Delivery(env, Done(WorkResponse(env, luck)))])
  }

  /** What the claimed work ends in, from a claimed delivery on. */
  ghost predicate WorkEndsIn(s: State, d: DeliveryId, steps: seq<Step>, written: bool, kept: bool, response: Response)
    requires d in s.deliveries && OrgNumber(s.deliveries[d].env.org) in s.tenantOf
  {
    var env := s.deliveries[d].env;
    var w := if written then WriteEvidence(s, env) else s;
    Run(s, steps) && End(s, steps) == w.(
      markers := if kept then s.markers else s.markers - {env.key},
      deliveries := s.deliveries[d := Delivery(env, Done(response))])
  }

  lemma FailedWriteRuns(s: State, d: DeliveryId)
    requires KnownOrgs(s) && Is(s, d, Claimed)
    ensures WorkEndsIn(s, d, [WriteFails(d)] + [Release(d)], false, false, ServerError)
  {
    var s1 := Apply(s, WriteFails(d));
    var s2 := Apply(s1, Release(d));
    RunOne(s1, Release(d), []);
    RunOne(s, WriteFails(d), [Release(d)]);
    assert s2.deliveries == s.deliveries[d := Delivery(s.deliveries[d].env, Done(ServerError))];
  }

  lemma FailedObservationRuns(s: State, d: DeliveryId)
    requires KnownOrgs(s) && Is(s, d, Claimed) && s.deliveries[d].env.kind.SessionEvent?
    ensures WorkEndsIn(s, d, [Write(d)] + ([ObserveFails(d)] + [Release(d)]), true, false, ServerError)
  {
    var s1 := Apply(s, Write(d));
    var s2 := Apply(s1, ObserveFails(d));
    var s3 := Apply(s2, Release(d));
    RunOne(s2, Release(d), []);
    RunOne(s1, ObserveFails(d), [Release(d)]);
    RunOne(s, Write(d), [ObserveFails(d)] + [Release(d)]);
    assert s3.deliveries == s.deliveries[d := Delivery(s.deliveries[d].env, Done(ServerError))];
  }

  lemma RecordedWorkRuns(s: State, d: DeliveryId, finishes: bool)
    requires KnownOrgs(s) && Is(s, d, Claimed)
    ensures WorkEndsIn(s, d, [Write(d)] + ([Observe(d)] + [if finishes then Finish(d) else FinishFails(d)]),
                       true, true, if finishes then Accepted else ServerError)
  {
    var last := if finishes then Finish(d) else FinishFails(d);
    var s1 := Apply(s, Write(d));
    var s2 := Apply(s1, Observe(d));
    var s3 := Apply(s2, last);
    RunOne(s2, last, []);
    RunOne(s1, Observe(d), [last]);
    RunOne(s, Write(d), [Observe(d)] + [last]);
    assert s3.deliveries
        == s.deliveries[d := Delivery(s.deliveries[d].env, Done(if finishes then Accepted else ServerError))];
  }

  /** A request on its own is a run of the protocol, with this end. */
  lemma AloneRuns(s: State, d: DeliveryId, env: Envelope, luck: Luck)
    requires KnownOrgs(s) && d !in s.deliveries && OrgNumber(env.org) in s.tenantOf
    ensures Run(s, AloneSteps(s, d, env, luck))
    ensures End(s, AloneSteps(s, d, env, luck)) == AloneEnd(s, d, env, luck)
  {
    var s1 := Apply(s, Arrive(d, env));
    if !Acceptable(env) {
      RunOne(s1, Reject(d), []);
      RunOne(s, Arrive(d, env), [Reject(d)]);
      assert Apply(s1, Reject(d)).deliveries == AloneEnd(s, d, env, luck).deliveries;
    } else if env.key in s.markers {
      RunOne(s1, Claim(d), []);
      RunOne(s, Arrive(d, env), [Claim(d)]);
      assert Apply(s1, Claim(d)).deliveries == AloneEnd(s, d, env, luck).deliveries;
    } else {
      ClaimingRuns(s, d, env, luck);
    }
  }

  lemma ClaimingRuns(s: State, d: DeliveryId, env: Envelope, luck: Luck)
    requires KnownOrgs(s) && d !in s.deliveries && OrgNumber(env.org) in s.tenantOf
    requires Acceptable(env) && env.key !in s.markers
    ensures Run(s, AloneSteps(s, d, env, luck))
    ensures End(s, AloneSteps(s, d, env, luck)) == AloneEnd(s, d, env, luck)
  {
    var s1 := Apply(s, Arrive(d, env));
    var s2 := Apply(s1, Claim(d));
    var work := WorkSteps(d, env, luck);
    ClaimedEnd(s, d, env, luck);
    RunOne(s1, Claim(d), work);
    RunOne(s, Arrive(d, env), [Claim(d)] + work);
  }

  lemma ClaimedEnd(s: State, d: DeliveryId, env: Envelope, luck: Luck)
    requires KnownOrgs(s) && d !in s.deliveries && OrgNumber(env.org) in s.tenantOf
    requires Acceptable(env) && env.key !in s.markers
    ensures var s2 := s.(markers := s.markers + {env.key}, deliveries := s.deliveries[d := Delivery(env, Claimed)]);
            var work := WorkSteps(d, env, luck);
            && Apply(Apply(s, Arrive(d, env)), Claim(d)) == s2
            && Run(s2, work) && End(s2, work) == AloneEnd(s, d, env, luck)
  {
    var s2 := s.(markers := s.markers + {env.key}, deliveries := s.deliveries[d := Delivery(env, Claimed)]);
    ClaimedRuns(s2, d, luck);
    assert s2.markers - {env.key} == s.markers;
    assert End(s2, WorkSteps(d, env, luck)).deliveries == AloneEnd(s, d, env, luck).deliveries;
  }

  lemma ClaimedRuns(s: State, d: DeliveryId, luck: Luck)
    requires KnownOrgs(s) && Is(s, d, Claimed)
    ensures var env := s.deliveries[d].env;
            WorkEndsIn(s, d, WorkSteps(d, env, luck), luck.writes, !FailsAfterClaim(env, luck), WorkResponse(env, luck))
  {
    var env := s.deliveries[d].env;
    if !luck.writes {
      FailedWriteRuns(s, d);
    } else if FailsAfterClaim(env, luck) {
      FailedObservationRuns(s, d);
    } else {
      RecordedWorkRuns(s, d, luck.finishes);
    }
  }

  // ---- One row per key, when a key stands for one kind of event ----

  lemma {:induction false} RunsAppend(s: State, a: seq<Step>, b: seq<Step>)
    requires Run(s, a) && Run(End(s, a), b)
    ensures Run(s, a + b) && End(s, a + b) == End(End(s, a), b)
    decreases |a|
  {
    if a == [] {
      assert a + b == b;
    } else {
      assert (a + b)[1..] == a[1..] + b;
      RunsAppend(Apply(s, a[0]), a[1..], b);
    }
  }

  /** Only these envelopes are delivered. */
  ghost predicate Sends(steps: seq<Step>, sent: iset<Envelope>) {
    forall i :: 0 <= i < |steps| && steps[i].Arrive? ==> steps[i].env in sent
  }

  /** Nothing but these envelopes is known of. */
  ghost predicate Knows(s: State, sent: iset<Envelope>) {
    && (forall d :: d in s.deliveries ==> s.deliveries[d].env in sent)
    && (forall i :: 0 <= i < |s.rows| ==> s.rows[i].env in sent)
  }

  lemma KnowsOnlyTheSentOnce(s: State, step: Step, sent: iset<Envelope>)
    requires Allowed(s, step) && Knows(s, sent) && (step.Arrive? ==> step.env in sent)
    ensures Knows(Apply(s, step), sent) && Apply(s, step).tenantOf == s.tenantOf
  {
  }

  lemma {:induction false} KnowsOnlyTheSent(s: State, steps: seq<Step>, sent: iset<Envelope>)
    requires Run(s, steps) && Sends(steps, sent) && Knows(s, sent)
    ensures Knows(End(s, steps), sent) && End(s, steps).tenantOf == s.tenantOf
    decreases |steps|
  {
    if steps != [] {
      KnowsOnlyTheSentOnce(s, steps[0], sent);
      KnowsOnlyTheSent(Apply(s, steps[0]), steps[1..], sent);
    }
  }

  ghost predicate OneRowPerKey(rows: seq<Row>) {
    forall i, j :: 0 <= i < |rows| && 0 <= j < |rows| && rows[i].env.key == rows[j].env.key ==> i == j
  }

  /** It is not refused: its payload reads and its organisation has a tenant. */
  predicate Deliverable(s: State, env: Envelope) {
    Acceptable(env) && OrgNumber(env.org) in s.tenantOf
  }

  /** No key is used both for a session event and for another. */
  ghost predicate KindsAgree(s: State, sent: iset<Envelope>) {
    forall a, b :: a in sent && b in sent && Deliverable(s, a) && Deliverable(s, b) && a.key == b.key ==>
      (a.kind.SessionEvent? <==> b.kind.SessionEvent?)
  }

  lemma AgreeingKindsLeaveOneRow(s: State, steps: seq<Step>, sent: iset<Envelope>)
    requires Init(s) && Run(s, steps) && Sends(steps, sent) && KindsAgree(s, sent)
    ensures OneRowPerKey(End(s, steps).rows)
  {
    var t := End(s, steps);
    KnowsOnlyTheSent(s, steps, sent);
    InvHoldsThroughout(s, steps);
    forall i, j | 0 <= i < |t.rows| && 0 <= j < |t.rows| && t.rows[i].env.key == t.rows[j].env.key ensures i == j {
      assert RowKnown(t.rows[i], t.tenantOf) && RowKnown(t.rows[j], t.tenantOf);
      OneEvidenceRowPerKey(s, steps, i, j);
    }
  }

  lemma AloneSends(s: State, d: DeliveryId, env: Envelope, luck: Luck, sent: iset<Envelope>)
    requires env in sent
    ensures Sends(AloneSteps(s, d, env, luck), sent)
  {
    var steps := AloneSteps(s, d, env, luck);
    assert steps[0] == Arrive(d, env);
    assert forall i :: 1 <= i < |steps| ==> !steps[i].Arrive?;
  }

  lemma UnobservedSessionLeavesItsRow(s: State, session: Envelope)
    requires Init(s) && Deliverable(s, session) && session.kind.SessionEvent?
    ensures var t := AloneEnd(s, 0, session, Luck(true, false, true));
            && t.rows == [Row(session, s.tenantOf[OrgNumber(session.org)])] && t.markers == {}
            && t.deliveries.Keys == {0} && t.tenantOf == s.tenantOf && KnownOrgs(t)
  {
  }

  lemma FreeKeyTakesAnotherRow(s: State, other: Envelope)
    requires Deliverable(s, other) && !other.kind.SessionEvent? && s.markers == {}
    ensures AloneEnd(s, 1, other, Luck(true, true, true)).rows
         == s.rows + [Row(other, s.tenantOf[OrgNumber(other.org)])]
  {
  }

  /** A session event is written, its observation fails and its marker is released;
      then an event of another kind is accepted under the same key. */
  lemma TwoKindsLeaveTwoRows(s: State, session: Envelope, other: Envelope) returns (steps: seq<Step>)
    requires Init(s) && Deliverable(s, session) && Deliverable(s, other) && session.key == other.key
    requires session.kind.SessionEvent? && !other.kind.SessionEvent?
    ensures Run(s, steps) && Sends(steps, iset{session, other})
    ensures !OneRowPerKey(End(s, steps).rows)
  {
    var failing, clean := Luck(true, false, true), Luck(true, true, true);
    var sent := iset{session, other};
    var s1 := AloneEnd(s, 0, session, failing);
    UnobservedSessionLeavesItsRow(s, session);
    FreeKeyTakesAnotherRow(s1, other);
    AloneRuns(s, 0, session, failing);
    AloneRuns(s1, 1, other, clean);
    AloneSends(s, 0, session, failing, sent);
    AloneSends(s1, 1, other, clean, sent);
    steps := Both(s, AloneSteps(s, 0, session, failing), AloneSteps(s1, 1, other, clean), sent);
    var rows := End(s, steps).rows;
    assert |rows| == 2 && rows[0].env.key == rows[1].env.key;
  }

  lemma Both(s: State, a: seq<Step>, b: seq<Step>, sent: iset<Envelope>) returns (steps: seq<Step>)
    requires Run(s, a) && Run(End(s, a), b) && Sends(a, sent) && Sends(b, sent)
    ensures Run(s, steps) && Sends(steps, sent) && End(s, steps) == End(End(s, a), b)
  {
    RunsAppend(s, a, b);
    steps := a + b;
  }

  /** Whatever fails and is retried, each key has at most one evidence row if and
      only if no key is used both for a session event and for another. */
  lemma OneRowPerKeyExactlyWhen(s: State, sent: iset<Envelope>)
    requires Init(s)
    ensures (forall steps :: Run(s, steps) && Sends(steps, sent) ==> OneRowPerKey(End(s, steps).rows))
            <==> KindsAgree(s, sent)
  {
    if KindsAgree(s, sent) {
      forall steps | Run(s, steps) && Sends(steps, sent) ensures OneRowPerKey(End(s, steps).rows) {
        AgreeingKindsLeaveOneRow(s, steps, sent);
      }
    } else {
      var a, b :| a in sent && b in sent && Deliverable(s, a) && Deliverable(s, b) && a.key == b.key
                  && a.kind.SessionEvent? && !b.kind.SessionEvent?;
      var steps := TwoKindsLeaveTwoRows(s, a, b);
      assert Sends(steps, sent);
    }
  }

  // ---- Observing a session ----

  /** The keys whose session events were observed in the course of a run. */
  ghost function ObservedKeys(s: State, steps: seq<Step>): set<Key>
    requires Run(s, steps)
    decreases |steps|
  {
    if steps == [] then {}
    else
      var rest := ObservedKeys(Apply(s, steps[0]), steps[1..]);
      if steps[0].Observe? && s.deliveries[steps[0].d].env.kind.SessionEvent?
      then rest + {s.deliveries[steps[0].d].env.key} else rest
  }

  predicate PastObservation(s: State, d: DeliveryId) {
    d in s.deliveries && (s.deliveries[d].phase.Recorded? || s.deliveries[d].phase == Done(Accepted))
  }

  lemma OnlyObservingGetsPast(s: State, step: Step, d: DeliveryId)
    requires Allowed(s, step) && !PastObservation(s, d) && PastObservation(Apply(s, step), d)
    ensures step == Observe(d) && Apply(s, step).deliveries[d].env == s.deliveries[d].env
  {
  }

  lemma {:induction false} EnvelopesStay(s: State, steps: seq<Step>, d: DeliveryId)
    requires Run(s, steps) && d in s.deliveries
    ensures d in End(s, steps).deliveries && End(s, steps).deliveries[d].env == s.deliveries[d].env
    decreases |steps|
  {
    if steps != [] { EnvelopesStay(Apply(s, steps[0]), steps[1..], d); }
  }

  /** In every run an accepted session delivery was observed. */
  lemma {:induction false} AcceptedSessionsAreObserved(s: State, steps: seq<Step>, d: DeliveryId)
    requires Run(s, steps) && !PastObservation(s, d) && PastObservation(End(s, steps), d)
    requires End(s, steps).deliveries[d].env.kind.SessionEvent?
    ensures End(s, steps).deliveries[d].env.key in ObservedKeys(s, steps)
    decreases |steps|
  {
    var next := Apply(s, steps[0]);
    if PastObservation(next, d) {
      OnlyObservingGetsPast(s, steps[0], d);
      EnvelopesStay(next, steps[1..], d);
    } else {
      AcceptedSessionsAreObserved(next, steps[1..], d);
    }
  }

  /** A crash between writing a session's evidence and observing it loses no
      evidence, but nothing ever observes the event again. */
  lemma WrittenCrashSuppressesObservation(s: State, d: DeliveryId, steps: seq<Step>)
    requires Inv(s) && Is(s, d, Written) && s.deliveries[d].env.kind.SessionEvent?
    requires Run(Apply(s, Crash(d)), steps)
    ensures s.deliveries[d].env.key !in ObservedKeys(Apply(s, Crash(d)), steps)
  {
    StuckIsNeverObserved(Apply(s, Crash(d)), steps, s.deliveries[d].env.key);
  }

  lemma {:induction false} StuckIsNeverObserved(s: State, steps: seq<Step>, key: Key)
    requires Stuck(s, key) && Run(s, steps)
    ensures key !in ObservedKeys(s, steps)
    decreases |steps|
  {
    if steps != [] {
      StuckStaysOnce(s, steps[0], key);
      StuckIsNeverObserved(Apply(s, steps[0]), steps[1..], key);
    }
  }

  lemma StuckStaysOnce(s: State, step: Step, key: Key)
    requires Stuck(s, key) && Allowed(s, step)
    ensures Stuck(Apply(s, step), key)
  {
    if PhaseOnly(step) { PhaseStepMovesOn(s, step); }
  }

  /** What gets past the checks, by the envelope's own fields. */
  ghost predicate Passes(env: Envelope) {
    && env.key == "zentinelle-" + OrgText(env.org) + "-" + env.eventId
    && (env.kind.ModelSpend? ==> env.kind.timeReadable && exists spend :: Declares(env.kind.payload, spend))
  }

  lemma AcceptableExactly(env: Envelope)
    ensures Acceptable(env) <==> Passes(env)
  {
    assert KeyFor(env.org, env.eventId) == "zentinelle-" + OrgText(env.org) + "-" + env.eventId;
    if env.kind.ModelSpend? { DeclaredIsRead(env.kind.payload); }
  }

  class Collector {
    const tenantOf: map<nat, Tenant>
    var markers: set<Key>
    var rows: seq<Row>
    var spend: seq<(Key, Spend)>

    constructor (tenantOf: map<nat, Tenant>)
      ensures this.tenantOf == tenantOf && markers == {} && rows == [] && spend == []
    {
      this.tenantOf := tenantOf;
      markers, rows, spend := {}, [], [];
    }

    ghost function Abstract(deliveries: map<DeliveryId, Delivery>): State
      reads this
    {
      State(tenantOf, markers, rows, spend, deliveries)
    }

    /** astrolift_audit_webhook from the idempotency check on, without
        interference; AloneRuns says that its end is that of a protocol run. */
    method Accept(env: Envelope, luck: Luck, ghost d: DeliveryId, ghost deliveries: map<DeliveryId, Delivery>)
      returns (response: Response)
      requires OrgNumber(env.org) in tenantOf && d !in deliveries
      modifies this
      ensures Abstract(deliveries[d := Delivery(env, Done(response))])
           == AloneEnd(old(Abstract(deliveries)), d, env, luck)
      ensures response == Rejected <==> !Passes(env)
      ensures response == AlreadyAccepted <==> Passes(env) && env.key in old(markers)
      // The marker stays unless the evidence, or the observation of a session, failed.
      ensures markers == if response == Rejected || !luck.writes || (env.kind.SessionEvent? && !luck.observes)
                         then old(markers) else old(markers) + {env.key}
      // What is written is one row, for the tenant of the organisation named; `true` names organisation 1.
      ensures rows != old(rows) ==>
                var n := if env.org.JsonTrue? then 1 else env.org.n;
                n in tenantOf && rows == old(rows) + [Row(env, tenantOf[n])]
      // Model spend that is written is charged once, at what its payload declares; nothing else is charged.
      ensures if Passes(env) && env.key !in old(markers) && luck.writes && env.kind.ModelSpend?
              then |spend| == |old(spend)| + 1 && old(spend) < spend && spend[|old(spend)|].0 == env.key
                   && Declares(env.kind.payload, spend[|old(spend)|].1)
              else spend == old(spend)
    {
      AcceptableExactly(env);
      if env.kind.ModelSpend? { ChargesExactly(Row(env, tenantOf[OrgNumber(env.org)])); }
      if !Acceptable(env) { return Rejected; }
      if env.key in markers { return AlreadyAccepted; }
      markers := markers + {env.key};
      var failed := !luck.writes;
      if luck.writes {
        var tenant := tenantOf[OrgNumber(env.org)];
        if !(env.kind.SessionEvent? && SessionWritten(rows, tenant, env.eventId)) {
          spend := spend + SpendOf(Row(env, tenant));
          rows := rows + [Row(env, tenant)];
        }
        failed := env.kind.SessionEvent? && !luck.observes;
      }
      if failed {
        markers := markers - {env.key};
        return ServerError;
      }
      response := if luck.finishes then Accepted else ServerError;
    }
  }
}
