/** Exclusive publication of the local gateway credential.

    Web replicas race through check, mint, hard-link and then either revoke the
    credential they minted or sweep away every other one. The file slot and the
    credential table are shared; everything between two accesses to them may
    interleave with any number of other replicas, which may start at any time.
 */
module LocalCredential {
  import opened Basics
  import opened Wrappers

  type CredentialId = nat
  type ReplicaId = nat

  /** Where a replica stands in ensure_local_gateway_credential. */
  datatype Phase =
    | Idle                          // not in the function, or returned from it
    | Checked                       // saw no file in an existing directory
    | Minted(cred: CredentialId)    // holds a credential nobody else has seen
    | Linked(cred: CredentialId)    // published it; the sweep is still to come
    | Refused(cred: CredentialId)   // could not publish it; must revoke it

  datatype State = State(
    file: Option<CredentialId>,
    minted: set<CredentialId>,
    revoked: set<CredentialId>,
    phases: map<ReplicaId, Phase>)
  {
    function PhaseOf(r: ReplicaId): Phase {
      if r in phases then phases[r] else Idle
    }

    function Live(): set<CredentialId> {
      minted - revoked
    }

    ghost predicate FileIsLive() {
      file.Some? ==> file.value in Live()
    }

    ghost predicate AllReturned() {
      forall r :: PhaseOf(r).Idle?
    }
  }

  datatype Step =
    | Check(r: ReplicaId)
    | Decline(r: ReplicaId)                  // inactive registration, or a database error
    | Mint(r: ReplicaId, cred: CredentialId)
    | Link(r: ReplicaId)
    | LinkFails(r: ReplicaId)                // the file exists, or any other OSError
    | CleanupFails(r: ReplicaId)             // linked, but unlinking the temporary raised
    | RevokeOwn(r: ReplicaId)
    | Sweep(r: ReplicaId)
    | Crash(r: ReplicaId)
    | RemoveFile                             // an operator rotating the credential

  predicate Enabled(s: State, step: Step) {
    match step
    case Check(r) => s.PhaseOf(r).Idle? && s.file.None?
    case Decline(r) => s.PhaseOf(r).Checked?
    case Mint(r, c) => s.PhaseOf(r).Checked? && c !in s.minted
    case Link(r) => s.PhaseOf(r).Minted? && s.file.None?
    case LinkFails(r) => s.PhaseOf(r).Minted?
    case CleanupFails(r) => s.PhaseOf(r).Minted? && s.file.None?
    case RevokeOwn(r) => s.PhaseOf(r).Refused?
    case Sweep(r) => s.PhaseOf(r).Linked?
    case Crash(r) => true
    case RemoveFile => s.file.Some?
  }

  function Apply(s: State, step: Step): State
    requires Enabled(s, step)
  {
    match step
    case Check(r) => s.(phases := s.phases[r := Checked])
    case Decline(r) => s.(phases := s.phases[r := Idle])
    case Mint(r, c) => s.(minted := s.minted + {c}, phases := s.phases[r := Minted(c)])
    case Link(r) =>
      var c := s.PhaseOf(r).cred;
      s.(file := Some(c), phases := s.phases[r := Linked(c)])
    case LinkFails(r) => s.(phases := s.phases[r := Refused(s.PhaseOf(r).cred)])
    case CleanupFails(r) =>
      var c := s.PhaseOf(r).cred;
      s.(file := Some(c), phases := s.phases[r := Refused(c)])
    case RevokeOwn(r) =>
      s.(revoked := s.revoked + {s.PhaseOf(r).cred}, phases := s.phases[r := Idle])
    case Sweep(r) =>
      s.(revoked := s.revoked + (s.minted - {s.PhaseOf(r).cred}), phases := s.phases[r := Idle])
    case Crash(r) => s.(phases := s.phases[r := Idle])
    case RemoveFile => s.(file := None)
  }

  /** An operator may take the file away now: nobody is between link and sweep,
      and nobody still holds a credential that a sweep has already revoked. */
  ghost predicate RemovalSafe(s: State) {
    forall r :: match s.PhaseOf(r)
                case Linked(c) => false
                case Minted(c) => c in s.Live()
                case _ => true
  }

  /** The steps the publication protocol is correct under. */
  ghost predicate Allowed(s: State, step: Step) {
    && Enabled(s, step)
    && !step.CleanupFails?
    && (step.RemoveFile? ==> RemovalSafe(s))
  }

  ghost predicate Run(s: State, steps: seq<Step>)
    decreases |steps|
  {
    steps == [] || (Allowed(s, steps[0]) && Run(Apply(s, steps[0]), steps[1..]))
  }

  ghost function End(s: State, steps: seq<Step>): State
    requires Run(s, steps)
    decreases |steps|
  {
    if steps == [] then s else End(Apply(s, steps[0]), steps[1..])
  }

  /** A start: no replica is in the function, and a file left by an earlier
      start holds a credential that still works. */
  ghost predicate Init(s: State) {
    s.revoked <= s.minted && s.FileIsLive() && s.AllReturned()
  }

  predicate Holds(p: Phase, c: CredentialId) {
    (p.Minted? || p.Linked? || p.Refused?) && p.cred == c
  }

  predicate Publishable(p: Phase) {
    p.Minted? || p.Refused?
  }

  /** What every allowed step keeps. */
  ghost predicate Inv(s: State) {
    && s.revoked <= s.minted
    && s.FileIsLive()
    && (forall r, c :: Holds(s.PhaseOf(r), c) ==> c in s.minted)
    && (forall r, q, c :: Holds(s.PhaseOf(r), c) && Holds(s.PhaseOf(q), c) ==> r == q)
    && (forall r :: s.PhaseOf(r).Linked? ==> s.file == Some(s.PhaseOf(r).cred))
    && (forall r :: Publishable(s.PhaseOf(r)) ==> s.file != Some(s.PhaseOf(r).cred))
    && (s.file.None? ==> forall r :: s.PhaseOf(r).Minted? ==> s.PhaseOf(r).cred in s.Live())
  }

  lemma OtherPhasesStay(s: State, step: Step)
    requires Enabled(s, step)
    ensures forall q :: step.RemoveFile? || q != step.r ==> Apply(s, step).PhaseOf(q) == s.PhaseOf(q)
  {
  }

  lemma InvIsKept(s: State, step: Step)
    requires Inv(s) && Allowed(s, step)
    ensures Inv(Apply(s, step))
  {
    var t := Apply(s, step);
    OtherPhasesStay(s, step);
    if step.Link? || step.LinkFails? || step.RevokeOwn? || step.Sweep? {
      assert Holds(s.PhaseOf(step.r), s.PhaseOf(step.r).cred);
    }
    forall q | Publishable(t.PhaseOf(q))
      ensures t.file != Some(t.PhaseOf(q).cred)
      ensures t.file.None? && t.PhaseOf(q).Minted? ==> t.PhaseOf(q).cred in t.Live()
    {
      assert Holds(t.PhaseOf(q), t.PhaseOf(q).cred);
      if step.RemoveFile? || q != step.r {
        assert Holds(s.PhaseOf(q), t.PhaseOf(q).cred);
      }
    }
  }

  lemma {:induction false} InvHoldsThroughout(s: State, steps: seq<Step>)
    requires Inv(s) && Run(s, steps)
    ensures Inv(End(s, steps))
    decreases |steps|
  {
    if steps != [] {
      InvIsKept(s, steps[0]);
      InvHoldsThroughout(Apply(s, steps[0]), steps[1..]);
    }
  }

  /** Safety: for any number of replicas and any interleaving, a published file
      always holds a credential that has not been revoked. */
  lemma PublishedCredentialIsLive(s: State, steps: seq<Step>)
    requires Init(s) && Run(s, steps)
    ensures End(s, steps).FileIsLive()
  {
    InvHoldsThroughout(s, steps);
  }

  /** ... and never is a second replica between its link and its sweep. */
  lemma OnePublisherAtATime(s: State, steps: seq<Step>, r: ReplicaId, q: ReplicaId)
    requires Init(s) && Run(s, steps)
    requires End(s, steps).PhaseOf(r).Linked? && End(s, steps).PhaseOf(q).Linked?
    ensures r == q
  {
    InvHoldsThroughout(s, steps);
    assert Holds(End(s, steps).PhaseOf(r), End(s, steps).PhaseOf(r).cred);
  }

  /** Every continuation of the protocol after `s` keeps the file's credential live. */
  ghost predicate SafeEverAfter(s: State) {
    forall steps :: Run(s, steps) ==> End(s, steps).FileIsLive()
  }

  /** From a state where removal is not safe, some continuation publishes a
      revoked credential: the swept holder links it, or the pending sweep
      revokes what a newcomer links. */
  lemma UnsafeRemovalWitness(s: State) returns (steps: seq<Step>)
    requires Inv(s) && s.file.Some? && !RemovalSafe(s)
    ensures Run(Apply(s, RemoveFile), steps) && !End(Apply(s, RemoveFile), steps).FileIsLive()
  {
    var t := Apply(s, RemoveFile);
    if r :| s.PhaseOf(r).Minted? && s.PhaseOf(r).cred !in s.Live() {
      steps := [Link(r)];
      assert Run(Apply(t, Link(r)), steps[1..]);
    } else {
      var r :| s.PhaseOf(r).Linked?;
      assert Holds(s.PhaseOf(r), s.PhaseOf(r).cred);
      var q := FreshId(s.phases.Keys);
      var d := FreshId(s.minted);
      var t1 := Apply(t, Check(q));
      var t2 := Apply(t1, Mint(q, d));
      var t3 := Apply(t2, Link(q));
      var t4 := Apply(t3, Sweep(r));
      assert Run(t4, []);
      assert Run(t3, [Sweep(r)]) && End(t3, [Sweep(r)]) == t4;
      assert [Link(q), Sweep(r)][1..] == [Sweep(r)];
      assert Run(t2, [Link(q), Sweep(r)]) && End(t2, [Link(q), Sweep(r)]) == t4;
      assert [Mint(q, d), Link(q), Sweep(r)][1..] == [Link(q), Sweep(r)];
      assert Run(t1, [Mint(q, d), Link(q), Sweep(r)]) && End(t1, [Mint(q, d), Link(q), Sweep(r)]) == t4;
      steps := [Check(q), Mint(q, d), Link(q), Sweep(r)];
      assert steps[1..] == [Mint(q, d), Link(q), Sweep(r)];
    }
  }

  /** Removing the file is safe exactly when no replica is between link and
      sweep and none holds a credential that was swept while it waited. */
  lemma RemovalIsSafeExactlyWhen(s: State)
    requires Inv(s) && s.file.Some?
    ensures RemovalSafe(s) <==> SafeEverAfter(Apply(s, RemoveFile))
  {
    var t := Apply(s, RemoveFile);
    if RemovalSafe(s) {
      InvIsKept(s, RemoveFile);
      forall steps | Run(t, steps) ensures End(t, steps).FileIsLive() {
        InvHoldsThroughout(t, steps);
      }
    } else {
      var steps := UnsafeRemovalWitness(s);
    }
  }

  /** The second replica mints its credential; then the first links its own and sweeps. */
  lemma FirstOneWins(s3: State) returns (steps: seq<Step>, before: State)
    requires s3 == State(None, {0}, {}, map[0 := Minted(0), 1 := Checked])
    ensures Run(s3, steps) && End(s3, steps) == before
    ensures before == State(Some(0), {0, 1}, {1}, map[0 := Idle, 1 := Minted(1)])
  {
    var s4 := Apply(s3, Mint(1, 1));
    var s5 := Apply(s4, Link(0));
    before := Apply(s5, Sweep(0));
    RunOne(s5, Sweep(0), []);
    RunOne(s4, Link(0), [Sweep(0)]);
    RunOne(s3, Mint(1, 1), [Link(0)] + [Sweep(0)]);
    steps := [Mint(1, 1)] + ([Link(0)] + [Sweep(0)]);
  }

  /** Waiting for the link-to-sweep windows alone is not enough: here nobody is
      in one, and after the removal a replica publishes a revoked credential. */
  lemma SweptReplicaRepublishes() returns (s: State, steps: seq<Step>, before: State)
    ensures Init(s) && Run(s, steps) && End(s, steps) == before
    ensures Enabled(before, RemoveFile) && !SweepPending(before)
    ensures Enabled(Apply(before, RemoveFile), Link(1))
    ensures !Apply(Apply(before, RemoveFile), Link(1)).FileIsLive()
  {
    s := State(None, {}, {}, map[]);
    var s1 := Apply(s, Check(0));
    var s2 := Apply(s1, Mint(0, 0));
    var s3 := Apply(s2, Check(1));
    steps, before := FirstOneWins(s3);
    RunOne(s2, Check(1), steps);
    steps := [Check(1)] + steps;
    RunOne(s1, Mint(0, 0), steps);
    steps := [Mint(0, 0)] + steps;
    RunOne(s, Check(0), steps);
    steps := [Check(0)] + steps;
  }

  lemma RunOne(s: State, step: Step, rest: seq<Step>)
    requires Allowed(s, step) && Run(Apply(s, step), rest)
    ensures Run(s, [step] + rest) && End(s, [step] + rest) == End(Apply(s, step), rest)
  {
    assert ([step] + rest)[1..] == rest;
  }

  /** If unlinking the temporary file fails after the link, the replica takes
      the OSError branch and revokes the very credential it published. */
  lemma CleanupFailureRevokesThePublished(s: State, r: ReplicaId)
    requires Inv(s) && Enabled(s, CleanupFails(r))
    ensures var t := Apply(s, CleanupFails(r));
            t.FileIsLive() && Enabled(t, RevokeOwn(r)) && !Apply(t, RevokeOwn(r)).FileIsLive()
  {
    assert Holds(s.PhaseOf(r), s.PhaseOf(r).cred);
  }

  // ---- Once everyone has returned, only the file's credential is left ----

  /** `c` works, but neither the file nor any replica accounts for it. */
  ghost predicate Stray(s: State, c: CredentialId) {
    && c in s.Live()
    && s.file != Some(c)
    && (forall r :: !Holds(s.PhaseOf(r), c))
  }

  ghost predicate SweepPending(s: State) { exists r :: s.PhaseOf(r).Linked? }

  ghost predicate Accounted(s: State) {
    s.file.Some? && !SweepPending(s) ==> forall c :: !Stray(s, c)
  }

  /** A crash that costs nothing: the replica held no working credential, or a
      sweep by another replica is pending, or is certain because there is no file. */
  ghost predicate CrashHarmless(s: State, r: ReplicaId) {
    || s.file.None?
    || (exists q :: q != r && s.PhaseOf(q).Linked?)
    || (match s.PhaseOf(r)
        case Minted(c) => c !in s.Live()
        case Refused(c) => c !in s.Live()
        case Linked(c) => forall d :: d in s.Live() && d != c ==> exists q :: Holds(s.PhaseOf(q), d)
        case _ => true)
  }

  ghost predicate HarmlessRun(s: State, steps: seq<Step>)
    decreases |steps|
  {
    steps == [] ||
    (&& Allowed(s, steps[0])
     && (steps[0].Crash? ==> CrashHarmless(s, steps[0].r))
     && HarmlessRun(Apply(s, steps[0]), steps[1..]))
  }

  lemma {:induction false} HarmlessRunIsRun(s: State, steps: seq<Step>)
    requires HarmlessRun(s, steps)
    ensures Run(s, steps)
    decreases |steps|
  {
    if steps != [] { HarmlessRunIsRun(Apply(s, steps[0]), steps[1..]); }
  }

  lemma AccountedIsKept(s: State, step: Step)
    requires Inv(s) && Accounted(s) && Allowed(s, step)
    requires step.Crash? ==> CrashHarmless(s, step.r)
    ensures Accounted(Apply(s, step))
  {
    var t := Apply(s, step);
    OtherPhasesStay(s, step);
    if t.file.None? || SweepPending(t) || step.RemoveFile? { return; }
    var r := step.r;
    assert !t.PhaseOf(r).Linked?;
    forall c ensures !Stray(t, c) {
      if step.Mint? && c == step.cred {
        assert Holds(t.PhaseOf(r), c);
      } else if step.LinkFails? && Holds(s.PhaseOf(r), c) {
        assert Holds(t.PhaseOf(r), c);
      } else if q :| q != r && Holds(s.PhaseOf(q), c) {
        assert Holds(t.PhaseOf(q), c);
      } else if !SweepPending(s) && s.file.Some? {
        assert !Stray(s, c);
      }
    }
  }

  lemma {:induction false} AccountedThroughout(s: State, steps: seq<Step>)
    requires Inv(s) && Accounted(s) && HarmlessRun(s, steps)
    ensures Run(s, steps) && Accounted(End(s, steps))
    decreases |steps|
  {
    HarmlessRunIsRun(s, steps);
    if steps != [] {
      InvIsKept(s, steps[0]);
      AccountedIsKept(s, steps[0]);
      AccountedThroughout(Apply(s, steps[0]), steps[1..]);
    }
  }

  /** Once every replica has returned, the file's credential is the one and only
      unrevoked credential of the local registration. */
  lemma OnlyThePublishedCredentialIsLeft(s: State, steps: seq<Step>)
    requires Init(s) && Accounted(s) && HarmlessRun(s, steps)
    ensures Run(s, steps)
    ensures var t := End(s, steps);
            t.AllReturned() && t.file.Some? ==> t.Live() == {t.file.value}
  {
    AccountedThroughout(s, steps);
    InvHoldsThroughout(s, steps);
    var t := End(s, steps);
    if t.AllReturned() && t.file.Some? {
      forall c | c in t.Live() ensures c == t.file.value {
        assert !Stray(t, c);
      }
    }
  }

  ghost predicate NoRemoval(steps: seq<Step>) {
    forall i :: 0 <= i < |steps| ==> !steps[i].RemoveFile?
  }

  /** The condition on crashes is exact: any other crash leaves a working
      credential that nothing revokes for as long as the file stays. */
  lemma HarmfulCrashLeavesAStray(s: State, r: ReplicaId) returns (c: CredentialId)
    requires Inv(s) && !CrashHarmless(s, r)
    ensures var t := Apply(s, Crash(r));
            forall steps :: Run(t, steps) && NoRemoval(steps) ==> Stray(End(t, steps), c)
  {
    var t := Apply(s, Crash(r));
    if s.PhaseOf(r).Linked? {
      c :| c in s.Live() && c != s.PhaseOf(r).cred && forall q :: !Holds(s.PhaseOf(q), c);
    } else {
      c := s.PhaseOf(r).cred;
    }
    InvIsKept(s, Crash(r));
    assert Holds(s.PhaseOf(r), s.PhaseOf(r).cred);
    assert forall q :: t.PhaseOf(q) == if q == r then Idle else s.PhaseOf(q);
    forall steps | Run(t, steps) && NoRemoval(steps) ensures Stray(End(t, steps), c) {
      StrayStays(t, steps, c);
    }
  }

  lemma {:induction false} StrayStays(s: State, steps: seq<Step>, c: CredentialId)
    requires Inv(s) && s.file.Some? && !SweepPending(s) && Stray(s, c)
    requires Run(s, steps) && NoRemoval(steps)
    ensures Stray(End(s, steps), c)
    decreases |steps|
  {
    if steps != [] {
      var t := Apply(s, steps[0]);
      InvIsKept(s, steps[0]);
      assert !steps[0].RemoveFile?;
      assert forall q :: q != steps[0].r ==> t.PhaseOf(q) == s.PhaseOf(q);
      assert !SweepPending(t);
      assert forall q :: Holds(t.PhaseOf(q), c) ==> q == steps[0].r;
      StrayStays(t, steps[1..], c);
    }
  }

  // ---- The function as one replica runs it ----

  datatype Registration = Active | Inactive | DatabaseError

  /** The shared file slot and the credentials of the local registration. */
  class Install {
    var file: Option<CredentialId>
    var minted: set<CredentialId>
    var revoked: set<CredentialId>

    ghost predicate Valid()
      reads this
    {
      revoked <= minted
    }

    constructor ()
      ensures Valid() && file == None && minted == {} && revoked == {}
    {
      file, minted, revoked := None, {}, {};
    }

    ghost function Abstract(phases: map<ReplicaId, Phase>): State
      reads this
    {
      State(file, minted, revoked, phases)
    }

    /** ensure_local_gateway_credential without interference. `written` is
        whether the path came back. The ghost trace shows that what it did is a
        run of the protocol above. */
    method EnsureLocalCredential(
        wanted: bool, directoryExists: bool, registration: Registration, writable: bool,
        cred: CredentialId, r: ReplicaId, ghost phases: map<ReplicaId, Phase>)
      returns (written: bool, ghost steps: seq<Step>, ghost after: map<ReplicaId, Phase>)
      requires Valid() && cred !in minted
      requires Abstract(phases).PhaseOf(r).Idle?
      modifies this
      ensures Valid()
      ensures Run(old(Abstract(phases)), steps) && End(old(Abstract(phases)), steps) == Abstract(after)
      ensures Abstract(after).PhaseOf(r).Idle?
      ensures written <==> wanted && old(file).None? && directoryExists && registration.Active? && writable
      ensures written ==> file == Some(cred) && minted == old(minted) + {cred} && minted - revoked == {cred}
      ensures !written ==> file == old(file) && minted - revoked == old(minted) - old(revoked)
    {
      steps, after := [], phases;
      if !wanted || file.Some? || !directoryExists {
        return false, steps, after;
      }
      ghost var s0 := Abstract(phases);
      ghost var s1 := Apply(s0, Check(r));
      if !registration.Active? {
        RunOne(s1, Decline(r), []);
        RunOne(s0, Check(r), [Decline(r)]);
        steps, after := [Check(r), Decline(r)], Apply(s1, Decline(r)).phases;
        return false, steps, after;
      }
      minted := minted + {cred};
      ghost var s2 := Apply(s1, Mint(r, cred));
      ghost var publish := if writable then Link(r) else LinkFails(r);
      ghost var settle := if writable then Sweep(r) else RevokeOwn(r);
      ghost var s3 := Apply(s2, publish);
      ghost var s4 := Apply(s3, settle);
      if writable {
        file := Some(cred);
        revoked := revoked + (minted - {cred});
      } else {
        revoked := revoked + {cred};
      }
      RunOne(s3, settle, []);
      RunOne(s2, publish, [settle]);
      RunOne(s1, Mint(r, cred), [publish, settle]);
      RunOne(s0, Check(r), [Mint(r, cred), publish, settle]);
      steps, after := [Check(r), Mint(r, cred), publish, settle], s4.phases;
      assert [Check(r)] + ([Mint(r, cred)] + ([publish] + [settle])) == steps;
      written := writable;
    }
  }
}
