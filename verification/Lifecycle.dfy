/**
 The reconcile, finalizer and Azure lifecycle protocol as one state machine.

 The API server keeps every version the custom resource ever had (`history`, the
 resource version is the index), Azure keeps one `Remote` per cluster identity, and
 the operator is a program counter with the copy it fetched.  The user, Azure and the
 operator take steps in any order; every call may fail, and a poll that fails leaves
 the Azure operation running.

 `Assumptions` names what the protocol relies on.  `NoOrphanIffAssumptions` shows that
 the four together are exactly what "no orphaned Azure cluster" needs: they suffice over
 every run, and dropping any one of them admits a run that orphans a cluster.
 */
module Lifecycle {
  import opened Wrappers

  // ---------- Entities ----------

  datatype Spec = Spec(namespace: string, project: string, clusterId: string)

  datatype AzureId = AzureId(resourceGroup: string, clusterName: string)

  /** getResourceGroupName and getClusterName: the namespace stands in for an empty project. */
  function Identity(spec: Spec): AzureId {
    AzureId(if spec.project != "" then spec.project else spec.namespace, spec.clusterId)
  }

  datatype Resource = Resource(spec: Spec, finalizer: bool, otherFinalizers: bool, deleting: bool)

  datatype Provisioning = Creating | Updating | Deleting | Succeeded | Failed | Other

  /** A cluster as a read shows it; `body` stands for everything but the provisioning state. */
  datatype Cluster = Cluster(state: Provisioning, body: nat)

  predicate Busy(c: Cluster) {
    c.state.Creating? || c.state.Updating? || c.state.Deleting?
  }

  /** `visible` is what a read of the cluster shows; `running` says that an accepted write is in flight. */
  datatype Remote = Remote(visible: Option<Cluster>, running: bool)

  const GONE := Remote(None, false)

  function At(azure: map<AzureId, Remote>, id: AzureId): Remote {
    if id in azure then azure[id] else GONE
  }

  datatype Assumptions = Assumptions(
    monotoneReads: bool,      // a read of the resource never goes back behind an earlier one
    stableIdentity: bool,     // edits do not change the Azure resource group or cluster name
    finalizerUntouched: bool, // only the operator edits its finalizer
    truthfulAbsence: bool)    // "not found" is reported for a delete only when nothing exists or is in flight

  const ALL_HOLD := Assumptions(true, true, true, true)

  /** What the operator did, in order; `Started` separates reconciles. */
  datatype Event =
    | Started(found: Option<Resource>)
    | FinalizerAdded
    | ReadAbsent
    | Read(cluster: Cluster)
    | Outdated
    | UpToDate
    | CreateSent
    | UpdateSent
    | Refused409
    | Reported(seen: Cluster)
    | DeleteSent
    | DeleteConfirmed
    | FinalizerDropped

  datatype Pc =
    | Idle
    | AddFinalizer
    | InitStatus
    | Observe
    | MustCreate
    | Compare(c: Cluster)
    | MustUpdate(c: Cluster)
    | PollWrite(update: Option<Cluster>)
    | Report
    | DeleteStatus
    | DeleteCall
    | PollDelete
    | Cleanup

  datatype State = State(
    history: seq<Option<Resource>>,
    azure: map<AzureId, Remote>,
    pc: Pc,
    copy: Resource,
    copyRv: nat,
    seen: nat,
    trace: seq<Event>)

  const BLANK := Resource(Spec("", "", ""), false, false, false)

  const INIT := State([None], map[], Idle, BLANK, 0, 0, [])

  // ---------- Steps ----------

  datatype GetReply = Found(c: Cluster) | Absent | GetFailed

  datatype WriteReply = Accepted | Conflict | Rejected

  datatype WriteEnd = Finished | EndsInConflict | Broke

  datatype DeleteReply = DeleteAccepted | DeleteAbsent | DeleteFailed

  datatype PollReply = Done | SaysAbsent | PollFailed

  datatype Action =
    // The environment
    | UserCreates(r: Resource)
    | UserEdits(r: Resource)
    | UserDeletes
    | AzureMoves(id: AzureId, remote: Remote)
    | Crash
    // The operator
    | Fetch(rv: nat)
    | WriteFinalizer(served: bool)
    | WriteStatus(served: bool)
    | GetCluster(get: GetReply)
    | NeedsUpdate(needed: bool)
    | SendWrite(reply: WriteReply)
    | PollWriteEnds(end: WriteEnd)
    | Finish
    | SendDelete(del: DeleteReply)
    | PollDeleteEnds(poll: PollReply)
    | RemoveFinalizer(served: bool)

  predicate WellFormed(s: State) {
    |s.history| > 0
  }

  function Current(s: State): Option<Resource>
    requires WellFormed(s)
  {
    s.history[|s.history| - 1]
  }

  /** The API server drops an object that is marked for deletion and has no finalizer left. */
  function Settle(r: Resource): Option<Resource> {
    if r.deleting && !r.finalizer && !r.otherFinalizers then None else Some(r)
  }

  predicate EditAllowed(e: Assumptions, r: Resource, r': Resource) {
    && r'.deleting == r.deleting
    && r'.spec.namespace == r.spec.namespace
    && (r.deleting && r'.otherFinalizers ==> r.otherFinalizers)
    && (e.finalizerUntouched ==> r'.finalizer == r.finalizer)
    && (e.stableIdentity ==> Identity(r'.spec) == Identity(r.spec))
  }

  /** A write of the operator's copy takes effect only on the version it was read at. */
  predicate UpToDateCopy(s: State)
    requires WellFormed(s)
  {
    s.copyRv == |s.history| - 1 && Current(s).Some?
  }

  predicate Enabled(e: Assumptions, s: State, a: Action) {
    WellFormed(s) &&
    match a
    case UserCreates(r) => Current(s).None? && !r.deleting
    case UserEdits(r) => Current(s).Some? && EditAllowed(e, Current(s).value, r)
    case UserDeletes => Current(s).Some?
    case AzureMoves(id, remote) => At(s.azure, id) == GONE ==> remote == GONE
    case Crash => true
    case Fetch(rv) => s.pc.Idle? && rv < |s.history| && (e.monotoneReads ==> s.seen <= rv)
    case WriteFinalizer(_) => s.pc.AddFinalizer?
    case WriteStatus(_) => s.pc.InitStatus? || s.pc.Report? || s.pc.DeleteStatus?
    case GetCluster(reply) =>
      s.pc.Observe? &&
      (match reply
       case Found(c) => At(s.azure, Identity(s.copy.spec)).visible == Some(c)
       case Absent => At(s.azure, Identity(s.copy.spec)).visible.None?
       case GetFailed => true)
    case NeedsUpdate(_) => s.pc.Compare?
    case SendWrite(_) => s.pc.MustCreate? || s.pc.MustUpdate?
    case PollWriteEnds(_) => s.pc.PollWrite?
    case Finish => s.pc.Report?
    case SendDelete(reply) =>
      s.pc.DeleteCall? &&
      (reply.DeleteAbsent? && e.truthfulAbsence ==> At(s.azure, Identity(s.copy.spec)) == GONE)
    case PollDeleteEnds(reply) =>
      s.pc.PollDelete? &&
      (reply.Done? ==> At(s.azure, Identity(s.copy.spec)) == GONE) &&
      (reply.SaysAbsent? && e.truthfulAbsence ==> At(s.azure, Identity(s.copy.spec)) == GONE)
    case RemoveFinalizer(_) => s.pc.Cleanup?
  }

  /** The new version of the resource after the operator writes `r` over its copy. */
  function Put(s: State, r: Resource): State {
    s.(history := s.history + [Settle(r)])
  }

  function Log(s: State, events: seq<Event>): State {
    s.(trace := s.trace + events)
  }

  function DoFetch(s: State, rv: nat): State
    requires rv < |s.history|
  {
    match s.history[rv]
    case None => Log(s.(seen := rv), [Started(None)])
    case Some(r) =>
      Log(s.(seen := rv, copy := r, copyRv := rv,
             pc := if r.deleting then DeleteStatus else if !r.finalizer then AddFinalizer else InitStatus),
          [Started(Some(r))])
  }

  function AfterStatus(pc: Pc): Pc {
    match pc
    case InitStatus => Observe
    case DeleteStatus => DeleteCall
    case _ => pc
  }

  function DoGetCluster(s: State, reply: GetReply): State {
    match reply
    case Absent => Log(s.(pc := MustCreate), [ReadAbsent])
    case GetFailed => s.(pc := Report)
    case Found(c) =>
      if Busy(c) then Log(s.(pc := Report), [Read(c), Reported(c)])
      else Log(s.(pc := Compare(c)), [Read(c)])
  }

  function DoSendWrite(s: State, reply: WriteReply): State
    requires s.pc.MustCreate? || s.pc.MustUpdate?
  {
    var id := Identity(s.copy.spec);
    var sent := if s.pc.MustCreate? then CreateSent else UpdateSent;
    var polling := PollWrite(if s.pc.MustCreate? then None else Some(s.pc.c));
    match reply
    case Accepted =>
      Log(s.(pc := polling, azure := s.azure[id := At(s.azure, id).(running := true)]), [sent])
    case Conflict =>
      if s.pc.MustUpdate? then Log(s.(pc := Report), [sent, Refused409, Reported(s.pc.c)])
      else Log(s.(pc := Report), [sent])
    case Rejected => Log(s.(pc := Report), [sent])
  }

  function DoSendDelete(s: State, reply: DeleteReply): State {
    var id := Identity(s.copy.spec);
    match reply
    case DeleteAccepted =>
      if At(s.azure, id) == GONE then Log(s.(pc := PollDelete), [DeleteSent])
      else
        var body := if At(s.azure, id).visible.Some? then At(s.azure, id).visible.value.body else 0;
        var azure := s.azure[id := At(s.azure, id).(visible := Some(Cluster(Deleting, body)))];
        Log(s.(pc := PollDelete, azure := azure), [DeleteSent])
    case DeleteAbsent => Log(s.(pc := Cleanup), [DeleteSent, DeleteConfirmed])
    case DeleteFailed => Log(s.(pc := Idle), [DeleteSent])
  }

  function DoRemoveFinalizer(s: State, served: bool): State
    requires WellFormed(s)
  {
    if s.copy.finalizer && served && UpToDateCopy(s) then
      Log(Put(s.(pc := Idle), s.copy.(finalizer := false)), [FinalizerDropped])
    else
      s.(pc := Idle)
  }

  function Do(e: Assumptions, s: State, a: Action): State
    requires Enabled(e, s, a)
  {
    match a
    case UserCreates(r) => s.(history := s.history + [Some(r)])
    case UserEdits(r) => Put(s, r)
    case UserDeletes => Put(s, Current(s).value.(deleting := true))
    case AzureMoves(id, remote) => s.(azure := s.azure[id := remote])
    case Crash => s.(pc := Idle)
    case Fetch(rv) => DoFetch(s, rv)
    case WriteFinalizer(served) =>
      if served && UpToDateCopy(s) then Log(Put(s.(pc := Idle), s.copy.(finalizer := true)), [FinalizerAdded])
      else s.(pc := Idle)
    case WriteStatus(served) =>
      if served && UpToDateCopy(s) then
        s.(pc := AfterStatus(s.pc), copyRv := |s.history|, history := s.history + [Some(s.copy)])
      else s.(pc := AfterStatus(s.pc))
    case GetCluster(reply) => DoGetCluster(s, reply)
    case NeedsUpdate(needed) =>
      if needed then Log(s.(pc := MustUpdate(s.pc.c)), [Outdated])
      else Log(s.(pc := Report), [UpToDate, Reported(s.pc.c)])
    case SendWrite(reply) => DoSendWrite(s, reply)
    case PollWriteEnds(end) =>
      if end.EndsInConflict? && s.pc.update.Some? then
        Log(s.(pc := Report), [Refused409, Reported(s.pc.update.value)])
      else s.(pc := Report)
    case Finish => s.(pc := Idle)
    case SendDelete(reply) => DoSendDelete(s, reply)
    case PollDeleteEnds(reply) =>
      if reply.PollFailed? then s.(pc := Idle) else Log(s.(pc := Cleanup), [DeleteConfirmed])
    case RemoveFinalizer(served) => DoRemoveFinalizer(s, served)
  }

  // ---------- Runs ----------

  datatype Run = Start | Then(before: Run, action: Action)

  ghost predicate Legal(e: Assumptions, s: State, run: Run)
    decreases run, 0
  {
    match run
    case Start => true
    case Then(before, a) => Legal(e, s, before) && Enabled(e, After(e, s, before), a)
  }

  /** The state that a run from `s` ends in. */
  ghost function After(e: Assumptions, s: State, run: Run): State
    requires Legal(e, s, run)
    decreases run, 1
  {
    match run
    case Start => s
    case Then(before, a) => Do(e, After(e, s, before), a)
  }

  // ---------- No orphan ----------

  /** A cluster that exists, or has a write in flight, still has a resource that will delete it. */
  ghost predicate NoOrphan(s: State) {
    WellFormed(s) &&
    forall id :: At(s.azure, id) != GONE ==> Current(s).Some? && Current(s).value.finalizer
  }

  ghost predicate Guarded(s: State, id: AzureId) {
    WellFormed(s) && Current(s).Some? && Current(s).value.finalizer && Identity(Current(s).value.spec) == id
  }

  predicate Live(r: Option<Resource>) {
    r.Some? && r.value.finalizer && !r.value.deleting
  }

  /** Once version `v` is live, every later version keeps the finalizer and the identity. */
  ghost predicate KeptFrom(history: seq<Option<Resource>>, v: nat) {
    v < |history| && Live(history[v]) ==>
      forall u :: v <= u < |history| ==>
        history[u].Some? && history[u].value.finalizer &&
        Identity(history[u].value.spec) == Identity(history[v].value.spec)
  }

  predicate InCreatePath(pc: Pc) {
    pc.InitStatus? || pc.Observe? || pc.MustCreate? || pc.Compare? || pc.MustUpdate? || pc.PollWrite? || pc.Report?
  }

  predicate InDeletePath(pc: Pc) {
    pc.DeleteStatus? || pc.DeleteCall? || pc.PollDelete? || pc.Cleanup?
  }

  ghost predicate CopyIsFetched(s: State) {
    s.seen <= s.copyRv < |s.history| &&
    forall v :: s.seen <= v <= s.copyRv ==> s.history[v] == Some(s.copy)
  }

  ghost predicate Inv(s: State) {
    && WellFormed(s)
    && s.seen < |s.history|
    && (!s.pc.Idle? ==> CopyIsFetched(s))
    && (forall v: nat :: s.seen <= v ==> KeptFrom(s.history, v))
    && (InCreatePath(s.pc) ==> s.copy.finalizer && !s.copy.deleting)
    && (InDeletePath(s.pc) ==> s.copy.deleting)
    && (s.pc.Cleanup? ==> At(s.azure, Identity(s.copy.spec)) == GONE)
    && (forall id :: At(s.azure, id) != GONE ==> Guarded(s, id))
  }

  /** Appending a version that keeps finalizer and identity keeps every promise made so far. */
  lemma KeptByPut(s: State, r: Option<Resource>)
    requires Inv(s)
    requires Current(s).Some? && Current(s).value.finalizer ==>
               r.Some? && r.value.finalizer && Identity(r.value.spec) == Identity(Current(s).value.spec)
    ensures forall v: nat :: s.seen <= v ==> KeptFrom(s.history + [r], v)
  {
    var h := s.history + [r];
    forall v: nat | s.seen <= v
      ensures KeptFrom(h, v)
    {
      if v < |s.history| && Live(h[v]) {
        assert KeptFrom(s.history, v);
        assert s.history[|s.history| - 1].Some?;
      }
    }
  }

  lemma InvUserStep(s: State, a: Action)
    requires Inv(s) && Enabled(ALL_HOLD, s, a)
    requires a.UserCreates? || a.UserEdits? || a.UserDeletes?
    ensures Inv(Do(ALL_HOLD, s, a))
  {
    var s' := Do(ALL_HOLD, s, a);
    KeptByPut(s, Current(s'));
    assert s'.history == s.history + [Current(s')];
    assert forall id :: At(s.azure, id) != GONE ==> Guarded(s, id) && Guarded(s', id);
  }

  lemma InvWriteStep(s: State, a: Action)
    requires Inv(s) && Enabled(ALL_HOLD, s, a)
    requires a.WriteFinalizer? || a.WriteStatus?
    ensures Inv(Do(ALL_HOLD, s, a))
  {
    var s' := Do(ALL_HOLD, s, a);
    if a.served && UpToDateCopy(s) {
      assert s.history[s.copyRv] == Some(s.copy);
      KeptByPut(s, Current(s'));
      assert s'.history == s.history + [Current(s')];
      assert forall id :: At(s.azure, id) != GONE ==> Guarded(s, id) && Guarded(s', id);
    } else {
      assert forall id :: At(s.azure, id) != GONE ==> Guarded(s, id) && Guarded(s', id);
    }
  }

  lemma InvRemoveFinalizer(s: State, a: Action)
    requires Inv(s) && Enabled(ALL_HOLD, s, a) && a.RemoveFinalizer?
    ensures Inv(Do(ALL_HOLD, s, a))
  {
    var s' := Do(ALL_HOLD, s, a);
    assert forall id :: At(s.azure, id) != GONE ==> Guarded(s, id);
    if s.copy.finalizer && a.served && UpToDateCopy(s) {
      assert s.history[s.copyRv] == Some(s.copy);
      forall v: nat | s.seen <= v
        ensures KeptFrom(s'.history, v)
      {
        if v <= s.copyRv {
          assert s'.history[v] == Some(s.copy);
        }
      }
    } else {
      assert forall id :: At(s.azure, id) != GONE ==> Guarded(s', id);
    }
  }

  lemma InvFetch(s: State, a: Action)
    requires Inv(s) && Enabled(ALL_HOLD, s, a) && a.Fetch?
    ensures Inv(Do(ALL_HOLD, s, a))
  {
    var s' := Do(ALL_HOLD, s, a);
    forall id | At(s'.azure, id) != GONE
      ensures Guarded(s', id)
    {
      assert Guarded(s, id);
    }
  }

  lemma InvAzureMoves(s: State, a: Action)
    requires Inv(s) && Enabled(ALL_HOLD, s, a) && a.AzureMoves?
    ensures Inv(Do(ALL_HOLD, s, a))
  {
    var s' := Do(ALL_HOLD, s, a);
    forall id | At(s'.azure, id) != GONE
      ensures Guarded(s', id)
    {
      assert Guarded(s, id);
    }
  }

  lemma InvOtherStep(s: State, a: Action)
    requires Inv(s) && Enabled(ALL_HOLD, s, a)
    requires !(a.UserCreates? || a.UserEdits? || a.UserDeletes? || a.AzureMoves?)
    requires !(a.Fetch? || a.WriteFinalizer? || a.WriteStatus? || a.RemoveFinalizer?)
    ensures Inv(Do(ALL_HOLD, s, a))
  {
    var s' := Do(ALL_HOLD, s, a);
    assert s'.history == s.history;
    if !s.pc.Idle? {
      assert s.history[s.seen] == Some(s.copy) && KeptFrom(s.history, s.seen);
    }
    forall id | At(s'.azure, id) != GONE
      ensures Guarded(s', id)
    {
      if At(s.azure, id) != GONE {
        assert Guarded(s, id);
      }
    }
  }

  lemma InvStep(s: State, a: Action)
    requires Inv(s) && Enabled(ALL_HOLD, s, a)
    ensures Inv(Do(ALL_HOLD, s, a))
  {
    match a {
      case UserCreates(_) => InvUserStep(s, a);
      case UserEdits(_) => InvUserStep(s, a);
      case UserDeletes => InvUserStep(s, a);
      case WriteFinalizer(_) => InvWriteStep(s, a);
      case WriteStatus(_) => InvWriteStep(s, a);
      case RemoveFinalizer(_) => InvRemoveFinalizer(s, a);
      case Fetch(_) => InvFetch(s, a);
      case AzureMoves(_, _) => InvAzureMoves(s, a);
      case _ => InvOtherStep(s, a);
    }
  }

  lemma {:induction false} InvHolds(run: Run)
    requires Legal(ALL_HOLD, INIT, run)
    ensures Inv(After(ALL_HOLD, INIT, run))
  {
    if run.Then? {
      InvHolds(run.before);
      InvStep(After(ALL_HOLD, INIT, run.before), run.action);
    }
  }

  /** Safety over every run: no orphan in any reachable state. */
  lemma {:induction false} NoOrphanEver(run: Run)
    requires Legal(ALL_HOLD, INIT, run)
    ensures NoOrphan(After(ALL_HOLD, INIT, run))
  {
    InvHolds(run);
    var s := After(ALL_HOLD, INIT, run);
    assert forall id :: At(s.azure, id) != GONE ==> Guarded(s, id);
  }

  predicate LosesGuard(s: State, s': State) {
    && WellFormed(s) && Current(s).Some? && Current(s).value.finalizer
    && WellFormed(s') && (Current(s').Some? ==> !Current(s').value.finalizer)
  }

  lemma LosesGuardStep(s: State, a: Action)
    requires Inv(s) && Enabled(ALL_HOLD, s, a) && LosesGuard(s, Do(ALL_HOLD, s, a))
    ensures a.RemoveFinalizer? && Current(s).value.deleting && At(s.azure, Identity(Current(s).value.spec)) == GONE
  {
    var s' := Do(ALL_HOLD, s, a);
    if s'.history == s.history {
      assert false;
    }
    if s.copyRv == |s.history| - 1 && !s.pc.Idle? {
      assert s.history[s.copyRv] == Some(s.copy);
    }
  }

  /** A guarded resource leaves only through the operator, and only when Azure has nothing left of it. */
  lemma {:induction false} GuardedLeavesOnlyWhenGone(run: Run, a: Action)
    requires Legal(ALL_HOLD, INIT, Then(run, a))
    requires LosesGuard(After(ALL_HOLD, INIT, run), After(ALL_HOLD, INIT, Then(run, a)))
    ensures var s := After(ALL_HOLD, INIT, run);
            a.RemoveFinalizer? && WellFormed(s) && Current(s).Some? && Current(s).value.deleting &&
            At(s.azure, Identity(Current(s).value.spec)) == GONE
  {
    InvHolds(run);
    LosesGuardStep(After(ALL_HOLD, INIT, run), a);
  }

  // ---------- The assumptions are exactly what is needed ----------

  const SPEC := Spec("ns", "rg", "c1")

  const ID := AzureId("rg", "c1")

  const FRESH := Resource(SPEC, false, false, false)

  const HELD := Resource(SPEC, true, false, false)

  function Concat(run: Run, more: Run): Run {
    match more
    case Start => run
    case Then(before, a) => Then(Concat(run, before), a)
  }

  lemma {:induction false} ConcatRuns(e: Assumptions, s: State, run: Run, more: Run)
    requires Legal(e, s, run) && Legal(e, After(e, s, run), more)
    ensures Legal(e, s, Concat(run, more))
    ensures After(e, s, Concat(run, more)) == After(e, After(e, s, run), more)
  {
    if more.Then? {
      ConcatRuns(e, s, run, more.before);
    }
  }

  /** The user creates the resource and the first reconcile adds the finalizer. */
  const ADOPT := Then(Then(Then(Start, UserCreates(FRESH)), Fetch(1)), WriteFinalizer(true))

  const ADOPTED :=
    State([None, Some(FRESH), Some(HELD)], map[], Idle, FRESH, 1, 1, [Started(Some(FRESH)), FinalizerAdded])

  lemma Adopted(e: Assumptions)
    ensures Legal(e, INIT, ADOPT) && After(e, INIT, ADOPT) == ADOPTED
  {
    var run := Then(Start, UserCreates(FRESH));
    assert Legal(e, INIT, run) && After(e, INIT, run).history == [None, Some(FRESH)];
    assert Legal(e, INIT, Then(run, Fetch(1)));
  }

  /** A reconcile that reads version `rv` and gets its create accepted. */
  function CreateFrom(rv: nat): Run {
    Then(Then(Then(Then(Start, Fetch(rv)), WriteStatus(false)), GetCluster(Absent)), SendWrite(Accepted))
  }

  lemma Creates(e: Assumptions, s: State, rv: nat)
    requires s.pc.Idle? && rv < |s.history| && s.history[rv] == Some(HELD) && At(s.azure, ID) == GONE
    requires e.monotoneReads ==> s.seen <= rv
    ensures Legal(e, s, CreateFrom(rv))
    ensures var s' := After(e, s, CreateFrom(rv));
            s'.history == s.history && s'.azure == s.azure[ID := Remote(None, true)] && s'.seen == rv
  {
    var fetched := Then(Start, Fetch(rv));
    assert Legal(e, s, Start) && After(e, s, Start) == s;
    var observing := Then(fetched, WriteStatus(false));
    assert Legal(e, s, fetched) && After(e, s, fetched).pc == InitStatus;
    assert Legal(e, s, observing) && After(e, s, observing).pc == Observe;
    assert Legal(e, s, Then(observing, GetCluster(Absent)));
  }

  /** A reconcile of the marked version `rv` up to its delete call. */
  function BeginDelete(rv: nat): Run {
    Then(Then(Start, Fetch(rv)), WriteStatus(false))
  }

  lemma BeginsDelete(e: Assumptions, s: State, rv: nat)
    requires s.pc.Idle? && s.seen <= rv && |s.history| == rv + 1 && Current(s).Some? && Current(s).value.deleting
    ensures Legal(e, s, BeginDelete(rv))
    ensures var s' := After(e, s, BeginDelete(rv));
            s'.history == s.history && s'.azure == s.azure && s'.pc.DeleteCall? &&
            s'.copy == Current(s).value && s'.copyRv == rv
  {
    var fetched := Then(Start, Fetch(rv));
    assert Legal(e, s, Start) && After(e, s, Start) == s;
    assert Legal(e, s, fetched) && After(e, s, fetched).pc == DeleteStatus;
  }

  /** And on, with Azure reporting the cluster absent. */
  function ReleaseAt(rv: nat): Run {
    Then(Then(BeginDelete(rv), SendDelete(DeleteAbsent)), RemoveFinalizer(true))
  }

  lemma Releases(e: Assumptions, s: State, rv: nat)
    requires s.pc.Idle? && s.seen <= rv && |s.history| == rv + 1 && Current(s).Some?
    requires Current(s).value.deleting && Current(s).value.finalizer && !Current(s).value.otherFinalizers
    requires e.truthfulAbsence ==> At(s.azure, Identity(Current(s).value.spec)) == GONE
    ensures Legal(e, s, ReleaseAt(rv))
    ensures var s' := After(e, s, ReleaseAt(rv));
            s'.azure == s.azure && s'.pc.Idle? && s'.history == s.history + [None]
  {
    BeginsDelete(e, s, rv);
    var asked := Then(BeginDelete(rv), SendDelete(DeleteAbsent));
    assert Legal(e, s, asked) && After(e, s, asked).pc == Cleanup;
  }

  /** A crash, a user's delete, and such a reconcile. */
  function DeleteAt(rv: nat): Run {
    Concat(Then(Then(Start, Crash), UserDeletes), ReleaseAt(rv))
  }

  lemma Deletes(e: Assumptions, s: State)
    requires WellFormed(s) && s.seen < |s.history| && Current(s).Some?
    requires Current(s).value.finalizer && !Current(s).value.otherFinalizers
    requires e.truthfulAbsence ==> At(s.azure, Identity(Current(s).value.spec)) == GONE
    ensures Legal(e, s, DeleteAt(|s.history|))
    ensures var s' := After(e, s, DeleteAt(|s.history|));
            s'.azure == s.azure && s'.pc.Idle? &&
            s'.history == s.history + [Some(Current(s).value.(deleting := true))] + [None]
  {
    var marking := Then(Then(Start, Crash), UserDeletes);
    assert Legal(e, s, Start) && After(e, s, Start) == s;
    assert Legal(e, s, Then(Start, Crash));
    assert Legal(e, s, marking);
    Releases(e, After(e, s, marking), |s.history|);
    ConcatRuns(e, s, marking, ReleaseAt(|s.history|));
  }

  lemma DeletesAfter(e: Assumptions, run: Run) returns (run': Run)
    requires Legal(e, INIT, run)
    requires var s := After(e, INIT, run);
             WellFormed(s) && s.seen < |s.history| && Current(s).Some? &&
             Current(s).value.finalizer && !Current(s).value.otherFinalizers &&
             (e.truthfulAbsence ==> At(s.azure, Identity(Current(s).value.spec)) == GONE)
    ensures Legal(e, INIT, run')
    ensures var s, s' := After(e, INIT, run), After(e, INIT, run');
            s'.azure == s.azure && s'.pc.Idle? &&
            s'.history == s.history + [Some(Current(s).value.(deleting := true))] + [None]
  {
    var s := After(e, INIT, run);
    Deletes(e, s);
    ConcatRuns(e, INIT, run, DeleteAt(|s.history|));
    run' := Concat(run, DeleteAt(|s.history|));
  }

  lemma DeletesAdopted(e: Assumptions) returns (run: Run)
    ensures Legal(e, INIT, run)
    ensures var s := After(e, INIT, run);
            s.pc.Idle? && s.azure == map[] && |s.history| == 5 && s.history[2] == Some(HELD) && s.history[4] == None
  {
    Adopted(e);
    run := DeletesAfter(e, ADOPT);
  }

  /** A stale read from before the deletion recreates the cluster of a resource that is gone. */
  lemma OrphanByStaleRead(e: Assumptions) returns (run: Run)
    requires !e.monotoneReads
    ensures Legal(e, INIT, run) && !NoOrphan(After(e, INIT, run))
  {
    run := DeletesAdopted(e);
    Creates(e, After(e, INIT, run), 2);
    ConcatRuns(e, INIT, run, CreateFrom(2));
    run := Concat(run, CreateFrom(2));
    assert At(After(e, INIT, run).azure, ID) != GONE;
  }

  /** The adopted resource with its create in flight. */
  predicate BeingCreated(s: State) {
    s.history == ADOPTED.history && s.azure == map[ID := Remote(None, true)] && s.seen == 2
  }

  lemma BeginsCreate(e: Assumptions) returns (run: Run)
    ensures Legal(e, INIT, run) && BeingCreated(After(e, INIT, run))
  {
    Adopted(e);
    Creates(e, ADOPTED, 2);
    ConcatRuns(e, INIT, ADOPT, CreateFrom(2));
    run := Concat(ADOPT, CreateFrom(2));
  }

  const RENAMED := HELD.(spec := SPEC.(clusterId := "c2"))

  /** After the cluster is renamed in the spec the operator deletes it under the new name only. */
  lemma OrphanByRename(e: Assumptions) returns (run: Run)
    requires !e.stableIdentity
    ensures Legal(e, INIT, run) && !NoOrphan(After(e, INIT, run))
  {
    run := BeginsCreate(e);
    run := Then(run, UserEdits(RENAMED));
    assert Identity(RENAMED.spec).clusterName[1] != ID.clusterName[1];
    run := DeletesAfter(e, run);
    assert At(After(e, INIT, run).azure, ID) != GONE;
  }

  /** Someone else strips the finalizer while the create runs. */
  lemma OrphanByStrippedFinalizer(e: Assumptions) returns (run: Run)
    requires !e.finalizerUntouched
    ensures Legal(e, INIT, run) && !NoOrphan(After(e, INIT, run))
  {
    run := BeginsCreate(e);
    run := Then(run, UserEdits(FRESH));
    assert At(After(e, INIT, run).azure, ID) != GONE;
  }

  /** A delete that is told "not found" while the create is still in flight. */
  lemma OrphanByFalseAbsence(e: Assumptions) returns (run: Run)
    requires !e.truthfulAbsence
    ensures Legal(e, INIT, run) && !NoOrphan(After(e, INIT, run))
  {
    run := BeginsCreate(e);
    run := DeletesAfter(e, run);
    assert At(After(e, INIT, run).azure, ID) != GONE;
  }

  /** No run orphans a cluster if and only if all four assumptions hold. */
  lemma NoOrphanIffAssumptions(e: Assumptions)
    ensures (forall run :: Legal(e, INIT, run) ==> NoOrphan(After(e, INIT, run))) <==> e == ALL_HOLD
  {
    if e == ALL_HOLD {
      forall run | Legal(e, INIT, run)
        ensures NoOrphan(After(e, INIT, run))
      {
        NoOrphanEver(run);
      }
    } else {
      var run: Run;
      if !e.monotoneReads {
        run := OrphanByStaleRead(e);
      } else if !e.stableIdentity {
        run := OrphanByRename(e);
      } else if !e.finalizerUntouched {
        run := OrphanByStrippedFinalizer(e);
      } else {
        run := OrphanByFalseAbsence(e);
      }
    }
  }

  // ---------- Deletion can always finish ----------

  lemma SeenInRangeStep(e: Assumptions, s: State, a: Action)
    requires Enabled(e, s, a) && s.seen < |s.history|
    ensures Do(e, s, a).seen < |Do(e, s, a).history|
  {
    match a {
      case GetCluster(reply) => assert Do(e, s, a).history == s.history;
      case SendWrite(reply) => assert Do(e, s, a).history == s.history;
      case SendDelete(reply) => assert Do(e, s, a).history == s.history;
      case _ =>
    }
  }

  lemma {:induction false} SeenInRange(e: Assumptions, run: Run)
    requires Legal(e, INIT, run)
    ensures After(e, INIT, run).seen < |After(e, INIT, run).history|
  {
    if run.Then? {
      SeenInRange(e, run.before);
      SeenInRangeStep(e, After(e, INIT, run.before), run.action);
    }
  }

  /** The operator stops, Azure finishes what it does and holds nothing more, and the user deletes the resource. */
  function Quiesce(id: AzureId): Run {
    Then(Then(Then(Start, Crash), AzureMoves(id, GONE)), UserDeletes)
  }

  lemma Quiesces(e: Assumptions, s: State)
    requires WellFormed(s) && Current(s).Some?
    ensures var id := Identity(Current(s).value.spec);
            && Legal(e, s, Quiesce(id))
            && var s' := After(e, s, Quiesce(id));
               && s'.pc.Idle? && s'.seen == s.seen && At(s'.azure, id) == GONE
               && s'.history == s.history + [Settle(Current(s).value.(deleting := true))]
  {
    var id := Identity(Current(s).value.spec);
    assert Legal(e, s, Start) && After(e, s, Start) == s;
    assert Legal(e, s, Then(Start, Crash));
    assert Legal(e, s, Then(Then(Start, Crash), AzureMoves(id, GONE)));
  }

  /** Another controller gives up its finalizers on a marked resource. */
  lemma OthersLetGo(e: Assumptions, s: State)
    requires WellFormed(s) && Current(s).Some? && Current(s).value.deleting
    ensures var edit := Then(Start, UserEdits(Current(s).value.(otherFinalizers := false)));
            && Legal(e, s, edit)
            && After(e, s, edit) ==
                 s.(history := s.history + [Settle(Current(s).value.(otherFinalizers := false))])
  {
    assert Legal(e, s, Start) && After(e, s, Start) == s;
  }

  predicate Removed(s: State, id: AzureId) {
    WellFormed(s) && Current(s).None? && At(s.azure, id) == GONE
  }

  /** From an idle state with a marked resource and nothing of it in Azure. */
  lemma RemovalFinishes(e: Assumptions, s: State) returns (more: Run)
    requires WellFormed(s) && s.pc.Idle? && s.seen < |s.history|
    requires Current(s).Some? && Current(s).value.deleting && At(s.azure, Identity(Current(s).value.spec)) == GONE
    ensures Legal(e, s, more) && Removed(After(e, s, more), Identity(Current(s).value.spec))
  {
    more := Then(Start, UserEdits(Current(s).value.(otherFinalizers := false)));
    OthersLetGo(e, s);
    var s' := After(e, s, more);
    if Current(s').Some? {
      Releases(e, s', |s'.history| - 1);
      ConcatRuns(e, s, more, ReleaseAt(|s'.history| - 1));
      more := Concat(more, ReleaseAt(|s'.history| - 1));
    }
  }

  /**
   From every reachable state, whatever has failed so far and whatever the operator was doing, some
   continuation ends with the resource and its cluster gone: nothing is ever stuck for good.
   */
  lemma DeletionCanFinish(e: Assumptions, run: Run) returns (more: Run)
    requires Legal(e, INIT, run) && WellFormed(After(e, INIT, run)) && Current(After(e, INIT, run)).Some?
    ensures Legal(e, After(e, INIT, run), more)
    ensures Removed(After(e, After(e, INIT, run), more), Identity(Current(After(e, INIT, run)).value.spec))
  {
    SeenInRange(e, run);
    var s := After(e, INIT, run);
    var id := Identity(Current(s).value.spec);
    Quiesces(e, s);
    more := Quiesce(id);
    var s' := After(e, s, more);
    if Current(s').Some? {
      var rest := RemovalFinishes(e, s');
      ConcatRuns(e, s, more, rest);
      more := Concat(more, rest);
    }
  }

  // ---------- Every write is justified by a read of the same reconcile ----------

  /** Azure works on the cluster. */
  predicate Moving(c: Cluster) {
    c.state == Creating || c.state == Updating || c.state == Deleting
  }

  /** The reconcile read a resource that is not marked for deletion and carries the finalizer. */
  predicate ReadHeld(t: seq<Event>, k: nat)
    requires k <= |t|
  {
    k >= 1 && t[k - 1].Started? && t[k - 1].found.Some? && t[k - 1].found.value.finalizer &&
    !t[k - 1].found.value.deleting
  }

  /** The reconcile read a resource that is marked for deletion. */
  predicate ReadMarked(t: seq<Event>, k: nat)
    requires k <= |t|
  {
    k >= 1 && t[k - 1].Started? && t[k - 1].found.Some? && t[k - 1].found.value.deleting
  }

  /** The event at `k` is backed by the events right before it. */
  predicate Backed(t: seq<Event>, k: nat)
    requires k < |t|
  {
    match t[k]
    case Started(_) => true
    case FinalizerAdded =>
      k >= 1 && t[k - 1].Started? && t[k - 1].found.Some? &&
      !t[k - 1].found.value.finalizer && !t[k - 1].found.value.deleting
    case ReadAbsent => ReadHeld(t, k)
    case Read(_) => ReadHeld(t, k)
    case CreateSent => k >= 1 && t[k - 1] == ReadAbsent
    case Outdated => k >= 1 && t[k - 1].Read? && !Moving(t[k - 1].cluster)
    case UpToDate => k >= 1 && t[k - 1].Read? && !Moving(t[k - 1].cluster)
    case UpdateSent => k >= 2 && t[k - 1] == Outdated && t[k - 2].Read? && !Moving(t[k - 2].cluster)
    case Refused409 => k >= 1 && t[k - 1] == UpdateSent
    case Reported(p) =>
      || (k >= 1 && t[k - 1] == Read(p) && Moving(p))
      || (k >= 2 && t[k - 1] == UpToDate && t[k - 2] == Read(p))
      || (k >= 4 && t[k - 1] == Refused409 && t[k - 2] == UpdateSent && t[k - 3] == Outdated && t[k - 4] == Read(p))
    case DeleteSent => ReadMarked(t, k)
    case DeleteConfirmed => k >= 1 && t[k - 1] == DeleteSent
    case FinalizerDropped =>
      k >= 3 && t[k - 1] == DeleteConfirmed && t[k - 2] == DeleteSent && t[k - 3].Started? &&
      t[k - 3].found.Some? && t[k - 3].found.value.finalizer
  }

  /** A read of a cluster that Azure works on is followed by its report. */
  predicate Answered(t: seq<Event>, k: nat)
    requires k < |t|
  {
    t[k].Read? && Moving(t[k].cluster) ==> k + 1 < |t| && t[k + 1] == Reported(t[k].cluster)
  }

  /** The trace ends with what the program counter stands for. */
  predicate TraceFits(pc: Pc, copy: Resource, t: seq<Event>) {
    var n := |t|;
    match pc
    case Idle => true
    case AddFinalizer => n >= 1 && t[n - 1] == Started(Some(copy)) && !copy.finalizer && !copy.deleting
    case InitStatus => n >= 1 && t[n - 1] == Started(Some(copy)) && copy.finalizer && !copy.deleting
    case Observe => n >= 1 && t[n - 1] == Started(Some(copy)) && copy.finalizer && !copy.deleting
    case MustCreate => n >= 1 && t[n - 1] == ReadAbsent
    case Compare(p) => n >= 1 && t[n - 1] == Read(p) && !Moving(p)
    case MustUpdate(p) => n >= 2 && t[n - 1] == Outdated && t[n - 2] == Read(p) && !Moving(p)
    case PollWrite(Some(p)) =>
      n >= 3 && t[n - 1] == UpdateSent && t[n - 2] == Outdated && t[n - 3] == Read(p) && !Moving(p)
    case PollWrite(None) => true
    case Report => true
    case DeleteStatus => n >= 1 && t[n - 1] == Started(Some(copy)) && copy.deleting
    case DeleteCall => n >= 1 && t[n - 1] == Started(Some(copy)) && copy.deleting
    case PollDelete => n >= 2 && t[n - 1] == DeleteSent && t[n - 2] == Started(Some(copy)) && copy.deleting
    case Cleanup =>
      n >= 3 && t[n - 1] == DeleteConfirmed && t[n - 2] == DeleteSent && t[n - 3] == Started(Some(copy)) &&
      copy.deleting
  }

  ghost predicate AllBacked(t: seq<Event>) {
    forall k: nat :: k < |t| ==> Backed(t, k) && Answered(t, k)
  }

  lemma BackedLog(t: seq<Event>, events: seq<Event>)
    requires AllBacked(t)
    requires forall k :: |t| <= k < |t + events| ==> Backed(t + events, k) && Answered(t + events, k)
    ensures AllBacked(t + events)
  {
    forall k: nat | k < |t|
      ensures Backed(t + events, k) && Answered(t + events, k)
    {
      assert Backed(t, k) && Answered(t, k);
    }
  }

  /** One more event that is not a read of a moving cluster. */
  lemma BackedOne(t: seq<Event>, event: Event)
    requires AllBacked(t) && Backed(t + [event], |t|)
    requires event.Read? ==> !Moving(event.cluster)
    ensures AllBacked(t + [event])
  {
    BackedLog(t, [event]);
  }

  lemma BackedRead(s: State, reply: GetReply)
    requires AllBacked(s.trace) && TraceFits(Observe, s.copy, s.trace)
    ensures TraceFits(DoGetCluster(s, reply).pc, s.copy, DoGetCluster(s, reply).trace)
    ensures AllBacked(DoGetCluster(s, reply).trace)
  {
    match reply {
      case Absent => BackedOne(s.trace, ReadAbsent);
      case GetFailed =>
      case Found(c) =>
        if Busy(c) {
          var t := s.trace + [Read(c), Reported(c)];
          assert t[|s.trace|] == Read(c) && t[|s.trace| + 1] == Reported(c);
          BackedLog(s.trace, [Read(c), Reported(c)]);
        } else {
          BackedOne(s.trace, Read(c));
        }
    }
  }

  lemma BackedRefusal(t: seq<Event>, p: Cluster)
    requires AllBacked(t) && TraceFits(PollWrite(Some(p)), BLANK, t)
    ensures AllBacked(t + [Refused409, Reported(p)])
  {
    BackedOne(t, Refused409);
    BackedOne(t + [Refused409], Reported(p));
    assert t + [Refused409] + [Reported(p)] == t + [Refused409, Reported(p)];
  }

  lemma BackedWrite(s: State, reply: WriteReply)
    requires AllBacked(s.trace) && TraceFits(s.pc, s.copy, s.trace)
    requires s.pc.MustCreate? || s.pc.MustUpdate?
    ensures TraceFits(DoSendWrite(s, reply).pc, s.copy, DoSendWrite(s, reply).trace)
    ensures AllBacked(DoSendWrite(s, reply).trace)
  {
    if s.pc.MustCreate? {
      BackedOne(s.trace, CreateSent);
    } else {
      BackedOne(s.trace, UpdateSent);
      assert (s.trace + [UpdateSent])[|s.trace| - 1] == Outdated;
      BackedRefusal(s.trace + [UpdateSent], s.pc.c);
      assert s.trace + [UpdateSent] + [Refused409, Reported(s.pc.c)] ==
             s.trace + [UpdateSent, Refused409, Reported(s.pc.c)];
    }
  }

  lemma BackedComparison(s: State)
    requires AllBacked(s.trace) && TraceFits(s.pc, s.copy, s.trace) && s.pc.Compare?
    ensures AllBacked(s.trace + [Outdated]) && TraceFits(MustUpdate(s.pc.c), s.copy, s.trace + [Outdated])
    ensures AllBacked(s.trace + [UpToDate, Reported(s.pc.c)])
  {
    BackedOne(s.trace, Outdated);
    assert (s.trace + [Outdated])[|s.trace| - 1] == Read(s.pc.c);
    BackedOne(s.trace, UpToDate);
    assert (s.trace + [UpToDate])[|s.trace| - 1] == Read(s.pc.c);
    BackedOne(s.trace + [UpToDate], Reported(s.pc.c));
    assert s.trace + [UpToDate] + [Reported(s.pc.c)] == s.trace + [UpToDate, Reported(s.pc.c)];
  }

  lemma BackedDelete(s: State, reply: DeleteReply)
    requires AllBacked(s.trace) && TraceFits(DeleteCall, s.copy, s.trace)
    ensures TraceFits(DoSendDelete(s, reply).pc, s.copy, DoSendDelete(s, reply).trace)
    ensures AllBacked(DoSendDelete(s, reply).trace)
  {
    BackedOne(s.trace, DeleteSent);
    assert (s.trace + [DeleteSent])[|s.trace| - 1] == Started(Some(s.copy));
    BackedOne(s.trace + [DeleteSent], DeleteConfirmed);
    assert s.trace + [DeleteSent] + [DeleteConfirmed] == s.trace + [DeleteSent, DeleteConfirmed];
  }

  lemma BackedRelease(s: State, served: bool)
    requires WellFormed(s) && AllBacked(s.trace) && TraceFits(Cleanup, s.copy, s.trace)
    ensures AllBacked(DoRemoveFinalizer(s, served).trace)
  {
    if s.copy.finalizer {
      BackedOne(s.trace, FinalizerDropped);
    }
  }

  lemma BackedFetch(s: State, rv: nat)
    requires rv < |s.history| && AllBacked(s.trace) && s.pc.Idle?
    ensures var s' := DoFetch(s, rv); TraceFits(s'.pc, s'.copy, s'.trace) && AllBacked(s'.trace)
  {
    BackedOne(s.trace, Started(s.history[rv]));
  }

  lemma BackedPoll(s: State)
    requires AllBacked(s.trace) && TraceFits(s.pc, s.copy, s.trace) && s.pc.PollWrite?
    ensures s.pc.update.Some? ==> AllBacked(s.trace + [Refused409, Reported(s.pc.update.value)])
  {
    if s.pc.update.Some? {
      BackedRefusal(s.trace, s.pc.update.value);
    }
  }

  lemma BackedStep(e: Assumptions, s: State, a: Action)
    requires Enabled(e, s, a) && TraceFits(s.pc, s.copy, s.trace) && AllBacked(s.trace)
    ensures var s' := Do(e, s, a); TraceFits(s'.pc, s'.copy, s'.trace) && AllBacked(s'.trace)
  {
    match a {
      case GetCluster(reply) => BackedRead(s, reply);
      case SendWrite(reply) => BackedWrite(s, reply);
      case Fetch(rv) => BackedFetch(s, rv);
      case WriteFinalizer(_) => BackedOne(s.trace, FinalizerAdded);
      case NeedsUpdate(_) => BackedComparison(s);
      case PollWriteEnds(_) => BackedPoll(s);
      case SendDelete(reply) => BackedDelete(s, reply);
      case PollDeleteEnds(_) => BackedOne(s.trace, DeleteConfirmed);
      case RemoveFinalizer(served) => BackedRelease(s, served);
      case _ => assert Do(e, s, a).trace == s.trace;
    }
  }

  /**
   In every run, whatever fails: each create follows a read that found nothing, each update a
   read outside Creating/Updating/Deleting and a positive comparison, what is reported is the
   state that was read, and the finalizer goes only after Azure confirmed the deletion.  The
   backing events are adjacent, so they belong to the same reconcile, which starts with the
   resource it read: only a resource with the finalizer leads to a read or write of the cluster,
   only a marked one to a delete.
   */
  lemma {:induction false} EveryWriteIsBacked(e: Assumptions, run: Run)
    requires Legal(e, INIT, run)
    ensures var s := After(e, INIT, run); TraceFits(s.pc, s.copy, s.trace) && AllBacked(s.trace)
  {
    if run.Then? {
      EveryWriteIsBacked(e, run.before);
      BackedStep(e, After(e, INIT, run.before), run.action);
    }
  }

  /** Non-interference: no update is sent to a cluster that Azure works on. */
  lemma UpdatesOnlyResting(e: Assumptions, run: Run, k: nat)
    requires Legal(e, INIT, run) && k < |After(e, INIT, run).trace| && After(e, INIT, run).trace[k] == UpdateSent
    ensures var t := After(e, INIT, run).trace;
            k >= 2 && t[k - 1] == Outdated && t[k - 2].Read? &&
            !t[k - 2].cluster.state.Creating? && !t[k - 2].cluster.state.Updating? && !t[k - 2].cluster.state.Deleting?
  {
    EveryWriteIsBacked(e, run);
    assert Backed(After(e, INIT, run).trace, k);
  }

  lemma AnsweredIff(t: seq<Event>, k: nat)
    requires AllBacked(t) && k < |t| && t[k].Read?
    ensures k + 1 < |t| && t[k + 1] == Reported(t[k].cluster) <==> Moving(t[k].cluster)
  {
    assert Answered(t, k);
    if k + 1 < |t| {
      assert Backed(t, k + 1);
    }
  }

  /** A read is answered at once if and only if Azure works on the cluster; otherwise it is compared first. */
  lemma AnsweredAtOnceIff(e: Assumptions, run: Run, k: nat)
    requires Legal(e, INIT, run) && k < |After(e, INIT, run).trace| && After(e, INIT, run).trace[k].Read?
    ensures var t := After(e, INIT, run).trace;
            var state := t[k].cluster.state;
            k + 1 < |t| && t[k + 1] == Reported(t[k].cluster) <==>
              state.Creating? || state.Updating? || state.Deleting?
  {
    EveryWriteIsBacked(e, run);
    AnsweredIff(After(e, INIT, run).trace, k);
  }

  // ---------- The steps of one reconcile are the body of the reconcile ----------

  /** How the calls of one ReconcileCluster end, whether or not each of them is made. */
  datatype Answers = Answers(get: GetReply, needed: bool, write: WriteReply, end: WriteEnd)

  ghost predicate Possible(s: State, q: Answers) {
    var visible := At(s.azure, Identity(s.copy.spec)).visible;
    match q.get
    case Found(c) => visible == Some(c)
    case Absent => visible == None
    case GetFailed => true
  }

  /** A write is sent if nothing was found, or if a cluster at rest compares as outdated. */
  predicate Sends(q: Answers) {
    q.get.Absent? ||
    (q.get.Found? && q.needed && (q.get.c.state.Succeeded? || q.get.c.state.Failed? || q.get.c.state.Other?))
  }

  /** Read and comparison, as far as the answers lead. */
  function Reading(q: Answers): Run {
    var read := Then(Start, GetCluster(q.get));
    if q.get.Found? && !Moving(q.get.c) then Then(read, NeedsUpdate(q.needed)) else read
  }

  /** The write, its poll if it was accepted, and the end. */
  function Writing(q: Answers): Run {
    var sent := Then(Start, SendWrite(q.write));
    Then(if q.write.Accepted? then Then(sent, PollWriteEnds(q.end)) else sent, Finish)
  }

  /** The calls in source order. */
  function Calls(q: Answers): Run {
    if Sends(q) then Concat(Reading(q), Writing(q)) else Then(Reading(q), Finish)
  }

  /** What a read leaves in the trace: a cluster that Azure works on is reported without a comparison. */
  function Seen(get: GetReply, needed: bool): seq<Event> {
    match get
    case GetFailed => []
    case Absent => [ReadAbsent]
    case Found(c) =>
      if Moving(c) then [Read(c), Reported(c)]
      else if needed then [Read(c), Outdated]
      else [Read(c), UpToDate, Reported(c)]
  }

  /** What a write leaves there: an update that conflicts at once or at its end reports the cluster that was read. */
  function Written(read: Option<Cluster>, write: WriteReply, end: WriteEnd): seq<Event> {
    match read
    case None => [CreateSent]
    case Some(c) =>
      if write.Conflict? || (write.Accepted? && end.EndsInConflict?) then [UpdateSent, Refused409, Reported(c)]
      else [UpdateSent]
  }

  lemma Reads(e: Assumptions, s: State, q: Answers)
    requires WellFormed(s) && s.pc.Observe? && Possible(s, q)
    ensures Legal(e, s, Reading(q))
    ensures var s' := After(e, s, Reading(q));
            && s' == s.(pc := s'.pc, trace := s.trace + Seen(q.get, q.needed))
            && (if !Sends(q) then s'.pc == Report
                else if q.get.Found? then s'.pc == MustUpdate(q.get.c)
                else s'.pc == MustCreate)
  {
    var read := Then(Start, GetCluster(q.get));
    assert Legal(e, s, Start) && After(e, s, Start) == s;
    assert Legal(e, s, read);
  }

  lemma Writes(e: Assumptions, s: State, q: Answers)
    requires WellFormed(s) && (s.pc.MustCreate? || s.pc.MustUpdate?)
    ensures Legal(e, s, Writing(q))
    ensures var id := Identity(s.copy.spec);
            var read := if s.pc.MustCreate? then None else Some(s.pc.c);
            After(e, s, Writing(q)) ==
              s.(pc := Idle, trace := s.trace + Written(read, q.write, q.end),
                 azure := if q.write.Accepted? then s.azure[id := At(s.azure, id).(running := true)] else s.azure)
  {
    var sent := Then(Start, SendWrite(q.write));
    assert Legal(e, s, Start) && After(e, s, Start) == s;
    assert Legal(e, s, sent);
    if q.write.Accepted? {
      assert Legal(e, s, Then(sent, PollWriteEnds(q.end)));
    }
  }

  /**
   Refinement: from the first read on, the single steps run through exactly the calls of the
   sequential text to its end, whichever of them fail, and Azure is touched only by an accepted write.
   */
  lemma ReconcileInOnePiece(e: Assumptions, s: State, q: Answers)
    requires WellFormed(s) && s.pc.Observe? && Possible(s, q)
    ensures Legal(e, s, Calls(q))
    ensures var id := Identity(s.copy.spec);
            var read := if q.get.Found? then Some(q.get.c) else None;
            After(e, s, Calls(q)) ==
              if Sends(q) then
                s.(pc := Idle, trace := s.trace + Seen(q.get, q.needed) + Written(read, q.write, q.end),
                   azure := if q.write.Accepted? then s.azure[id := At(s.azure, id).(running := true)] else s.azure)
              else s.(pc := Idle, trace := s.trace + Seen(q.get, q.needed))
  {
    Reads(e, s, q);
    if Sends(q) {
      Writes(e, After(e, s, Reading(q)), q);
      ConcatRuns(e, s, Reading(q), Writing(q));
    }
  }

  /** The calls of one deletion: the delete, its poll after Azure has removed the cluster, the finalizer. */
  function Removing(id: AzureId, del: DeleteReply, poll: PollReply, served: bool): Run {
    var sent := Then(Start, SendDelete(del));
    var polled :=
      if !del.DeleteAccepted? then sent
      else if poll.PollFailed? then Then(sent, PollDeleteEnds(poll))
      else Then(Then(sent, AzureMoves(id, GONE)), PollDeleteEnds(poll));
    if del.DeleteAbsent? || (del.DeleteAccepted? && !poll.PollFailed?) then Then(polled, RemoveFinalizer(served))
    else polled
  }

  lemma Released(e: Assumptions, s: State, run: Run, served: bool)
    requires Legal(e, s, run) && WellFormed(s) && s.copy.deleting && s.copy.finalizer
    requires var c := After(e, s, run);
             c.pc.Cleanup? && c.history == s.history && c.copy == s.copy && c.copyRv == s.copyRv
    ensures Legal(e, s, Then(run, RemoveFinalizer(served)))
    ensures var s' := After(e, s, Then(run, RemoveFinalizer(served)));
            && s'.pc.Idle?
            && (if served && UpToDateCopy(s) then
                  && s'.trace == After(e, s, run).trace + [FinalizerDropped]
                  && s'.history ==
                       s.history + [if s.copy.otherFinalizers then Some(s.copy.(finalizer := false)) else None]
                else s'.trace == After(e, s, run).trace && s'.history == s.history)
  {
  }

  /** A failed delete or poll ends the deletion before the finalizer; otherwise it goes, and with it the resource. */
  lemma DeletionInOnePiece(e: Assumptions, s: State, del: DeleteReply, poll: PollReply, served: bool)
    requires WellFormed(s) && s.pc.DeleteCall? && s.copy.deleting && s.copy.finalizer
    requires del.DeleteAbsent? ==> At(s.azure, Identity(s.copy.spec)) == GONE
    ensures var run := Removing(Identity(s.copy.spec), del, poll, served);
            var confirmed := del.DeleteAbsent? || (del.DeleteAccepted? && !poll.PollFailed?);
            var released := confirmed && served && UpToDateCopy(s);
            && Legal(e, s, run)
            && var s' := After(e, s, run);
               && s'.pc.Idle?
               && s'.trace == s.trace + [DeleteSent] + (if confirmed then [DeleteConfirmed] else []) +
                              (if released then [FinalizerDropped] else [])
               && s'.history ==
                    if !released then s.history
                    else s.history + [if s.copy.otherFinalizers then Some(s.copy.(finalizer := false)) else None]
  {
    var id := Identity(s.copy.spec);
    var sent := Then(Start, SendDelete(del));
    assert Legal(e, s, Start) && After(e, s, Start) == s;
    assert Legal(e, s, sent);
    match del {
      case DeleteFailed =>
      case DeleteAbsent =>
        Released(e, s, sent, served);
      case DeleteAccepted =>
        var moved := if poll.PollFailed? then sent else Then(sent, AzureMoves(id, GONE));
        assert Legal(e, s, moved);
        assert Legal(e, s, Then(moved, PollDeleteEnds(poll)));
        if !poll.PollFailed? {
          Released(e, s, Then(moved, PollDeleteEnds(poll)), served);
        }
    }
  }

  /** The trace tells the truth: what a step logs as read, confirmed or released is so. */
  lemma TraceTellsTheTruth(e: Assumptions, s: State, a: Action, k: nat)
    requires Enabled(e, s, a) && |s.trace| <= k < |Do(e, s, a).trace|
    ensures var s' := Do(e, s, a);
            var remote := At(s.azure, Identity(s.copy.spec));
            match s'.trace[k]
            case Started(found) => found in s.history
            case Read(c) => remote.visible == Some(c)
            case ReadAbsent => remote.visible == None
            case DeleteConfirmed => e.truthfulAbsence ==> remote == GONE
            case FinalizerAdded => s'.history == s.history + [Settle(s.copy.(finalizer := true))] && UpToDateCopy(s)
            case FinalizerDropped => s'.history == s.history + [Settle(s.copy.(finalizer := false))] && UpToDateCopy(s)
            case _ => true
  {
    match a {
      case Fetch(_) =>
      case GetCluster(_) =>
      case SendWrite(_) =>
      case SendDelete(_) =>
      case PollDeleteEnds(_) =>
      case RemoveFinalizer(_) =>
      case _ =>
    }
  }
}
