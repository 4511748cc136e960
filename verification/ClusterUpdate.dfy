/**
 When a reconcile writes to Azure: building the managed cluster, comparing it with what Azure
 holds, and whether repeated reconciles come to rest.
 */
module ClusterUpdate {
  import opened Wrappers
  import opened NodePools

  datatype ControlPlane = ControlPlane(replicas: int, version: string, machineClass: string)

  datatype Topology = Topology(version: string, controlPlane: ControlPlane, region: string, nodePools: seq<NodePool>)

  /** What the operator's surroundings answer: the VM sizes, the default version, the label orders. */
  datatype Context = Context(
    resolver: Resolver,
    defaultVersion: string,                     // DEFAULT_KUBERNETES_VERSION, "" when unset
    order: map<string, string> -> seq<(string, string)>)

  /** An Azure cluster as read back: every field may be missing. */
  datatype PoolView = PoolView(name: Option<string>, count: Option<int>, vmSize: Option<string>)

  datatype View = View(version: Option<string>, pools: Option<seq<PoolView>>, state: Option<string>)

  datatype ManagedCluster = ManagedCluster(version: string, profiles: seq<Profile>)

  function KubernetesVersion(t: Topology, c: Context): string {
    if t.version != "" then t.version
    else if t.controlPlane.version != "" then t.controlPlane.version
    else if c.defaultVersion != "" then c.defaultVersion
    else "1.30"
  }

  function SystemVmSize(t: Topology, c: Context): string {
    ResolveVmSize(t.controlPlane.machineClass, t.region, GeneralPurpose, c.resolver)
  }

  function SystemProfile(t: Topology, c: Context): Profile {
    Profile("system",
            Settings(SafeIntToInt32(t.controlPlane.replicas), SystemVmSize(t, c), System, false, None, None, [], map[]))
  }

  function WorkerProfile(pool: NodePool, t: Topology, c: Context): Profile {
    Profile(pool.name,
            SettingsOf(pool, ResolveVmSize(pool.machineClass, t.region,
                                           PurposeIn(pool, c.order(pool.labels)), c.resolver)))
  }

  /** The system pool first, then one profile per node pool in spec order. */
  function Profiles(t: Topology, c: Context): seq<Profile> {
    [SystemProfile(t, c)] +
    seq(|t.nodePools|, i requires 0 <= i < |t.nodePools| => WorkerProfile(t.nodePools[i], t, c))
  }

  method BuildInitialAgentPoolProfiles(t: Topology, c: Context) returns (profiles: seq<Profile>)
    ensures profiles == Profiles(t, c)
  {
    profiles := [SystemProfile(t, c)];
    for i := 0 to |t.nodePools|
      invariant profiles == Profiles(t, c)[..i + 1]
    {
      var pool := t.nodePools[i];
      var profile := BuildAgentPoolProfile(pool, t.region, c.order(pool.labels), c.resolver);
      profiles := profiles + [profile];
    }
  }

  // ---------- needsUpdate ----------

  /** `^x` of Go on an int32. */
  function Complement(x: int): int {
    -x - 1
  }

  /** The bound in the source is `int(^int32(0))`; its comment calls it the largest int32. */
  const WRITTEN_CAP := Complement(0)

  const DOCUMENTED_CAP := MAX_INT32

  /** Conversion of a Go int to int32 wraps around. */
  function ToInt32(v: int): int {
    (v + 0x8000_0000) % 0x1_0000_0000 - 0x8000_0000
  }

  function DesiredCount(replicas: int, cap: int): int {
    ToInt32(if replicas < cap then replicas else cap)
  }

  predicate IsSystem(p: PoolView) {
    p.name == Some("system")
  }

  predicate PoolDiffers(p: PoolView, count: int, vmSize: string) {
    (p.count.Some? && p.count.value != count) || (p.vmSize.Some? && p.vmSize.value != vmSize)
  }

  /** Some pool is called "system", and the first such pool has another count or size. */
  ghost predicate SystemPoolDiffers(pools: seq<PoolView>, count: int, vmSize: string) {
    exists i :: 0 <= i < |pools| && IsSystem(pools[i]) && (forall j :: 0 <= j < i ==> !IsSystem(pools[j])) &&
                PoolDiffers(pools[i], count, vmSize)
  }

  ghost predicate OutOfDate(t: Topology, c: Context, existing: Option<View>, cap: int) {
    existing.None? ||
    (existing.value.version.Some? && existing.value.version.value != KubernetesVersion(t, c)) ||
    (t.controlPlane.replicas > 0 && existing.value.pools.Some? &&
     SystemPoolDiffers(existing.value.pools.value, DesiredCount(t.controlPlane.replicas, cap), SystemVmSize(t, c)))
  }

  /** needsUpdate; None stands for a cluster without properties. */
  method NeedsUpdate(t: Topology, c: Context, existing: Option<View>, cap: int) returns (r: bool)
    ensures r == OutOfDate(t, c, existing, cap)
  {
    if existing.None? {
      return true;
    }
    var view := existing.value;
    if view.version.Some? && view.version.value != KubernetesVersion(t, c) {
      return true;
    }
    if t.controlPlane.replicas > 0 && view.pools.Some? {
      var pools := view.pools.value;
      var desiredCount := DesiredCount(t.controlPlane.replicas, cap);
      for i := 0 to |pools|
        invariant forall j :: 0 <= j < i ==> !IsSystem(pools[j])
      {
        if IsSystem(pools[i]) {
          if pools[i].count.Some? && pools[i].count.value != desiredCount {
            return true;
          }
          var desiredVmSize := SystemVmSize(t, c);
          if pools[i].vmSize.Some? && pools[i].vmSize.value != desiredVmSize {
            return true;
          }
          break;
        }
      }
    }
    return false;
  }

  // ---------- Coming to rest ----------

  /** Azure stores exactly what was sent and reports success. */
  function Stored(cluster: ManagedCluster): View {
    View(Some(cluster.version),
         Some(seq(|cluster.profiles|, i requires 0 <= i < |cluster.profiles| =>
                    var p := cluster.profiles[i];
                    PoolView(Some(p.name), Some(p.settings.count), Some(p.settings.vmSize)))),
         Some("Succeeded"))
  }

  function Sent(t: Topology, c: Context): View {
    Stored(ManagedCluster(KubernetesVersion(t, c), Profiles(t, c)))
  }

  /** What was just written is out of date again exactly when the system pool is compared with another count. */
  lemma JustWrittenIsOutOfDateIff(t: Topology, c: Context, cap: int)
    ensures OutOfDate(t, c, Some(Sent(t, c)), cap) <==>
              t.controlPlane.replicas > 0 &&
              DesiredCount(t.controlPlane.replicas, cap) != SafeIntToInt32(t.controlPlane.replicas)
  {
    var pools := Sent(t, c).pools.value;
    var count := SafeIntToInt32(t.controlPlane.replicas);
    assert pools[0] == PoolView(Some("system"), Some(count), Some(SystemVmSize(t, c)));
    assert IsSystem(pools[0]);
  }

  /** With the documented cap an update is a fixpoint, for every spec. */
  lemma DocumentedCapIsAFixpoint(t: Topology, c: Context)
    ensures !OutOfDate(t, c, Some(Sent(t, c)), DOCUMENTED_CAP)
  {
    JustWrittenIsOutOfDateIff(t, c, DOCUMENTED_CAP);
  }

  /** With the cap as written it is one only for a spec without positive replicas. */
  lemma WrittenCapIsAFixpointIff(t: Topology, c: Context)
    ensures !OutOfDate(t, c, Some(Sent(t, c)), WRITTEN_CAP) <==> t.controlPlane.replicas <= 0
  {
    JustWrittenIsOutOfDateIff(t, c, WRITTEN_CAP);
    if t.controlPlane.replicas > 0 {
      assert DesiredCount(t.controlPlane.replicas, WRITTEN_CAP) == -1;
    }
  }

  /** More: whatever non-negative count Azure reports for the system pool, the written cap calls it out of date. */
  lemma WrittenCapRejectsEveryCount(t: Topology, c: Context, view: View, i: nat)
    requires t.controlPlane.replicas > 0 && view.pools.Some? && i < |view.pools.value|
    requires IsSystem(view.pools.value[i]) && forall j :: 0 <= j < i ==> !IsSystem(view.pools.value[j])
    requires view.pools.value[i].count.Some? && view.pools.value[i].count.value >= 0
    ensures OutOfDate(t, c, Some(view), WRITTEN_CAP)
  {
    assert DesiredCount(t.controlPlane.replicas, WRITTEN_CAP) == -1;
    assert PoolDiffers(view.pools.value[i], -1, SystemVmSize(t, c));
  }

  /**
   What is sent to Azure: one profile per node pool behind the only system profile, and a cluster
   that, once Azure has stored it, needs no update under the documented cap.
   */
  method BuildManagedCluster(t: Topology, c: Context) returns (cluster: ManagedCluster)
    ensures cluster == ManagedCluster(KubernetesVersion(t, c), Profiles(t, c))
    ensures |cluster.profiles| == |t.nodePools| + 1 && cluster.profiles[0].name == "system"
    ensures forall i :: 0 <= i < |cluster.profiles| ==> (cluster.profiles[i].settings.mode.System? <==> i == 0)
    ensures forall i :: 0 <= i < |t.nodePools| ==> cluster.profiles[i + 1].name == t.nodePools[i].name
    ensures cluster.version != "" && (t.version != "" ==> cluster.version == t.version)
    ensures t.version == "" && t.controlPlane.version != "" ==> cluster.version == t.controlPlane.version
    ensures t.version == t.controlPlane.version == "" ==>
              cluster.version == if c.defaultVersion != "" then c.defaultVersion else "1.30"
    ensures var size := ResolveVmSize(t.controlPlane.machineClass, t.region, GeneralPurpose, c.resolver);
            var count := SafeIntToInt32(t.controlPlane.replicas);
            cluster.profiles[0].settings == Settings(count, size, System, false, None, None, [], map[])
    ensures !OutOfDate(t, c, Some(Stored(cluster)), DOCUMENTED_CAP)
    ensures OutOfDate(t, c, Some(Stored(cluster)), WRITTEN_CAP) <==> t.controlPlane.replicas > 0
  {
    var profiles := BuildInitialAgentPoolProfiles(t, c);
    cluster := ManagedCluster(KubernetesVersion(t, c), profiles);
    DocumentedCapIsAFixpoint(t, c);
    WrittenCapIsAFixpointIff(t, c);
  }

  predicate Busy(state: Option<string>) {
    state == Some("Creating") || state == Some("Updating") || state == Some("Deleting")
  }

  /** The cluster as a read finds it: absent, without properties, or with them. */
  datatype Existing = NoCluster | Bare | Held(view: View)

  function Properties(x: Existing): Option<View> {
    if x.Held? then Some(x.view) else None
  }

  function StateOf(x: Existing): Option<string> {
    if x.Held? then x.view.state else None
  }

  /** What Azure holds, and how often it was written. */
  datatype Azure = Azure(cluster: Existing, writes: nat)

  /** ReconcileCluster when every call is served and Azure stores what is sent. */
  ghost function Reconciled(a: Azure, t: Topology, c: Context, cap: int): Azure {
    if !a.cluster.NoCluster? && (Busy(StateOf(a.cluster)) || !OutOfDate(t, c, Properties(a.cluster), cap)) then a
    else Azure(Held(Sent(t, c)), a.writes + 1)
  }

  /** The closing log line of a served update names the provisioning state that was read before. */
  datatype LogLine = NotReached | Names(state: string) | Undefined

  /**
   ReconcileCluster with every call served.  The closing log line dereferences a nil exactly if an
   update is sent for a cluster that was read without properties or without a provisioning state.
   */
  method ReconcileCluster(a: Azure, t: Topology, c: Context, cap: int) returns (a': Azure, line: LogLine)
    ensures a' == Reconciled(a, t, c, cap)
    ensures a'.writes != a.writes <==>
              a.cluster.NoCluster? || a.cluster.Bare? ||
              (a.cluster.Held? && OutOfDate(t, c, Some(a.cluster.view), cap) &&
               a.cluster.view.state != Some("Creating") && a.cluster.view.state != Some("Updating") &&
               a.cluster.view.state != Some("Deleting"))
    ensures line.NotReached? <==> a.cluster.NoCluster? || a' == a
    ensures line.Undefined? <==>
              a.cluster.Bare? ||
              (a.cluster.Held? && a.cluster.view.state.None? && OutOfDate(t, c, Some(a.cluster.view), cap))
    ensures line.Names? ==> StateOf(a.cluster) == Some(line.state)
  {
    if a.cluster.NoCluster? {
      var cluster := BuildManagedCluster(t, c);
      return Azure(Held(Stored(cluster)), a.writes + 1), NotReached;
    }
    if Busy(StateOf(a.cluster)) {
      return a, NotReached;
    }
    var needed := NeedsUpdate(t, c, Properties(a.cluster), cap);
    if !needed {
      return a, NotReached;
    }
    var cluster := BuildManagedCluster(t, c);
    a' := Azure(Held(Stored(cluster)), a.writes + 1);
    line := match StateOf(a.cluster) case None => Undefined case Some(state) => Names(state);
  }

  /** The mapper and the default version answer as before; the labels may come in another order. */
  ghost predicate SameAnswers(c: Context, c': Context) {
    c.resolver == c'.resolver && c.defaultVersion == c'.defaultVersion
  }

  /** A spec that differs from another one in its worker pools only. */
  predicate WorkersChanged(t: Topology, t': Topology) {
    t' == t.(nodePools := t'.nodePools)
  }

  /** needsUpdate does not look at the worker pools, nor at the order of their labels. */
  lemma WorkersDoNotCount(t: Topology, t': Topology, c: Context, c': Context, cap: int)
    requires WorkersChanged(t, t') && SameAnswers(c, c')
    ensures OutOfDate(t', c', Some(Sent(t, c)), cap) <==> OutOfDate(t, c, Some(Sent(t, c)), cap)
  {
    assert KubernetesVersion(t', c') == KubernetesVersion(t, c) && SystemVmSize(t', c') == SystemVmSize(t, c);
  }

  /** Reconciles of one spec from `a`, the k-th in the surroundings `cs(k)`. */
  ghost function ReconciledTimes(n: nat, a: Azure, t: Topology, cs: nat -> Context, cap: int): Azure {
    if n == 0 then a else Reconciled(ReconciledTimes(n - 1, a, t, cs, cap), t, cs(n - 1), cap)
  }

  /** What is at rest stays as it is; what is not is written again. */
  lemma ReconcilesSent(t: Topology, t': Topology, c: Context, c': Context, writes: nat)
    requires WorkersChanged(t, t') && SameAnswers(c, c')
    ensures var a := Azure(Held(Sent(t, c)), writes);
            && Reconciled(a, t', c', DOCUMENTED_CAP) == a
            && Reconciled(a, t', c', WRITTEN_CAP) ==
                 if t.controlPlane.replicas > 0 then Azure(Held(Sent(t', c')), writes + 1) else a
  {
    WorkersDoNotCount(t, t', c, c', DOCUMENTED_CAP);
    WorkersDoNotCount(t, t', c, c', WRITTEN_CAP);
    DocumentedCapIsAFixpoint(t, c);
    WrittenCapIsAFixpointIff(t, c);
  }

  const EMPTY := Azure(NoCluster, 0)

  /**
   Starting without a cluster, n reconciles of one spec send one create and then nothing with the
   documented cap.  With the cap as written they send n writes when replicas is positive.
   */
  lemma {:induction false} WritesAfter(n: nat, t: Topology, cs: nat -> Context)
    requires n > 0 && forall j, k :: SameAnswers(cs(j), cs(k))
    ensures ReconciledTimes(n, EMPTY, t, cs, DOCUMENTED_CAP) == Azure(Held(Sent(t, cs(0))), 1)
    ensures ReconciledTimes(n, EMPTY, t, cs, WRITTEN_CAP) ==
              if t.controlPlane.replicas > 0 then Azure(Held(Sent(t, cs(n - 1))), n)
              else Azure(Held(Sent(t, cs(0))), 1)
  {
    if n == 1 {
      assert ReconciledTimes(0, EMPTY, t, cs, DOCUMENTED_CAP) == EMPTY;
      assert ReconciledTimes(0, EMPTY, t, cs, WRITTEN_CAP) == EMPTY;
    } else {
      WritesAfter(n - 1, t, cs);
      assert SameAnswers(cs(0), cs(n - 1)) && SameAnswers(cs(n - 2), cs(n - 1));
      ReconcilesSent(t, t, cs(0), cs(n - 1), 1);
      ReconcilesSent(t, t, cs(n - 2), cs(n - 1), n - 1);
    }
  }

  /** In such a run the closing log line always has a state to name. */
  lemma OwnWritesHaveAState(n: nat, t: Topology, cs: nat -> Context)
    requires n > 0 && forall j, k :: SameAnswers(cs(j), cs(k))
    ensures StateOf(ReconciledTimes(n, EMPTY, t, cs, DOCUMENTED_CAP).cluster) == Some("Succeeded")
    ensures StateOf(ReconciledTimes(n, EMPTY, t, cs, WRITTEN_CAP).cluster) == Some("Succeeded")
  {
    WritesAfter(n, t, cs);
  }

  /**
   Worker pools are reconciled only after an update of the cluster, so once the cluster is at rest
   under the documented cap no number of reconciles carries a changed worker pool to Azure; under
   the written cap the change arrives with the first reconcile if and only if replicas is positive.
   */
  lemma {:induction false} WorkerChangesReachAzureIff(n: nat, t: Topology, t': Topology, c: Context,
                                                      cs: nat -> Context, writes: nat)
    requires n > 0 && WorkersChanged(t, t') && forall k :: SameAnswers(c, cs(k))
    ensures var a := Azure(Held(Sent(t, c)), writes);
            && ReconciledTimes(n, a, t', cs, DOCUMENTED_CAP) == a
            && ReconciledTimes(1, a, t', cs, WRITTEN_CAP) ==
                 if t.controlPlane.replicas > 0 then Azure(Held(Sent(t', cs(0))), writes + 1) else a
  {
    var a := Azure(Held(Sent(t, c)), writes);
    ReconcilesSent(t, t', c, cs(n - 1), writes);
    ReconcilesSent(t, t', c, cs(0), writes);
    assert ReconciledTimes(0, a, t', cs, DOCUMENTED_CAP) == ReconciledTimes(0, a, t', cs, WRITTEN_CAP) == a;
    if n > 1 {
      WorkerChangesReachAzureIff(n - 1, t, t', c, cs, writes);
    }
  }
}
