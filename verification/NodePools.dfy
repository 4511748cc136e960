/**
 From a node pool in the spec to what is sent to Azure: the purpose hints, the VM size, and
 the two builders (one for the cluster's initial profiles, one for a pool of its own).
 */
module NodePools {
  import opened Wrappers
  import opened Text

  const MAX_INT32 := 0x7fff_ffff
  const MIN_INT32 := -0x8000_0000

  /** safeIntToInt32: clamps instead of wrapping around. */
  function SafeIntToInt32(v: int): (r: int)
    ensures MIN_INT32 <= r <= MAX_INT32
    ensures MIN_INT32 <= v <= MAX_INT32 ==> r == v
  {
    if v > MAX_INT32 then MAX_INT32 else if v < MIN_INT32 then MIN_INT32 else v
  }

  function Distance(v: int, w: int): nat {
    if v < w then w - v else v - w
  }

  /** The clamp is the nearest int32, and the only nearest one. */
  lemma ClampIsNearest(v: int, w: int)
    requires MIN_INT32 <= w <= MAX_INT32
    ensures Distance(v, SafeIntToInt32(v)) <= Distance(v, w)
    ensures Distance(v, w) == Distance(v, SafeIntToInt32(v)) ==> w == SafeIntToInt32(v)
  {
  }

  datatype Taint = Taint(key: string, value: string, effect: string)

  datatype Autoscaling = Autoscaling(enabled: bool, minReplicas: int, maxReplicas: int)

  datatype NodePool = NodePool(
    name: string,
    replicas: int,
    machineClass: string,
    version: string,
    autoscaling: Autoscaling,
    taints: seq<Taint>,
    labels: map<string, string>)

  datatype Purpose = GeneralPurpose | ComputeOptimized | MemoryOptimized | Gpu | Burstable | StorageOptimized

  // ---------- Purpose ----------

  predicate HintsGpu(t: Taint) {
    Contains(Lower(t.key), "gpu") || Contains(Lower(t.value), "gpu")
  }

  /** What one label says; GPU wins over compute, compute over memory. */
  function LabelHint(key: string, value: string): Option<Purpose> {
    var k, v := Lower(key), Lower(value);
    if Contains(k, "gpu") || Contains(v, "gpu") then Some(Gpu)
    else if Contains(k, "compute") || Contains(v, "compute") then Some(ComputeOptimized)
    else if Contains(k, "memory") || Contains(v, "memory") then Some(MemoryOptimized)
    else None
  }

  function ClassHint(machineClass: string): Purpose {
    var c := Lower(machineClass);
    if Contains(c, "gpu") then Gpu
    else if Contains(c, "cpu") || Contains(c, "compute") then ComputeOptimized
    else if Contains(c, "memory") || Contains(c, "mem") then MemoryOptimized
    else GeneralPurpose
  }

  /** One of the two texts mentions the word, in any letter case. */
  predicate Mentions(key: string, value: string, word: string) {
    Contains(Lower(key), word) || Contains(Lower(value), word)
  }

  /** GPU before compute before memory, and nothing without one of the words. */
  lemma LabelHintIff(key: string, value: string)
    ensures LabelHint(key, value) == Some(Gpu) <==> Mentions(key, value, "gpu")
    ensures LabelHint(key, value) == Some(ComputeOptimized) <==>
              Mentions(key, value, "compute") && !Mentions(key, value, "gpu")
    ensures LabelHint(key, value) == Some(MemoryOptimized) <==>
              Mentions(key, value, "memory") && !Mentions(key, value, "gpu") && !Mentions(key, value, "compute")
    ensures LabelHint(key, value) == None <==>
              !Mentions(key, value, "gpu") && !Mentions(key, value, "compute") && !Mentions(key, value, "memory")
  {
  }

  lemma TaintHintIff(t: Taint)
    ensures HintsGpu(t) <==> Mentions(t.key, t.value, "gpu")
  {
  }

  /** The machine class decides last; "mem" is enough for memory. */
  lemma ClassHintIff(machineClass: string)
    ensures ClassHint(machineClass) == Gpu <==> Mentions(machineClass, "", "gpu")
    ensures ClassHint(machineClass) == ComputeOptimized <==>
              !Mentions(machineClass, "", "gpu") &&
              (Mentions(machineClass, "", "cpu") || Mentions(machineClass, "", "compute"))
    ensures ClassHint(machineClass) == MemoryOptimized <==>
              Mentions(machineClass, "", "mem") && !Mentions(machineClass, "", "gpu") &&
              !Mentions(machineClass, "", "cpu") && !Mentions(machineClass, "", "compute")
    ensures ClassHint(machineClass) in {Gpu, ComputeOptimized, MemoryOptimized, GeneralPurpose}
  {
    var c := Lower(machineClass);
    if Contains(c, "memory") {
      var i :| 0 <= i <= |c| - 6 && c[i..][..6] == "memory";
      assert c[i..][..3] == "memory"[..3] == "mem";
    }
    assert Lower("") == "";
  }

  predicate TaintedForGpu(pool: NodePool) {
    exists i :: 0 <= i < |pool.taints| && HintsGpu(pool.taints[i])
  }

  function FirstHint(order: seq<(string, string)>): Option<Purpose> {
    if |order| == 0 then None
    else
      var hint := LabelHint(order[0].0, order[0].1);
      if hint.Some? then hint else FirstHint(order[1..])
  }

  function PurposeIn(pool: NodePool, order: seq<(string, string)>): Purpose {
    if TaintedForGpu(pool) then Gpu
    else
      var hint := FirstHint(order);
      if hint.Some? then hint.value else ClassHint(pool.machineClass)
  }

  /** `order` lists the labels once each; iterating over a map may use any such order. */
  ghost predicate Enumerates(order: seq<(string, string)>, labels: map<string, string>) {
    && (forall i :: 0 <= i < |order| ==> order[i].0 in labels && labels[order[i].0] == order[i].1)
    && (forall i, j :: 0 <= i < j < |order| ==> order[i].0 != order[j].0)
    && (forall k :: k in labels ==> (k, labels[k]) in order)
  }

  /** determineNodePoolPurpose; `order` is the order the label map happens to be iterated in. */
  method DetermineNodePoolPurpose(pool: NodePool, order: seq<(string, string)>) returns (purpose: Purpose)
    ensures purpose == PurposeIn(pool, order)
  {
    for i := 0 to |pool.taints|
      invariant forall j :: 0 <= j < i ==> !HintsGpu(pool.taints[j])
    {
      if HintsGpu(pool.taints[i]) {
        return Gpu;
      }
    }
    for i := 0 to |order|
      invariant FirstHint(order) == FirstHint(order[i..])
    {
      var hint := LabelHint(order[i].0, order[i].1);
      if hint.Some? {
        return hint.value;
      }
      assert order[i..][1..] == order[i + 1..];
    }
    assert order[|order|..] == [];
    purpose := ClassHint(pool.machineClass);
  }

  ghost predicate HintingLabelsAgree(labels: map<string, string>) {
    forall k, k' | k in labels && k' in labels && LabelHint(k, labels[k]).Some? && LabelHint(k', labels[k']).Some? ::
      LabelHint(k, labels[k]) == LabelHint(k', labels[k'])
  }

  ghost predicate PurposeDetermined(pool: NodePool) {
    TaintedForGpu(pool) || HintingLabelsAgree(pool.labels)
  }

  lemma {:induction false} FirstHintIsAHint(order: seq<(string, string)>)
    ensures FirstHint(order).Some? ==>
              exists i :: 0 <= i < |order| && LabelHint(order[i].0, order[i].1) == FirstHint(order)
    ensures FirstHint(order).None? ==>
              forall i :: 0 <= i < |order| ==> LabelHint(order[i].0, order[i].1).None?
  {
    if |order| > 0 && LabelHint(order[0].0, order[0].1).None? {
      var rest := order[1..];
      FirstHintIsAHint(rest);
      if FirstHint(rest).Some? {
        var i :| 0 <= i < |rest| && LabelHint(rest[i].0, rest[i].1) == FirstHint(rest);
        assert order[i + 1] == rest[i];
      } else {
        forall i | 0 <= i < |order|
          ensures LabelHint(order[i].0, order[i].1).None?
        {
          if i > 0 {
            assert order[i] == rest[i - 1];
          }
        }
      }
    }
  }

  lemma SameHintInEveryOrder(labels: map<string, string>, o: seq<(string, string)>, o': seq<(string, string)>)
    requires HintingLabelsAgree(labels) && Enumerates(o, labels) && Enumerates(o', labels)
    ensures FirstHint(o) == FirstHint(o')
  {
    FirstHintIsAHint(o);
    FirstHintIsAHint(o');
    if FirstHint(o).Some? {
      var i :| 0 <= i < |o| && LabelHint(o[i].0, o[i].1) == FirstHint(o);
      assert (o[i].0, labels[o[i].0]) in o';
    }
    if FirstHint(o').Some? {
      var i :| 0 <= i < |o'| && LabelHint(o'[i].0, o'[i].1) == FirstHint(o');
      assert (o'[i].0, labels[o'[i].0]) in o;
    }
  }

  lemma {:induction false} SomeOrder(labels: map<string, string>) returns (order: seq<(string, string)>)
    ensures Enumerates(order, labels)
    decreases |labels|
  {
    if labels == map[] {
      order := [];
    } else {
      var k :| k in labels;
      order := OrderFrom(labels, k);
    }
  }

  lemma {:induction false} OrderFrom(labels: map<string, string>, first: string) returns (order: seq<(string, string)>)
    requires first in labels
    ensures Enumerates(order, labels) && |order| > 0 && order[0] == (first, labels[first])
    decreases |labels|, 0
  {
    var others := labels - {first};
    assert labels == others[first := labels[first]];
    var rest := SomeOrder(others);
    order := [(first, labels[first])] + rest;
    forall i, j | 0 <= i < j < |order|
      ensures order[i].0 != order[j].0
    {
      assert order[j] == rest[j - 1];
      if i > 0 {
        assert order[i] == rest[i - 1];
      }
    }
    forall k | k in labels
      ensures (k, labels[k]) in order
    {
      if k != first {
        assert (k, others[k]) in rest;
      }
    }
  }

  /**
   The purpose does not depend on the order of the label map if and only if a taint hints GPU
   or all labels that hint anything hint the same.
   */
  lemma PurposeDeterminedIff(pool: NodePool)
    ensures PurposeDetermined(pool) <==>
              forall o, o' :: Enumerates(o, pool.labels) && Enumerates(o', pool.labels) ==>
                PurposeIn(pool, o) == PurposeIn(pool, o')
  {
    if PurposeDetermined(pool) {
      forall o, o' | Enumerates(o, pool.labels) && Enumerates(o', pool.labels)
        ensures PurposeIn(pool, o) == PurposeIn(pool, o')
      {
        if !TaintedForGpu(pool) {
          SameHintInEveryOrder(pool.labels, o, o');
        }
      }
    } else {
      var o, o' := DisagreeingOrders(pool);
    }
  }

  lemma DisagreeingOrders(pool: NodePool) returns (o: seq<(string, string)>, o': seq<(string, string)>)
    requires !PurposeDetermined(pool)
    ensures Enumerates(o, pool.labels) && Enumerates(o', pool.labels)
    ensures PurposeIn(pool, o) != PurposeIn(pool, o')
  {
    var labels := pool.labels;
    var k, k' :| k in labels && k' in labels &&
      LabelHint(k, labels[k]).Some? && LabelHint(k', labels[k']).Some? &&
      LabelHint(k, labels[k]) != LabelHint(k', labels[k']);
    o := OrderFrom(labels, k);
    o' := OrderFrom(labels, k');
  }

  // ---------- VM size ----------

  /** The mapper's answers (None for an error) and the static fallback, both functions of their inputs. */
  datatype Resolver = Resolver(
    mapper: Option<(string, string, Purpose) -> Option<string>>,
    fallback: (string, Purpose) -> string)

  function ResolveVmSize(machineClass: string, location: string, purpose: Purpose, r: Resolver): string {
    if HasPrefix(machineClass, "Standard_") then machineClass
    else
      var mapped := if r.mapper.Some? then r.mapper.value(machineClass, location, purpose) else None;
      if mapped.Some? then mapped.value else r.fallback(machineClass, purpose)
  }

  /** A class that is a VM size stands for itself; the mapper's answer comes before the fallback, also when it fails. */
  lemma ResolutionOrder(machineClass: string, location: string, purpose: Purpose, r: Resolver)
    ensures var size := ResolveVmSize(machineClass, location, purpose, r);
            var known := exists rest :: machineClass == "Standard_" + rest;
            && (known ==> size == machineClass)
            && (!known && r.mapper.Some? && r.mapper.value(machineClass, location, purpose).Some? ==>
                  Some(size) == r.mapper.value(machineClass, location, purpose))
            && (!known && r.mapper.Some? && r.mapper.value(machineClass, location, purpose).None? ==>
                  size == r.fallback(machineClass, purpose))
            && (!known && r.mapper.None? ==> size == r.fallback(machineClass, purpose))
  {
    HasPrefixIff(machineClass, "Standard_");
  }

  // ---------- Builders ----------

  datatype Mode = System | User

  /** The fields the two Azure types have in common; operating system and pool type are constants. */
  datatype Settings = Settings(
    count: int,
    vmSize: string,
    mode: Mode,
    autoscale: bool,
    minCount: Option<int>,
    maxCount: Option<int>,
    taints: seq<string>,
    labels: map<string, string>)

  datatype Profile = Profile(name: string, settings: Settings)

  datatype AgentPool = AgentPool(settings: Settings, version: Option<string>, zones: seq<string>)

  function Rendered(t: Taint): string {
    t.key + "=" + t.value + ":" + t.effect
  }

  function RenderedAll(taints: seq<Taint>): seq<string> {
    seq(|taints|, i requires 0 <= i < |taints| => Rendered(taints[i]))
  }

  method RenderTaints(taints: seq<Taint>) returns (r: seq<string>)
    ensures r == RenderedAll(taints)
    ensures |r| == |taints|
    ensures forall i :: 0 <= i < |r| ==> r[i] == taints[i].key + "=" + taints[i].value + ":" + taints[i].effect
  {
    r := [];
    for i := 0 to |taints|
      invariant r == RenderedAll(taints)[..i]
    {
      r := r + [Rendered(taints[i])];
    }
  }

  /** What both builders must send for a pool of the given VM size. */
  function SettingsOf(pool: NodePool, vmSize: string): Settings {
    var scaled := pool.autoscaling.enabled;
    Settings(
      SafeIntToInt32(pool.replicas), vmSize, User, scaled,
      if scaled then Some(SafeIntToInt32(pool.autoscaling.minReplicas)) else None,
      if scaled then Some(SafeIntToInt32(pool.autoscaling.maxReplicas)) else None,
      RenderedAll(pool.taints), pool.labels)
  }

  /** buildAgentPoolProfile of the cluster manager. */
  method BuildAgentPoolProfile(pool: NodePool, location: string, order: seq<(string, string)>, r: Resolver)
    returns (profile: Profile)
    ensures profile == Profile(pool.name,
                               SettingsOf(pool, ResolveVmSize(pool.machineClass, location, PurposeIn(pool, order), r)))
  {
    var purpose := DetermineNodePoolPurpose(pool, order);
    var vmSize := ResolveVmSize(pool.machineClass, location, purpose, r);
    var s := Settings(SafeIntToInt32(pool.replicas), vmSize, User, false, None, None, [], map[]);
    if pool.autoscaling.enabled {
      s := s.(autoscale := true,
              minCount := Some(SafeIntToInt32(pool.autoscaling.minReplicas)),
              maxCount := Some(SafeIntToInt32(pool.autoscaling.maxReplicas)));
    }
    if |pool.taints| > 0 {
      var taints := RenderTaints(pool.taints);
      s := s.(taints := taints);
    }
    if |pool.labels| > 0 {
      s := s.(labels := pool.labels);
    } else {
      assert pool.labels == map[];
    }
    profile := Profile(pool.name, s);
  }

  /** The agent pool that the pool manager wants Azure to hold. */
  function AgentPoolOf(pool: NodePool, vmSize: string): AgentPool {
    AgentPool(SettingsOf(pool, vmSize), if pool.version != "" then Some(pool.version) else None, ["1", "2", "3"])
  }

  /** resolveVMSize and buildAgentPool of the pool manager. */
  method BuildAgentPool(pool: NodePool, location: string, order: seq<(string, string)>, r: Resolver)
    returns (agentPool: AgentPool)
    ensures agentPool == AgentPoolOf(pool, ResolveVmSize(pool.machineClass, location, PurposeIn(pool, order), r))
  {
    var vmSize := pool.machineClass;
    if !HasPrefix(pool.machineClass, "Standard_") {
      var purpose := DetermineNodePoolPurpose(pool, order);
      vmSize := ResolveVmSize(pool.machineClass, location, purpose, r);
    }
    var s := Settings(SafeIntToInt32(pool.replicas), vmSize, User, false, None, None, [], map[]);
    if pool.autoscaling.enabled {
      s := s.(autoscale := true,
              minCount := Some(SafeIntToInt32(pool.autoscaling.minReplicas)),
              maxCount := Some(SafeIntToInt32(pool.autoscaling.maxReplicas)));
    }
    var version := if pool.version != "" then Some(pool.version) else None;
    if |pool.taints| > 0 {
      var taints := RenderTaints(pool.taints);
      s := s.(taints := taints);
    }
    if |pool.labels| > 0 {
      s := s.(labels := pool.labels);
    } else {
      assert pool.labels == map[];
    }
    agentPool := AgentPool(s, version, ["1", "2", "3"]);
  }

  /** The two builders send the same settings when each iterates the labels in its own order. */
  ghost predicate BuildersAgree(pool: NodePool, location: string, r: Resolver) {
    forall o, o' :: Enumerates(o, pool.labels) && Enumerates(o', pool.labels) ==>
      SettingsOf(pool, ResolveVmSize(pool.machineClass, location, PurposeIn(pool, o), r)) ==
      AgentPoolOf(pool, ResolveVmSize(pool.machineClass, location, PurposeIn(pool, o'), r)).settings
  }

  function PurposeName(p: Purpose): string {
    match p
    case GeneralPurpose => "g"
    case ComputeOptimized => "c"
    case MemoryOptimized => "m"
    case Gpu => "n"
    case Burstable => "b"
    case StorageOptimized => "l"
  }

  /** Resolves every purpose to its own size. */
  const SIZE_PER_PURPOSE := Resolver(None, (_: string, purpose: Purpose) => PurposeName(purpose))

  lemma NamesDiffer(p: Purpose, p': Purpose)
    requires p != p'
    ensures PurposeName(p) != PurposeName(p')
  {
    assert PurposeName(p)[0] != PurposeName(p')[0];
  }

  /** A mapper that gives every purpose its own size tells the two builders apart. */
  lemma BuildersDisagree(pool: NodePool, location: string) returns (r: Resolver)
    requires !HasPrefix(pool.machineClass, "Standard_") && !PurposeDetermined(pool)
    ensures !BuildersAgree(pool, location, r)
  {
    var o, o' := DisagreeingOrders(pool);
    var p, p' := PurposeIn(pool, o), PurposeIn(pool, o');
    r := SIZE_PER_PURPOSE;
    NamesDiffer(p, p');
    assert ResolveVmSize(pool.machineClass, location, p, r) == PurposeName(p);
    assert ResolveVmSize(pool.machineClass, location, p', r) == PurposeName(p');
  }

  /**
   The builders agree under every mapper if and only if the machine class is itself a VM size or
   the purpose is determined.
   */
  lemma BuildersAgreeIff(pool: NodePool, location: string)
    ensures (forall r :: BuildersAgree(pool, location, r)) <==>
              HasPrefix(pool.machineClass, "Standard_") || PurposeDetermined(pool)
  {
    if HasPrefix(pool.machineClass, "Standard_") || PurposeDetermined(pool) {
      PurposeDeterminedIff(pool);
    } else {
      var r := BuildersDisagree(pool, location);
    }
  }
}
