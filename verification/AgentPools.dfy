/**
 Agent-pool reconciliation: list, create or update every desired pool, delete the rest.
 `pools` is what Azure holds; every call has its own fate.
 */
module AgentPools {
  import opened Text
  import opened Wrappers
  import opened NodePools
  import ClusterUpdate

  /** A call is carried out, refused, or carried out although the caller gets an error. */
  datatype CallFate = Done | Refused | DoneWithError

  predicate TakesEffect(f: CallFate) {
    !f.Refused?
  }

  /** ValidateVMSize, asked before a create only; an error lets the create go ahead. */
  datatype Validation = Valid | Invalid | ValidationError

  /** One run's surroundings: the labels of entry i come in the order that the map yields them this time. */
  datatype Environment = Environment(
    location: string,
    resolver: Resolver,
    order: nat -> seq<(string, string)>,
    validation: nat -> Validation,        // for the create of desired entry i
    write: nat -> CallFate,               // for the create or update of desired entry i
    delete: string -> CallFate)

  /** What desired entry `i` is to hold in this run. */
  function Target(desired: seq<NodePool>, e: Environment, i: nat): AgentPool
    requires i < |desired|
  {
    var pool := desired[i];
    AgentPoolOf(pool, ResolveVmSize(pool.machineClass, e.location, PurposeIn(pool, e.order(i)), e.resolver))
  }

  datatype Listing = Listed | ClusterNotFound | ListFailed

  type Pools = map<string, AgentPool>

  const SYSTEM := "system"

  function Names(desired: seq<NodePool>): set<string> {
    set i | 0 <= i < |desired| :: desired[i].name
  }

  /** The call for desired entry `i` changes its pool. */
  predicate Lands(before: Pools, desired: seq<NodePool>, e: Environment, i: nat)
    requires i < |desired|
  {
    TakesEffect(e.write(i)) && (desired[i].name in before || !e.validation(i).Invalid?)
  }

  /** What `name` holds after the first `n` desired entries: the target of the last entry that landed. */
  function Written(before: Pools, desired: seq<NodePool>, e: Environment, n: nat, name: string): Option<AgentPool>
    requires n <= |desired|
  {
    if n == 0 then (if name in before then Some(before[name]) else None)
    else if desired[n - 1].name == name && Lands(before, desired, e, n - 1) then Some(Target(desired, e, n - 1))
    else Written(before, desired, e, n - 1, name)
  }

  predicate Deletable(before: Pools, desired: seq<NodePool>, name: string) {
    name in before && name !in Names(desired) && name != SYSTEM
  }

  /** The pool called `name` after the whole call; it mentions no other pool and no loop order. */
  function Final(before: Pools, desired: seq<NodePool>, e: Environment, name: string): Option<AgentPool> {
    if Deletable(before, desired, name) && TakesEffect(e.delete(name)) then None
    else Written(before, desired, e, |desired|, name)
  }

  function Find(pools: Pools, name: string): Option<AgentPool> {
    if name in pools then Some(pools[name]) else None
  }

  /** The agent pool API of one cluster. */
  class Azure {
    var pools: Pools

    constructor (pools: Pools)
      ensures this.pools == pools
    {
      this.pools := pools;
    }

    method CreateOrUpdate(name: string, pool: AgentPool, fate: CallFate) returns (ok: bool)
      modifies this
      ensures pools == if TakesEffect(fate) then old(pools)[name := pool] else old(pools)
      ensures ok == fate.Done?
    {
      if TakesEffect(fate) {
        pools := pools[name := pool];
      }
      ok := fate.Done?;
    }

    method Delete(name: string, fate: CallFate) returns (ok: bool)
      modifies this
      ensures pools == if TakesEffect(fate) then old(pools) - {name} else old(pools)
      ensures ok == fate.Done?
    {
      if TakesEffect(fate) {
        pools := pools - {name};
      }
      ok := fate.Done?;
    }

    method CreateAgentPool(pool: NodePool, e: Environment, i: nat, ghost desired: seq<NodePool>) returns (ok: bool)
      requires i < |desired| && desired[i] == pool
      modifies this
      ensures pools == if TakesEffect(e.write(i)) && !e.validation(i).Invalid?
                       then old(pools)[pool.name := Target(desired, e, i)] else old(pools)
      ensures ok == (e.write(i).Done? && !e.validation(i).Invalid?)
    {
      if e.validation(i).Invalid? {
        return false;
      }
      var target := BuildAgentPool(pool, e.location, e.order(i), e.resolver);
      ok := CreateOrUpdate(pool.name, target, e.write(i));
    }

    method UpdateAgentPool(pool: NodePool, e: Environment, i: nat, ghost desired: seq<NodePool>) returns (ok: bool)
      requires i < |desired| && desired[i] == pool
      modifies this
      ensures pools == if TakesEffect(e.write(i)) then old(pools)[pool.name := Target(desired, e, i)] else old(pools)
      ensures ok == e.write(i).Done?
    {
      var target := BuildAgentPool(pool, e.location, e.order(i), e.resolver);
      ok := CreateOrUpdate(pool.name, target, e.write(i));
    }

    /**
     ReconcileAgentPools.  The deletions go in whatever order the map yields the names; the
     result is the same.  Errors of single pools are logged and do not stop the loop.
     */
    method ReconcileAgentPools(desired: seq<NodePool>, listing: Listing, e: Environment) returns (ok: bool)
      modifies this
      ensures ok == !listing.ListFailed?
      ensures !listing.Listed? ==> pools == old(pools)
      ensures listing.Listed? ==> forall name :: Find(pools, name) == Final(old(pools), desired, e, name)
    {
      if !listing.Listed? {
        return listing.ClusterNotFound?;
      }
      var existing := pools;
      var desiredNames := {};
      for i := 0 to |desired|
        invariant desiredNames == Names(desired[..i])
        invariant forall name :: Find(pools, name) == Written(existing, desired, e, i, name)
      {
        var pool := desired[i];
        desiredNames := desiredNames + {pool.name};
        assert desired[..i + 1] == desired[..i] + [pool];
        if pool.name in existing {
          var _ := UpdateAgentPool(pool, e, i, desired);
        } else {
          var _ := CreateAgentPool(pool, e, i, desired);
        }
      }
      assert desired[..|desired|] == desired;
      var names := existing.Keys;
      while names != {}
        invariant names <= existing.Keys
        invariant forall name :: name in names || name !in existing ==>
                                   Find(pools, name) == Written(existing, desired, e, |desired|, name)
        invariant forall name :: name in existing && name !in names ==>
                                   Find(pools, name) == Final(existing, desired, e, name)
        decreases |names|
      {
        var name :| name in names;
        if name !in desiredNames && name != SYSTEM {
          var _ := Delete(name, e.delete(name));
        }
        names := names - {name};
      }
      return true;
    }
  }

  // ---------- What the result means ----------

  ghost predicate SameFates(e: Environment, e': Environment, desired: seq<NodePool>, name: string) {
    && e.delete(name) == e'.delete(name)
    && (forall i: nat :: i < |desired| && desired[i].name == name ==>
          e.write(i) == e'.write(i) && e.validation(i) == e'.validation(i) &&
          Target(desired, e, i) == Target(desired, e', i))
  }

  lemma {:induction false} WrittenIsIsolated(before: Pools, before': Pools, desired: seq<NodePool>, e: Environment,
                                             e': Environment, n: nat, name: string)
    requires n <= |desired| && SameFates(e, e', desired, name) && Find(before, name) == Find(before', name)
    ensures Written(before, desired, e, n, name) == Written(before', desired, e', n, name)
  {
    if n > 0 {
      WrittenIsIsolated(before, before', desired, e, e', n - 1, name);
    }
  }

  /** Failure isolation: a pool depends on its own old value and the fates of its own calls, and on nothing else. */
  lemma FailureIsolation(before: Pools, before': Pools, desired: seq<NodePool>, e: Environment, e': Environment,
                         name: string)
    requires SameFates(e, e', desired, name) && Find(before, name) == Find(before', name)
    ensures Final(before, desired, e, name) == Final(before', desired, e', name)
  {
    WrittenIsIsolated(before, before', desired, e, e', |desired|, name);
  }

  lemma {:induction false} WrittenIsOldOrTarget(before: Pools, desired: seq<NodePool>, e: Environment, n: nat,
                                                name: string)
    requires n <= |desired|
    ensures var r := Written(before, desired, e, n, name);
            r == Find(before, name) ||
            exists i: nat :: i < n && desired[i].name == name && r == Some(Target(desired, e, i))
  {
    if n > 0 {
      WrittenIsOldOrTarget(before, desired, e, n - 1, name);
    }
  }

  /** Whatever fails, each pool keeps its old value, holds one of its targets, or was deletable and is gone. */
  lemma OldTargetOrDeleted(before: Pools, desired: seq<NodePool>, e: Environment, name: string)
    ensures var r := Final(before, desired, e, name);
            || r == Find(before, name)
            || (exists i: nat :: i < |desired| && desired[i].name == name && r == Some(Target(desired, e, i)))
            || (r.None? && Deletable(before, desired, name))
  {
    WrittenIsOldOrTarget(before, desired, e, |desired|, name);
  }

  lemma {:induction false} WrittenStays(before: Pools, desired: seq<NodePool>, e: Environment, n: nat, name: string)
    requires n <= |desired| && name in before
    ensures Written(before, desired, e, n, name).Some?
  {
    if n > 0 {
      WrittenStays(before, desired, e, n - 1, name);
    }
  }

  /** "system" survives every run; it changes only when the spec itself desires a pool of that name. */
  lemma SystemSurvives(before: Pools, desired: seq<NodePool>, e: Environment)
    requires "system" in before
    ensures Final(before, desired, e, "system").Some?
    ensures "system" !in Names(desired) ==> Final(before, desired, e, "system") == Some(before["system"])
  {
    WrittenStays(before, desired, e, |desired|, SYSTEM);
    WrittenIsOldOrTarget(before, desired, e, |desired|, SYSTEM);
  }

  /** A pool called "system" is always still there, and any other undesired one goes if its delete takes effect. */
  lemma OnlySystemIsSpared(before: Pools, desired: seq<NodePool>, e: Environment, name: string)
    requires name in before && name !in Names(desired)
    ensures Final(before, desired, e, name) ==
              if name != "system" && TakesEffect(e.delete(name)) then None else Some(before[name])
  {
    WrittenIsOldOrTarget(before, desired, e, |desired|, name);
  }

  /** The system pool that the cluster was created with survives every run. */
  lemma SystemProfileSurvives(before: Pools, desired: seq<NodePool>, e: Environment, t: ClusterUpdate.Topology,
                              c: ClusterUpdate.Context, i: nat)
    requires i < |ClusterUpdate.Profiles(t, c)| && ClusterUpdate.Profiles(t, c)[i].settings.mode.System?
    requires ClusterUpdate.Profiles(t, c)[i].name in before
    ensures ClusterUpdate.Profiles(t, c)[i].name == "system" && Final(before, desired, e, "system").Some?
  {
    SystemSurvives(before, desired, e);
  }

  ghost predicate AllSucceed(desired: seq<NodePool>, e: Environment) {
    (forall i: nat :: i < |desired| ==> e.write(i).Done? && !e.validation(i).Invalid?) &&
    (forall name :: e.delete(name).Done?)
  }

  predicate LastOf(desired: seq<NodePool>, i: nat) {
    i < |desired| && forall j :: i < j < |desired| ==> desired[j].name != desired[i].name
  }

  lemma {:induction false} LastEntry(desired: seq<NodePool>, name: string, n: nat) returns (i: nat)
    requires n <= |desired| && name in Names(desired[..n])
    requires forall j :: n <= j < |desired| ==> desired[j].name != name
    ensures LastOf(desired, i) && desired[i].name == name
  {
    if desired[n - 1].name == name {
      i := n - 1;
    } else {
      assert desired[..n] == desired[..n - 1] + [desired[n - 1]];
      i := LastEntry(desired, name, n - 1);
    }
  }

  lemma {:induction false} WrittenByLast(before: Pools, desired: seq<NodePool>, e: Environment, n: nat, i: nat)
    requires AllSucceed(desired, e) && i < n <= |desired| && LastOf(desired, i)
    ensures Written(before, desired, e, n, desired[i].name) == Some(Target(desired, e, i))
  {
    if n - 1 > i {
      WrittenByLast(before, desired, e, n - 1, i);
    }
  }

  /** When every call succeeds each desired name holds its last entry's target. */
  lemma ConvergesToTarget(before: Pools, desired: seq<NodePool>, e: Environment, i: nat)
    requires AllSucceed(desired, e) && LastOf(desired, i)
    ensures Final(before, desired, e, desired[i].name) == Some(Target(desired, e, i))
  {
    WrittenByLast(before, desired, e, |desired|, i);
    assert desired[i].name in Names(desired);
  }

  /** When every call succeeds the names are the desired ones and "system" if it was there. */
  lemma ConvergesToNames(before: Pools, desired: seq<NodePool>, e: Environment, name: string)
    requires AllSucceed(desired, e)
    ensures Final(before, desired, e, name).Some? <==>
              name in Names(desired) || (name == "system" && "system" in before)
  {
    if name in Names(desired) {
      assert desired[..|desired|] == desired;
      var i := LastEntry(desired, name, |desired|);
      ConvergesToTarget(before, desired, e, i);
    } else {
      WrittenIsOldOrTarget(before, desired, e, |desired|, name);
    }
  }

  /** Runs with the same mapper, each iterating every label map in some order of its own. */
  ghost predicate SameMapper(desired: seq<NodePool>, e: Environment, e': Environment) {
    && e.location == e'.location && e.resolver == e'.resolver
    && forall i: nat :: i < |desired| ==>
         Enumerates(e.order(i), desired[i].labels) && Enumerates(e'.order(i), desired[i].labels)
  }

  /** A successful run from `before` left `between`, and the writes of another one succeed, too. */
  ghost predicate TwoRuns(before: Pools, between: Pools, desired: seq<NodePool>, e: Environment, e': Environment) {
    && AllSucceed(desired, e) && SameMapper(desired, e, e')
    && (forall i: nat :: i < |desired| ==> e'.write(i).Done?)
    && (forall name :: Find(between, name) == Final(before, desired, e, name))
  }

  /** The pool's VM size does not depend on the label order. */
  ghost predicate SizeDetermined(pool: NodePool) {
    HasPrefix(pool.machineClass, "Standard_") || PurposeDetermined(pool)
  }

  lemma SameTarget(desired: seq<NodePool>, e: Environment, e': Environment, i: nat)
    requires SameMapper(desired, e, e') && i < |desired| && SizeDetermined(desired[i])
    ensures Target(desired, e, i) == Target(desired, e', i)
  {
    PurposeDeterminedIff(desired[i]);
  }

  lemma {:induction false} SecondWrites(between: Pools, desired: seq<NodePool>, e: Environment, n: nat, i: nat)
    requires i < n <= |desired| && LastOf(desired, i)
    requires forall j: nat :: j < |desired| && desired[j].name == desired[i].name ==> Lands(between, desired, e, j)
    ensures Written(between, desired, e, n, desired[i].name) == Some(Target(desired, e, i))
  {
    if n - 1 > i {
      SecondWrites(between, desired, e, n - 1, i);
    }
  }

  /** After the second run each desired name holds what its last entry asks for in that run. */
  lemma SecondTarget(before: Pools, between: Pools, desired: seq<NodePool>, e: Environment, e': Environment, i: nat)
    requires TwoRuns(before, between, desired, e, e') && LastOf(desired, i)
    ensures Find(between, desired[i].name) == Some(Target(desired, e, i))
    ensures Final(between, desired, e', desired[i].name) == Some(Target(desired, e', i))
  {
    ConvergesToTarget(before, desired, e, i);
    assert Find(between, desired[i].name) == Final(before, desired, e, desired[i].name);
    forall j: nat | j < |desired| && desired[j].name == desired[i].name
      ensures Lands(between, desired, e', j)
    {
    }
    SecondWrites(between, desired, e', |desired|, i);
    assert desired[i].name in Names(desired);
  }

  /** A second run with other label orders leaves a pool as it is if the entry that decides it has one VM size. */
  lemma SecondRunChangesNothing(before: Pools, between: Pools, desired: seq<NodePool>, e: Environment,
                                e': Environment, name: string)
    requires TwoRuns(before, between, desired, e, e')
    requires forall i: nat :: LastOf(desired, i) && desired[i].name == name ==> SizeDetermined(desired[i])
    ensures Final(between, desired, e', name) == Find(between, name)
  {
    ConvergesToNames(before, desired, e, name);
    assert Find(between, name) == Final(before, desired, e, name);
    if name in Names(desired) {
      assert desired[..|desired|] == desired;
      var i := LastEntry(desired, name, |desired|);
      SecondTarget(before, between, desired, e, e', i);
      SameTarget(desired, e, e', i);
    } else {
      WrittenIsOldOrTarget(between, desired, e', |desired|, name);
    }
  }

  // ---------- When the second run does change something ----------

  ghost function SomeOrderOf(labels: map<string, string>): (order: seq<(string, string)>)
    ensures Enumerates(order, labels)
  {
    assert exists order :: Enumerates(order, labels) by {
      var order := SomeOrder(labels);
    }
    var order :| Enumerates(order, labels);
    order
  }

  /** Every call succeeds; entry `i` iterates its labels as given. */
  ghost function AllServed(desired: seq<NodePool>, r: Resolver, i: nat, order: seq<(string, string)>): Environment {
    var orders := (j: nat) => if j == i || j >= |desired| then order else SomeOrderOf(desired[j].labels);
    Environment("", r, orders, _ => Valid, _ => Done, _ => Done)
  }

  /** What a served run leaves of an empty cluster. */
  lemma ServedRun(desired: seq<NodePool>, e: Environment) returns (between: Pools)
    requires AllSucceed(desired, e)
    ensures forall name :: Find(between, name) == Final(map[], desired, e, name)
  {
    between := map name | name in Names(desired) && Final(map[], desired, e, name).Some? ::
      Final(map[], desired, e, name).value;
    forall name
      ensures Find(between, name) == Final(map[], desired, e, name)
    {
      ConvergesToNames(map[], desired, e, name);
    }
  }

  /** A mapper that gives every purpose its own size sees the difference between the two orders. */
  lemma DifferentTargets(desired: seq<NodePool>, e: Environment, e': Environment, i: nat)
    requires i < |desired| && !HasPrefix(desired[i].machineClass, "Standard_")
    requires e.resolver == e'.resolver == SIZE_PER_PURPOSE
    requires PurposeIn(desired[i], e.order(i)) != PurposeIn(desired[i], e'.order(i))
    ensures Target(desired, e, i) != Target(desired, e', i)
  {
    var pool := desired[i];
    NamesDiffer(PurposeIn(pool, e.order(i)), PurposeIn(pool, e'.order(i)));
    assert Target(desired, e, i).settings.vmSize == PurposeName(PurposeIn(pool, e.order(i)));
    assert Target(desired, e', i).settings.vmSize == PurposeName(PurposeIn(pool, e'.order(i)));
  }

  /** For an entry with two possible VM sizes there are two successful runs that disagree. */
  lemma SecondRunChanges(desired: seq<NodePool>, i: nat)
    returns (before: Pools, between: Pools, e: Environment, e': Environment)
    requires LastOf(desired, i) && !SizeDetermined(desired[i])
    ensures TwoRuns(before, between, desired, e, e')
    ensures Final(between, desired, e', desired[i].name) != Find(between, desired[i].name)
  {
    var o, o' := DisagreeingOrders(desired[i]);
    e, e' := AllServed(desired, SIZE_PER_PURPOSE, i, o), AllServed(desired, SIZE_PER_PURPOSE, i, o');
    before := map[];
    between := ServedRun(desired, e);
    SecondTarget(before, between, desired, e, e', i);
    DifferentTargets(desired, e, e', i);
  }

  ghost predicate SecondRunIsIdentity(desired: seq<NodePool>) {
    forall before, between, e, e', name :: TwoRuns(before, between, desired, e, e') ==>
      Final(between, desired, e', name) == Find(between, name)
  }

  /**
   A second successful run is the identity under every mapper and every pair of label orders if and
   only if each entry that decides a pool names a VM size itself or has a determined purpose.
   */
  lemma SecondRunIsIdentityIff(desired: seq<NodePool>)
    ensures SecondRunIsIdentity(desired) <==> forall i: nat :: LastOf(desired, i) ==> SizeDetermined(desired[i])
  {
    if forall i: nat :: LastOf(desired, i) ==> SizeDetermined(desired[i]) {
      forall before, between, e, e', name | TwoRuns(before, between, desired, e, e')
        ensures Final(between, desired, e', name) == Find(between, name)
      {
        SecondRunChangesNothing(before, between, desired, e, e', name);
      }
    } else {
      var i: nat :| LastOf(desired, i) && !SizeDetermined(desired[i]);
      var before, between, e, e' := SecondRunChanges(desired, i);
    }
  }

  /** For instance a pool whose labels hint GPU and memory. */
  const MIXED := NodePool("workers", 1, "medium", "", Autoscaling(false, 0, 0), [], map["a" := "gpu", "b" := "memory"])

  lemma MixedHintsAreNotDetermined()
    ensures !SizeDetermined(MIXED)
  {
    HintOf("a", "gpu");
    HintOf("b", "memory");
    assert "a" in MIXED.labels && "b" in MIXED.labels;
  }

  /** A plain letter as the key leaves the hint to the value. */
  lemma HintOf(key: string, value: string)
    requires key in {"a", "b"} && value in {"gpu", "memory"}
    ensures LabelHint(key, value) == Some(if value == "gpu" then Gpu else MemoryOptimized)
  {
    assert Lower("gpu") == "gpu" && Lower("memory") == "memory";
    assert forall part: string :: |part| > 1 ==> !Contains(Lower(key), part);
    assert value[0..][..|value|] == value;
    assert Contains(Lower(value), value);
    forall i | 0 <= i <= |value| - 3
      ensures value == "memory" ==> value[i..][..3] != "gpu"
    {
      assert value == "memory" ==> value[i..][..3][0] != 'g';
    }
  }
}
