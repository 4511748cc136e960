/**
 Status conditions and phases: the in-place condition list, the writes of the status
 subresource, and what every status that reaches the API server says.
 */
module StatusConditions {
  import opened Wrappers
  import opened Timestamps

  datatype Kind = ClusterProvisioned | ClusterReady | KubernetesAPIReady | KubeConfigReady | NodePoolsReady

  datatype Level = Okay | Error | Warning | Working | Unknown

  datatype Phase = NoPhase | Creating | Provisioning | Ready | Updating | Deleting | Failed

  datatype Condition = Condition(kind: Kind, level: Level, message: string, time: string)

  datatype Status = Status(phase: Phase, conditions: seq<Condition>)

  // ---------- The condition list ----------

  /** At most one condition of each kind. */
  ghost predicate Distinct(cs: seq<Condition>) {
    forall i, j :: 0 <= i < j < |cs| ==> cs[i].kind != cs[j].kind
  }

  /** Most recent first, as strings. */
  ghost predicate Sorted(cs: seq<Condition>) {
    forall i, j :: 0 <= i < j < |cs| ==> !Less(cs[i].time, cs[j].time)
  }

  ghost predicate Shows(cs: seq<Condition>, kind: Kind, level: Level) {
    exists c :: c in cs && c.kind == kind && c.level == level
  }

  function Position(cs: seq<Condition>, kind: Kind): (i: nat)
    ensures i <= |cs|
    ensures i < |cs| ==> cs[i].kind == kind
    ensures forall j :: 0 <= j < i ==> cs[j].kind != kind
  {
    if |cs| == 0 || cs[0].kind == kind then 0 else 1 + Position(cs[1..], kind)
  }

  predicate AlreadySet(cs: seq<Condition>, kind: Kind, level: Level, message: string) {
    var i := Position(cs, kind);
    i < |cs| && cs[i].level == level && cs[i].message == message
  }

  /** The list after setting one condition at time `now`. */
  function Set(cs: seq<Condition>, kind: Kind, level: Level, message: string, now: string): seq<Condition> {
    var i := Position(cs, kind);
    if AlreadySet(cs, kind, level, message) then cs
    else if i == |cs| then cs + [Condition(kind, level, message, now)]
    else cs[i := Condition(kind, level, message, now)]
  }

  /**
   Setting a condition keeps kinds distinct, leaves other kinds alone, shows what was set, and
   touches the timestamp only if the level or the message changed.
   */
  lemma SetMeans(cs: seq<Condition>, kind: Kind, level: Level, message: string, now: string)
    requires Distinct(cs)
    ensures var cs' := Set(cs, kind, level, message, now);
            && Distinct(cs')
            && (forall c: Condition :: c.kind != kind ==> (c in cs' <==> c in cs))
            && (exists c :: c in cs' && c.kind == kind && c.level == level && c.message == message)
            && (forall c, c' :: c in cs && c' in cs' && c.kind == c'.kind == kind ==>
                  c'.time == if c.level == level && c.message == message then c.time else now)
  {
    var i, cs' := Position(cs, kind), Set(cs, kind, level, message, now);
    if i == |cs| {
      assert Condition(kind, level, message, now) in cs';
    } else {
      assert cs'[i] in cs' && cs'[i].kind == kind && cs'[i].level == level && cs'[i].message == message;
      assert forall j :: 0 <= j < |cs| && j != i ==> cs'[j] == cs[j] && cs[j].kind != kind;
      forall c: Condition | c.kind != kind
        ensures c in cs' <==> c in cs
      {
        if c in cs {
          var j :| 0 <= j < |cs| && cs[j] == c;
          assert cs'[j] == c;
        }
      }
    }
  }

  lemma SetSays(cs: seq<Condition>, kind: Kind, level: Level, message: string, now: string)
    requires Distinct(cs)
    ensures Distinct(Set(cs, kind, level, message, now))
    ensures Says(Set(cs, kind, level, message, now), kind, level, message)
  {
    SetMeans(cs, kind, level, message, now);
  }

  lemma OthersStay(cs: seq<Condition>, kind: Kind, level: Level, message: string, now: string,
                   k: Kind, l: Level, m: string)
    requires Distinct(cs) && k != kind && Says(cs, k, l, m)
    ensures Says(Set(cs, kind, level, message, now), k, l, m)
  {
    SetMeans(cs, kind, level, message, now);
    var c :| c in cs && c.kind == k && c.level == l && c.message == m;
    assert c in Set(cs, kind, level, message, now);
  }

  // ---------- Sorting ----------

  lemma SameMembers(a: seq<Condition>, b: seq<Condition>)
    requires multiset(a) == multiset(b)
    ensures |a| == |b| && forall c :: c in a <==> c in b
  {
    assert |a| == |multiset(a)| == |multiset(b)| == |b|;
    assert forall c :: c in a <==> c in multiset(a);
  }

  lemma OccursOnce(a: seq<Condition>, i: nat)
    requires Distinct(a) && i < |a|
    ensures multiset(a)[a[i]] == 1
  {
    assert a == a[..i] + [a[i]] + a[i + 1..];
    assert a[i] !in a[..i] && a[i] !in a[i + 1..];
  }

  lemma OccursTwice(b: seq<Condition>, j: nat, k: nat)
    requires j < k < |b| && b[j] == b[k]
    ensures multiset(b)[b[j]] >= 2
  {
    assert b == b[..k] + [b[k]] + b[k + 1..];
    assert b[j] == b[..k][j];
    assert b[j] in b[..k];
  }

  lemma DistinctPermutation(a: seq<Condition>, b: seq<Condition>)
    requires multiset(a) == multiset(b) && Distinct(a)
    ensures Distinct(b)
  {
    SameMembers(a, b);
    forall j, k | 0 <= j < k < |b|
      ensures b[j].kind != b[k].kind
    {
      if b[j].kind == b[k].kind {
        assert b[j] in a && b[k] in a;
        var i :| 0 <= i < |a| && a[i] == b[j];
        var i' :| 0 <= i' < |a| && a[i'] == b[k];
        OccursOnce(a, i);
        OccursTwice(b, j, k);
      }
    }
  }

  function Insert(cs: seq<Condition>, c: Condition): (r: seq<Condition>)
    requires Sorted(cs)
    ensures Sorted(r) && multiset(r) == multiset(cs) + multiset{c}
  {
    if |cs| == 0 then [c]
    else if Less(cs[0].time, c.time) then
      InsertInFront(cs, c);
      [c] + cs
    else
      var rest := Insert(cs[1..], c);
      assert cs == [cs[0]] + cs[1..];
      InsertBehind(cs, c, rest);
      [cs[0]] + rest
  }

  lemma InsertInFront(cs: seq<Condition>, c: Condition)
    requires |cs| > 0 && Sorted(cs) && Less(cs[0].time, c.time)
    ensures Sorted([c] + cs)
  {
    LessAsymmetric(cs[0].time, c.time);
    forall j | 0 <= j < |cs|
      ensures !Less(c.time, cs[j].time)
    {
      if j > 0 {
        NotLessTransitive(c.time, cs[0].time, cs[j].time);
      }
    }
  }

  lemma InsertBehind(cs: seq<Condition>, c: Condition, rest: seq<Condition>)
    requires |cs| > 0 && Sorted(cs) && !Less(cs[0].time, c.time)
    requires Sorted(rest) && multiset(rest) == multiset(cs[1..]) + multiset{c}
    ensures Sorted([cs[0]] + rest)
  {
    forall j | 0 <= j < |rest|
      ensures !Less(cs[0].time, rest[j].time)
    {
      assert rest[j] in multiset(rest);
      if rest[j] != c {
        assert rest[j] in multiset(cs[1..]);
        var i :| 0 <= i < |cs[1..]| && cs[1..][i] == rest[j];
        assert cs[i + 1] == rest[j];
      }
    }
  }

  /** One reading of the clock, with the offset in minutes that the stamp carries. */
  datatype Reading = Reading(clock: Clock, offset: int)

  predicate Possible(r: Reading) {
    OnCalendar(r.clock) && -6000 < r.offset < 6000
  }

  /** The conditions carry the stamps of these readings. */
  predicate Stamped(cs: seq<Condition>, rs: seq<Reading>) {
    |cs| == |rs| && forall i :: 0 <= i < |cs| ==>
      Possible(rs[i]) && cs[i].time == Stamp(rs[i].clock, OffsetText(rs[i].offset))
  }

  ghost predicate NewestFirst(rs: seq<Reading>) {
    forall i, j :: 0 <= i < j < |rs| ==> Instant(rs[i].clock, rs[i].offset) >= Instant(rs[j].clock, rs[j].offset)
  }

  lemma PairIsNewestFirst(c: Condition, c': Condition, r: Reading, r': Reading)
    requires Possible(r) && c.time == Stamp(r.clock, OffsetText(r.offset))
    requires Possible(r') && c'.time == Stamp(r'.clock, OffsetText(r'.offset))
    requires FarApart(r.clock, r.offset, r'.clock, r'.offset)
    ensures !Less(c.time, c'.time) <==> Instant(r.clock, r.offset) >= Instant(r'.clock, r'.offset)
  {
    StringOrderIsTimeOrderIff(r.clock, r.offset, r'.clock, r'.offset);
  }

  /** Where each two readings lie further apart than the offset moved, sorted means newest first and conversely. */
  lemma SortedIsNewestFirst(cs: seq<Condition>, rs: seq<Reading>)
    requires Stamped(cs, rs)
    requires forall i, j :: 0 <= i < j < |rs| ==> FarApart(rs[i].clock, rs[i].offset, rs[j].clock, rs[j].offset)
    ensures Sorted(cs) <==> NewestFirst(rs)
  {
    forall i, j | 0 <= i < j < |cs|
      ensures !Less(cs[i].time, cs[j].time) <==>
                Instant(rs[i].clock, rs[i].offset) >= Instant(rs[j].clock, rs[j].offset)
    {
      PairIsNewestFirst(cs[i], cs[j], rs[i], rs[j]);
    }
  }

  /** In particular when all stamps carry one offset. */
  lemma OneOffsetIsNewestFirst(cs: seq<Condition>, rs: seq<Reading>, offset: int)
    requires Stamped(cs, rs) && forall i :: 0 <= i < |rs| ==> rs[i].offset == offset
    ensures Sorted(cs) <==> NewestFirst(rs)
  {
    forall i, j | 0 <= i < j < |rs|
      ensures FarApart(rs[i].clock, rs[i].offset, rs[j].clock, rs[j].offset)
    {
      OneOffsetIsFarApart(rs[i].clock, rs[j].clock, offset);
    }
    SortedIsNewestFirst(cs, rs);
  }

  // ---------- The row of a phase ----------

  /** The levels of the five conditions. */
  datatype Row = Row(provisioned: Level, ready: Level, api: Level, kubeconfig: Level, pools: Level)

  function LevelIn(row: Row, kind: Kind): Level {
    match kind
    case ClusterProvisioned => row.provisioned
    case ClusterReady => row.ready
    case KubernetesAPIReady => row.api
    case KubeConfigReady => row.kubeconfig
    case NodePoolsReady => row.pools
  }

  ghost predicate RowIs(cs: seq<Condition>, row: Row) {
    forall kind :: Shows(cs, kind, LevelIn(row, kind))
  }

  /** The row that belongs to each phase. */
  function RowOf(phase: Phase): Row {
    match phase
    case Ready => Row(Okay, Okay, Okay, Okay, Okay)
    case Failed => Row(Error, Error, Error, Error, Error)
    case Creating => Row(Working, Working, Unknown, Unknown, Unknown)
    case Provisioning => Row(Working, Working, Unknown, Unknown, Unknown)
    case Updating => Row(Okay, Working, Okay, Okay, Working)
    case Deleting => Row(Working, Working, Unknown, Unknown, Unknown)
    case NoPhase => Row(Unknown, Unknown, Unknown, Unknown, Unknown)
  }

  ghost predicate FullRow(st: Status) {
    RowIs(st.conditions, RowOf(st.phase))
  }

  /** The list has one condition of this kind, with this level and message. */
  ghost predicate Says(cs: seq<Condition>, kind: Kind, level: Level, message: string) {
    exists c :: c in cs && c.kind == kind && c.level == level && c.message == message
  }

  /** What a reader of the status may conclude from its phase. */
  ghost predicate Agrees(st: Status) {
    match st.phase
    case NoPhase => true
    case Ready => FullRow(st)
    case Updating => FullRow(st)
    case Provisioning => FullRow(st)
    case Failed => Shows(st.conditions, ClusterProvisioned, Error)
    case Creating => Shows(st.conditions, ClusterProvisioned, Working)
    case Deleting => Shows(st.conditions, ClusterReady, Working)
  }

  ghost predicate Good(st: Status) {
    Distinct(st.conditions) && Sorted(st.conditions) && Agrees(st)
  }

  lemma GoodAfterSort(st: Status, sorted: seq<Condition>)
    requires Distinct(st.conditions) && Agrees(st)
    requires multiset(sorted) == multiset(st.conditions) && Sorted(sorted)
    ensures Good(st.(conditions := sorted))
  {
    DistinctPermutation(st.conditions, sorted);
    SameMembers(st.conditions, sorted);
    forall kind, level | Shows(st.conditions, kind, level)
      ensures Shows(sorted, kind, level)
    {
      var c :| c in st.conditions && c.kind == kind && c.level == level;
      assert c in sorted;
    }
  }

  lemma SaysAfterSort(cs: seq<Condition>, sorted: seq<Condition>, kind: Kind, level: Level, message: string)
    requires multiset(sorted) == multiset(cs) && Says(cs, kind, level, message)
    ensures Says(sorted, kind, level, message)
  {
    SameMembers(cs, sorted);
    var c :| c in cs && c.kind == kind && c.level == level && c.message == message;
    assert c in sorted;
  }

  lemma RowAfterSort(cs: seq<Condition>, sorted: seq<Condition>, row: Row)
    requires RowIs(cs, row) && multiset(sorted) == multiset(cs)
    ensures RowIs(sorted, row)
  {
    SameMembers(cs, sorted);
    forall kind
      ensures Shows(sorted, kind, LevelIn(row, kind))
    {
      assert Shows(cs, kind, LevelIn(row, kind));
      var c :| c in cs && c.kind == kind && c.level == LevelIn(row, kind);
      assert c in sorted;
    }
  }

  /** getAPIReadyMessage, getKubeconfigMessage and getNodePoolsMessage. */
  function Text(kind: Kind, level: Level): string {
    match kind
    case KubernetesAPIReady =>
      (match level
       case Okay => "Kubernetes API server is accessible"
       case Error => "Kubernetes API server is not accessible"
       case Working => "Waiting for Kubernetes API server"
       case _ => "Kubernetes API status unknown")
    case KubeConfigReady =>
      (match level
       case Okay => "Kubeconfig is available in cluster state secret"
       case Error => "Failed to retrieve kubeconfig"
       case Working => "Waiting for kubeconfig"
       case _ => "Kubeconfig status unknown")
    case _ =>
      (match level
       case Okay => "All node pools are ready"
       case Error => "One or more node pools have errors"
       case Working => "Node pools are being provisioned"
       case _ => "Node pools status unknown")
  }

  function TextIn(row: Row, kind: Kind, azureState: string, message: string): string {
    match kind
    case ClusterProvisioned => "Azure state: " + azureState
    case ClusterReady => message
    case _ => Text(kind, LevelIn(row, kind))
  }

  ghost predicate AllSaid(cs: seq<Condition>, target: Kind -> (Level, string), kinds: set<Kind>) {
    forall k :: k in kinds ==> Says(cs, k, target(k).0, target(k).1)
  }

  /** The row with its texts: Azure's state and the message in the first two conditions. */
  ghost predicate Described(cs: seq<Condition>, row: Row, azureState: string, message: string) {
    && RowIs(cs, row)
    && (forall kind :: Says(cs, kind, LevelIn(row, kind), TextIn(row, kind, azureState, message)))
  }

  lemma AllSaidIsDescribed(cs: seq<Condition>, row: Row, azureState: string, message: string,
                           target: Kind -> (Level, string), kinds: set<Kind>)
    requires AllSaid(cs, target, kinds)
    requires kinds == {ClusterProvisioned, ClusterReady, KubernetesAPIReady, KubeConfigReady, NodePoolsReady}
    requires forall k :: target(k) == (LevelIn(row, k), TextIn(row, k, azureState, message))
    ensures Described(cs, row, azureState, message)
  {
    forall k: Kind
      ensures Says(cs, k, LevelIn(row, k), TextIn(row, k, azureState, message)) && Shows(cs, k, LevelIn(row, k))
    {
      assert k == ClusterProvisioned || k == ClusterReady || k == KubernetesAPIReady || k == KubeConfigReady ||
             k == NodePoolsReady;
      assert Says(cs, k, target(k).0, target(k).1);
    }
  }

  /** What a reader sees in each phase, condition by condition. */
  lemma RowsSpelledOut(st: Status, kind: Kind)
    requires Agrees(st)
    ensures st.phase.Ready? ==> Shows(st.conditions, kind, Okay)
    ensures st.phase.Updating? ==>
              Shows(st.conditions, kind, if kind.ClusterReady? || kind.NodePoolsReady? then Working else Okay)
    ensures st.phase.Provisioning? ==>
              Shows(st.conditions, kind, if kind.ClusterProvisioned? || kind.ClusterReady? then Working else Unknown)
    ensures st.phase.Failed? ==> Shows(st.conditions, ClusterProvisioned, Error)
    ensures st.phase.Creating? ==> Shows(st.conditions, ClusterProvisioned, Working)
    ensures st.phase.Deleting? ==> Shows(st.conditions, ClusterReady, Working)
  {
    if FullRow(st) {
      assert Shows(st.conditions, kind, LevelIn(RowOf(st.phase), kind));
    }
  }

  /** What a reader sees after an update from Azure in the phases that can also be written with one condition. */
  lemma FullRowsSpelledOut(st: Status, kind: Kind)
    requires FullRow(st)
    ensures st.phase.Failed? ==> Shows(st.conditions, kind, Error)
    ensures st.phase.Creating? || st.phase.Deleting? ==>
              Shows(st.conditions, kind, if kind.ClusterProvisioned? || kind.ClusterReady? then Working else Unknown)
  {
    assert Shows(st.conditions, kind, LevelIn(RowOf(st.phase), kind));
  }

  /** What updateClusterStatus writes: the phase, its row, Azure's state and the message. */
  ghost predicate Shown(st: Status, p: Phase, azureState: string, message: string) {
    st.phase == p && Described(st.conditions, RowOf(p), azureState, message)
  }

  lemma OneSaid(st: Status, kind: Kind, azureState: string, message: string)
    requires Shown(st, st.phase, azureState, message)
    ensures var row := RowOf(st.phase);
            Says(st.conditions, kind, LevelIn(row, kind), TextIn(row, kind, azureState, message))
  {
  }

  /** The texts in each phase. */
  lemma TextsSpelledOut(st: Status, azureState: string, message: string)
    requires Shown(st, st.phase, azureState, message)
    ensures var cs := st.conditions;
            && Says(cs, ClusterProvisioned, RowOf(st.phase).provisioned, "Azure state: " + azureState)
            && Says(cs, ClusterReady, RowOf(st.phase).ready, message)
            && match st.phase
               case Ready =>
                 && Says(cs, KubernetesAPIReady, Okay, "Kubernetes API server is accessible")
                 && Says(cs, KubeConfigReady, Okay, "Kubeconfig is available in cluster state secret")
                 && Says(cs, NodePoolsReady, Okay, "All node pools are ready")
               case Updating =>
                 && Says(cs, KubernetesAPIReady, Okay, "Kubernetes API server is accessible")
                 && Says(cs, KubeConfigReady, Okay, "Kubeconfig is available in cluster state secret")
                 && Says(cs, NodePoolsReady, Working, "Node pools are being provisioned")
               case Failed =>
                 && Says(cs, KubernetesAPIReady, Error, "Kubernetes API server is not accessible")
                 && Says(cs, KubeConfigReady, Error, "Failed to retrieve kubeconfig")
                 && Says(cs, NodePoolsReady, Error, "One or more node pools have errors")
               case _ =>
                 && Says(cs, KubernetesAPIReady, Unknown, "Kubernetes API status unknown")
                 && Says(cs, KubeConfigReady, Unknown, "Kubeconfig status unknown")
                 && Says(cs, NodePoolsReady, Unknown, "Node pools status unknown")
  {
    OneSaid(st, ClusterProvisioned, azureState, message);
    OneSaid(st, ClusterReady, azureState, message);
    OneSaid(st, KubernetesAPIReady, azureState, message);
    OneSaid(st, KubeConfigReady, azureState, message);
    OneSaid(st, NodePoolsReady, azureState, message);
  }

  lemma ShownAfterSort(st: Status, sorted: seq<Condition>, azureState: string, message: string)
    requires Shown(st, st.phase, azureState, message) && multiset(sorted) == multiset(st.conditions)
    requires Distinct(st.conditions) && Sorted(sorted)
    ensures Shown(st.(conditions := sorted), st.phase, azureState, message) && Good(st.(conditions := sorted))
  {
    var row := RowOf(st.phase);
    FullRowAgrees(st);
    GoodAfterSort(st, sorted);
    RowAfterSort(st.conditions, sorted, row);
    forall kind
      ensures Says(sorted, kind, LevelIn(row, kind), TextIn(row, kind, azureState, message))
    {
      SaysAfterSort(st.conditions, sorted, kind, LevelIn(row, kind), TextIn(row, kind, azureState, message));
    }
  }

  lemma FullRowAgrees(st: Status)
    requires FullRow(st)
    ensures Agrees(st)
  {
    assert Shows(st.conditions, ClusterProvisioned, LevelIn(RowOf(st.phase), ClusterProvisioned));
    assert Shows(st.conditions, ClusterReady, LevelIn(RowOf(st.phase), ClusterReady));
  }

  /** The phases that the controller writes with one condition only, and that condition. */
  predicate WrittenAlone(p: Phase, kind: Kind, level: Level) {
    || (p == Creating && kind == ClusterProvisioned && level == Working)
    || (p == Failed && kind == ClusterProvisioned && level == Error)
    || (p == Deleting && kind == ClusterReady && level == Working)
  }

  /** There this condition is enough. */
  lemma AloneAfterSort(st: Status, sorted: seq<Condition>, kind: Kind, level: Level, message: string)
    requires WrittenAlone(st.phase, kind, level) && Distinct(st.conditions) && Says(st.conditions, kind, level, message)
    requires multiset(sorted) == multiset(st.conditions) && Sorted(sorted)
    ensures Good(st.(conditions := sorted)) && Says(sorted, kind, level, message)
  {
    var c :| c in st.conditions && c.kind == kind && c.level == level && c.message == message;
    assert Shows(st.conditions, kind, level);
    GoodAfterSort(st, sorted);
    SaysAfterSort(st.conditions, sorted, kind, level, message);
  }

  // ---------- The operator and the API server ----------

  datatype Outcome = Written | Conflict | Transport

  /** One call of the controller that changes the status. */
  datatype Op =
    | Fetch
    | NewCluster                                                  // phase Creating, before the first Azure call
    | ReconcileFailed(message: string)
    | DeletionStarted
    | FromAzure(phase: Phase, azureState: string, message: string, annotate: bool)
    | WriteMetadata                                               // an annotation or finalizer update

  /**
   The status subresource with all its versions, and the operator's copy of it.  Others write the
   resource too (`edits` versions before call t), but not its status.
   */
  class StatusWriter {
    const edits: nat -> nat
    const fate: nat -> Fate
    const now: nat -> string
    var calls: nat
    var saved: seq<Status>
    var rv: nat
    var phase: Phase
    var conditions: seq<Condition>

    /** Every version at the API server is good; the copy's kinds are distinct. */
    ghost predicate Valid()
      reads this
    {
      && |saved| > 0
      && (forall i :: 0 <= i < |saved| ==> Good(saved[i]))
      && Distinct(conditions)
    }

    /** From here on every call is served, reads are current and nobody else writes. */
    ghost predicate Calm()
      reads this`calls
    {
      forall t: nat :: calls <= t ==> fate(t) == Served(0) && edits(t) == 0
    }

    predicate Newest()
      reads this`rv, this`saved
    {
      rv == |saved| - 1
    }

    constructor (edits: nat -> nat, fate: nat -> Fate, now: nat -> string)
      ensures Valid() && saved == [Status(NoPhase, [])] && Newest()
      ensures this.edits == edits && this.fate == fate && this.now == now
    {
      this.edits, this.fate, this.now := edits, fate, now;
      calls, saved, rv, phase, conditions := 0, [Status(NoPhase, [])], 0, NoPhase, [];
    }

    method SetCondition(kind: Kind, level: Level, message: string) returns (changed: bool)
      modifies this`calls, this`conditions
      ensures calls == old(calls) + 1
      ensures conditions == Set(old(conditions), kind, level, message, now(old(calls)))
      ensures changed <==> !AlreadySet(old(conditions), kind, level, message)
    {
      var time := now(calls);
      calls := calls + 1;
      for i := 0 to |conditions|
        invariant conditions == old(conditions)
        invariant i <= Position(conditions, kind)
      {
        if conditions[i].kind == kind {
          assert Position(conditions, kind) == i;
          if conditions[i].level == level && conditions[i].message == message {
            return false;
          }
          conditions := conditions[i := Condition(kind, level, message, time)];
          return true;
        }
      }
      conditions := conditions + [Condition(kind, level, message, time)];
      return true;
    }

    /** Any sorted permutation; equal timestamps may come in any order. */
    method SortConditions()
      modifies this`conditions
      ensures Sorted(conditions) && multiset(conditions) == multiset(old(conditions))
    {
      var sorted: seq<Condition> := [];
      for i := 0 to |conditions|
        invariant Sorted(sorted) && multiset(sorted) == multiset(conditions[..i])
      {
        assert conditions[..i + 1] == conditions[..i] + [conditions[i]];
        sorted := Insert(sorted, conditions[i]);
      }
      assert conditions[..|conditions|] == conditions;
      conditions := sorted;
    }

    /** The other clients' turn. */
    method Interfere()
      requires Valid()
      modifies this`saved, this`calls
      ensures Valid() && calls == old(calls) + 1 && old(saved) <= saved
      ensures saved[|saved| - 1] == old(saved[|saved| - 1]) && |saved| == old(|saved|) + edits(old(calls))
      ensures old(Calm()) ==> Calm() && saved == old(saved)
    {
      var last := saved[|saved| - 1];
      saved := saved + seq(edits(calls), _ => last);
      calls := calls + 1;
    }

    /** Get: some version, possibly from a cache that lags behind; it replaces the whole copy. */
    method Get() returns (ok: bool)
      requires Valid()
      modifies this
      ensures Valid() && old(saved) <= saved && |saved| == old(|saved|) + edits(old(calls))
      ensures ok ==> rv < |saved| && Status(phase, conditions) == saved[rv]
      ensures old(Calm()) ==> Calm() && ok && Newest() && saved == old(saved)
    {
      var turn := calls;
      Interfere();
      match fate(turn)
      case Served(back) =>
        rv := if back < |saved| then |saved| - 1 - back else 0;
        assert Good(saved[rv]);
        phase, conditions := saved[rv].phase, saved[rv].conditions;
        ok := true;
      case Unavailable => ok := false;
      case LostReply => ok := false;
    }

    /** Status().Update: compare-and-swap on the resource version; only good statuses may be sent. */
    method UpdateStatus() returns (outcome: Outcome)
      requires Valid() && Good(Status(phase, conditions))
      modifies this`saved, this`calls, this`rv
      ensures Valid() && old(saved) <= saved && |saved| >= old(|saved|) + edits(old(calls))
      ensures outcome.Written? ==> saved[|saved| - 1] == Status(phase, conditions) && rv == |saved| - 1
      ensures outcome.Written? ==> old(rv) == |saved| - 2
      ensures outcome.Conflict? ==> saved[|saved| - 1] == old(saved[|saved| - 1]) && !Newest()
      ensures old(Calm()) ==> Calm() && outcome == if old(Newest()) then Written else Conflict
      ensures old(Calm()) ==> |saved| == old(|saved|) + (if old(Newest()) then 1 else 0)
    {
      var turn := calls;
      Interfere();
      if fate(turn).Unavailable? {
        return Transport;
      }
      if rv != |saved| - 1 {
        return Conflict;
      }
      saved := saved + [Status(phase, conditions)];
      if fate(turn).LostReply? {
        return Transport;
      }
      rv := |saved| - 1;
      return Written;
    }

    /** Update of the resource itself: the server ignores the status sent and returns its own. */
    method UpdateMetadata() returns (ok: bool)
      requires Valid()
      modifies this
      ensures Valid() && old(saved) <= saved && |saved| >= old(|saved|) + edits(old(calls))
      ensures saved[|saved| - 1] == old(saved[|saved| - 1]) && (ok ==> Newest())
      ensures ok ==> old(rv) == |saved| - 2 && Status(phase, conditions) == saved[|saved| - 1]
      ensures !ok ==> phase == old(phase) && conditions == old(conditions)
      ensures old(Calm()) ==> Calm() && ok == old(Newest()) && |saved| == old(|saved|) + (if ok then 1 else 0)
    {
      var turn := calls;
      Interfere();
      if fate(turn).Unavailable? || rv != |saved| - 1 {
        return false;
      }
      var last := saved[|saved| - 1];
      assert Good(last);
      saved := saved + [last];
      if fate(turn).LostReply? {
        return false;
      }
      rv, phase, conditions := |saved| - 1, last.phase, last.conditions;
      return true;
    }

    method UpdatePhaseAndCondition(p: Phase, kind: Kind, level: Level, message: string) returns (outcome: Outcome)
      requires Valid()
      requires WrittenAlone(p, kind, level)
      modifies this
      ensures Valid() && old(saved) <= saved
      ensures outcome.Written? ==>
                saved[|saved| - 1].phase == p && Says(saved[|saved| - 1].conditions, kind, level, message)
      ensures outcome.Written? ==> Newest()
      ensures old(Calm()) ==> Calm() && outcome == if old(Newest()) then Written else Conflict
    {
      phase := p;
      SetSays(conditions, kind, level, message, now(calls));
      var _ := SetCondition(kind, level, message);
      ghost var st := Status(phase, conditions);
      SortConditions();
      AloneAfterSort(st, conditions, kind, level, message);
      outcome := UpdateStatus();
    }

    /** Sets one condition to its target and keeps those set before at theirs. */
    method SetRow(kind: Kind, level: Level, message: string,
                  ghost target: Kind -> (Level, string), ghost done: set<Kind>)
      requires Valid() && kind !in done && target(kind) == (level, message)
      requires AllSaid(conditions, target, done)
      modifies this`calls, this`conditions
      ensures Valid() && AllSaid(conditions, target, done + {kind}) && calls >= old(calls)
    {
      SetSays(conditions, kind, level, message, now(calls));
      forall k | k in done
        ensures Says(Set(conditions, kind, level, message, now(calls)), k, target(k).0, target(k).1)
      {
        OthersStay(conditions, kind, level, message, now(calls), k, target(k).0, target(k).1);
      }
      var _ := SetCondition(kind, level, message);
    }

    /** The five calls of setCondition. */
    method SetAll(row: Row, azureState: string, message: string)
      requires Valid()
      modifies this`calls, this`conditions
      ensures Valid() && Described(conditions, row, azureState, message) && calls >= old(calls)
    {
      ghost var target := (k: Kind) => (LevelIn(row, k), TextIn(row, k, azureState, message));
      SetRow(ClusterProvisioned, row.provisioned, "Azure state: " + azureState, target, {});
      SetRow(ClusterReady, row.ready, message, target, {ClusterProvisioned});
      SetRow(KubernetesAPIReady, row.api, Text(KubernetesAPIReady, row.api), target,
             {ClusterProvisioned, ClusterReady});
      SetRow(KubeConfigReady, row.kubeconfig, Text(KubeConfigReady, row.kubeconfig), target,
             {ClusterProvisioned, ClusterReady, KubernetesAPIReady});
      SetRow(NodePoolsReady, row.pools, Text(NodePoolsReady, row.pools), target,
             {ClusterProvisioned, ClusterReady, KubernetesAPIReady, KubeConfigReady});
      AllSaidIsDescribed(conditions, row, azureState, message, target,
                         {ClusterProvisioned, ClusterReady, KubernetesAPIReady, KubeConfigReady, NodePoolsReady});
    }

    method UpdateConditionsFromState(p: Phase, azureState: string, message: string)
      requires Valid()
      modifies this`calls, this`conditions
      ensures Valid() && Shown(Status(p, conditions), p, azureState, message) && calls >= old(calls)
    {
      var row;
      match p {
        case Ready => row := Row(Okay, Okay, Okay, Okay, Okay);
        case Failed => row := Row(Error, Error, Error, Error, Error);
        case Creating => row := Row(Working, Working, Unknown, Unknown, Unknown);
        case Provisioning => row := Row(Working, Working, Unknown, Unknown, Unknown);
        case Updating => row := Row(Okay, Working, Okay, Okay, Working);
        case Deleting => row := Row(Working, Working, Unknown, Unknown, Unknown);
        case NoPhase => row := Row(Unknown, Unknown, Unknown, Unknown, Unknown);
      }
      SetAll(row, azureState, message);
    }

    method ApplyAndWrite(p: Phase, azureState: string, message: string) returns (outcome: Outcome)
      requires Valid() && !p.NoPhase?
      modifies this
      ensures Valid() && old(saved) <= saved
      ensures outcome.Written? ==> Shown(saved[|saved| - 1], p, azureState, message)
      ensures outcome.Written? ==> Newest()
      ensures old(Calm()) ==> Calm() && outcome == if old(Newest()) then Written else Conflict
      ensures old(Calm()) ==> |saved| == old(|saved|) + (if old(Newest()) then 1 else 0)
    {
      phase := p;
      UpdateConditionsFromState(p, azureState, message);
      ghost var st := Status(p, conditions);
      SortConditions();
      ShownAfterSort(st, conditions, azureState, message);
      outcome := UpdateStatus();
    }

    /** updateClusterStatus; its retry on a conflict gets a stale copy through in a calm environment. */
    method UpdateClusterStatus(p: Phase, azureState: string, message: string, annotate: bool) returns (outcome: Outcome)
      requires Valid() && !p.NoPhase?
      modifies this
      ensures Valid() && old(saved) <= saved
      ensures outcome.Written? ==> Shown(saved[|saved| - 1], p, azureState, message)
      ensures outcome.Written? ==> Newest()
      ensures old(Calm()) ==>
                Calm() && outcome.Written? && |saved| == old(|saved|) + (if annotate && old(Newest()) then 2 else 1)
    {
      if annotate {
        var _ := UpdateMetadata();
      }
      outcome := ApplyAndWrite(p, azureState, message);
      if outcome.Conflict? {
        var fetched := Get();
        if !fetched {
          return Transport;
        }
        outcome := ApplyAndWrite(p, azureState, message);
      }
    }

    /** What a written status shows after the controller's call. */
    static ghost predicate Performed(op: Op, st: Status) {
      match op
      case Fetch => true
      case NewCluster =>
        st.phase == Creating && Says(st.conditions, ClusterProvisioned, Working, "Cluster creation initiated")
      case ReconcileFailed(message) =>
        st.phase == Failed && Says(st.conditions, ClusterProvisioned, Error, message)
      case DeletionStarted => st.phase == Deleting && Says(st.conditions, ClusterReady, Working, "Deleting AKS cluster")
      case FromAzure(p, azureState, message, _) => Shown(st, p, azureState, message)
      case WriteMetadata => true
    }

    /** One call; None for those that do not write the status. */
    method Perform(op: Op) returns (outcome: Option<Outcome>)
      requires Valid() && (op.FromAzure? ==> !op.phase.NoPhase?)
      modifies this
      ensures Valid() && old(saved) <= saved
      ensures outcome.None? <==> op.Fetch? || op.WriteMetadata?
      ensures outcome == Some(Written) ==> Performed(op, saved[|saved| - 1])
      ensures old(Calm() && Newest()) ==> outcome.None? || outcome == Some(Written)
      ensures old(Calm()) && op.FromAzure? ==> outcome == Some(Written)
      ensures old(Calm()) ==> Calm() && (op.Fetch? || op.FromAzure? || old(Newest()) ==> Newest())
      ensures old(Calm() && Newest()) && op.WriteMetadata? ==> |saved| == old(|saved|) + 1
    {
      var written;
      match op
      case Fetch =>
        var _ := Get();
        return None;
      case NewCluster =>
        written := UpdatePhaseAndCondition(Creating, ClusterProvisioned, Working, "Cluster creation initiated");
        return Some(written);
      case ReconcileFailed(message) =>
        written := UpdatePhaseAndCondition(Failed, ClusterProvisioned, Error, message);
        return Some(written);
      case DeletionStarted =>
        written := UpdatePhaseAndCondition(Deleting, ClusterReady, Working, "Deleting AKS cluster");
        return Some(written);
      case FromAzure(p, azureState, message, annotate) =>
        written := UpdateClusterStatus(p, azureState, message, annotate);
        return Some(written);
      case WriteMetadata =>
        var _ := UpdateMetadata();
        return None;
    }

    /** Calm, and the copy is the newest one or fetched first. */
    ghost predicate GetsThrough(ops: seq<Op>)
      reads this`calls, this`rv, this`saved
    {
      Calm() && (Newest() || (ops != [] && ops[0].Fetch?))
    }

    /**
     Any calls in any order with any failures: every status that ever reaches the API server has
     distinct kinds, is sorted, and agrees with its phase, and every call that reports a write has
     left what it was asked for.  In a calm environment every call from a fetch on gets through.
     */
    method Run(ops: seq<Op>) returns (outcomes: seq<Option<Outcome>>)
      requires Valid()
      requires forall i :: 0 <= i < |ops| && ops[i].FromAzure? ==> !ops[i].phase.NoPhase?
      modifies this
      ensures forall i :: 0 <= i < |saved| ==> Good(saved[i])
      ensures old(saved) <= saved && |outcomes| == |ops|
      ensures forall i :: 0 <= i < |ops| && outcomes[i] == Some(Written) ==>
                exists k :: 0 <= k < |saved| && Performed(ops[i], saved[k])
      ensures old(GetsThrough(ops)) ==>
                forall i :: 0 <= i < |ops| ==>
                  (outcomes[i] == Some(Written) <==> !ops[i].Fetch? && !ops[i].WriteMetadata?)
    {
      outcomes := [];
      for i := 0 to |ops|
        invariant Valid() && old(saved) <= saved && |outcomes| == i
        invariant forall j :: 0 <= j < i && outcomes[j] == Some(Written) ==>
                    exists k :: 0 <= k < |saved| && Performed(ops[j], saved[k])
        invariant old(GetsThrough(ops)) ==> Calm()
        invariant old(GetsThrough(ops)) ==> if i == 0 then GetsThrough(ops) else Newest()
        invariant old(GetsThrough(ops)) ==>
                    forall j :: 0 <= j < i ==>
                      (outcomes[j] == Some(Written) <==> !ops[j].Fetch? && !ops[j].WriteMetadata?)
      {
        ghost var before := saved;
        var outcome := Perform(ops[i]);
        forall j | 0 <= j < i && outcomes[j] == Some(Written)
          ensures exists k :: 0 <= k < |saved| && Performed(ops[j], saved[k])
        {
          var k :| 0 <= k < |before| && Performed(ops[j], before[k]);
          assert Performed(ops[j], saved[k]);
        }
        outcomes := outcomes + [outcome];
      }
    }
  }
}
