/**
 The cluster state secret: an API server with optimistic concurrency, and the service
 that creates the secret and merges keys into it.

 `ApiServer` keeps the content of the secret at every resource version (`versions`) and
 the operations that produced them (`log`).  Before each call of one client the other
 clients commit whatever `schedule` says, and `fate` decides how the call itself ends, so
 a contract proved for a method holds for every interleaving with any number of other
 writers, every stale read and every failure.
 */
module StateStore {
  import opened Wrappers

  type Data = map<string, string>

  type Writer = nat

  // ---------- Keys ----------

  const TRUE := "true"
  const FALSE := "false"

  const CREATED_AT := "created_at"
  const READY_AT := "ready_at"
  const CLUSTER_PROVISIONING := "cluster_provisioning"
  const CLUSTER_PROVISIONED := "cluster_provisioned"
  const NODEPOOLS_READY := "nodepools_ready"
  const KUBERNETES_API_READY := "kubernetes_api_ready"
  const CLUSTER_ACCESS := "cluster_access"
  const KUBECONFIG_PRESENT := "kubeconfig_present"
  const KUBE_CONFIG := "kube.config"
  const AKS_RESOURCE_ID := "aks_resource_id"
  const AKS_PROVISION_STATE := "aks_provision_state"
  const RESOURCE_GROUP_NAME := "resource_group_name"
  const AKS_CLUSTER_NAME := "aks_cluster_name"
  const AKS_CLUSTER_FQDN := "aks_cluster_fqdn"
  const FAILURE_REASON := "failure_reason"
  const KUBE_SYSTEM_UID := "kube-system-uid"

  function InitialData(now: string): Data {
    map[CREATED_AT := now,
        CLUSTER_PROVISIONING := FALSE,
        CLUSTER_PROVISIONED := FALSE,
        NODEPOOLS_READY := FALSE,
        KUBERNETES_API_READY := FALSE,
        CLUSTER_ACCESS := FALSE,
        KUBECONFIG_PRESENT := FALSE]
  }

  // ---------- The log and what it means ----------

  datatype Entry =
    | Created(who: Writer, data: Data)
    | Merged(who: Writer, updates: Data)
    | Removed(who: Writer)

  predicate Applicable(content: Option<Data>, e: Entry) {
    if e.Created? then content.None? else content.Some?
  }

  function Apply(content: Option<Data>, e: Entry): Option<Data>
    requires Applicable(content, e)
  {
    match e
    case Created(_, data) => Some(data)
    case Merged(_, updates) => Some(content.value + updates)
    case Removed(_) => None
  }

  /** The content at each version is what the log up to it produces. */
  ghost predicate Follows(versions: seq<Option<Data>>, log: seq<Entry>) {
    && |versions| == |log| + 1
    && versions[0] == None
    && forall i :: 0 <= i < |log| ==> Applicable(versions[i], log[i]) && versions[i + 1] == Apply(versions[i], log[i])
  }

  lemma FollowsNext(versions: seq<Option<Data>>, log: seq<Entry>, e: Entry)
    requires Follows(versions, log) && Applicable(versions[|log|], e)
    ensures Follows(versions + [Apply(versions[|log|], e)], log + [e])
  {
  }

  /** The value that the last of the first `n` log entries to touch `key` in this lifetime gave it. */
  function LastWrite(log: seq<Entry>, n: nat, key: string): Option<string>
    requires n <= |log|
  {
    if n == 0 then None
    else
      match log[n - 1]
      case Created(_, data) => if key in data then Some(data[key]) else None
      case Merged(_, updates) => if key in updates then Some(updates[key]) else LastWrite(log, n - 1, key)
      case Removed(_) => None
  }

  function Lookup(content: Option<Data>, key: string): Option<string> {
    if content.Some? && key in content.value then Some(content.value[key]) else None
  }

  /** No lost updates: every key holds what its last committed writer put there, at every version. */
  lemma {:induction false} NoLostUpdate(versions: seq<Option<Data>>, log: seq<Entry>, n: nat, key: string)
    requires Follows(versions, log) && n <= |log|
    ensures Lookup(versions[n], key) == LastWrite(log, n, key)
  {
    if n > 0 {
      NoLostUpdate(versions, log, n - 1, key);
      assert versions[n - 1 + 1] == Apply(versions[n - 1], log[n - 1]);
    }
  }

  predicate NoRemoval(log: seq<Entry>, from: nat, to: nat)
    requires from <= to <= |log|
  {
    forall i :: from <= i < to ==> !log[i].Removed?
  }

  lemma {:induction false} StaysPresent(versions: seq<Option<Data>>, log: seq<Entry>, from: nat, to: nat)
    requires Follows(versions, log) && from <= to <= |log|
    requires versions[from].Some? && NoRemoval(log, from, to)
    ensures forall i :: from <= i <= to ==> versions[i].Some?
    ensures forall i :: from <= i < to ==> log[i].Merged?
  {
    if from < to {
      StaysPresent(versions, log, from, to - 1);
      assert versions[to - 1 + 1] == Apply(versions[to - 1], log[to - 1]);
    }
  }

  /** Single creation: within one lifetime of the secret at most one create takes effect. */
  lemma SingleCreation(versions: seq<Option<Data>>, log: seq<Entry>, i: nat, j: nat)
    requires Follows(versions, log) && i < j < |log|
    requires log[i].Created? && log[j].Created?
    ensures !NoRemoval(log, i + 1, j)
  {
    if NoRemoval(log, i + 1, j) {
      assert versions[i + 1] == Apply(versions[i], log[i]);
      StaysPresent(versions, log, i + 1, j);
    }
  }

  /** The creation a version descends from. */
  lemma {:induction false} DescendsFromOneCreation(versions: seq<Option<Data>>, log: seq<Entry>, n: nat)
    returns (c: nat)
    requires Follows(versions, log) && n <= |log| && versions[n].Some?
    ensures c < n && log[c].Created? && NoRemoval(log, c, n)
  {
    assert n > 0;
    assert versions[n - 1 + 1] == Apply(versions[n - 1], log[n - 1]);
    if log[n - 1].Created? {
      c := n - 1;
    } else {
      c := DescendsFromOneCreation(versions, log, n - 1);
    }
  }

  lemma {:induction false} KeyKept(versions: seq<Option<Data>>, log: seq<Entry>, key: string, from: nat, to: nat)
    requires Follows(versions, log) && from <= to <= |log|
    requires versions[from].Some? && NoRemoval(log, from, to)
    requires forall i :: from <= i < to && log[i].Merged? ==> key !in log[i].updates
    ensures Lookup(versions[to], key) == Lookup(versions[from], key)
  {
    if from < to {
      KeyKept(versions, log, key, from, to - 1);
      StaysPresent(versions, log, from, to);
      assert versions[to - 1 + 1] == Apply(versions[to - 1], log[to - 1]);
    }
  }

  /** Creations write `created_at` and merges leave it alone. */
  ghost predicate BirthKept(log: seq<Entry>) {
    forall i :: 0 <= i < |log| ==>
      (log[i].Created? ==> CREATED_AT in log[i].data) && (log[i].Merged? ==> CREATED_AT !in log[i].updates)
  }

  /** Callers that read two versions of one lifetime hold the same `created_at`, the creator's. */
  lemma SameCreatedAt(versions: seq<Option<Data>>, log: seq<Entry>, m: nat, n: nat)
    requires Follows(versions, log) && BirthKept(log) && m <= n <= |log|
    requires versions[m].Some? && versions[n].Some? && NoRemoval(log, m, n)
    ensures Lookup(versions[m], CREATED_AT).Some? && Lookup(versions[m], CREATED_AT) == Lookup(versions[n], CREATED_AT)
    ensures exists c :: 0 <= c < m && log[c].Created? && NoRemoval(log, c, n) &&
                        Lookup(versions[n], CREATED_AT) == Lookup(Some(log[c].data), CREATED_AT)
  {
    KeyKept(versions, log, CREATED_AT, m, n);
    var c := DescendsFromOneCreation(versions, log, m);
    assert versions[c + 1] == Apply(versions[c], log[c]);
    KeyKept(versions, log, CREATED_AT, c + 1, m);
  }

  // ---------- What one client adds to the log ----------

  /** From `before` to `after` client `me` committed `e` at position `at`, or nothing if there is none. */
  predicate OnlyEntry(before: seq<Entry>, after: seq<Entry>, me: Writer, at: Option<nat>, e: Entry) {
    && before <= after
    && (at.Some? ==> |before| <= at.value < |after| && after[at.value] == e)
    && forall i :: |before| <= i < |after| && after[i].who == me ==> at == Some(i)
  }

  /** Client `me` committed the merge at `at`, or not at all if there is none, and otherwise only creations. */
  predicate Wrote(before: seq<Entry>, after: seq<Entry>, me: Writer, now: string, updates: Data, at: Option<nat>) {
    && before <= after
    && (at.Some? ==> |before| <= at.value < |after| && after[at.value] == Merged(me, updates))
    && forall i :: |before| <= i < |after| && after[i].who == me && at != Some(i) ==>
         after[i] == Created(me, InitialData(now))
  }

  lemma WroteThen(a: seq<Entry>, b: seq<Entry>, c: seq<Entry>, me: Writer, now: string, updates: Data, at: Option<nat>)
    requires Wrote(a, b, me, now, updates, None) && Wrote(b, c, me, now, updates, at)
    ensures Wrote(a, c, me, now, updates, at)
  {
  }

  datatype Fault = NotFound | AlreadyExists | Conflict | Transport

  /** Ok means committed, and an answer other than a transport error means not committed. */
  predicate Honest(r: Result<(), Fault>, at: Option<nat>) {
    && (r.Ok? ==> at.Some?)
    && (r.Err? && !r.error.Transport? ==> at.None?)
  }

  datatype Secret = Secret(rv: nat, data: Data)

  /** What a read of the newest version returns. */
  function Newest(versions: seq<Option<Data>>): Result<Secret, Fault>
    requires |versions| > 0
  {
    var rv := |versions| - 1;
    if versions[rv].Some? then Ok(Secret(rv, versions[rv].value)) else Err(NotFound)
  }

  /** The content, or what a creation puts there. */
  function Base(content: Option<Data>, init: Data): Data {
    if content.Some? then content.value else init
  }

  /** The API server as client `me` meets it. */
  class ApiServer {
    const me: Writer
    const schedule: nat -> seq<Entry>
    const fate: nat -> Fate
    var calls: nat
    var versions: seq<Option<Data>>
    var log: seq<Entry>

    ghost predicate Valid()
      reads this
    {
      && Follows(versions, log)
      && forall i :: 0 <= i < |log| ==> log[i].who == me || Foreign(log[i])
    }

    function Current(): Option<Data>
      reads this`versions
      requires |versions| > 0
    {
      versions[|versions| - 1]
    }

    /** An entry that the environment may commit. */
    ghost predicate Foreign(e: Entry) {
      exists t: nat :: e in schedule(t)
    }

    /** From here on every call is served, reads are current and nobody else writes. */
    ghost predicate Calm()
      reads this`calls
    {
      forall t: nat :: calls <= t ==> fate(t) == Served(0) && schedule(t) == []
    }

    predicate OthersMerge(entries: seq<Entry>) {
      forall i :: 0 <= i < |entries| ==> entries[i].Merged? && entries[i].who != me
    }

    /** The secret exists, and from here on every call is served, reads are current and the others only merge. */
    ghost predicate Responsive()
      reads this`calls, this`versions
    {
      && |versions| > 0 && Current().Some?
      && forall t: nat :: calls <= t ==> fate(t) == Served(0) && OthersMerge(schedule(t))
    }

    constructor (me: Writer, schedule: nat -> seq<Entry>, fate: nat -> Fate)
      ensures Valid() && log == [] && this.me == me && this.schedule == schedule && this.fate == fate
    {
      this.me, this.schedule, this.fate := me, schedule, fate;
      calls, versions, log := 0, [None], [];
    }

    /** Stores `content` as the next version; `e` says how it came from the current one. */
    method Append(e: Entry, content: Option<Data>)
      requires Valid() && Applicable(Current(), e) && content == Apply(Current(), e)
      requires e.who == me || Foreign(e)
      modifies this`versions, this`log
      ensures Valid() && log == old(log) + [e] && versions == old(versions) + [content]
    {
      FollowsNext(versions, log, e);
      versions := versions + [content];
      log := log + [e];
    }

    /** The other clients' turn: they commit what the schedule says, as far as it applies. */
    method Interfere()
      requires Valid()
      modifies this
      ensures Valid() && old(log) <= log && old(versions) <= versions
      ensures forall i :: |old(log)| <= i < |log| ==> log[i].who != me
      ensures old(Calm()) ==> Calm() && versions == old(versions)
      ensures calls == old(calls) + 1
      ensures old(Responsive()) ==> Responsive() && |versions| == old(|versions|) + |schedule(old(calls))|
    {
      var entries := schedule(calls);
      var i := 0;
      while i < |entries|
        invariant 0 <= i <= |entries| && calls == old(calls) && (i == 0 ==> versions == old(versions))
        invariant Valid() && old(log) <= log && old(versions) <= versions
        invariant forall i :: |old(log)| <= i < |log| ==> log[i].who != me
        invariant old(Responsive()) ==> Current().Some? && |versions| == old(|versions|) + i
      {
        var e := entries[i];
        if e.who != me && Applicable(Current(), e) {
          assert e in schedule(calls);
          Append(e, Apply(Current(), e));
        }
        i := i + 1;
      }
      calls := calls + 1;
    }

    method GetSecret() returns (r: Result<Secret, Fault>)
      requires Valid()
      modifies this
      ensures Valid() && old(log) <= log && old(versions) <= versions && calls == old(calls) + 1
      ensures forall i :: |old(log)| <= i < |log| ==> log[i].who != me
      ensures r.Ok? ==> r.value.rv < |versions| && versions[r.value.rv] == Some(r.value.data)
      ensures r.Err? ==> r.error.NotFound? || r.error.Transport?
      ensures old(Calm()) ==> Calm() && versions == old(versions) && r == Newest(versions)
      ensures old(Responsive()) ==> Responsive() && r == Newest(versions)
    {
      var turn := calls;
      Interfere();
      match fate(turn)
      case Served(back) =>
        var top := |versions| - 1;
        var rv := if back <= top then top - back else 0;
        r := match versions[rv] case None => Err(NotFound) case Some(d) => Ok(Secret(rv, d));
      case Unavailable => r := Err(Transport);
      case LostReply => r := Err(Transport);
    }

    method Create(data: Data) returns (r: Result<(), Fault>, ghost at: Option<nat>)
      requires Valid()
      modifies this
      ensures Valid() && old(versions) <= versions && OnlyEntry(old(log), log, me, at, Created(me, data))
      ensures Honest(r, at) && (r.Err? ==> r.error.AlreadyExists? || r.error.Transport?)
      ensures r == Err(AlreadyExists) ==> Current().Some?
      ensures calls == old(calls) + 1
      ensures old(Calm()) ==> Calm() && !(r.Err? && r.error.Transport?)
      ensures old(Calm()) ==> Current() == Some(Base(old(Current()), data))
    {
      at := None;
      var turn := calls;
      Interfere();
      var how := fate(turn);
      if how.Unavailable? {
        return Err(Transport), at;
      }
      if Current().Some? {
        return if how.LostReply? then Err(Transport) else Err(AlreadyExists), at;
      }
      at := Some(|log|);
      Append(Created(me, data), Some(data));
      r := if how.LostReply? then Err(Transport) else Ok(());
    }

    /** Compare-and-swap on the resource version; `updates` is what the caller laid over version `secret.rv`. */
    method UpdateSecret(secret: Secret, updates: Data) returns (r: Result<(), Fault>, ghost at: Option<nat>)
      requires Valid()
      requires secret.rv < |versions| && versions[secret.rv].Some?
      requires secret.data == versions[secret.rv].value + updates
      modifies this
      ensures Valid() && old(versions) <= versions && OnlyEntry(old(log), log, me, at, Merged(me, updates))
      ensures Honest(r, at) && (r.Err? ==> !r.error.AlreadyExists?)
      ensures (r == Err(NotFound) ==> Current().None?) && (r == Err(Conflict) ==> Current().Some?)
      ensures calls == old(calls) + 1
      ensures old(Calm()) && secret.rv == old(|versions|) - 1 ==> Calm() && r.Ok?
      ensures old(Responsive()) && secret.rv == old(|versions|) - 1 ==>
                Responsive() && r == if schedule(old(calls)) == [] then Ok(()) else Err(Conflict)
      ensures at.Some? ==> at.value == secret.rv == |log| - 1 && Current() == Some(secret.data)
    {
      at := None;
      var turn := calls;
      Interfere();
      var how := fate(turn);
      if how.Unavailable? {
        return Err(Transport), at;
      }
      if Current().None? || secret.rv != |versions| - 1 {
        return if how.LostReply? then Err(Transport) else if Current().None? then Err(NotFound) else Err(Conflict), at;
      }
      at := Some(|log|);
      Append(Merged(me, updates), Some(secret.data));
      r := if how.LostReply? then Err(Transport) else Ok(());
    }
  }

  // ---------- ClusterStateService ----------

  const ATTEMPTS := 3

  /** Up to three reads, so that a cache that lags behind a create can catch up. */
  method GetStateWithRetry(api: ApiServer) returns (r: Result<Secret, Fault>)
    requires api.Valid()
    modifies api
    ensures api.Valid() && old(api.log) <= api.log && old(api.versions) <= api.versions
    ensures old(api.calls) < api.calls <= old(api.calls) + 3
    ensures r == Err(NotFound) ==> api.calls == old(api.calls) + 3
    ensures forall i :: |old(api.log)| <= i < |api.log| ==> api.log[i].who != api.me
    ensures r.Ok? ==> r.value.rv < |api.versions| && api.versions[r.value.rv] == Some(r.value.data)
    ensures r.Err? ==> r.error.NotFound? || r.error.Transport?
    ensures old(api.Calm()) ==> api.Calm() && api.versions == old(api.versions) && r == Newest(api.versions)
    ensures old(api.Calm()) && r.Ok? ==> api.calls == old(api.calls) + 1
  {
    r := Err(NotFound);
    for attempt := 0 to ATTEMPTS
      invariant old(api.Calm()) ==> api.Calm() && api.versions == old(api.versions)
      invariant old(api.Calm()) && attempt > 0 ==> r == Newest(api.versions)
      invariant api.Valid() && old(api.log) <= api.log && old(api.versions) <= api.versions
      invariant forall i :: |old(api.log)| <= i < |api.log| ==> api.log[i].who != api.me
      invariant r == Err(NotFound) && api.calls == old(api.calls) + attempt
    {
      r := api.GetSecret();
      if r.Ok? || !r.error.NotFound? {
        return;
      }
    }
  }

  method CreateStateSecret(api: ApiServer, now: string) returns (r: Result<Secret, Fault>, ghost at: Option<nat>)
    requires api.Valid()
    modifies api
    ensures api.Valid() && old(api.versions) <= api.versions
    ensures OnlyEntry(old(api.log), api.log, api.me, at, Created(api.me, InitialData(now)))
    ensures r.Ok? ==> r.value.rv < |api.versions| && api.versions[r.value.rv] == Some(r.value.data)
    ensures r.Err? ==> r.error.NotFound? || r.error.Transport?
    ensures old(api.Calm()) ==> api.Calm() && r == Newest(api.versions)
    ensures old(api.Calm()) ==> api.Current() == Some(Base(old(api.Current()), InitialData(now)))
    ensures old(api.Calm()) ==> api.calls == old(api.calls) + 2
    ensures old(api.calls) < api.calls
  {
    var created;
    created, at := api.Create(InitialData(now));
    if created.Err? && !created.error.AlreadyExists? {
      return Err(created.error), at;
    }
    r := GetStateWithRetry(api);
  }

  /**
   An existing secret is read once.  An absent one is looked for twice, created, and read back.
   One call creates at most once, with the initial data, and otherwise leaves the log to the
   others: a creator that loses the race overwrites nothing and returns a committed version.
   */
  method GetOrCreateState(api: ApiServer, now: string) returns (r: Result<Secret, Fault>, ghost at: Option<nat>)
    requires api.Valid()
    modifies api
    ensures api.Valid() && old(api.versions) <= api.versions
    ensures OnlyEntry(old(api.log), api.log, api.me, at, Created(api.me, InitialData(now)))
    ensures r.Ok? ==> r.value.rv < |api.versions| && api.versions[r.value.rv] == Some(r.value.data)
    ensures r.Err? ==> r.error.NotFound? || r.error.Transport?
    ensures old(api.Calm()) ==> api.Calm() && r == Newest(api.versions)
    ensures old(api.Calm()) ==> api.Current() == Some(Base(old(api.Current()), InitialData(now)))
    ensures old(api.Calm()) ==> api.calls == old(api.calls) + if old(api.Current()).Some? then 1 else 4
    ensures old(api.Responsive()) ==>
              api.Responsive() && r == Newest(api.versions) && api.calls == old(api.calls) + 1
    ensures old(api.calls) < api.calls
  {
    at := None;
    r := api.GetSecret();
    if r.Ok? || !r.error.NotFound? {
      return;
    }
    // The per-name creation lock is held from here on; see module CreationLock.
    r := api.GetSecret();
    if r.Ok? || !r.error.NotFound? {
      return;
    }
    r, at := CreateStateSecret(api, now);
  }

  lemma MoveKey(result: Data, rest: Data, key: string)
    requires key in rest
    ensures result[key := rest[key]] + (rest - {key}) == result + rest
  {
  }

  /** The inner loop over the update map: it lays every key over the copy, in any order. */
  method Overlay(data: Data, updates: Data) returns (result: Data)
    ensures result == data + updates
  {
    result := data;
    var rest := updates;
    while rest != map[]
      invariant result + rest == data + updates
      decreases |rest|
    {
      var key :| key in rest;
      MoveKey(result, rest, key);
      result, rest := result[key := rest[key]], rest - {key};
    }
    assert result + map[] == result;
  }

  /** One turn of the retry loop: read, overlay, compare-and-swap. */
  method Attempt(api: ApiServer, updates: Data, now: string)
    returns (r: Result<(), Fault>, readFailed: bool, ghost at: Option<nat>)
    requires api.Valid()
    modifies api
    ensures api.Valid() && old(api.versions) <= api.versions
    ensures Wrote(old(api.log), api.log, api.me, now, updates, at)
    ensures (r.Ok? ==> !readFailed) && Honest(r, at)
    ensures old(api.Calm()) ==> api.Calm() && r.Ok?
    ensures old(api.Calm()) ==> api.Current() == Some(Base(old(api.Current()), InitialData(now)) + updates)
    ensures old(api.Responsive()) ==>
              api.Responsive() && !readFailed && api.calls == old(api.calls) + 2 &&
              r == if api.schedule(old(api.calls) + 1) == [] then Ok(()) else Err(Conflict)
    ensures if readFailed then r != Err(Conflict) else old(api.calls) + 2 <= api.calls
  {
    readFailed, at := true, None;
    var read, _ := GetOrCreateState(api, now);
    if read.Err? {
      return Err(read.error), readFailed, at;
    }
    var data := Overlay(read.value.data, updates);
    readFailed := false;
    r, at := api.UpdateSecret(Secret(read.value.rv, data), updates);
  }

  /** In each of the first `turns` turns from call `c` on somebody merges between the read and the write. */
  predicate Contended(api: ApiServer, c: nat, turns: nat) {
    && (turns >= 1 ==> api.schedule(c + 1) != [])
    && (turns >= 2 ==> api.schedule(c + 3) != [])
    && (turns >= 3 ==> api.schedule(c + 5) != [])
  }

  /**
   The optimistic retry loop.  Its update is committed exactly once or not at all: a writer that
   returns Ok committed it, one that returns NotFound or Conflict did not, and only after a
   transport error is it open which.  In a calm environment the update is committed.  When every
   call is served and others keep merging, it is committed by the first of three turns in which
   nobody merges between its read and its write, and Conflict says that there was none.
   */
  method UpdateStateMultiple(api: ApiServer, updates: Data, now: string)
    returns (r: Result<(), Fault>, ghost at: Option<nat>)
    requires api.Valid()
    modifies api
    ensures api.Valid() && old(api.versions) <= api.versions
    ensures Wrote(old(api.log), api.log, api.me, now, updates, at) && Honest(r, at)
    ensures old(api.Calm()) ==> api.Calm() && r.Ok?
    ensures old(api.Calm()) ==> api.Current() == Some(Base(old(api.Current()), InitialData(now)) + updates)
    ensures old(api.Responsive()) ==>
              if Contended(api, old(api.calls), 3) then r == Err(Conflict)
              else r.Ok? && api.calls <= old(api.calls) + 6
    ensures r == Err(Conflict) ==> old(api.calls) + 6 <= api.calls
  {
    ghost var c, responsive := api.calls, api.Responsive();
    r, at := Err(Conflict), None;
    for attempt := 0 to ATTEMPTS
      invariant old(api.Calm()) ==> attempt == 0 && api.Calm() && api.versions == old(api.versions)
      invariant api.Valid() && old(api.versions) <= api.versions
      invariant Wrote(old(api.log), api.log, api.me, now, updates, None)
      invariant r.Err? && !r.error.Transport? && at.None? && c + 2 * attempt <= api.calls
      invariant responsive ==> api.Responsive() && r == Err(Conflict)
      invariant responsive ==> api.calls == c + 2 * attempt
      invariant responsive ==> Contended(api, c, attempt)
    {
      var readFailed;
      ghost var before := api.log;
      r, readFailed, at := Attempt(api, updates, now);
      WroteThen(old(api.log), before, api.log, api.me, now, updates, at);
      if r.Ok? || readFailed || r.error.Transport? {
        return;
      }
    }
  }
}
