/**
 What the state secret says about the cluster, at every version it ever has.

 Each call may fail, be served from a stale cache or lose its reply; a reconcile that stops
 between two writes is one whose remaining calls are `Unavailable`.  Other clients write the
 secret too, but not the keys the operator owns, and nobody deletes it (`Benign`).
 */
module SecretLifecycle {
  import opened Wrappers
  import opened StateStore

  // ---------- The invariant ----------

  predicate Flag(d: Data, key: string) {
    key in d && d[key] == TRUE
  }

  /** The secret's keys agree with each other; `guest` is the kube-system UID of the guest cluster. */
  predicate Sound(d: Data, guest: string) {
    && (Flag(d, KUBECONFIG_PRESENT) <==> KUBE_CONFIG in d)
    && (Flag(d, KUBERNETES_API_READY) ==> Flag(d, KUBECONFIG_PRESENT))
    && (Flag(d, CLUSTER_ACCESS) <==> Flag(d, NODEPOOLS_READY))
    && (Flag(d, CLUSTER_ACCESS) <==> READY_AT in d)
    && (Flag(d, CLUSTER_ACCESS) ==> Flag(d, KUBERNETES_API_READY))
    && (Flag(d, CLUSTER_PROVISIONED) ==> AKS_RESOURCE_ID in d && AKS_CLUSTER_NAME in d && RESOURCE_GROUP_NAME in d)
    && !Flag(d, CLUSTER_PROVISIONING)  // in particular not while the provision state is "Failed"
    && (KUBE_SYSTEM_UID in d ==> d[KUBE_SYSTEM_UID] == guest)
  }

  /** Milestones that no later write takes back. */
  datatype Milestones = Milestones(kubeconfig: bool, uid: bool)

  const NOTHING := Milestones(false, false)

  predicate Good(c: Option<Data>, m: Milestones, guest: string) {
    && (c.Some? ==> Sound(c.value, guest))
    && (m.kubeconfig ==> c.Some? && KUBE_CONFIG in c.value)
    && (m.uid ==> c.Some? && KUBE_SYSTEM_UID in c.value)
  }

  const OWNED_KEYS := {
    CREATED_AT, READY_AT, CLUSTER_PROVISIONING, CLUSTER_PROVISIONED, NODEPOOLS_READY, KUBERNETES_API_READY,
    CLUSTER_ACCESS, KUBECONFIG_PRESENT, KUBE_CONFIG, AKS_RESOURCE_ID, AKS_PROVISION_STATE, RESOURCE_GROUP_NAME,
    AKS_CLUSTER_NAME, KUBE_SYSTEM_UID }

  const READY_KEYS := { KUBERNETES_API_READY, CLUSTER_ACCESS, NODEPOOLS_READY, READY_AT }

  function Readiness(c: Option<Data>): seq<Option<string>> {
    [Lookup(c, KUBERNETES_API_READY), Lookup(c, CLUSTER_ACCESS), Lookup(c, NODEPOOLS_READY), Lookup(c, READY_AT)]
  }

  /** The keys that say the cluster can be used did not change. */
  predicate SameReadiness(c: Option<Data>, c': Option<Data>) {
    c.Some? ==> c'.Some? && Readiness(c') == Readiness(c)
  }

  /** The key holds something other than the empty string. */
  predicate Has(c: Option<Data>, key: string) {
    c.Some? && key in c.value && c.value[key] != ""
  }

  /** The cluster's name and groups in Azure are there as they were. */
  predicate SameIdentifiers(c: Option<Data>, c': Option<Data>) {
    && Lookup(c', "aks_resource_id") == Lookup(c, "aks_resource_id")
    && Lookup(c', "aks_cluster_name") == Lookup(c, "aks_cluster_name")
    && Lookup(c', "resource_group_name") == Lookup(c, "resource_group_name")
  }

  const CREDENTIAL_KEYS := { KUBE_CONFIG, KUBE_SYSTEM_UID }

  /** The kubeconfig and the UID are there as they were. */
  predicate SameCredentials(c: Option<Data>, c': Option<Data>) {
    Has(c', KUBE_CONFIG) == Has(c, KUBE_CONFIG) && Has(c', KUBE_SYSTEM_UID) == Has(c, KUBE_SYSTEM_UID)
  }

  predicate IsReady(c: Option<Data>) {
    c.Some? && Flag(c.value, KUBERNETES_API_READY) && Flag(c.value, CLUSTER_ACCESS) && Flag(c.value, NODEPOOLS_READY)
  }

  ghost predicate BenignEntry(e: Entry) {
    match e
    case Created(_, data) => exists now :: data == InitialData(now)
    case Merged(_, updates) => updates.Keys !! OWNED_KEYS
    case Removed(_) => false
  }

  ghost predicate Benign(api: ApiServer) {
    forall e :: api.Foreign(e) ==> BenignEntry(e)
  }

  /** Every version the secret ever had is sound, and the current one has reached the milestones. */
  ghost predicate Healthy(api: ApiServer, m: Milestones, guest: string)
    reads api
  {
    && api.Valid()
    && Benign(api)
    && NoRemoval(api.log, 0, |api.log|)
    && BirthKept(api.log)
    && (forall i :: 0 <= i < |api.versions| ==> Good(api.versions[i], NOTHING, guest))
    && Good(api.Current(), m, guest)
  }

  /** Laying `updates` over a good secret that reached `m` gives one that reached `m'`. */
  ghost predicate Raises(updates: Data, m: Milestones, m': Milestones, guest: string) {
    forall d: Data {:trigger d + updates} :: Good(Some(d), m, guest) ==> Good(Some(d + updates), m', guest)
  }

  // ---------- From one call's log entries to the versions ----------

  lemma BenignKeeps(c: Option<Data>, e: Entry, m: Milestones, guest: string)
    requires Good(c, m, guest) && Applicable(c, e) && BenignEntry(e)
    ensures Good(Apply(c, e), m, guest)
  {
    match e {
      case Created(_, data) =>
      case Merged(_, updates) =>
        var d, d' := c.value, c.value + updates;
        forall k | k in OWNED_KEYS
          ensures (k in d' <==> k in d) && (k in d ==> d'[k] == d[k])
        {
        }
    }
  }

  lemma {:induction false} KeepsGood(api: ApiServer, from: nat, to: nat, now: string, updates: Data,
                                     m: Milestones, guest: string)
    requires api.Valid() && Benign(api) && from <= to <= |api.log|
    requires forall i :: from <= i < to && api.log[i].who == api.me ==>
               api.log[i] == Created(api.me, InitialData(now)) || api.log[i] == Merged(api.me, updates)
    requires Raises(updates, m, m, guest) && Good(api.versions[from], m, guest)
    ensures forall i :: from <= i <= to ==> Good(api.versions[i], m, guest)
  {
    if from < to {
      KeepsGood(api, from, to - 1, now, updates, m, guest);
      var c, e := api.versions[to - 1], api.log[to - 1];
      assert api.versions[to - 1 + 1] == Apply(c, e);
      if e == Merged(api.me, updates) {
        assert c == Some(c.value);
        assert Good(Some(c.value + updates), m, guest);
      } else {
        BenignKeeps(c, e, m, guest);
      }
    }
  }

  lemma NothingRemoved(api: ApiServer, before: seq<Entry>, now: string, updates: Data, at: Option<nat>)
    requires api.Valid() && Benign(api) && Wrote(before, api.log, api.me, now, updates, at)
    ensures NoRemoval(api.log, |before|, |api.log|)
    ensures NoRemoval(before, 0, |before|) ==> NoRemoval(api.log, 0, |api.log|)
    ensures BirthKept(before) && CREATED_AT !in updates ==> BirthKept(api.log)
  {
    forall i | |before| <= i < |api.log|
      ensures !api.log[i].Removed? && (api.log[i].Created? ==> CREATED_AT in api.log[i].data)
      ensures CREATED_AT !in updates && api.log[i].Merged? ==> CREATED_AT !in api.log[i].updates
    {
      if api.log[i].who != api.me {
        assert BenignEntry(api.log[i]);
      }
    }
    assert forall i :: 0 <= i < |before| ==> before[i] == api.log[i];
  }

  /** A write that keeps soundness and the milestones `m`, and raises them to `m'` if it committed. */
  lemma WriteKeepsHealth(api: ApiServer, before: seq<Entry>, now: string, updates: Data, at: Option<nat>,
                         m: Milestones, m': Milestones, guest: string)
    requires api.Valid() && Benign(api) && Wrote(before, api.log, api.me, now, updates, at)
    requires NoRemoval(before, 0, |before|) && BirthKept(before) && CREATED_AT !in updates
    requires Good(api.versions[|before|], m, guest)
    requires forall i :: 0 <= i <= |before| ==> Good(api.versions[i], NOTHING, guest)
    requires Raises(updates, m, m, guest) && Raises(updates, m, m', guest) && Raises(updates, m', m', guest)
    ensures Healthy(api, m, guest) && (at.Some? ==> Healthy(api, m', guest))
  {
    KeepsGood(api, |before|, |api.log|, now, updates, m, guest);
    assert forall i :: 0 <= i < |api.versions| ==> Good(api.versions[i], NOTHING, guest);
    NothingRemoved(api, before, now, updates, at);
    if at.Some? {
      var c := api.versions[at.value];
      assert api.versions[at.value + 1] == Apply(c, api.log[at.value]);
      assert c == Some(c.value) && Good(Some(c.value + updates), m', guest);
      KeepsGood(api, at.value + 1, |api.log|, now, updates, m', guest);
    }
  }

  lemma WriteKeepsReadiness(api: ApiServer, before: seq<Entry>, now: string, updates: Data, at: Option<nat>)
    requires api.Valid() && Benign(api) && Wrote(before, api.log, api.me, now, updates, at)
    requires updates.Keys !! READY_KEYS
    ensures SameReadiness(api.versions[|before|], api.Current())
  {
    if api.versions[|before|].Some? {
      NothingRemoved(api, before, now, updates, at);
      StaysPresent(api.versions, api.log, |before|, |api.log|);
      forall k | k in READY_KEYS
        ensures Lookup(api.Current(), k) == Lookup(api.versions[|before|], k)
      {
        KeyKept(api.versions, api.log, k, |before|, |api.log|);
      }
    }
  }

  /** A read may create the secret and lets the others write. */
  lemma ReadKeepsHealth(api: ApiServer, before: seq<Entry>, now: string, at: Option<nat>, m: Milestones, guest: string)
    requires api.Valid() && Benign(api)
    requires OnlyEntry(before, api.log, api.me, at, Created(api.me, InitialData(now)))
    requires NoRemoval(before, 0, |before|) && BirthKept(before) && Good(api.versions[|before|], m, guest)
    requires forall i :: 0 <= i <= |before| ==> Good(api.versions[i], NOTHING, guest)
    ensures Healthy(api, m, guest) && SameReadiness(api.versions[|before|], api.Current())
  {
    assert Wrote(before, api.log, api.me, now, map[], None);
    assert forall d: Data {:trigger d + map[]} :: d + map[] == d;
    WriteKeepsHealth(api, before, now, map[], None, m, m, guest);
    WriteKeepsReadiness(api, before, now, map[], None);
  }

  /** Any two versions that exist carry one creation time, as long as only the operator and benign clients write. */
  lemma OneCreatedAt(api: ApiServer, m: Milestones, guest: string, i: nat, j: nat)
    requires Healthy(api, m, guest) && i <= j < |api.versions|
    requires api.versions[i].Some? && api.versions[j].Some?
    ensures Lookup(api.versions[i], CREATED_AT).Some?
    ensures Lookup(api.versions[i], CREATED_AT) == Lookup(api.versions[j], CREATED_AT)
  {
    SameCreatedAt(api.versions, api.log, i, j);
  }

  // ---------- The setters ----------

  function FailedUpdates(reason: string): Data {
    var updates := map[CLUSTER_PROVISIONING := FALSE, CLUSTER_PROVISIONED := FALSE, AKS_PROVISION_STATE := "Failed"];
    if reason != "" then updates[FAILURE_REASON := reason] else updates
  }

  function ProvisionedUpdates(id: string, name: string, group: string): Data {
    map[CLUSTER_PROVISIONING := FALSE,
        CLUSTER_PROVISIONED := TRUE,
        AKS_RESOURCE_ID := id,
        AKS_CLUSTER_NAME := name,
        RESOURCE_GROUP_NAME := group]
  }

  function KubeconfigUpdates(kubeconfig: string): Data {
    map[KUBE_CONFIG := kubeconfig, KUBECONFIG_PRESENT := TRUE]
  }

  function ReadyUpdates(now: string): Data {
    map[CLUSTER_ACCESS := TRUE, KUBERNETES_API_READY := TRUE, NODEPOOLS_READY := TRUE, READY_AT := now]
  }

  /** The merges this client asked for, in order; what became of them is in the log. */
  class Journal {
    var asked: seq<Data>

    constructor ()
      ensures asked == []
    {
      asked := [];
    }
  }

  /** What an undisturbed merge makes of the content. */
  predicate Laid(c: Option<Data>, c': Option<Data>, now: string, updates: Data) {
    c' == Some(Base(c, InitialData(now)) + updates)
  }

  lemma LaidKeepsCredentials(c: Option<Data>, c': Option<Data>, now: string, updates: Data)
    requires Laid(c, c', now, updates) && updates.Keys !! CREDENTIAL_KEYS
    ensures SameCredentials(c, c')
  {
    assert KUBE_CONFIG in CREDENTIAL_KEYS && KUBE_SYSTEM_UID in CREDENTIAL_KEYS;
  }

  /** UpdateStateMultiple with the health argument: `m` is kept, `m'` is reached if the merge is committed. */
  method Write(api: ApiServer, journal: Journal, updates: Data, now: string,
               ghost m: Milestones, ghost m': Milestones, ghost guest: string)
    returns (r: Result<(), Fault>, ghost at: Option<nat>)
    requires Healthy(api, m, guest)
    requires Raises(updates, m, m, guest) && Raises(updates, m, m', guest) && Raises(updates, m', m', guest)
    requires CREATED_AT !in updates
    modifies api, journal
    ensures journal.asked == old(journal.asked) + [updates]
    ensures Wrote(old(api.log), api.log, api.me, now, updates, at) && Honest(r, at)
    ensures Healthy(api, m, guest) && (at.Some? ==> Healthy(api, m', guest))
    ensures updates.Keys !! READY_KEYS ==> SameReadiness(old(api.Current()), api.Current())
    ensures old(api.Calm()) ==> api.Calm() && r.Ok?
    ensures old(api.Calm()) ==> Laid(old(api.Current()), api.Current(), now, updates)
    ensures old(api.Calm()) && updates.Keys !! CREDENTIAL_KEYS ==> SameCredentials(old(api.Current()), api.Current())
  {
    ghost var before, versions := api.log, api.versions;
    journal.asked := journal.asked + [updates];
    r, at := UpdateStateMultiple(api, updates, now);
    assert forall i :: 0 <= i < |versions| ==> api.versions[i] == versions[i];
    WriteKeepsHealth(api, before, now, updates, at, m, m', guest);
    if updates.Keys !! READY_KEYS {
      WriteKeepsReadiness(api, before, now, updates, at);
    }
    if old(api.Calm()) && updates.Keys !! CREDENTIAL_KEYS {
      LaidKeepsCredentials(old(api.Current()), api.Current(), now, updates);
    }
  }

  // What the keys hold after an undisturbed merge, key by key as the source spells them.

  lemma OneLaid(c: Option<Data>, c': Option<Data>, now: string, key: string, value: string)
    requires Laid(c, c', now, map[key := value])
    ensures Lookup(c', key) == Some(value)
  {
  }

  lemma DetailLaid(c: Option<Data>, c': Option<Data>, now: string, key: string, value: string)
    requires Laid(c, c', now, map[key := value]) && c.Some? && key in {"aks_cluster_fqdn", "aks_provision_state"}
    ensures SameIdentifiers(c, c')
    ensures key == "aks_provision_state" ==> Lookup(c', "aks_cluster_fqdn") == Lookup(c, "aks_cluster_fqdn")
  {
  }

  lemma FailedLaid(c: Option<Data>, c': Option<Data>, now: string, reason: string)
    requires Laid(c, c', now, FailedUpdates(reason))
    ensures Lookup(c', "cluster_provisioning") == Lookup(c', "cluster_provisioned") == Some("false")
    ensures Lookup(c', "aks_provision_state") == Some("Failed")
    ensures reason != "" ==> Lookup(c', "failure_reason") == Some(reason)
    ensures reason == "" ==> Lookup(c', "failure_reason") == Lookup(Some(Base(c, InitialData(now))), "failure_reason")
  {
  }

  lemma ProvisionedLaid(c: Option<Data>, c': Option<Data>, now: string, id: string, name: string, group: string)
    requires Laid(c, c', now, ProvisionedUpdates(id, name, group))
    ensures Lookup(c', "cluster_provisioning") == Some("false") && Lookup(c', "cluster_provisioned") == Some("true")
    ensures Lookup(c', "aks_resource_id") == Some(id) && Lookup(c', "aks_cluster_name") == Some(name)
    ensures Lookup(c', "resource_group_name") == Some(group)
  {
  }

  lemma ReadyLaid(c: Option<Data>, c': Option<Data>, now: string)
    requires Laid(c, c', now, ReadyUpdates(now))
    ensures Lookup(c', "cluster_access") == Lookup(c', "kubernetes_api_ready") == Some("true")
    ensures Lookup(c', "nodepools_ready") == Some("true") && Lookup(c', "ready_at") == Some(now)
  {
  }

  /** A created secret holds the creation time and six flags, all false. */
  lemma InitialHolds(now: string, key: string)
    ensures Lookup(Some(InitialData(now)), "created_at") == Some(now)
    ensures InitialData(now).Keys == {"created_at", "cluster_provisioning", "cluster_provisioned", "nodepools_ready",
                                      "kubernetes_api_ready", "cluster_access", "kubeconfig_present"}
    ensures key in InitialData(now) && key != "created_at" ==> Lookup(Some(InitialData(now)), key) == Some("false")
  {
  }

  lemma FailedIsSound(d: Data, reason: string, m: Milestones, guest: string)
    requires Good(Some(d), m, guest)
    ensures Good(Some(d + FailedUpdates(reason)), m, guest)
  {
    var d' := d + FailedUpdates(reason);
    assert !Flag(d', CLUSTER_PROVISIONING) && !Flag(d', CLUSTER_PROVISIONED);
    forall k | k !in FailedUpdates(reason)
      ensures (k in d' <==> k in d) && (k in d ==> d'[k] == d[k])
    {
    }
  }

  lemma FailedRaises(reason: string, m: Milestones, guest: string)
    ensures Raises(FailedUpdates(reason), m, m, guest)
    ensures FailedUpdates(reason).Keys !! READY_KEYS + CREDENTIAL_KEYS
  {
    forall d: Data | Good(Some(d), m, guest)
      ensures Good(Some(d + FailedUpdates(reason)), m, guest)
    {
      FailedIsSound(d, reason, m, guest);
    }
  }

  method SetClusterFailed(api: ApiServer, journal: Journal, reason: string, now: string,
      ghost m: Milestones, ghost guest: string)
    returns (r: Result<(), Fault>, ghost at: Option<nat>)
    requires Healthy(api, m, guest)
    modifies api, journal
    ensures journal.asked == old(journal.asked) + [FailedUpdates(reason)]
    ensures Wrote(old(api.log), api.log, api.me, now, FailedUpdates(reason), at) && Honest(r, at)
    ensures Healthy(api, m, guest) && SameReadiness(old(api.Current()), api.Current())
    ensures old(api.Calm()) ==> api.Calm() && r.Ok? && SameCredentials(old(api.Current()), api.Current())
    ensures old(api.Calm()) ==>
              Lookup(api.Current(), "cluster_provisioned") == Some("false") &&
              Lookup(api.Current(), "cluster_provisioning") == Some("false")
    ensures old(api.Calm()) ==> Lookup(api.Current(), "aks_provision_state") == Some("Failed")
    ensures old(api.Calm()) && reason != "" ==> Lookup(api.Current(), "failure_reason") == Some(reason)
  {
    FailedRaises(reason, m, guest);
    r, at := Write(api, journal, FailedUpdates(reason), now, m, m, guest);
    if old(api.Calm()) {
      FailedLaid(old(api.Current()), api.Current(), now, reason);
    }
  }

  lemma ProvisionedIsSound(d: Data, id: string, name: string, group: string, m: Milestones, guest: string)
    requires Good(Some(d), m, guest)
    ensures Good(Some(d + ProvisionedUpdates(id, name, group)), m, guest)
  {
    var d' := d + ProvisionedUpdates(id, name, group);
    assert !Flag(d', CLUSTER_PROVISIONING);
    forall k | k !in ProvisionedUpdates(id, name, group)
      ensures (k in d' <==> k in d) && (k in d ==> d'[k] == d[k])
    {
    }
  }

  lemma ProvisionedRaises(id: string, name: string, group: string, m: Milestones, guest: string)
    ensures Raises(ProvisionedUpdates(id, name, group), m, m, guest)
    ensures ProvisionedUpdates(id, name, group).Keys !! READY_KEYS + CREDENTIAL_KEYS
  {
    forall d: Data | Good(Some(d), m, guest)
      ensures Good(Some(d + ProvisionedUpdates(id, name, group)), m, guest)
    {
      ProvisionedIsSound(d, id, name, group, m, guest);
    }
  }

  method SetClusterProvisioned(api: ApiServer, journal: Journal, id: string, name: string, group: string, now: string,
      ghost m: Milestones, ghost guest: string)
    returns (r: Result<(), Fault>, ghost at: Option<nat>)
    requires Healthy(api, m, guest)
    modifies api, journal
    ensures journal.asked == old(journal.asked) + [ProvisionedUpdates(id, name, group)]
    ensures Wrote(old(api.log), api.log, api.me, now, ProvisionedUpdates(id, name, group), at) && Honest(r, at)
    ensures Healthy(api, m, guest) && SameReadiness(old(api.Current()), api.Current())
    ensures old(api.Calm()) ==> api.Calm() && r.Ok? && SameCredentials(old(api.Current()), api.Current())
    ensures old(api.Calm()) ==> Lookup(api.Current(), "cluster_provisioned") == Some("true")
    ensures old(api.Calm()) ==> Lookup(api.Current(), "aks_resource_id") == Some(id)
    ensures old(api.Calm()) ==> Lookup(api.Current(), "aks_cluster_name") == Some(name)
    ensures old(api.Calm()) ==> Lookup(api.Current(), "resource_group_name") == Some(group)
    ensures old(api.Calm()) ==> api.Current().Some?
  {
    ProvisionedRaises(id, name, group, m, guest);
    r, at := Write(api, journal, ProvisionedUpdates(id, name, group), now, m, m, guest);
    if old(api.Calm()) {
      ProvisionedLaid(old(api.Current()), api.Current(), now, id, name, group);
    }
  }

  method SetClusterFQDN(api: ApiServer, journal: Journal, fqdn: string, now: string,
      ghost m: Milestones, ghost guest: string)
    returns (r: Result<(), Fault>, ghost at: Option<nat>)
    requires Healthy(api, m, guest)
    modifies api, journal
    ensures journal.asked == old(journal.asked) + [map[AKS_CLUSTER_FQDN := fqdn]]
    ensures Wrote(old(api.log), api.log, api.me, now, map[AKS_CLUSTER_FQDN := fqdn], at) && Honest(r, at)
    ensures Healthy(api, m, guest) && SameReadiness(old(api.Current()), api.Current())
    ensures old(api.Calm()) ==> api.Calm() && r.Ok? && SameCredentials(old(api.Current()), api.Current())
    ensures old(api.Calm() && api.Current().Some?) ==> SameIdentifiers(old(api.Current()), api.Current())
    ensures old(api.Calm()) ==> api.Current().Some?
    ensures old(api.Calm()) ==> Lookup(api.Current(), "aks_cluster_fqdn") == Some(fqdn)
  {
    r, at := Write(api, journal, map[AKS_CLUSTER_FQDN := fqdn], now, m, m, guest);
    if old(api.Calm()) {
      OneLaid(old(api.Current()), api.Current(), now, "aks_cluster_fqdn", fqdn);
      if old(api.Current()).Some? {
        DetailLaid(old(api.Current()), api.Current(), now, "aks_cluster_fqdn", fqdn);
      }
    }
  }

  method SetAKSProvisionState(api: ApiServer, journal: Journal, state: string, now: string,
      ghost m: Milestones, ghost guest: string)
    returns (r: Result<(), Fault>, ghost at: Option<nat>)
    requires Healthy(api, m, guest)
    modifies api, journal
    ensures journal.asked == old(journal.asked) + [map[AKS_PROVISION_STATE := state]]
    ensures Wrote(old(api.log), api.log, api.me, now, map[AKS_PROVISION_STATE := state], at) && Honest(r, at)
    ensures Healthy(api, m, guest) && SameReadiness(old(api.Current()), api.Current())
    ensures old(api.Calm()) ==> api.Calm() && r.Ok? && SameCredentials(old(api.Current()), api.Current())
    ensures old(api.Calm() && api.Current().Some?) ==> SameIdentifiers(old(api.Current()), api.Current())
    ensures old(api.Calm()) ==> Lookup(api.Current(), "aks_provision_state") == Some(state)
    ensures old(api.Calm() && api.Current().Some?) ==>
              Lookup(api.Current(), "aks_cluster_fqdn") == Lookup(old(api.Current()), "aks_cluster_fqdn")
  {
    r, at := Write(api, journal, map[AKS_PROVISION_STATE := state], now, m, m, guest);
    if old(api.Calm()) {
      OneLaid(old(api.Current()), api.Current(), now, "aks_provision_state", state);
      if old(api.Current()).Some? {
        DetailLaid(old(api.Current()), api.Current(), now, "aks_provision_state", state);
      }
    }
  }

  lemma KubeconfigRaises(kubeconfig: string, m: Milestones, guest: string)
    ensures var u, m' := KubeconfigUpdates(kubeconfig), m.(kubeconfig := true);
            Raises(u, m, m, guest) && Raises(u, m, m', guest) && Raises(u, m', m', guest) && u.Keys !! READY_KEYS
  {
  }

  lemma KubeconfigLaid(c: Option<Data>, c': Option<Data>, now: string, kubeconfig: string)
    requires Laid(c, c', now, KubeconfigUpdates(kubeconfig))
    ensures Has(c', KUBE_CONFIG) == (kubeconfig != "") && Has(c', KUBE_SYSTEM_UID) == Has(c, KUBE_SYSTEM_UID)
    ensures Lookup(c', "kube.config") == Some(kubeconfig) && Lookup(c', "kubeconfig_present") == Some("true")
  {
  }

  method SetKubeconfig(api: ApiServer, journal: Journal, kubeconfig: string, now: string,
      ghost m: Milestones, ghost guest: string)
    returns (r: Result<(), Fault>, ghost at: Option<nat>)
    requires Healthy(api, m, guest)
    modifies api, journal
    ensures journal.asked == old(journal.asked) + [KubeconfigUpdates(kubeconfig)]
    ensures Wrote(old(api.log), api.log, api.me, now, KubeconfigUpdates(kubeconfig), at) && Honest(r, at)
    ensures Healthy(api, m, guest) && SameReadiness(old(api.Current()), api.Current())
    ensures r.Ok? ==> Healthy(api, m.(kubeconfig := true), guest)
    ensures old(api.Calm()) ==> api.Calm() && r.Ok?
    ensures old(api.Calm()) ==> Has(api.Current(), KUBE_CONFIG) == (kubeconfig != "") &&
                                Has(api.Current(), KUBE_SYSTEM_UID) == Has(old(api.Current()), KUBE_SYSTEM_UID)
    ensures old(api.Calm()) ==> Lookup(api.Current(), "kube.config") == Some(kubeconfig)
    ensures old(api.Calm()) ==> Lookup(api.Current(), "kubeconfig_present") == Some("true")
  {
    KubeconfigRaises(kubeconfig, m, guest);
    r, at := Write(api, journal, KubeconfigUpdates(kubeconfig), now, m, m.(kubeconfig := true), guest);
    if old(api.Calm()) {
      KubeconfigLaid(old(api.Current()), api.Current(), now, kubeconfig);
    }
  }

  /** Sound only once the kubeconfig is stored: the caller owes the milestone. */
  method SetKubernetesAPIReady(api: ApiServer, journal: Journal, now: string,
      ghost m: Milestones, ghost guest: string)
    returns (r: Result<(), Fault>, ghost at: Option<nat>)
    requires Healthy(api, m, guest) && m.kubeconfig
    modifies api, journal
    ensures journal.asked == old(journal.asked) + [map[KUBERNETES_API_READY := TRUE]]
    ensures Wrote(old(api.log), api.log, api.me, now, map[KUBERNETES_API_READY := TRUE], at) && Honest(r, at)
    ensures Healthy(api, m, guest)
    ensures old(api.Calm()) ==> api.Calm() && r.Ok? && SameCredentials(old(api.Current()), api.Current())
    ensures old(api.Calm()) ==> Lookup(api.Current(), "kubernetes_api_ready") == Some("true")
  {
    r, at := Write(api, journal, map[KUBERNETES_API_READY := TRUE], now, m, m, guest);
    if old(api.Calm()) {
      OneLaid(old(api.Current()), api.Current(), now, "kubernetes_api_ready", "true");
    }
  }

  method SetClusterReady(api: ApiServer, journal: Journal, now: string,
      ghost m: Milestones, ghost guest: string)
    returns (r: Result<(), Fault>, ghost at: Option<nat>)
    requires Healthy(api, m, guest) && m.kubeconfig
    modifies api, journal
    ensures journal.asked == old(journal.asked) + [ReadyUpdates(now)]
    ensures Wrote(old(api.log), api.log, api.me, now, ReadyUpdates(now), at) && Honest(r, at)
    ensures Healthy(api, m, guest)
    ensures old(api.Calm()) ==> api.Calm() && r.Ok? && SameCredentials(old(api.Current()), api.Current())
    ensures old(api.Calm()) ==> IsReady(api.Current())
    ensures old(api.Calm()) ==>
              Lookup(api.Current(), "cluster_access") == Lookup(api.Current(), "nodepools_ready") == Some("true")
    ensures old(api.Calm()) ==>
              Lookup(api.Current(), "kubernetes_api_ready") == Some("true") &&
              Lookup(api.Current(), "ready_at") == Some(now)
  {
    r, at := Write(api, journal, ReadyUpdates(now), now, m, m, guest);
    if old(api.Calm()) {
      ReadyLaid(old(api.Current()), api.Current(), now);
    }
  }

  method SetKubeSystemUID(api: ApiServer, journal: Journal, uid: string, now: string,
      ghost m: Milestones, ghost guest: string)
    returns (r: Result<(), Fault>, ghost at: Option<nat>)
    requires Healthy(api, m, guest) && uid == guest
    modifies api, journal
    ensures journal.asked == old(journal.asked) + [map[KUBE_SYSTEM_UID := uid]]
    ensures Wrote(old(api.log), api.log, api.me, now, map[KUBE_SYSTEM_UID := uid], at) && Honest(r, at)
    ensures Healthy(api, m, guest) && SameReadiness(old(api.Current()), api.Current())
    ensures r.Ok? ==> Healthy(api, m.(uid := true), guest)
    ensures old(api.Calm()) ==> api.Calm() && r.Ok?
    ensures old(api.Calm()) ==> Has(api.Current(), KUBE_CONFIG) == Has(old(api.Current()), KUBE_CONFIG)
    ensures old(api.Calm()) ==> Lookup(api.Current(), "kube-system-uid") == Some(uid)
  {
    r, at := Write(api, journal, map[KUBE_SYSTEM_UID := uid], now, m, m.(uid := true), guest);
    if old(api.Calm()) {
      OneLaid(old(api.Current()), api.Current(), now, "kube-system-uid", uid);
    }
  }

  /**
   GetOrCreateState with the health argument.  However stale the version it returns, its
   `created_at` is that of the current one, so all callers hold the same.
   */
  method EnsureState(api: ApiServer, now: string, ghost m: Milestones, ghost guest: string)
    returns (r: Result<Secret, Fault>)
    requires Healthy(api, m, guest)
    modifies api
    ensures Healthy(api, m, guest) && SameReadiness(old(api.Current()), api.Current())
    ensures r.Ok? ==> r.value.rv < |api.versions| && api.versions[r.value.rv] == Some(r.value.data)
    ensures r.Ok? ==> CREATED_AT in r.value.data &&
                      Lookup(api.Current(), CREATED_AT) == Some(r.value.data[CREATED_AT])
    ensures old(api.Calm()) ==> api.Calm() && r == Newest(api.versions)
    ensures old(api.Calm()) ==> api.Current() == Some(Base(old(api.Current()), InitialData(now)))
  {
    ghost var before, versions := api.log, api.versions;
    ghost var at;
    r, at := GetOrCreateState(api, now);
    assert forall i :: 0 <= i < |versions| ==> api.versions[i] == versions[i];
    ReadKeepsHealth(api, before, now, at, m, guest);
    if r.Ok? {
      StaysPresent(api.versions, api.log, r.value.rv, |api.log|);
      OneCreatedAt(api, m, guest, r.value.rv, |api.log|);
    }
  }

  /** GetState: the value in some version of the secret, "" when that version has no such key. */
  method GetState(api: ApiServer, key: string, now: string, ghost m: Milestones, ghost guest: string)
    returns (r: Result<string, Fault>)
    requires Healthy(api, m, guest)
    modifies api
    ensures Healthy(api, m, guest) && SameReadiness(old(api.Current()), api.Current())
    ensures r.Ok? && r.value != "" ==>
              exists i :: 0 <= i < |api.versions| && Lookup(api.versions[i], key) == Some(r.value)
    ensures old(api.Calm()) ==> api.Calm() && SameCredentials(old(api.Current()), api.Current())
    ensures old(api.Calm()) ==> r.Ok? && (r.value != "" <==> Has(api.Current(), key))
  {
    var read := EnsureState(api, now, m, guest);
    if read.Err? {
      return Err(read.error);
    }
    var data := read.value.data;
    assert Lookup(api.versions[read.value.rv], key) == Lookup(Some(data), key);
    r := Ok(if key in data then data[key] else "");
  }
}
