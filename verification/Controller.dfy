/**
 The part of a reconcile that follows the Azure calls: what it writes to the state secret
 and to the UID annotation of the custom resource, in the controller's order.
 */
module Controller {
  import opened Wrappers
  import opened StateStore
  import opened SecretLifecycle
  import Lifecycle
  import Status = StatusConditions

  /** The operator's local copy of the custom resource: its version and the UID annotation. */
  datatype Copy = Copy(rv: nat, annotation: Option<string>)

  class ClusterResource {
    const edits: nat -> nat  // versions that others write before call t, none of them touching the annotation
    const fate: nat -> Fate
    var calls: nat
    var annotations: seq<Option<string>>  // the annotation at each resource version

    ghost predicate Valid()
      reads this
    {
      |annotations| > 0
    }

    function Annotation(): Option<string>
      reads this
      requires |annotations| > 0
    {
      annotations[|annotations| - 1]
    }

    predicate IsNewest(copy: Copy)
      reads this
      requires |annotations| > 0
    {
      copy == Copy(|annotations| - 1, Annotation())
    }

    /** Every version's annotation is absent, or is `uid` and that was `stored` in the secret before. */
    ghost predicate Only(uid: string, stored: bool)
      reads this
    {
      forall i :: 0 <= i < |annotations| && annotations[i].Some? ==> annotations[i] == Some(uid) && stored
    }

    /** From here on every call is served, reads are current and nobody else writes. */
    ghost predicate Calm()
      reads this`calls
    {
      forall t: nat :: calls <= t ==> fate(t) == Served(0) && edits(t) == 0
    }

    constructor (edits: nat -> nat, fate: nat -> Fate)
      ensures Valid() && annotations == [None] && this.edits == edits && this.fate == fate
    {
      this.edits, this.fate := edits, fate;
      calls, annotations := 0, [None];
    }

    method Interfere()
      requires Valid()
      modifies this
      ensures Valid() && Annotation() == old(Annotation()) && calls == old(calls) + 1
      ensures |annotations| == old(|annotations|) + edits(old(calls))
      ensures forall uid, stored :: old(Only(uid, stored)) ==> Only(uid, stored)
      ensures old(Calm()) ==> Calm() && annotations == old(annotations)
    {
      var now := Annotation();
      annotations := annotations + seq(edits(calls), _ => now);
      calls := calls + 1;
    }

    /** A cached read: some earlier version. */
    method Fetch() returns (r: Result<Copy, Fault>)
      requires Valid()
      modifies this
      ensures Valid() && Annotation() == old(Annotation()) && calls == old(calls) + 1
      ensures |annotations| == old(|annotations|) + edits(old(calls)) && (r.Err? ==> r.error.Transport?)
      ensures forall uid, stored :: old(Only(uid, stored)) ==> Only(uid, stored)
      ensures r.Ok? ==> exists i :: 0 <= i < |annotations| && r.value == Copy(i, annotations[i])
      ensures old(Calm()) ==> Calm() && annotations == old(annotations)
      ensures old(Calm()) ==> r == Ok(Copy(|annotations| - 1, Annotation()))
    {
      var turn := calls;
      Interfere();
      match fate(turn)
      case Served(back) =>
        var rv := if back < |annotations| then |annotations| - 1 - back else 0;
        r := Ok(Copy(rv, annotations[rv]));
      case Unavailable => r := Err(Transport);
      case LostReply => r := Err(Transport);
    }

    /** Compare-and-swap on the resource version. */
    method Update(copy: Copy) returns (r: Result<Copy, Fault>)
      requires Valid()
      modifies this
      ensures Valid() && calls == old(calls) + 1 && old(|annotations|) + edits(old(calls)) <= |annotations|
      ensures r.Err? ==> r.error.Transport? || (r.error.Conflict? && Annotation() == old(Annotation()))
      ensures r == Err(Conflict) ==> copy.rv != |annotations| - 1
      ensures Annotation() == old(Annotation()) || Annotation() == copy.annotation
      ensures r.Ok? ==> Annotation() == copy.annotation && r.value == Copy(|annotations| - 1, Annotation())
      ensures r.Ok? ==> copy.rv == |annotations| - 2
      ensures old(Calm()) ==> Calm() && (if copy.rv == old(|annotations|) - 1 then r.Ok? else r == Err(Conflict))
      ensures forall uid, stored ::
                old(Only(uid, stored)) && (copy.annotation.Some? ==> copy.annotation == Some(uid) && stored) ==>
                  Only(uid, stored)
    {
      var turn := calls;
      Interfere();
      if fate(turn).Unavailable? {
        return Err(Transport);
      }
      if copy.rv != |annotations| - 1 {
        return Err(Conflict);
      }
      annotations := annotations + [copy.annotation];
      r := if fate(turn).LostReply? then Err(Transport) else Ok(Copy(|annotations| - 1, copy.annotation));
    }
  }

  // ---------- Credentials ----------

  /** A key that some version of a healthy secret holds is still there in the current one. */
  lemma {:induction false} KeyNeverLost(versions: seq<Option<Data>>, log: seq<Entry>, key: string, from: nat, to: nat)
    requires Follows(versions, log) && from <= to <= |log| && NoRemoval(log, 0, |log|)
    requires versions[from].Some? && key in versions[from].value
    ensures versions[to].Some? && key in versions[to].value
  {
    if from < to {
      KeyNeverLost(versions, log, key, from, to - 1);
      assert versions[to - 1 + 1] == Apply(versions[to - 1], log[to - 1]);
    }
  }

  /** The merges asked for so far, with the one for the kubeconfig if there is one to store. */
  function KubeconfigScript(asked: seq<Data>, credentials: Result<Option<string>, ()>, stored: bool): seq<Data> {
    if stored || credentials.Err? || credentials.value.None? then asked
    else asked + [KubeconfigUpdates(credentials.value.value)]
  }

  /** Stores the kubeconfig unless some version of the secret it reads already holds one (`stored`). */
  method FetchAndStoreKubeconfig(api: ApiServer, journal: Journal, credentials: Result<Option<string>, ()>,
                                 now: string, ghost m: Milestones, ghost guest: string)
    returns (r: Result<bool, ()>, stored: bool)
    requires Healthy(api, m, guest)
    modifies api, journal
    ensures Healthy(api, m, guest) && SameReadiness(old(api.Current()), api.Current())
    ensures r == Ok(true) ==> Healthy(api, m.(kubeconfig := true), guest)
    ensures journal.asked == KubeconfigScript(old(journal.asked), credentials, stored)
    ensures r == Ok(true) ==> !stored && credentials.Ok? && credentials.value.Some?
    ensures old(api.Calm()) ==> api.Calm() && stored == Has(old(api.Current()), KUBE_CONFIG)
    ensures old(api.Calm()) ==> (r == Ok(true) <==> !stored && credentials.Ok? && credentials.value.Some?)
    ensures old(api.Calm()) ==> Has(api.Current(), KUBE_SYSTEM_UID) == Has(old(api.Current()), KUBE_SYSTEM_UID)
    ensures old(api.Calm()) ==>
              Has(api.Current(), KUBE_CONFIG) == (stored || (r == Ok(true) && credentials.value.value != ""))
    ensures old(api.Calm()) && r == Ok(true) ==> Lookup(api.Current(), "kube.config") == credentials.value
  {
    stored := false;
    var existing := GetState(api, KUBE_CONFIG, now, m, guest);
    if existing.Ok? && |existing.value| > 0 {
      return Ok(false), true;
    }
    if credentials.Err? {
      return Err(()), stored;
    }
    if credentials.value.None? {
      return Ok(false), stored;
    }
    var saved, _ := SetKubeconfig(api, journal, credentials.value.value, now, m, guest);
    r := if saved.Ok? then Ok(true) else Err(());
  }

  /** The annotation, when present, is the UID that the secret holds. */
  ghost predicate AnnotationAgrees(api: ApiServer, cr: ClusterResource)
    requires |api.versions| > 0 && cr.Valid()
    reads api, cr
  {
    cr.Annotation().Some? ==> Lookup(api.Current(), KUBE_SYSTEM_UID) == cr.Annotation()
  }

  lemma OnlyAgrees(api: ApiServer, cr: ClusterResource, m: Milestones, guest: string)
    requires Healthy(api, m, guest) && cr.Valid() && cr.Only(guest, m.uid)
    ensures AnnotationAgrees(api, cr)
  {
    assert cr.Annotation() == cr.annotations[|cr.annotations| - 1];
  }

  function UidScript(before: seq<Data>, guestAnswer: Result<string, ()>, asked: bool): seq<Data> {
    if asked && guestAnswer.Ok? then before + [map[KUBE_SYSTEM_UID := guestAnswer.value]] else before
  }

  /** A UID read from any version of a healthy secret is the guest's, and the current version has it. */
  lemma UidIsCurrent(api: ApiServer, uid: string, m: Milestones, guest: string)
    requires Healthy(api, m, guest)
    requires exists i :: 0 <= i < |api.versions| && Lookup(api.versions[i], KUBE_SYSTEM_UID) == Some(uid)
    ensures uid == guest && Healthy(api, m.(uid := true), guest)
    ensures Lookup(api.Current(), KUBE_SYSTEM_UID) == Some(guest)
  {
    var i :| 0 <= i < |api.versions| && Lookup(api.versions[i], KUBE_SYSTEM_UID) == Some(uid);
    assert Good(api.versions[i], NOTHING, guest);
    KeyNeverLost(api.versions, api.log, KUBE_SYSTEM_UID, i, |api.log|);
  }

  /** The UID stored in some version of the secret; a failed read counts as none. */
  method GetKubeSystemUID(api: ApiServer, now: string, ghost m: Milestones, ghost guest: string)
    returns (uid: Option<string>, ghost m': Milestones)
    requires Healthy(api, m, guest)
    modifies api
    ensures Healthy(api, m', guest) && SameReadiness(old(api.Current()), api.Current())
    ensures uid.Some? ==> uid == Some(guest) && m' == m.(uid := true)
    ensures uid.None? ==> m' == m
    ensures old(api.Calm()) ==> api.Calm() && SameCredentials(old(api.Current()), api.Current())
    ensures old(api.Calm()) ==> uid.Some? == Has(old(api.Current()), KUBE_SYSTEM_UID)
  {
    var existing := GetState(api, KUBE_SYSTEM_UID, now, m, guest);
    uid, m' := None, m;
    if existing.Ok? && existing.value != "" {
      UidIsCurrent(api, existing.value, m, guest);
      uid, m' := Some(existing.value), m.(uid := true);
    }
  }

  /** The guest's answer goes into the secret, if the secret holds a kubeconfig to ask the guest with. */
  method FetchUIDFromGuest(api: ApiServer, journal: Journal, guestAnswer: Result<string, ()>, now: string,
                           ghost m: Milestones, ghost guest: string)
    returns (asked: bool, r: Result<bool, ()>, ghost m': Milestones)
    requires Healthy(api, m, guest) && guest != "" && (guestAnswer.Ok? ==> guestAnswer.value == guest)
    modifies api, journal
    ensures Healthy(api, m', guest) && SameReadiness(old(api.Current()), api.Current())
    ensures journal.asked == UidScript(old(journal.asked), guestAnswer, asked)
    ensures m' == m.(uid := m.uid || r.Ok?)
    ensures r.Ok? ==> r.value && asked && guestAnswer == Ok(guest)
    ensures old(api.Calm()) ==> api.Calm() && r.Ok? == asked
    ensures old(api.Calm()) ==> asked == (Has(old(api.Current()), KUBE_CONFIG) && guestAnswer.Ok?)
    ensures old(api.Calm()) && asked ==> Has(api.Current(), KUBE_SYSTEM_UID)
    ensures old(api.Calm()) && !asked ==> SameCredentials(old(api.Current()), api.Current())
    ensures old(api.Calm() && Has(api.Current(), KUBE_CONFIG)) ==> Has(api.Current(), KUBE_CONFIG)
  {
    asked, r, m' := false, Err(()), m;
    var kubeconfig := GetState(api, KUBE_CONFIG, now, m, guest);
    if kubeconfig.Err? || |kubeconfig.value| == 0 || guestAnswer.Err? {
      return;
    }
    asked := true;
    var saved, _ := SetKubeSystemUID(api, journal, guestAnswer.value, now, m, guest);
    if saved.Ok? {
      r, m' := Ok(true), m.(uid := true);
    }
  }

  /** No UID is stored, and a kubeconfig that reaches a guest is. */
  predicate UidIsFetched(c: Option<Data>, guestAnswer: Result<string, ()>) {
    !Has(c, KUBE_SYSTEM_UID) && Has(c, KUBE_CONFIG) && guestAnswer.Ok?
  }

  /** Sets the annotation on the copy and writes the copy back. */
  method Annotate(cr: ClusterResource, copy: Copy, uid: string, updated: bool)
    returns (r: Result<bool, ()>, copy': Copy)
    requires cr.Valid()
    modifies cr
    ensures cr.Valid() && copy'.annotation == Some(uid)
    ensures cr.Annotation() == old(cr.Annotation()) || cr.Annotation() == Some(uid)
    ensures r.Ok? ==> r.value == updated && cr.Annotation() == Some(uid) && cr.IsNewest(copy')
    ensures cr.calls == old(cr.calls) + 1
    ensures old(cr.Only(uid, true)) ==> cr.Only(uid, true)
    ensures old(cr.Calm()) ==> cr.Calm() && (copy.rv == old(|cr.annotations|) - 1 ==> r.Ok?)
  {
    copy' := copy.(annotation := Some(uid));
    var written := cr.Update(copy');
    if written.Ok? {
      copy' := written.value;
    }
    r := if written.Ok? then Ok(updated) else Err(());
  }

  /** With a UID in the secret the annotation is repaired, without one both are written. */
  method RepairOrFetchUID(api: ApiServer, journal: Journal, cr: ClusterResource, copy: Copy,
                          guestAnswer: Result<string, ()>, now: string, ghost m: Milestones, ghost guest: string)
    returns (r: Result<bool, ()>, copy': Copy, asked: bool, ghost m': Milestones)
    requires Healthy(api, m, guest) && guest != "" && cr.Valid()
    requires guestAnswer.Ok? ==> guestAnswer.value == guest
    modifies api, journal, cr
    ensures Healthy(api, m', guest) && m' == m.(uid := m'.uid) && (m.uid ==> m'.uid)
    ensures SameReadiness(old(api.Current()), api.Current()) && cr.Valid()
    ensures old(cr.Only(guest, m.uid)) ==> cr.Only(guest, m'.uid)
    ensures cr.Annotation() == old(cr.Annotation()) || (cr.Annotation() == Some(guest) && m'.uid)
    ensures copy'.annotation == copy.annotation || (copy'.annotation == Some(guest) && m'.uid)
    ensures r.Ok? ==> m'.uid && copy'.annotation == Some(guest)
    ensures r.Ok? ==> cr.Annotation() == Some(guest) || copy.annotation == Some(guest)
    ensures journal.asked == UidScript(old(journal.asked), guestAnswer, asked)
    ensures r.Ok? ==> r.value == asked && (asked ==> cr.Annotation() == Some(guest))
    ensures old(cr.calls) <= cr.calls <= old(cr.calls) + 1
    ensures old(api.Calm()) ==> api.Calm() && asked == UidIsFetched(old(api.Current()), guestAnswer)
    ensures old(api.Calm()) ==>
              Has(api.Current(), KUBE_SYSTEM_UID) == (Has(old(api.Current()), KUBE_SYSTEM_UID) || asked)
    ensures old(cr.Calm()) ==> cr.Calm()
    ensures old(api.Calm() && cr.Calm()) && copy.rv == old(|cr.annotations|) - 1 ==>
              r.Ok? == (Has(old(api.Current()), KUBE_SYSTEM_UID) || asked)
    ensures old(api.Calm() && Has(api.Current(), KUBE_CONFIG)) ==> Has(api.Current(), KUBE_CONFIG)
  {
    copy', asked := copy, false;
    var existing;
    existing, m' := GetKubeSystemUID(api, now, m, guest);
    if existing.Some? {
      r := Ok(false);
      if copy.annotation != existing {
        r, copy' := Annotate(cr, copy, existing.value, false);
      }
      return;
    }
    asked, r, m' := FetchUIDFromGuest(api, journal, guestAnswer, now, m', guest);
    if r.Ok? {
      r, copy' := Annotate(cr, copy, guestAnswer.value, true);
    }
  }

  /**
   Secret first, annotation second, and a repair when only the secret has the UID.  An
   error-free call leaves both present and equal, with one exception that the contract pins
   down: when the copy already carries an annotation and the secret a UID, the call
   returns without comparing them (`skipped`), so a wrong annotation stays wrong.
   */
  method FetchAndStoreKubeSystemUID(api: ApiServer, journal: Journal, cr: ClusterResource, copy: Copy,
                                    guestAnswer: Result<string, ()>, now: string,
                                    ghost m: Milestones, ghost guest: string)
    returns (r: Result<bool, ()>, copy': Copy, skipped: bool, asked: bool, ghost m': Milestones)
    requires Healthy(api, m, guest) && guest != "" && cr.Valid()
    requires guestAnswer.Ok? ==> guestAnswer.value == guest
    modifies api, journal, cr
    ensures Healthy(api, m', guest) && m'.kubeconfig == m.kubeconfig && (m.uid ==> m'.uid)
    ensures SameReadiness(old(api.Current()), api.Current()) && cr.Valid()
    ensures old(cr.Only(guest, m.uid)) && (copy.annotation.Some? ==> copy.annotation == Some(guest) && m.uid) ==>
              cr.Only(guest, m'.uid)
    ensures cr.Annotation() == old(cr.Annotation()) || (cr.Annotation() == Some(guest) && m'.uid)
    ensures copy'.annotation == copy.annotation || (copy'.annotation == Some(guest) && m'.uid)
    ensures skipped ==> r.Ok? && copy.annotation.Some? && cr.Annotation() == old(cr.Annotation())
    ensures r.Ok? ==> m'.uid && (skipped || copy'.annotation == Some(guest))
    ensures r.Ok? && old(cr.Annotation()) == copy.annotation ==>
              (cr.Annotation() == Some(guest) <==> !skipped || copy.annotation == Some(guest))
    ensures journal.asked == UidScript(old(journal.asked), guestAnswer, asked)
    ensures r.Ok? ==> r.value == asked && (asked ==> cr.Annotation() == Some(guest))
    ensures old(cr.calls) <= cr.calls <= old(cr.calls) + 1
    ensures old(api.Calm()) ==> api.Calm() && asked == UidIsFetched(old(api.Current()), guestAnswer)
    ensures old(api.Calm()) ==>
              Has(api.Current(), KUBE_SYSTEM_UID) == (Has(old(api.Current()), KUBE_SYSTEM_UID) || asked)
    ensures old(cr.Calm()) ==> cr.Calm()
    ensures old(api.Calm() && cr.Calm()) && copy.rv == old(|cr.annotations|) - 1 ==>
              r.Ok? == (Has(old(api.Current()), KUBE_SYSTEM_UID) || asked)
    ensures old(api.Calm()) ==> (skipped <==> copy.annotation.Some? && Has(old(api.Current()), KUBE_SYSTEM_UID))
    ensures old(api.Calm() && cr.Calm() && cr.IsNewest(copy)) &&
            (Has(old(api.Current()), KUBE_SYSTEM_UID) || UidIsFetched(old(api.Current()), guestAnswer)) ==>
              (cr.Annotation() == Some(guest) <==>
                 copy.annotation.None? || copy.annotation == Some(guest) || !Has(old(api.Current()), KUBE_SYSTEM_UID))
    ensures old(api.Calm() && Has(api.Current(), KUBE_CONFIG)) ==> Has(api.Current(), KUBE_CONFIG)
  {
    copy', skipped, asked, m' := copy, false, false, m;
    var existing: Option<string>;
    if copy.annotation.Some? {
      existing, m' := GetKubeSystemUID(api, now, m', guest);
      if existing.Some? {
        return Ok(false), copy, true, false, m';
      }
    }

    r, copy', asked, m' := RepairOrFetchUID(api, journal, cr, copy, guestAnswer, now, m', guest);
  }

  /** With a wrong annotation, and the UID in the secret, each call succeeds and none repairs it. */
  method WrongAnnotationStays(api: ApiServer, journal: Journal, cr: ClusterResource, wrong: string, n: nat,
                              guestAnswer: Result<string, ()>, now: string, ghost m: Milestones, ghost guest: string)
    requires Healthy(api, m, guest) && guest != "" && cr.Valid() && wrong != guest
    requires guestAnswer.Ok? ==> guestAnswer.value == guest
    requires api.Calm() && cr.Calm() && Has(api.Current(), KUBE_SYSTEM_UID) && cr.Annotation() == Some(wrong)
    modifies api, journal, cr
    ensures api.Valid() && Lookup(api.Current(), KUBE_SYSTEM_UID) == Some(guest)
    ensures cr.Valid() && cr.Annotation() == Some(wrong)
  {
    ghost var m' := m;
    for i := 0 to n
      invariant Healthy(api, m', guest) && api.Calm() && Has(api.Current(), KUBE_SYSTEM_UID)
      invariant cr.Valid() && cr.Calm() && cr.Annotation() == Some(wrong)
    {
      var copy := cr.Fetch();
      var r, copy', skipped, asked;
      r, copy', skipped, asked, m' :=
        FetchAndStoreKubeSystemUID(api, journal, cr, copy.value, guestAnswer, now, m', guest);
      assert r.Ok? && skipped;
    }
    assert Good(api.Current(), m', guest);
  }

  /** Such a state is reached when another client writes the annotation. */
  method WrongAnnotationExample(wrong: string, guest: string, n: nat, now: string)
    returns (stored: Option<string>, annotation: Option<string>)
    requires guest != "" && wrong != guest
    ensures stored == Some(guest) && annotation == Some(wrong)
  {
    var api := new ApiServer(0, _ => [], _ => Served(0));
    var journal := new Journal();
    assert Healthy(api, NOTHING, guest);
    var saved, _ := SetKubeSystemUID(api, journal, guest, now, NOTHING, guest);
    var cr := new ClusterResource(_ => 0, _ => Served(0));
    var edited := cr.Update(Copy(0, Some(wrong)));
    assert Good(api.Current(), NOTHING.(uid := true), guest);
    WrongAnnotationStays(api, journal, cr, wrong, n, Ok(guest), now, NOTHING.(uid := true), guest);
    stored, annotation := Lookup(api.Current(), KUBE_SYSTEM_UID), cr.Annotation();
  }

  // ---------- reconcileCluster ----------

  /** What ReconcileCluster of the AKS manager returned. */
  datatype Answer =
    | Failed(reason: string)
    | NoProperties
    | Cluster(id: Option<string>, fqdn: Option<string>, state: Option<string>)

  /** determinePhaseFromAKS */
  function PhaseOf(state: Option<string>): (Status.Phase, string) {
    match state
    case None => (Status.Provisioning, "Unknown")
    case Some(s) =>
      (if s == "Succeeded" then Status.Ready
       else if s == "Creating" then Status.Creating
       else if s == "Updating" then Status.Updating
       else if s == "Deleting" then Status.Deleting
       else if s == "Failed" then Status.Phase.Failed
       else Status.Provisioning,
       s)
  }

  /** Each settled or moving state of Azure has its own phase, any other one and a missing one count as provisioning. */
  lemma PhaseIff(state: Option<string>)
    ensures PhaseOf(state).0.Ready? <==> state == Some("Succeeded")
    ensures PhaseOf(state).0.Creating? <==> state == Some("Creating")
    ensures PhaseOf(state).0.Updating? <==> state == Some("Updating")
    ensures PhaseOf(state).0.Deleting? <==> state == Some("Deleting")
    ensures PhaseOf(state).0.Failed? <==> state == Some("Failed")
    ensures !PhaseOf(state).0.NoPhase?
    ensures PhaseOf(state).1 == if state.Some? then state.value else "Unknown"
  {
  }

  /** The controller's two tests for a running cluster are one. */
  lemma ReadyIffSucceeded(state: Option<string>)
    ensures PhaseOf(state).0.Ready? <==> state == Some("Succeeded")
    ensures PhaseOf(state).1 == "Succeeded" <==> state == Some("Succeeded")
  {
    assert "Unknown"[0] != "Succeeded"[0];
  }

  datatype Request = Request(spec: Lifecycle.Spec, phase: Status.Phase, answer: Answer,
                             credentials: Result<Option<string>, ()>, guestAnswer: Result<string, ()>, now: string,
                             labelled: bool)  // the resource's annotation has the cluster's Azure ID already

  /** The phase changed, or the cluster is still coming up. */
  predicate NeedsStateUpdate(phase: Status.Phase, q: Request) {
    q.phase != phase || q.phase.NoPhase? || q.phase.Creating? || q.phase.Provisioning?
  }

  /** The cluster is described in the secret by this reconcile. */
  predicate Described(q: Request) {
    q.answer.Cluster? && q.answer.id.Some? && NeedsStateUpdate(PhaseOf(q.answer.state).0, q)
  }

  /** A read cluster with an ID goes undescribed exactly if its phase is settled and the status shows it already. */
  lemma UndescribedIff(q: Request)
    requires q.answer.Cluster? && q.answer.id.Some?
    ensures !Described(q) <==>
              q.phase == PhaseOf(q.answer.state).0 &&
              (q.phase.Ready? || q.phase.Updating? || q.phase.Deleting? || q.phase.Failed?)
  {
    PhaseIff(q.answer.state);
  }

  function DetailScript(asked: seq<Data>, fqdn: Option<string>, state: Option<string>): seq<Data> {
    var named := if fqdn.Some? then asked + [map[AKS_CLUSTER_FQDN := fqdn.value]] else asked;
    if state.Some? then named + [map[AKS_PROVISION_STATE := state.value]] else named
  }

  /** The merges asked for so far, followed by those that describe the Azure cluster, in call order. */
  function AksScript(asked: seq<Data>, q: Request): seq<Data> {
    match q.answer
    case Failed(reason) => asked + [FailedUpdates(reason)]
    case NoProperties => asked
    case Cluster(id, fqdn, state) =>
      if id.None? || !NeedsStateUpdate(PhaseOf(state).0, q) then asked
      else
        var provisioned := asked + [ProvisionedUpdates(id.value, q.spec.clusterId, q.spec.project)];
        DetailScript(provisioned, fqdn, state)
  }

  /** The ready flags follow only right after the kubeconfig was stored. */
  function FlagScript(asked: seq<Data>, q: Request, saved: bool): seq<Data> {
    if saved then asked + [map[KUBERNETES_API_READY := TRUE]] + [ReadyUpdates(q.now)] else asked
  }

  /** And the merges that follow for a running cluster. */
  function CredentialScript(asked: seq<Data>, q: Request, t: Trail): seq<Data> {
    UidScript(FlagScript(KubeconfigScript(asked, q.credentials, t.stored), q, t.saved), q.guestAnswer, t.uidAsked)
  }

  /** The controller's test: the phase is Ready or the state is Succeeded, which ReadyIffSucceeded shows to be one. */
  predicate Running(q: Request) {
    q.answer.Cluster? && (PhaseOf(q.answer.state).0.Ready? || PhaseOf(q.answer.state).1 == "Succeeded")
  }

  lemma RunningIff(q: Request)
    ensures Running(q) <==> q.answer.Cluster? && q.answer.state == Some("Succeeded")
  {
    if q.answer.Cluster? {
      ReadyIffSucceeded(q.answer.state);
    }
  }

  /** The branches a reconcile took: a kubeconfig was found stored, was saved now, the UID was written. */
  datatype Trail = Trail(stored: bool, saved: bool, uidAsked: bool)

  /** The branches a reconcile of a running cluster takes when every call is served. */
  function CalmTrail(q: Request, c: Option<Data>): Trail {
    var stored := Has(c, KUBE_CONFIG);
    var saved := !stored && q.credentials.Ok? && q.credentials.value.Some?;
    var reachable := stored || (saved && q.credentials.value.value != "");
    Trail(stored, saved, !Has(c, KUBE_SYSTEM_UID) && reachable && q.guestAnswer.Ok?)
  }

  /** The secret's UID is in the annotation, or is written to both. */
  predicate UidArrives(q: Request, c: Option<Data>) {
    Has(c, KUBE_SYSTEM_UID) || CalmTrail(q, c).uidAsked
  }

  lemma StaysReady(c: Option<Data>, c': Option<Data>)
    requires c.Some? && SameReadiness(c, c')
    ensures IsReady(c) <==> IsReady(c')
  {
    assert Readiness(c)[0] == Readiness(c')[0] && Readiness(c)[1] == Readiness(c')[1] &&
           Readiness(c)[2] == Readiness(c')[2];
  }

  /** The stored group against the one of getResourceGroupName. */
  lemma StoredGroupIff(spec: Lifecycle.Spec)
    ensures spec.project == Lifecycle.Identity(spec).resourceGroup <==> spec.project != "" || spec.namespace == ""
  {
  }

  /** The FQDN and the provision state, as far as Azure reported them. */
  method WriteDetails(api: ApiServer, journal: Journal, q: Request, ghost m: Milestones, ghost guest: string)
    requires Healthy(api, m, guest) && q.answer.Cluster?
    modifies api, journal
    ensures Healthy(api, m, guest) && SameReadiness(old(api.Current()), api.Current())
    ensures journal.asked == DetailScript(old(journal.asked), q.answer.fqdn, q.answer.state)
    ensures old(api.Calm()) ==> api.Calm() && SameCredentials(old(api.Current()), api.Current())
    ensures old(api.Calm() && api.Current().Some?) ==> SameIdentifiers(old(api.Current()), api.Current())
    ensures old(api.Calm() && api.Current().Some?) && q.answer.fqdn.Some? ==>
              Lookup(api.Current(), "aks_cluster_fqdn") == q.answer.fqdn
    ensures old(api.Calm() && api.Current().Some?) && q.answer.state.Some? ==>
              Lookup(api.Current(), "aks_provision_state") == q.answer.state
  {
    if q.answer.fqdn.Some? {
      var _, _ := SetClusterFQDN(api, journal, q.answer.fqdn.value, q.now, m, guest);
    }
    if q.answer.state.Some? {
      var _, _ := SetAKSProvisionState(api, journal, q.answer.state.value, q.now, m, guest);
    }
  }

  /** updateClusterStatus writes a missing or different cluster ID annotation with the controller's local copy. */
  method AnnotateClusterId(cr: ClusterResource, local: Copy, q: Request, ghost guest: string, ghost stored: bool)
    requires cr.Valid() && cr.Only(guest, stored)
    requires local.annotation.Some? ==> local.annotation == Some(guest) && stored
    modifies cr
    ensures cr.Valid() && cr.Only(guest, stored)
    ensures cr.Annotation() == old(cr.Annotation()) || cr.Annotation() == local.annotation
    ensures cr.calls == old(cr.calls) + (if Described(q) && !q.labelled then 1 else 0)
    ensures old(cr.Calm()) ==> cr.Calm()
  {
    if Described(q) && !q.labelled {
      var _ := cr.Update(local);
    }
  }

  /**
   The writes made when the cluster's phase changed or the cluster is still coming up.  The resource
   group they store is the spec's project, which is the one the cluster manager uses in Azure exactly
   if the project is not empty or the namespace is.
   */
  method WriteAksState(api: ApiServer, journal: Journal, q: Request, ghost m: Milestones, ghost guest: string)
    requires Healthy(api, m, guest) && q.answer.Cluster?
    modifies api, journal
    ensures Healthy(api, m, guest) && SameReadiness(old(api.Current()), api.Current())
    ensures journal.asked == AksScript(old(journal.asked), q)
    ensures old(api.Calm()) ==> api.Calm() && SameCredentials(old(api.Current()), api.Current())
    ensures old(api.Calm()) && Described(q) ==>
              (Lookup(api.Current(), RESOURCE_GROUP_NAME) == Some(Lifecycle.Identity(q.spec).resourceGroup) <==>
                 q.spec.project != "" || q.spec.namespace == "")
    ensures old(api.Current()).Some? ==>
              api.Current().Some? && (IsReady(api.Current()) <==> IsReady(old(api.Current())))
    ensures old(api.Calm()) && Described(q) ==> Lookup(api.Current(), "resource_group_name") == Some(q.spec.project)
    ensures old(api.Calm()) && Described(q) ==> Lookup(api.Current(), "aks_cluster_name") == Some(q.spec.clusterId)
    ensures old(api.Calm()) && Described(q) ==> Lookup(api.Current(), "aks_resource_id") == q.answer.id
    ensures old(api.Calm()) && Described(q) && q.answer.fqdn.Some? ==>
              Lookup(api.Current(), "aks_cluster_fqdn") == q.answer.fqdn
    ensures old(api.Calm()) && Described(q) && q.answer.state.Some? ==>
              Lookup(api.Current(), "aks_provision_state") == q.answer.state
  {
    if !Described(q) {
      return;
    }
    StoredGroupIff(q.spec);
    var _, _ :=
      SetClusterProvisioned(api, journal, q.answer.id.value, q.spec.clusterId, q.spec.project, q.now, m, guest);
    WriteDetails(api, journal, q, m, guest);
    if old(api.Current()).Some? {
      StaysReady(old(api.Current()), api.Current());
    }
  }

  /** A spec with a namespace and no project: the group that the secret names is not the one used in Azure. */
  method WrongGroupExample(namespace: string, clusterId: string, id: string, now: string)
    returns (stored: Option<string>, used: string)
    requires namespace != ""
    ensures stored == Some("") && used == namespace
  {
    var api := new ApiServer(0, _ => [], _ => Served(0));
    var journal := new Journal();
    assert Healthy(api, NOTHING, "");
    var spec := Lifecycle.Spec(namespace, "", clusterId);
    var answer := Cluster(Some(id), None, Some("Succeeded"));
    WriteAksState(api, journal, Request(spec, Status.NoPhase, answer, Err(()), Err(()), now, false), NOTHING, "");
    stored, used := Lookup(api.Current(), RESOURCE_GROUP_NAME), Lifecycle.Identity(spec).resourceGroup;
  }

  /** A failed reconcile of the cluster is recorded as such, a cluster is described. */
  method RecordAnswer(api: ApiServer, journal: Journal, q: Request, ghost m: Milestones, ghost guest: string)
    requires Healthy(api, m, guest)
    modifies api, journal
    ensures Healthy(api, m, guest) && SameReadiness(old(api.Current()), api.Current())
    ensures old(api.Current()).Some? ==>
              api.Current().Some? && (IsReady(api.Current()) <==> IsReady(old(api.Current())))
    ensures journal.asked == AksScript(old(journal.asked), q)
    ensures old(api.Calm()) ==> api.Calm() && SameCredentials(old(api.Current()), api.Current())
  {
    match q.answer
    case Failed(reason) =>
      var _, _ := SetClusterFailed(api, journal, reason, q.now, m, guest);
      if old(api.Current()).Some? {
        StaysReady(old(api.Current()), api.Current());
      }
    case NoProperties =>
    case Cluster(_, _, _) =>
      WriteAksState(api, journal, q, m, guest);
  }

  /** The kubeconfig and the ready flags that follow it in the same reconcile. */
  method StoreKubeconfigAndFlags(api: ApiServer, journal: Journal, q: Request, ghost m: Milestones, ghost guest: string)
    returns (stored: bool, saved: bool, ghost m': Milestones)
    requires Healthy(api, m, guest)
    modifies api, journal
    ensures Healthy(api, m', guest) && m' == if saved then m.(kubeconfig := true) else m
    ensures journal.asked == FlagScript(KubeconfigScript(old(journal.asked), q.credentials, stored), q, saved)
    ensures saved ==> !stored
    ensures !saved ==> SameReadiness(old(api.Current()), api.Current())
    ensures old(api.Calm()) ==> api.Calm() && (saved ==> IsReady(api.Current()))
    ensures old(api.Calm()) ==> stored == CalmTrail(q, old(api.Current())).stored
    ensures old(api.Calm()) ==> saved == CalmTrail(q, old(api.Current())).saved
    ensures old(api.Calm()) ==>
              UidIsFetched(api.Current(), q.guestAnswer) == CalmTrail(q, old(api.Current())).uidAsked &&
              Has(api.Current(), KUBE_SYSTEM_UID) == Has(old(api.Current()), KUBE_SYSTEM_UID)
    ensures old(api.Calm() && api.Current().Some?) ==>
              (IsReady(api.Current()) <==> IsReady(old(api.Current())) || saved)
    ensures old(api.Calm() && Has(api.Current(), KUBE_CONFIG)) ==> Has(api.Current(), KUBE_CONFIG)
  {
    m' := m;
    var fetched;
    fetched, stored := FetchAndStoreKubeconfig(api, journal, q.credentials, q.now, m, guest);
    saved := fetched == Ok(true);
    if saved {
      m' := m.(kubeconfig := true);
      var _, _ := SetKubernetesAPIReady(api, journal, q.now, m', guest);
      var _, _ := SetClusterReady(api, journal, q.now, m', guest);
    }
  }

  /** For a running cluster the kubeconfig, its flags, and the UID. */
  method StoreCredentials(api: ApiServer, journal: Journal, cr: ClusterResource, copy: Copy, q: Request,
                          ghost m: Milestones, ghost guest: string)
    returns (local: Copy, t: Trail, ghost m': Milestones)
    requires Healthy(api, m, guest) && guest != ""
    requires q.guestAnswer.Ok? ==> q.guestAnswer.value == guest
    requires cr.Valid() && cr.Only(guest, m.uid)
    requires copy.annotation.Some? ==> copy.annotation == Some(guest) && m.uid
    modifies api, journal, cr
    ensures Healthy(api, m', guest) && (m.kubeconfig ==> m'.kubeconfig) && (m.uid ==> m'.uid)
    ensures cr.Valid() && cr.Only(guest, m'.uid)
    ensures local.annotation.Some? ==> local.annotation == Some(guest) && m'.uid
    ensures journal.asked == if Running(q) then CredentialScript(old(journal.asked), q, t) else old(journal.asked)
    ensures (t.saved ==> Running(q) && !t.stored) && (!Running(q) ==> !t.stored && !t.uidAsked)
    ensures !t.saved ==> SameReadiness(old(api.Current()), api.Current())
    ensures old(api.Calm()) ==> api.Calm() && (t.saved ==> IsReady(api.Current()))
    ensures old(api.Calm()) && Running(q) ==> t == CalmTrail(q, old(api.Current()))
    ensures old(cr.calls) <= cr.calls <= old(cr.calls) + 1 && (old(cr.Calm()) ==> cr.Calm())
    ensures old(api.Calm() && Has(api.Current(), KUBE_CONFIG)) ==> Has(api.Current(), KUBE_CONFIG)
    ensures old(api.Calm() && cr.Calm() && cr.IsNewest(copy) && UidArrives(q, api.Current())) && Running(q) ==>
              cr.Annotation() == Some(guest) == local.annotation
  {
    local, t, m' := copy, Trail(false, false, false), m;
    if !Running(q) {
      return;
    }
    var stored, saved;
    stored, saved, m' := StoreKubeconfigAndFlags(api, journal, q, m, guest);
    ghost var ready := api.Current();
    var uidStored, skipped, asked;
    uidStored, local, skipped, asked, m' :=
      FetchAndStoreKubeSystemUID(api, journal, cr, copy, q.guestAnswer, q.now, m', guest);
    t := Trail(stored, saved, asked);
    if ready.Some? {
      StaysReady(ready, api.Current());
    }
  }

  /**
   One reconcile asks for its merges in the controller's order, keeps every version of the secret
   sound and the annotation in agreement with it, whichever calls fail.  The readiness keys change
   only when this very reconcile stored the kubeconfig: a reconcile that finds it stored does not set
   flags that an earlier one left out.  In a calm environment the branches are determined, storing the
   kubeconfig makes the secret ready, and a UID that is known or can be fetched ends up in the annotation.
   */
  method ReconcileCluster(api: ApiServer, journal: Journal, cr: ClusterResource, copy: Copy, q: Request,
                          ghost m: Milestones, ghost guest: string)
    returns (t: Trail, ghost m': Milestones)
    requires Healthy(api, m, guest) && guest != ""
    requires q.guestAnswer.Ok? ==> q.guestAnswer.value == guest
    requires cr.Valid() && cr.Only(guest, m.uid)
    requires copy.annotation.Some? ==> copy.annotation == Some(guest) && m.uid
    modifies api, journal, cr
    ensures Healthy(api, m', guest) && (m.kubeconfig ==> m'.kubeconfig) && (m.uid ==> m'.uid)
    ensures cr.Valid() && cr.Only(guest, m'.uid)
    ensures var described := AksScript(old(journal.asked), q);
            journal.asked == if Running(q) then CredentialScript(described, q, t) else described
    ensures (t.saved ==> Running(q) && !t.stored) && (!Running(q) ==> !t.stored && !t.uidAsked)
    ensures !t.saved ==> SameReadiness(old(api.Current()), api.Current())
    ensures old(api.Calm()) && Running(q) ==> t == CalmTrail(q, old(api.Current()))
    ensures var labelling := if Described(q) && !q.labelled then 1 else 0;
            old(cr.calls) + labelling <= cr.calls <= old(cr.calls) + labelling + 1
    ensures old(cr.Calm()) ==> cr.Calm()
    ensures old(api.Calm()) && t.saved ==> IsReady(api.Current())
    ensures old(api.Calm() && api.Current().Some?) && Running(q) ==>
              (IsReady(api.Current()) <==> IsReady(old(api.Current())) || t.saved)
    ensures old(api.Calm() && cr.Calm() && cr.IsNewest(copy) && UidArrives(q, api.Current())) && Running(q) ==>
              cr.Annotation() == Some(guest)
    ensures old(api.Calm()) ==> api.Calm()
    ensures old(api.Calm() && Has(api.Current(), KUBE_CONFIG)) ==> Has(api.Current(), KUBE_CONFIG)
  {
    RecordAnswer(api, journal, q, m, guest);
    ghost var described := api.Current();
    var local;
    local, t, m' := StoreCredentials(api, journal, cr, copy, q, m, guest);
    AnnotateClusterId(cr, local, q, guest, m'.uid);
    if !t.saved && described.Some? {
      StaysReady(described, api.Current());
    }
  }

  /**
   A calm environment does not bring back ready flags that were left out: with a kubeconfig stored and
   the flags missing, no number of reconciles makes the secret ready.
   */
  method FlagsStayMissing(api: ApiServer, journal: Journal, cr: ClusterResource, requests: seq<Request>,
                          ghost m: Milestones, ghost guest: string)
    requires Healthy(api, m, guest) && guest != "" && cr.Valid() && cr.Only(guest, m.uid)
    requires forall i :: 0 <= i < |requests| && requests[i].guestAnswer.Ok? ==> requests[i].guestAnswer.value == guest
    requires api.Calm() && Has(api.Current(), KUBE_CONFIG) && !IsReady(api.Current())
    modifies api, journal, cr
    ensures api.Valid() && Has(api.Current(), KUBE_CONFIG) && !IsReady(api.Current())
  {
    ghost var m' := m;
    for i := 0 to |requests|
      invariant Healthy(api, m', guest) && cr.Valid() && cr.Only(guest, m'.uid)
      invariant api.Calm() && Has(api.Current(), KUBE_CONFIG) && !IsReady(api.Current())
    {
      var copy := cr.Fetch();
      if copy.Ok? {
        ghost var before := api.Current();
        var t;
        t, m' := ReconcileCluster(api, journal, cr, copy.value, requests[i], m', guest);
        StaysReady(before, api.Current());
      }
    }
  }

  /** What a reconcile leaves that stops after storing the kubeconfig. */
  method KubeconfigOnly(kubeconfig: string, now: string, guest: string) returns (api: ApiServer, journal: Journal)
    requires kubeconfig != ""
    ensures fresh(api) && fresh(journal) && Healthy(api, NOTHING.(kubeconfig := true), guest)
    ensures api.Calm() && Has(api.Current(), KUBE_CONFIG) && !IsReady(api.Current())
  {
    api := new ApiServer(0, _ => [], _ => Served(0));
    journal := new Journal();
    assert Healthy(api, NOTHING, guest);
    var _ := EnsureState(api, now, NOTHING, guest);
    ghost var before := api.Current();
    var _, _ := SetKubeconfig(api, journal, kubeconfig, now, NOTHING, guest);
    StaysReady(before, api.Current());
  }

  /** Such a secret exists, and no reconcile completes it. */
  method FlagsMissingExample(kubeconfig: string, requests: seq<Request>, now: string, guest: string)
    returns (stored: bool, ready: bool)
    requires kubeconfig != "" && guest != ""
    requires forall i :: 0 <= i < |requests| && requests[i].guestAnswer.Ok? ==> requests[i].guestAnswer.value == guest
    ensures stored && !ready
  {
    var api, journal := KubeconfigOnly(kubeconfig, now, guest);
    var cr := new ClusterResource(_ => 0, _ => Served(0));
    FlagsStayMissing(api, journal, cr, requests, NOTHING.(kubeconfig := true), guest);
    stored, ready := Has(api.Current(), KUBE_CONFIG), IsReady(api.Current());
  }

  /** Any number of reconciles from a secret that does not exist yet: soundness and agreement throughout. */
  method Run(api: ApiServer, journal: Journal, cr: ClusterResource, requests: seq<Request>, ghost guest: string)
    requires api.Valid() && Benign(api) && api.log == [] && cr.annotations == [None] && guest != ""
    requires forall i :: 0 <= i < |requests| && requests[i].guestAnswer.Ok? ==> requests[i].guestAnswer.value == guest
    modifies api, journal, cr
    ensures forall i :: 0 <= i < |api.versions| && api.versions[i].Some? ==> Sound(api.versions[i].value, guest)
    ensures |api.versions| > 0 && cr.Valid() && AnnotationAgrees(api, cr)
    ensures old(api.Calm() && cr.Calm()) && requests != [] ==> api.Current().Some?
  {
    ghost var m := NOTHING;
    for i := 0 to |requests|
      invariant Healthy(api, m, guest)
      invariant cr.Valid() && cr.Only(guest, m.uid)
      invariant AnnotationAgrees(api, cr)
      invariant old(api.Calm() && cr.Calm()) ==> api.Calm() && cr.Calm() && (i > 0 ==> api.Current().Some?)
    {
      var copy := cr.Fetch();
      if copy.Ok? {
        var _ := EnsureState(api, requests[i].now, m, guest);
        var t;
        t, m := ReconcileCluster(api, journal, cr, copy.value, requests[i], m, guest);
      }
      OnlyAgrees(api, cr, m, guest);
    }
  }
}
