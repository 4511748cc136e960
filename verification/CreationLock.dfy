/**
 The per-name creation lock as a state machine: any number of threads in any number of
 processes call GetOrCreateState, look their lock up with LoadOrStore, and hold it from the
 second read to the end of the creation.
 */
module CreationLock {
  type ThreadId = nat

  type LockId = nat

  /** A process has its own lock table; the key within it is the secret's name. */
  datatype Slot = Slot(process: nat, name: string)

  datatype Pc =
    | Outside
    | HasLock(lock: LockId)   // getCreationLock returned, Lock not yet acquired
    | Creating(lock: LockId)  // between Lock and the deferred Unlock

  datatype State = State(
    slot: map<ThreadId, Slot>,
    pc: map<ThreadId, Pc>,
    table: map<Slot, LockId>,
    owner: map<LockId, ThreadId>,
    next: LockId)

  datatype Action =
    | Call(t: ThreadId, s: Slot)
    | LoadOrStore(t: ThreadId)
    | Acquire(t: ThreadId)
    | Release(t: ThreadId)

  const INIT := State(map[], map[], map[], map[], 0)

  function PcOf(s: State, t: ThreadId): Pc {
    if t in s.pc then s.pc[t] else Outside
  }

  predicate Enabled(s: State, a: Action) {
    match a
    case Call(t, _) => PcOf(s, t).Outside?
    case LoadOrStore(t) => PcOf(s, t).Outside? && t in s.slot
    case Acquire(t) => PcOf(s, t).HasLock? && PcOf(s, t).lock !in s.owner
    case Release(t) => PcOf(s, t).Creating?
  }

  function Do(s: State, a: Action): State
    requires Enabled(s, a)
  {
    match a
    case Call(t, slot) => s.(slot := s.slot[t := slot])
    case LoadOrStore(t) =>
      var slot := s.slot[t];
      // A new mutex is allocated on every call and dropped when the table already has one.
      var lock := if slot in s.table then s.table[slot] else s.next;
      s.(pc := s.pc[t := HasLock(lock)], table := s.table[slot := lock], next := s.next + 1)
    case Acquire(t) =>
      var lock := PcOf(s, t).lock;
      s.(pc := s.pc[t := Creating(lock)], owner := s.owner[lock := t])
    case Release(t) =>
      s.(pc := s.pc[t := Outside], owner := s.owner - {PcOf(s, t).lock})
  }

  datatype Run = Start | Then(before: Run, action: Action)

  ghost predicate Legal(run: Run)
    decreases run, 0
  {
    run.Start? || (Legal(run.before) && Enabled(After(run.before), run.action))
  }

  ghost function After(run: Run): State
    requires Legal(run)
    decreases run, 1
  {
    if run.Start? then INIT else Do(After(run.before), run.action)
  }

  ghost predicate Inv(s: State) {
    && (forall t {:trigger PcOf(s, t)} :: !PcOf(s, t).Outside? ==>
          t in s.slot && s.slot[t] in s.table && PcOf(s, t).lock == s.table[s.slot[t]])
    && (forall t {:trigger PcOf(s, t)} :: PcOf(s, t).Creating? ==>
          PcOf(s, t).lock in s.owner && s.owner[PcOf(s, t).lock] == t)
    && (forall l :: l in s.owner ==> PcOf(s, s.owner[l]) == Creating(l))
    && (forall k :: k in s.table ==> s.table[k] < s.next)
    && (forall k, k' :: k in s.table && k' in s.table && s.table[k] == s.table[k'] ==> k == k')
  }

  lemma InvStep(s: State, a: Action)
    requires Inv(s) && Enabled(s, a)
    ensures Inv(Do(s, a))
  {
    var s' := Do(s, a);
    forall t | !PcOf(s', t).Outside?
      ensures t in s'.slot && s'.slot[t] in s'.table && PcOf(s', t).lock == s'.table[s'.slot[t]]
      ensures PcOf(s', t).Creating? ==> PcOf(s', t).lock in s'.owner && s'.owner[PcOf(s', t).lock] == t
    {
      if t != a.t {
        assert PcOf(s', t) == PcOf(s, t);
      } else {
        assert !a.LoadOrStore? ==> !PcOf(s, t).Outside?;
      }
      if a.Release? && PcOf(s, t).Creating? {
        assert s.owner[PcOf(s, a.t).lock] == a.t;
      }
    }
  }

  lemma {:induction false} InvHolds(run: Run)
    requires Legal(run)
    ensures Inv(After(run))
  {
    if run.Then? {
      InvHolds(run.before);
      InvStep(After(run.before), run.action);
    }
  }

  /** In every run at most one thread of a process is creating the secret of a given name. */
  lemma OneCreatorPerName(run: Run, t: ThreadId, t': ThreadId)
    requires Legal(run)
    requires PcOf(After(run), t).Creating? && PcOf(After(run), t').Creating?
    requires t in After(run).slot && t' in After(run).slot && After(run).slot[t] == After(run).slot[t']
    ensures t == t'
  {
    InvHolds(run);
  }

  /** Different names, or different processes, never wait for each other. */
  lemma OtherNamesDoNotBlock(run: Run, t: ThreadId, t': ThreadId)
    requires Legal(run)
    requires PcOf(After(run), t).HasLock? && PcOf(After(run), t').Creating?
    requires PcOf(After(run), t).lock == PcOf(After(run), t').lock
    ensures t in After(run).slot && t' in After(run).slot && After(run).slot[t] == After(run).slot[t']
  {
    InvHolds(run);
  }

  /** A thread that has its lock waits if and only if another one of its process is creating the same name. */
  lemma WaitsIff(run: Run, t: ThreadId)
    requires Legal(run) && PcOf(After(run), t).HasLock?
    ensures var s := After(run);
            !Enabled(s, Acquire(t)) <==>
              exists t' :: PcOf(s, t').Creating? && t in s.slot && t' in s.slot && s.slot[t'] == s.slot[t]
  {
    InvHolds(run);
    var s := After(run);
    var lock := PcOf(s, t).lock;
    if lock in s.owner {
      var t' := s.owner[lock];
      assert PcOf(s, t').Creating? && s.slot[t'] == s.slot[t];
    }
  }
}
