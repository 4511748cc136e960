/**
 The two TTL caches against the listings they stand for.  Calls of other threads happen between
 any two steps of a call (`others`), the clock moves on, and every answer of the client or the
 API server is its own (`client`, `server`).
 */
module Caches {
  import opened Wrappers
  import opened Text

  /** A clock reading for every step; it never goes back. */
  ghost predicate Monotone(clock: nat -> int) {
    forall s, t :: s <= t ==> clock(s) <= clock(t)
  }

  // ---------- VM sizes ----------

  type Listing = seq<Option<string>>  // the names; a size may come without one

  /** The text of a client error; ValidateVMSize looks for "not found" in it. */
  datatype ClientError = ClientError(mentionsNotFound: bool)

  /** One store of the cache: what the client answered in step `asked`, stored in step `step`. */
  datatype Store = Store(location: string, asked: nat, step: nat)

  class VMSizeManager {
    const ttl: int
    const clock: nat -> int
    const client: (nat, string) -> Result<Listing, ClientError>
    const others: nat -> seq<Store>
    var step: nat
    var data: map<string, Listing>
    var expiry: map<string, int>
    ghost var stores: set<Store>          // every store there ever was
    ghost var source: map<string, Store>  // the store that a cached entry comes from
    var asks: nat  // how often this caller asked the client

    /** `s` stored these sizes, which the client answered for the location, for one TTL. */
    ghost predicate Backs(s: Store, location: string, sizes: Listing, expires: int) {
      s.location == location && client(s.asked, location) == Ok(sizes) && expires == clock(s.step) + ttl
    }

    /** Every entry comes from a store. */
    ghost predicate Backed(data: map<string, Listing>, expiry: map<string, int>, source: map<string, Store>) {
      && (forall l :: l in data ==> l in expiry && l in source && Backs(source[l], l, data[l], expiry[l]))
      && (forall l :: l in expiry ==> l in data)
    }

    /** The stores are past ones, and the entries come from them. */
    ghost predicate Recorded(source: map<string, Store>, stores: set<Store>, step: nat) {
      (forall l :: l in source ==> source[l] in stores) && (forall s :: s in stores ==> s.asked <= s.step <= step)
    }

    ghost predicate Valid()
      reads this
    {
      Monotone(clock) && Backed(data, expiry, source) && Recorded(source, stores, step)
    }

    lemma BackedPut(data: map<string, Listing>, expiry: map<string, int>, source: map<string, Store>, s: Store,
                    sizes: Listing, expires: int)
      requires Backed(data, expiry, source) && Backs(s, s.location, sizes, expires)
      ensures Backed(data[s.location := sizes], expiry[s.location := expires], source[s.location := s])
    {
    }

    lemma RecordedPut(source: map<string, Store>, stores: set<Store>, step: nat, s: Store)
      requires Recorded(source, stores, step) && s.asked <= s.step <= step
      ensures Recorded(source[s.location := s], stores + {s}, step)
    {
    }

    constructor (ttl: int, clock: nat -> int, client: (nat, string) -> Result<Listing, ClientError>,
                 others: nat -> seq<Store>)
      requires Monotone(clock)
      ensures Valid() && step == 0
      ensures this.client == client && this.clock == clock && this.ttl == ttl && this.others == others
    {
      this.ttl, this.clock, this.client, this.others := ttl, clock, client, others;
      step, data, expiry, stores, source, asks := 0, map[], map[], {}, map[], 0;
    }

    /** From here on no other thread stores anything. */
    ghost predicate Calm()
      reads this`step
    {
      forall t: nat :: step <= t ==> others(t) == []
    }

    /** set: under the lock, with the expiry counted from now. */
    method Set(location: string, sizes: Listing, asked: nat)
      requires Valid() && asked <= step && client(asked, location) == Ok(sizes)
      modifies this`data, this`expiry, this`stores, this`source
      ensures Valid() && old(stores) <= stores
      ensures data == old(data)[location := sizes]
      ensures expiry == old(expiry)[location := clock(step) + ttl]
    {
      ghost var s := Store(location, asked, step);
      var expires := clock(step) + ttl;
      BackedPut(data, expiry, source, s, sizes, expires);
      RecordedPut(source, stores, step, s);
      data := data[location := sizes];
      expiry := expiry[location := expires];
      stores := stores + {s};
      source := source[location := s];
    }

    /** Other threads' turn: each stores an answer that it got earlier. */
    method Tick()
      requires Valid()
      modifies this`step, this`data, this`expiry, this`stores, this`source
      ensures Valid() && step == old(step) + 1 && old(stores) <= stores
      ensures old(Calm()) ==> Calm() && data == old(data) && expiry == old(expiry)
    {
      var pending := others(step);
      for i := 0 to |pending|
        invariant Valid() && step == old(step) && old(stores) <= stores
        invariant i == 0 ==> data == old(data) && expiry == old(expiry)
      {
        var s := pending[i];
        var answer := client(s.asked, s.location);
        if s.asked <= step && answer.Ok? {
          Set(s.location, answer.value, s.asked);
        }
      }
      step := step + 1;
    }

    /** The client answered this in the meantime. */
    ghost predicate Answered(location: string, answer: Result<Listing, ClientError>, from: nat, to: nat) {
      exists t :: from <= t <= to && client(t, location) == answer
    }

    /** It was stored less than one TTL before some moment in the meantime. */
    ghost predicate Stored(s: Store, location: string, sizes: Listing, from: nat, to: nat)
      reads this`stores
    {
      && s in stores && s.location == location && client(s.asked, location) == Ok(sizes)
      && s.asked <= s.step <= to
      && exists t :: from <= t <= to && clock(s.step) <= clock(t) < clock(s.step) + ttl
    }

    /** What ListVMSizes may return: the client's own answer of this call, or a stored one younger than one TTL. */
    ghost predicate Current(location: string, sizes: Listing, from: nat, to: nat)
      reads this`stores
    {
      Answered(location, Ok(sizes), from, to) || exists s :: Stored(s, location, sizes, from, to)
    }

    lemma FreshIsCurrent(location: string, from: nat)
      requires Valid() && from <= step
      requires location in expiry && location in data && clock(step) < expiry[location]
      ensures Current(location, data[location], from, step)
    {
      assert Backs(source[location], location, data[location], expiry[location]);
      assert Stored(source[location], location, data[location], from, step);
    }

    /** Asks the client and stores its answer. */
    method Refresh(location: string) returns (r: Result<Listing, ClientError>)
      requires Valid()
      modifies this
      ensures Valid() && old(stores) <= stores && asks == old(asks) + 1
      ensures step == old(step) + (if r.Ok? then 2 else 1)
      ensures Answered(location, r, old(step), step)
      ensures r.Ok? ==> location in data && data[location] == r.value
      ensures r.Ok? ==> location in expiry && expiry[location] == clock(step) + ttl
    {
      Tick();
      var asked := step;
      asks := asks + 1;
      r := client(asked, location);
      if r.Ok? {
        Tick();
        Set(location, r.value, asked);
      }
    }

    /** A fresh entry is served without asking the client; otherwise the client's answer is stored. */
    method ListVMSizes(location: string) returns (r: Result<Listing, ClientError>)
      requires Valid()
      modifies this
      ensures Valid() && old(step) < step <= old(step) + 3 && old(stores) <= stores
      ensures r.Ok? ==> Current(location, r.value, old(step), step)
      ensures r.Err? ==> Answered(location, r, old(step), step)
      ensures asks == old(asks) || asks == old(asks) + 1
      ensures asks == old(asks) ==> r.Ok?
      ensures asks != old(asks) && r.Ok? ==> location in data && data[location] == r.value
      ensures asks != old(asks) && r.Ok? ==> location in expiry && expiry[location] == clock(step) + ttl
      ensures old(Calm()) ==>
                (asks == old(asks) <==> location in old(expiry) && clock(old(step) + 1) < old(expiry)[location])
    {
      Tick();
      if location in expiry && clock(step) < expiry[location] {
        FreshIsCurrent(location, old(step));
        r := Ok(data[location]);
      } else {
        r := Refresh(location);
      }
    }

    predicate Lists(sizes: Listing, name: string) {
      exists i :: 0 <= i < |sizes| && sizes[i].Some? && EqualFold(sizes[i].value, name)
    }

    /** None is the error "VM size ... not found in location ...". */
    method GetVMSize(location: string, name: string)
      returns (r: Result<Option<string>, ClientError>, ghost sizes: Listing)
      requires Valid()
      modifies this
      ensures Valid() && old(step) < step <= old(step) + 3
      ensures r.Ok? ==> Current(location, sizes, old(step), step) && (r.value.Some? <==> Lists(sizes, name))
      ensures r.Ok? && r.value.Some? ==> r.value in sizes && EqualFold(r.value.value, name)
      ensures r.Err? ==> Answered(location, Err(r.error), old(step), step)
    {
      var listed := ListVMSizes(location);
      if listed.Err? {
        return Err(listed.error), [];
      }
      sizes := listed.value;
      for i := 0 to |listed.value|
        invariant forall j :: 0 <= j < i ==> !(sizes[j].Some? && EqualFold(sizes[j].value, name))
      {
        if listed.value[i].Some? && EqualFold(listed.value[i].value, name) {
          return Ok(listed.value[i]), sizes;
        }
      }
      return Ok(None), sizes;
    }

    /**
     True only if a current listing has the name.  False without an error means that one lacks it,
     or that the listing failed with a text that mentions "not found": the second test of the
     source does not tell the two apart.
     */
    method ValidateVMSize(location: string, name: string)
      returns (r: Result<bool, ClientError>, ghost listed: Result<Listing, ClientError>)
      requires Valid()
      modifies this
      ensures Valid() && old(step) < step <= old(step) + 3
      ensures listed.Ok? ==> Current(location, listed.value, old(step), step)
      ensures listed.Err? ==> Answered(location, listed, old(step), step)
      ensures r == Ok(true) <==> listed.Ok? && Lists(listed.value, name)
      ensures r == Ok(false) <==> (listed.Ok? && !Lists(listed.value, name)) ||
                                  (listed.Err? && listed.error.mentionsNotFound)
    {
      var found;
      ghost var sizes;
      found, sizes := GetVMSize(location, name);
      if found.Err? {
        listed := Err(found.error);
        r := if found.error.mentionsNotFound then Ok(false) else Err(found.error);
      } else {
        listed := Ok(sizes);
        r := Ok(found.value.Some?);
      }
    }
  }

  /** Answers with an error text that mentions "not found" up to step 3, and lists the size from then on. */
  function FailsFirst(t: nat, name: string): Result<Listing, ClientError> {
    if t < 4 then Err(ClientError(true)) else Ok([Some(name)])
  }

  /**
   The second test at work: a listing that fails with such a text makes a size invalid that every
   listing contains.
   */
  method ErrorHidesSize(client: (nat, string) -> Result<Listing, ClientError>, location: string, name: string)
    returns (before: Result<bool, ClientError>, after: Result<bool, ClientError>)
    requires forall t :: client(t, location) == FailsFirst(t, name)
    ensures before == Ok(false) && after == Ok(true)
  {
    var manager := new VMSizeManager(3600, (t: nat) => t, client, _ => []);
    before := ValidateOnce(manager, location, name);
    for i: nat := 0 to 4
      invariant manager.Valid() && manager.step >= i && manager.client == client
    {
      manager.Tick();
    }
    after := ValidateOnce(manager, location, name);
  }

  method ValidateOnce(manager: VMSizeManager, location: string, name: string) returns (r: Result<bool, ClientError>)
    requires manager.Valid() && forall t :: manager.client(t, location) == FailsFirst(t, name)
    modifies manager
    ensures manager.Valid() && manager.step <= old(manager.step) + 3
    ensures old(manager.step) == 0 ==> r == Ok(false)
    ensures old(manager.step) >= 4 ==> r == Ok(true)
  {
    ghost var listed;
    r, listed := manager.ValidateVMSize(location, name);
    if listed.Ok? {
      assert listed == Ok([Some(name)]);
      assert listed.value[0].Some? && EqualFold(listed.value[0].value, name);
    }
  }

  // ---------- Machine classes ----------

  datatype MachineClass = MachineClass(name: string, enabled: bool, cores: nat)

  ghost predicate UniqueNames(classes: seq<MachineClass>) {
    forall i, j :: 0 <= i < j < |classes| ==> classes[i].name != classes[j].name
  }

  /** What set stores: the last class of each name. */
  function ByName(classes: seq<MachineClass>): map<string, MachineClass> {
    if |classes| == 0 then map[]
    else ByName(classes[..|classes| - 1])[classes[|classes| - 1].name := classes[|classes| - 1]]
  }

  function EnabledOf(classes: seq<MachineClass>): set<MachineClass> {
    set i | 0 <= i < |classes| && classes[i].enabled :: classes[i]
  }

  function EnabledIn(data: map<string, MachineClass>): set<MachineClass> {
    set name | name in data && data[name].enabled :: data[name]
  }

  lemma {:induction false} ByNameHolds(classes: seq<MachineClass>)
    requires UniqueNames(classes)
    ensures forall c :: c in classes <==> c.name in ByName(classes) && ByName(classes)[c.name] == c
    ensures forall name :: name in ByName(classes) ==> ByName(classes)[name].name == name
  {
    if |classes| > 0 {
      var n := |classes| - 1;
      ByNameHolds(classes[..n]);
      assert classes == classes[..n] + [classes[n]];
      assert forall c :: c in classes[..n] ==> c.name != classes[n].name;
    }
  }

  /** With unique names the cached and the fresh path list the same enabled classes of a snapshot. */
  lemma CachedPathAgrees(classes: seq<MachineClass>)
    requires UniqueNames(classes)
    ensures EnabledIn(ByName(classes)) == EnabledOf(classes)
  {
    ByNameHolds(classes);
    forall c
      ensures c in EnabledIn(ByName(classes)) <==> c in EnabledOf(classes)
    {
      if c in EnabledIn(ByName(classes)) {
        assert c in classes;
      }
      if c in EnabledOf(classes) {
        assert c in classes;
      }
    }
  }

  datatype LookupError = ListFailed | NoSuchClass

  class MachineClassMapper {
    const ttl: int
    const clock: nat -> int
    const server: nat -> Option<seq<MachineClass>>  // the answer to a list in step t; None for an error
    const others: nat -> seq<nat>                   // when other threads asked for what they store in step t
    var step: nat
    var data: map<string, MachineClass>
    var expiry: Option<int>                         // None before the first set (the zero time)
    var askedAt: nat                                // when the cached snapshot was listed
    var storedAt: nat                               // when it was stored
    var lists: nat                                  // how often this caller asked the API server

    /** The cache is empty, or holds a snapshot of the server until one TTL after it was stored. */
    ghost predicate Valid()
      reads this
    {
      && Monotone(clock)
      && (expiry.None? ==> data == map[])
      && (expiry.Some? ==> askedAt <= storedAt <= step && server(askedAt).Some? &&
                           data == ByName(server(askedAt).value) && expiry.value == clock(storedAt) + ttl)
    }

    constructor (ttl: int, clock: nat -> int, server: nat -> Option<seq<MachineClass>>, others: nat -> seq<nat>)
      requires Monotone(clock)
      ensures Valid() && step == lists == 0 && expiry.None?
      ensures this.server == server && this.clock == clock && this.ttl == ttl && this.others == others
    {
      this.ttl, this.clock, this.server, this.others := ttl, clock, server, others;
      step, data, expiry, askedAt, storedAt, lists := 0, map[], None, 0, 0, 0;
    }

    /** From here on no other thread stores anything. */
    ghost predicate Calm()
      reads this`step
    {
      forall t: nat :: step <= t ==> others(t) == []
    }

    predicate Fresh()
      reads this
    {
      expiry.Some? && clock(step) <= expiry.value
    }

    /** Other threads' turn: each stores a snapshot that it listed earlier. */
    method Tick()
      requires Valid()
      modifies this`step, this`data, this`expiry, this`askedAt, this`storedAt
      ensures Valid() && step == old(step) + 1 && (old(expiry).Some? ==> expiry.Some?)
      ensures old(Calm()) ==> Calm() && data == old(data) && expiry == old(expiry)
    {
      var pending := others(step);
      for i := 0 to |pending|
        invariant Valid() && step == old(step) && (old(expiry).Some? ==> expiry.Some?)
        invariant i == 0 ==> data == old(data) && expiry == old(expiry)
      {
        if pending[i] <= step && server(pending[i]).Some? {
          Set(server(pending[i]).value, pending[i]);
        }
      }
      step := step + 1;
    }

    method Get(name: string) returns (r: Option<MachineClass>)
      requires Valid()
      modifies this`step, this`data, this`expiry, this`askedAt, this`storedAt
      ensures Valid() && step == old(step) + 1 && (old(expiry).Some? ==> expiry.Some?)
      ensures r == if Fresh() && name in data then Some(data[name]) else None
      ensures old(Calm()) ==> Calm() && data == old(data) && expiry == old(expiry)
    {
      Tick();
      r := if Fresh() && name in data then Some(data[name]) else None;
    }

    method Set(classes: seq<MachineClass>, asked: nat)
      requires Valid() && asked <= step && server(asked) == Some(classes)
      modifies this`data, this`expiry, this`askedAt, this`storedAt
      ensures Valid() && data == ByName(classes) && askedAt == asked && storedAt == step && expiry.Some?
    {
      var byName: map<string, MachineClass> := map[];
      for i := 0 to |classes|
        invariant byName == ByName(classes[..i])
      {
        assert classes[..i + 1][..i] == classes[..i];
        byName := byName[classes[i].name := classes[i]];
      }
      assert classes[..|classes|] == classes;
      data, expiry, askedAt, storedAt := byName, Some(clock(step) + ttl), asked, step;
    }

    /** The enabled classes of the snapshot that is cached afterwards; the server is asked only if none is fresh. */
    method ListMachineClasses() returns (r: Option<set<MachineClass>>)
      requires Valid()
      modifies this
      ensures Valid() && old(step) < step <= old(step) + 3
      ensures r.Some? ==> expiry.Some? &&
                          (UniqueNames(server(askedAt).value) ==> r.value == EnabledOf(server(askedAt).value))
      ensures r.Some? && UniqueNames(server(askedAt).value) ==>
                forall c :: c in r.value <==> c in server(askedAt).value && c.enabled
      ensures lists == old(lists) || lists == old(lists) + 1
      ensures lists == old(lists) ==> r.Some? && step == old(step) + 1 && data != map[] && Fresh()
      ensures lists != old(lists) ==> step == old(step) + (if r.Some? then 3 else 2)
      ensures lists != old(lists) && r.Some? ==> old(step) <= askedAt && storedAt == step
      ensures r.None? ==> exists t :: old(step) <= t <= step && server(t).None?
      ensures old(Calm()) ==> Calm()
      ensures old(Calm()) ==>
                (lists == old(lists) <==>
                   old(data) != map[] && old(expiry).Some? && clock(old(step) + 1) <= old(expiry).value)
      ensures old(Calm()) && lists == old(lists) ==> data == old(data) && expiry == old(expiry)
    {
      Tick();
      if Fresh() && data != map[] {
        if UniqueNames(server(askedAt).value) {
          CachedPathAgrees(server(askedAt).value);
        }
        return Some(EnabledIn(data));
      }
      Tick();
      var asked := step;
      lists := lists + 1;
      var answer := server(asked);
      if answer.None? {
        return None;
      }
      Tick();
      Set(answer.value, asked);
      return Some(EnabledOf(answer.value));
    }

    /**
     A class that is returned comes from a snapshot stored at most one TTL before.  When no other
     thread stores anything, a name is reported missing without asking the server, whatever the
     server would answer, exactly if it is missing from a cache that is fresh and not empty: the
     refresh in between does not refresh.
     */
    method GetMachineClass(name: string) returns (r: Result<MachineClass, LookupError>)
      requires Valid()
      modifies this
      ensures Valid() && old(step) <= step
      ensures r.Ok? ==> server(askedAt).Some? && name in ByName(server(askedAt).value) &&
                        r.value == ByName(server(askedAt).value)[name] && clock(step) <= clock(storedAt) + ttl
      ensures r == Err(ListFailed) ==> exists t :: old(step) <= t <= step && server(t).None?
      ensures r == Err(NoSuchClass) ==> expiry.Some? && (name in data ==> clock(step) > expiry.value)
      ensures old(Calm()) ==>
                (r == Err(NoSuchClass) && lists == old(lists) <==>
                   old(data) != map[] && name !in old(data) && old(expiry).Some? &&
                   clock(old(step) + 2) <= old(expiry).value)
    {
      var cached := Get(name);
      if cached.Some? {
        return Ok(cached.value);
      }
      var listed := ListMachineClasses();
      if listed.None? {
        return Err(ListFailed);
      }
      cached := Get(name);
      r := if cached.Some? then Ok(cached.value) else Err(NoSuchClass);
    }
  }

  /** A class that the server lists from step 4 on is not found after that, because a snapshot from before is fresh. */
  method FreshCacheHidesClass(server: nat -> Option<seq<MachineClass>>, known: MachineClass, added: MachineClass)
    returns (r: Result<MachineClass, LookupError>, asked: nat, step: nat)
    requires known.name != added.name
    requires forall t :: server(t) == Some(if t < 4 then [known] else [known, added])
    ensures r == Err(NoSuchClass) && asked == 1 && step >= 4
  {
    var mapper := new MachineClassMapper(3600, (t: nat) => t, server, _ => []);
    assert mapper.Calm();
    var listed := mapper.ListMachineClasses();
    assert mapper.askedAt <= mapper.step <= 3 && mapper.data == ByName([known]);
    assert known.name in mapper.data && added.name !in mapper.data by {
      assert [known][..0] == [] && ByName([]) == map[];
      assert ByName([known]) == ByName([known][..0])[known.name := known];
    }
    var until := mapper.expiry;
    for i: nat := 0 to 4
      invariant i <= mapper.step <= i + 3 && mapper.Valid() && mapper.Calm() && mapper.lists == 1
      invariant mapper.data == ByName([known]) && mapper.expiry == until
    {
      mapper.Tick();
    }
    r := mapper.GetMachineClass(added.name);
    asked, step := mapper.lists, mapper.step;
  }
}
