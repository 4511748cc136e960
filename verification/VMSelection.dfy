/**
 Choosing a VM size for a machine class: filter the listing, score, rank, take the best.

 Scores are exact reals, or not a real at all when the class asks for no cores or no memory.
 Ties are ranked in any order (the source's sort is not stable), so everything below holds for
 every ranking by score.
 */
module VMSelection {
  import opened Wrappers
  import opened Text
  import opened NodePools

  /** One entry of Azure's listing; any field may be missing. */
  datatype VMSize = VMSize(name: Option<string>, cores: Option<int>, memoryMB: Option<int>)

  predicate Complete(s: VMSize) {
    s.name.Some? && s.cores.Some? && s.memoryMB.Some?
  }

  const GIB := 1024 * 1024 * 1024

  /** A machine class: cores (an unsigned count), memory in bytes, GPU cores. */
  datatype Requirement = Requirement(cores: nat, memoryBytes: int, gpuCores: nat)

  /** The score divides by both. */
  predicate Divides(q: Requirement) {
    q.cores != 0 && q.memoryBytes != 0
  }

  function RequiredGB(q: Requirement): real {
    q.memoryBytes as real / GIB as real
  }

  function MemoryGB(s: VMSize): real
    requires Complete(s)
  {
    s.memoryMB.value as real / 1024.0
  }

  // ---------- The filter ----------

  predicate MatchesPurpose(vmSizeName: string, purpose: Purpose, hasGpu: bool) {
    var name := Upper(vmSizeName);
    if hasGpu then Contains(name, "STANDARD_N") || Contains(name, "_GPU")
    else
      match purpose
      case GeneralPurpose =>
        (HasPrefix(name, "STANDARD_D") && !Contains(name, "_DC") && !Contains(name, "_ND")) ||
        HasPrefix(name, "STANDARD_A")
      case ComputeOptimized => HasPrefix(name, "STANDARD_F")
      case MemoryOptimized => HasPrefix(name, "STANDARD_E") || HasPrefix(name, "STANDARD_M")
      case Gpu => HasPrefix(name, "STANDARD_N")
      case Burstable => HasPrefix(name, "STANDARD_B")
      case StorageOptimized => HasPrefix(name, "STANDARD_L")
  }

  predicate Eligible(s: VMSize, q: Requirement, purpose: Purpose) {
    && Complete(s)
    && MatchesPurpose(s.name.value, purpose, q.gpuCores > 0)
    && s.cores.value >= q.cores
    && MemoryGB(s) >= RequiredGB(q)
  }

  /** In exact arithmetic the comparison in gigabytes is the one in bytes. */
  lemma MemoryComparedInBytes(s: VMSize, q: Requirement)
    requires Complete(s)
    ensures MemoryGB(s) >= RequiredGB(q) <==> s.memoryMB.value * 1024 * 1024 >= q.memoryBytes
  {
    var mb, b := s.memoryMB.value as real, q.memoryBytes as real;
    assert MemoryGB(s) >= RequiredGB(q) <==> mb * 1048576.0 >= b;
  }

  /** The letter of the size's series in a name of the usual form. */
  predicate Series(vmSizeName: string, letter: char) {
    |vmSizeName| > 9 && Upper(vmSizeName)[..9] == "STANDARD_" && Upper(vmSizeName)[9] == letter
  }

  /**
   Without a GPU requirement the purpose picks the series, in any letter case: D (but not the
   confidential and GPU ones) and A, F, E and M, N, B, L.
   */
  lemma SeriesOfPurpose(vmSizeName: string)
    ensures MatchesPurpose(vmSizeName, ComputeOptimized, false) <==> Series(vmSizeName, 'F')
    ensures MatchesPurpose(vmSizeName, MemoryOptimized, false) <==> Series(vmSizeName, 'E') || Series(vmSizeName, 'M')
    ensures MatchesPurpose(vmSizeName, Gpu, false) <==> Series(vmSizeName, 'N')
    ensures MatchesPurpose(vmSizeName, Burstable, false) <==> Series(vmSizeName, 'B')
    ensures MatchesPurpose(vmSizeName, StorageOptimized, false) <==> Series(vmSizeName, 'L')
    ensures MatchesPurpose(vmSizeName, GeneralPurpose, false) <==>
              Series(vmSizeName, 'A') ||
              (Series(vmSizeName, 'D') && !Contains(Upper(vmSizeName), "_DC") && !Contains(Upper(vmSizeName), "_ND"))
  {
    PrefixIsSeries(vmSizeName, "STANDARD_A");
    PrefixIsSeries(vmSizeName, "STANDARD_B");
    PrefixIsSeries(vmSizeName, "STANDARD_D");
    PrefixIsSeries(vmSizeName, "STANDARD_E");
    PrefixIsSeries(vmSizeName, "STANDARD_F");
    PrefixIsSeries(vmSizeName, "STANDARD_L");
    PrefixIsSeries(vmSizeName, "STANDARD_M");
    PrefixIsSeries(vmSizeName, "STANDARD_N");
  }

  lemma PrefixIsSeries(vmSizeName: string, prefix: string)
    requires |prefix| == 10 && prefix[..9] == "STANDARD_"
    ensures HasPrefix(Upper(vmSizeName), prefix) <==> Series(vmSizeName, prefix[9])
  {
    var name := Upper(vmSizeName);
    if |name| >= 10 {
      assert name[..10] == name[..9] + [name[9]];
      assert prefix == prefix[..9] + [prefix[9]];
    }
  }

  /** With one, the purpose does not matter: a GPU series or a size that says so. */
  lemma GpuOverridesPurpose(vmSizeName: string, purpose: Purpose)
    ensures MatchesPurpose(vmSizeName, purpose, true) <==>
              exists front, back :: Upper(vmSizeName) == front + "STANDARD_N" + back ||
                                    Upper(vmSizeName) == front + "_GPU" + back
  {
    ContainsIff(Upper(vmSizeName), "STANDARD_N");
    ContainsIff(Upper(vmSizeName), "_GPU");
  }

  // ---------- The score ----------

  function SeriesBonus(name: string): real {
    if Contains(name, "_v5") then 0.15
    else if Contains(name, "_v4") then 0.10
    else if Contains(name, "_v3") then 0.05
    else if Contains(name, "_v2") then 0.02
    else 0.0
  }

  function StorageBonus(name: string): real {
    if Contains(name, "s_") || HasSuffix(name, "s") then 0.05 else 0.0
  }

  predicate Promo(name: string) {
    Contains(Lower(name), "promo")
  }

  predicate OldSeries(name: string) {
    HasPrefix(name, "Standard_A") && !Contains(name, "_v")
  }

  function Penalty(name: string): real {
    (if Promo(name) then 0.3 else 0.0) + (if OldSeries(name) then 0.5 else 0.0)
  }

  /** The newest series named takes most off the score. */
  lemma SeriesBonusIff(name: string)
    ensures SeriesBonus(name) == 0.15 <==> Contains(name, "_v5")
    ensures SeriesBonus(name) == 0.10 <==> Contains(name, "_v4") && !Contains(name, "_v5")
    ensures SeriesBonus(name) == 0.05 <==> Contains(name, "_v3") && !Contains(name, "_v5") && !Contains(name, "_v4")
    ensures SeriesBonus(name) == 0.02 <==>
              Contains(name, "_v2") && !Contains(name, "_v5") && !Contains(name, "_v4") && !Contains(name, "_v3")
    ensures SeriesBonus(name) in {0.15, 0.10, 0.05, 0.02, 0.0}
  {
  }

  /** An `s` that ends the name, or a part of it, marks premium storage. */
  lemma StorageBonusIff(name: string)
    ensures StorageBonus(name) == 0.05 <==>
              (exists front :: name == front + "s") || (exists front, back :: name == front + "s_" + back)
    ensures StorageBonus(name) in {0.05, 0.0}
  {
    HasSuffixIff(name, "s");
    ContainsIff(name, "s_");
  }

  /** Promotions cost 0.3 in any letter case, the A series without a version 0.5. */
  lemma PenaltyIff(name: string)
    ensures Penalty(name) in {0.0, 0.3, 0.5, 0.8}
    ensures Penalty(name) == 0.3 || Penalty(name) == 0.8 <==>
              exists front, back :: Lower(name) == front + "promo" + back
    ensures Penalty(name) == 0.5 || Penalty(name) == 0.8 <==>
              (exists rest :: name == "Standard_A" + rest) && !exists front, back :: name == front + "_v" + back
  {
    ContainsIff(Lower(name), "promo");
    ContainsIff(name, "_v");
    HasPrefixIff(name, "Standard_A");
  }

  /** Relative core excess plus relative memory excess. */
  function Excess(s: VMSize, q: Requirement): real
    requires Complete(s) && Divides(q)
  {
    (s.cores.value - q.cores) as real / q.cores as real + (MemoryGB(s) - RequiredGB(q)) / RequiredGB(q)
  }

  /**
   A score as the source's floating point has it: an exact real, or the infinity or NaN that a
   division by zero leaves.  For an eligible size it is the latter exactly if the class asks for
   no cores or no memory.
   */
  datatype Rating = Finite(value: real) | NonFinite

  /** The `<` of the source: false between infinities and NaNs. */
  predicate Below(a: Rating, b: Rating) {
    a.Finite? && b.Finite? && a.value < b.value
  }

  /** calculateScore; lower is better. */
  function Score(s: VMSize, q: Requirement): Rating
    requires Complete(s)
  {
    if !Divides(q) then NonFinite
    else
      var coreExcess := (s.cores.value - q.cores) as real / q.cores as real;
      var memExcess := (MemoryGB(s) - RequiredGB(q)) / RequiredGB(q);
      var score := coreExcess * 0.4 + memExcess * 0.4
                   - SeriesBonus(s.name.value) - StorageBonus(s.name.value) + Penalty(s.name.value);
      Finite(if score > 0.0 then score else 0.0)
  }

  lemma ExcessNonNegative(s: VMSize, q: Requirement, purpose: Purpose)
    requires q.cores > 0 && q.memoryBytes > 0 && Eligible(s, q, purpose)
    ensures Excess(s, q) >= 0.0
  {
    var cores := (s.cores.value - q.cores) as real;
    assert cores / q.cores as real >= 0.0;
    assert (MemoryGB(s) - RequiredGB(q)) / RequiredGB(q) >= 0.0;
  }

  lemma ScoreBounds(s: VMSize, q: Requirement, purpose: Purpose)
    requires q.cores > 0 && q.memoryBytes > 0 && Eligible(s, q, purpose)
    ensures 0.4 * Excess(s, q) - 0.2 <= Score(s, q).value <= 0.4 * Excess(s, q) + Penalty(s.name.value)
  {
    ExcessNonNegative(s, q, purpose);
  }

  /** Of two eligible sizes the one that does not score worse wastes at most so much more. */
  lemma ScoreLimitsExcess(chosen: VMSize, e: VMSize, q: Requirement, purpose: Purpose)
    requires q.cores > 0 && q.memoryBytes > 0 && Eligible(chosen, q, purpose) && Eligible(e, q, purpose)
    requires !Below(Score(e, q), Score(chosen, q))
    ensures Penalty(e.name.value) == 0.0 ==> Excess(chosen, q) <= Excess(e, q) + 0.5
    ensures Excess(chosen, q) <= Excess(e, q) + 2.5
  {
    ScoreBounds(chosen, q, purpose);
    ScoreBounds(e, q, purpose);
  }

  // ---------- Ranking ----------

  datatype Scored = Scored(size: VMSize, score: Rating)

  ghost predicate Ranked(s: seq<Scored>) {
    forall i, j :: 0 <= i < j < |s| ==> !Below(s[j].score, s[i].score)
  }

  /** The scores of one call are all reals or all not. */
  ghost predicate Uniform(s: seq<Scored>, finite: bool) {
    forall c :: c in s ==> c.score.Finite? == finite
  }

  lemma SameUniform(s: seq<Scored>, s': seq<Scored>, finite: bool)
    requires multiset(s) == multiset(s') && Uniform(s, finite)
    ensures Uniform(s', finite)
  {
    forall c | c in s'
      ensures c.score.Finite? == finite
    {
      assert c in multiset(s');
      assert c in multiset(s);
    }
  }

  /** Sorts by score; nothing is promised about equal scores. */
  method SortByScore(candidates: array<Scored>, ghost finite: bool)
    requires Uniform(candidates[..], finite)
    modifies candidates
    ensures multiset(candidates[..]) == old(multiset(candidates[..]))
    ensures Ranked(candidates[..])
  {
    ghost var before := candidates[..];
    var n := 0;
    while n < candidates.Length
      invariant 0 <= n <= candidates.Length
      invariant Ranked(candidates[..n])
      invariant multiset(candidates[..]) == multiset(before)
    {
      SameUniform(before, candidates[..], finite);
      InsertNext(candidates, n, finite);
      n := n + 1;
    }
    assert candidates[..n] == candidates[..];
  }

  method Swap(a: array<Scored>, i: nat, j: nat)
    requires i < j < a.Length
    modifies a
    ensures a[..] == old(a[..])[i := old(a[j])][j := old(a[i])]
    ensures multiset(a[..]) == old(multiset(a[..]))
  {
    a[i], a[j] := a[j], a[i];
  }

  /** Moves entry `n` down to its place among the ranked entries before it. */
  method InsertNext(a: array<Scored>, n: nat, ghost finite: bool)
    requires n < a.Length && Ranked(a[..n]) && Uniform(a[..], finite)
    modifies a
    ensures Ranked(a[..n + 1])
    ensures multiset(a[..]) == old(multiset(a[..]))
  {
    var k := n;
    while k > 0 && Below(a[k].score, a[k - 1].score)
      invariant 0 <= k <= n
      invariant forall i, j :: 0 <= i < j <= n && j != k ==> !Below(a[..][j].score, a[..][i].score)
      invariant forall i :: 0 <= i < a.Length ==> a[..][i].score.Finite? == finite
      invariant multiset(a[..]) == old(multiset(a[..]))
    {
      Swap(a, k - 1, k);
      k := k - 1;
    }
  }

  // ---------- The mapper ----------

  /** The eligible entries of the listing with their scores, in listing order. */
  function Candidates(listing: seq<VMSize>, q: Requirement, purpose: Purpose): seq<Scored> {
    if |listing| == 0 then []
    else
      var s := listing[|listing| - 1];
      Candidates(listing[..|listing| - 1], q, purpose) +
      (if Eligible(s, q, purpose) then [Scored(s, Score(s, q))] else [])
  }

  lemma {:induction false} CandidatesAreTheEligible(listing: seq<VMSize>, q: Requirement, purpose: Purpose)
    ensures forall c :: c in Candidates(listing, q, purpose) <==>
                          c.size in listing && Eligible(c.size, q, purpose) && c.score == Score(c.size, q)
    ensures forall s :: s in listing && Eligible(s, q, purpose) ==>
                          Scored(s, Score(s, q)) in Candidates(listing, q, purpose)
  {
    if |listing| > 0 {
      var n := |listing| - 1;
      CandidatesAreTheEligible(listing[..n], q, purpose);
      assert listing == listing[..n] + [listing[n]];
    }
  }

  /** The best and the next at most three of the candidates, none of the others being better. */
  ghost predicate OptimalChoice(returned: seq<Scored>, candidates: seq<Scored>) {
    && |returned| == (if |candidates| < 4 then |candidates| else 4)
    && multiset(returned) <= multiset(candidates)
    && Ranked(returned)
    && forall c, r :: c in multiset(candidates) - multiset(returned) && r in returned ==> !Below(c.score, r.score)
  }

  lemma TopIsNoWorse(ranked: seq<Scored>, n: nat)
    requires Ranked(ranked) && n <= |ranked|
    ensures forall r, c :: r in ranked[..n] && c in ranked[n..] ==> !Below(c.score, r.score)
  {
    forall r, c | r in ranked[..n] && c in ranked[n..]
      ensures !Below(c.score, r.score)
    {
      var i :| 0 <= i < n && ranked[i] == r;
      var j :| n <= j < |ranked| && ranked[j] == c;
    }
  }

  lemma TopOfRanking(ranked: seq<Scored>, candidates: seq<Scored>, n: nat)
    requires multiset(ranked) == multiset(candidates) && Ranked(ranked)
    requires n == if |ranked| < 4 then |ranked| else 4
    ensures OptimalChoice(ranked[..n], candidates)
  {
    var top, rest := ranked[..n], ranked[n..];
    assert |ranked| == |multiset(ranked)| == |multiset(candidates)| == |candidates|;
    assert ranked == top + rest;
    assert multiset(candidates) == multiset(top) + multiset(rest);
    TopIsNoWorse(ranked, n);
    assert forall c :: c in multiset(candidates) - multiset(top) ==> c in rest;
  }

  /** The first of an optimal choice has the least score of all candidates. */
  lemma FirstIsBest(returned: seq<Scored>, candidates: seq<Scored>)
    requires OptimalChoice(returned, candidates) && |candidates| > 0
    ensures returned[0] in candidates && forall c :: c in candidates ==> !Below(c.score, returned[0].score)
  {
    assert returned[0] in multiset(returned);
    assert returned[0] in multiset(candidates);
    forall c | c in candidates
      ensures !Below(c.score, returned[0].score)
    {
      assert c in multiset(candidates);
      if c in returned {
        var i :| 0 <= i < |returned| && returned[i] == c;
      } else {
        assert c in multiset(candidates) - multiset(returned);
      }
    }
  }

  /** Listed, eligible, and no eligible listed size scores better. */
  ghost predicate BestOf(best: VMSize, listing: seq<VMSize>, q: Requirement, purpose: Purpose) {
    && best in listing
    && Eligible(best, q, purpose)
    && forall s :: s in listing && Eligible(s, q, purpose) ==> !Below(Score(s, q), Score(best, q))
  }

  /**
   MapMachineClassSpecToVMSize after the listing was read: the chosen size and then the
   alternatives.  The empty result is the static fallback, taken exactly when no listed size is
   eligible.
   */
  method MapMachineClassSpecToVMSize(listing: seq<VMSize>, q: Requirement, purpose: Purpose)
    returns (returned: seq<Scored>)
    ensures OptimalChoice(returned, Candidates(listing, q, purpose))
    ensures returned == [] <==> forall s :: s in listing ==> !Eligible(s, q, purpose)
    ensures returned != [] ==> BestOf(returned[0].size, listing, q, purpose)
  {
    var found: seq<Scored> := [];
    for i := 0 to |listing|
      invariant found == Candidates(listing[..i], q, purpose)
    {
      assert listing[..i + 1][..i] == listing[..i];
      var s := listing[i];
      if Complete(s) && MatchesPurpose(s.name.value, purpose, q.gpuCores > 0) &&
         s.cores.value >= q.cores && MemoryGB(s) >= RequiredGB(q) {
        found := found + [Scored(s, Score(s, q))];
      }
    }
    assert listing[..|listing|] == listing;
    CandidatesAreTheEligible(listing, q, purpose);
    returned := RankAndCut(found, Divides(q));
    ChoiceMeansBest(returned, listing, q, purpose);
  }

  lemma ChoiceMeansBest(returned: seq<Scored>, listing: seq<VMSize>, q: Requirement, purpose: Purpose)
    requires OptimalChoice(returned, Candidates(listing, q, purpose))
    ensures returned == [] <==> forall s :: s in listing ==> !Eligible(s, q, purpose)
    ensures returned != [] ==> BestOf(returned[0].size, listing, q, purpose)
  {
    var candidates := Candidates(listing, q, purpose);
    CandidatesAreTheEligible(listing, q, purpose);
    if |candidates| > 0 {
      assert candidates[0] in candidates;
      FirstIsBest(returned, candidates);
    }
  }

  /** Sorts the candidates in place and keeps the best and the next three. */
  method RankAndCut(found: seq<Scored>, ghost finite: bool) returns (returned: seq<Scored>)
    requires Uniform(found, finite)
    ensures OptimalChoice(returned, found)
  {
    if |found| == 0 {
      return [];
    }
    var candidates := new Scored[|found|](i requires 0 <= i < |found| => found[i]);
    assert candidates[..] == found;
    SortByScore(candidates, finite);
    returned := [candidates[0]];
    var i := 1;
    while i < candidates.Length && i <= 3
      invariant 1 <= i <= candidates.Length && i <= 4
      invariant returned == candidates[..i]
    {
      returned := returned + [candidates[i]];
      i := i + 1;
    }
    TopOfRanking(candidates[..], found, i);
  }

  /**
   Over-provisioning bound: the chosen size wastes at most half a requirement more than any eligible
   listed size without penalties, and at most five halves more than any eligible listed size at all.
   */
  lemma OverProvisioningBound(chosen: VMSize, listing: seq<VMSize>, q: Requirement, purpose: Purpose, e: VMSize)
    requires q.cores > 0 && q.memoryBytes > 0
    requires BestOf(chosen, listing, q, purpose) && e in listing && Eligible(e, q, purpose)
    ensures Penalty(e.name.value) == 0.0 ==> Excess(chosen, q) <= Excess(e, q) + 0.5
    ensures Excess(chosen, q) <= Excess(e, q) + 2.5
  {
    ScoreLimitsExcess(chosen, e, q, purpose);
  }

  /** Entry `i` first and the others behind it. */
  function Foremost(s: seq<Scored>, i: nat): seq<Scored>
    requires i < |s|
  {
    [s[i]] + s[..i] + s[i + 1..]
  }

  /**
   A class without cores or memory ranks nothing: every eligible listed size is first in some
   outcome that the sort allows.
   */
  lemma ZeroRequirementAllowsAny(listing: seq<VMSize>, q: Requirement, purpose: Purpose, s: VMSize)
    returns (returned: seq<Scored>)
    requires !Divides(q) && s in listing && Eligible(s, q, purpose)
    ensures OptimalChoice(returned, Candidates(listing, q, purpose)) && |returned| > 0 && returned[0].size == s
  {
    var candidates := Candidates(listing, q, purpose);
    CandidatesAreTheEligible(listing, q, purpose);
    var i :| 0 <= i < |candidates| && candidates[i] == Scored(s, NonFinite);
    var ranked := Foremost(candidates, i);
    assert candidates == candidates[..i] + [candidates[i]] + candidates[i + 1..];
    assert multiset(ranked) == multiset(candidates);
    AllUnordered(candidates, ranked);
    var n := if |ranked| < 4 then |ranked| else 4;
    TopOfRanking(ranked, candidates, n);
    returned := ranked[..n];
  }

  lemma AllUnordered(candidates: seq<Scored>, ranked: seq<Scored>)
    requires Uniform(candidates, false) && multiset(ranked) == multiset(candidates)
    ensures Ranked(ranked)
  {
    SameUniform(candidates, ranked, false);
    forall i, j | 0 <= i < j < |ranked|
      ensures !Below(ranked[j].score, ranked[i].score)
    {
      assert ranked[i] in ranked;
    }
  }

  // ---------- The bounds are tight ----------

  lemma Lacks(s: string, part: string, k: nat)
    requires k < |part| && forall i :: 0 <= i < |s| ==> s[i] != part[k]
    ensures !Contains(s, part)
  {
    forall i | 0 <= i <= |s| - |part|
      ensures s[i..][..|part|] != part
    {
      assert s[i..][..|part|][k] == s[i + k];
    }
  }

  lemma Has(s: string, part: string, i: nat)
    requires i + |part| <= |s| && s[i..i + |part|] == part
    ensures Contains(s, part)
  {
    assert s[i..][..|part|] == s[i..i + |part|];
  }

  const TWO_BY_TWO := Requirement(2, 2 * GIB, 0)

  const PLAIN := "Standard_F2"
  const ROOMY := "Standard_F2s_v5"
  const PENALIZED := "Standard_A2_Promo"
  const OVERSIZED := "Standard_A2s_v5"

  lemma PlainTraits()
    ensures MatchesPurpose(PLAIN, ComputeOptimized, false)
    ensures SeriesBonus(PLAIN) == 0.0 && StorageBonus(PLAIN) == 0.0 && Penalty(PLAIN) == 0.0
  {
    assert Upper(PLAIN)[..10] == "STANDARD_F";
    Lacks(PLAIN, "_v5", 1);
    Lacks(PLAIN, "_v4", 1);
    Lacks(PLAIN, "_v3", 1);
    Lacks(PLAIN, "_v2", 1);
    Lacks(PLAIN, "s_", 0);
    Lacks(Lower(PLAIN), "promo", 0);
    assert PLAIN[..10][9] != "Standard_A"[9];
  }

  lemma RoomyTraits()
    ensures MatchesPurpose(ROOMY, ComputeOptimized, false)
    ensures SeriesBonus(ROOMY) == 0.15 && StorageBonus(ROOMY) == 0.05 && Penalty(ROOMY) == 0.0
  {
    assert HasPrefix(Upper(ROOMY), "STANDARD_F") by {
      assert Upper(ROOMY)[..10] == "STANDARD_F";
    }
    assert Contains(ROOMY, "_v5") by {
      Has(ROOMY, "_v5", 12);
    }
    assert Contains(ROOMY, "s_") by {
      Has(ROOMY, "s_", 11);
    }
    Lacks(Lower(ROOMY), "promo", 0);
    assert ROOMY[..10][9] != "Standard_A"[9];
  }

  lemma PenalizedTraits()
    ensures MatchesPurpose(PENALIZED, GeneralPurpose, false)
    ensures SeriesBonus(PENALIZED) == 0.0 && StorageBonus(PENALIZED) == 0.0 && Penalty(PENALIZED) == 0.8
  {
    assert Upper(PENALIZED)[..10] == "STANDARD_A";
    Lacks(PENALIZED, "_v5", 1);
    Lacks(PENALIZED, "_v4", 1);
    Lacks(PENALIZED, "_v3", 1);
    Lacks(PENALIZED, "_v2", 1);
    Lacks(PENALIZED, "_v", 1);
    Lacks(PENALIZED, "s_", 0);
    var name := Lower(PENALIZED);
    assert name[12] == 'p' && name[13] == 'r' && name[14] == 'o' && name[15] == 'm' && name[16] == 'o';
    assert name[12..17] == "promo";
    Has(name, "promo", 12);
  }

  lemma OversizedMatches()
    ensures MatchesPurpose(OVERSIZED, GeneralPurpose, false)
  {
    assert Upper(OVERSIZED)[..10] == "STANDARD_A";
  }

  lemma OversizedBonus()
    ensures SeriesBonus(OVERSIZED) == 0.15 && StorageBonus(OVERSIZED) == 0.05
  {
    Has(OVERSIZED, "_v5", 12);
    Has(OVERSIZED, "s_", 11);
  }

  lemma OversizedPenalty()
    ensures Penalty(OVERSIZED) == 0.0
  {
    Has(OVERSIZED, "_v", 12);
    Lacks(Lower(OVERSIZED), "promo", 0);
  }

  /** A two-core size with `mb` megabytes. */
  function TwoCores(name: string, mb: int): VMSize {
    VMSize(Some(name), Some(2), Some(mb))
  }

  lemma MemoryExcess(name: string, mb: int)
    requires mb >= 2048
    ensures MemoryGB(TwoCores(name, mb)) >= RequiredGB(TWO_BY_TWO)
    ensures Excess(TwoCores(name, mb), TWO_BY_TWO) == (mb - 2048) as real / 2048.0
  {
    assert RequiredGB(TWO_BY_TWO) == 2.0;
  }

  lemma PlainScore()
    ensures var e := TwoCores(PLAIN, 2048);
            Eligible(e, TWO_BY_TWO, ComputeOptimized) && Excess(e, TWO_BY_TWO) == 0.0 &&
            Score(e, TWO_BY_TWO) == Finite(0.0) && Penalty(PLAIN) == 0.0
  {
    PlainTraits();
    MemoryExcess(PLAIN, 2048);
  }

  lemma RoomyScore()
    ensures var c := TwoCores(ROOMY, 3072);
            Eligible(c, TWO_BY_TWO, ComputeOptimized) && Excess(c, TWO_BY_TWO) == 0.5 &&
            Score(c, TWO_BY_TWO) == Finite(0.0)
  {
    RoomyTraits();
    MemoryExcess(ROOMY, 3072);
  }

  lemma PenalizedScore()
    ensures var e := TwoCores(PENALIZED, 2048);
            Eligible(e, TWO_BY_TWO, GeneralPurpose) && Excess(e, TWO_BY_TWO) == 0.0 &&
            Score(e, TWO_BY_TWO) == Finite(0.8)
  {
    PenalizedTraits();
    MemoryExcess(PENALIZED, 2048);
  }

  lemma OversizedScore()
    ensures var c := TwoCores(OVERSIZED, 7168);
            Eligible(c, TWO_BY_TWO, GeneralPurpose) && Excess(c, TWO_BY_TWO) == 2.5 &&
            Score(c, TWO_BY_TWO) == Finite(0.8)
  {
    OversizedMatches();
    OversizedBonus();
    OversizedPenalty();
    MemoryExcess(OVERSIZED, 7168);
  }

  /** An exact fit can lose to a size with half as much again: both score 0 and either may be chosen. */
  lemma HalfIsReached()
    ensures Penalty(PLAIN) == 0.0
    ensures var c, e := TwoCores(ROOMY, 3072), TwoCores(PLAIN, 2048);
            Excess(c, TWO_BY_TWO) == Excess(e, TWO_BY_TWO) + 0.5 &&
            OptimalChoice([Scored(c, Finite(0.0)), Scored(e, Finite(0.0))],
                          Candidates([e, c], TWO_BY_TWO, ComputeOptimized))
  {
    PlainScore();
    RoomyScore();
    TwoCandidates(TwoCores(PLAIN, 2048), TwoCores(ROOMY, 3072), TWO_BY_TWO, ComputeOptimized);
    EitherOfTwo(Scored(TwoCores(ROOMY, 3072), Finite(0.0)), Scored(TwoCores(PLAIN, 2048), Finite(0.0)));
  }

  /** With both penalties an exact fit can lose to a size with three and a half times the memory. */
  lemma FiveHalvesIsReached()
    ensures var c, e := TwoCores(OVERSIZED, 7168), TwoCores(PENALIZED, 2048);
            Excess(c, TWO_BY_TWO) == Excess(e, TWO_BY_TWO) + 2.5 &&
            OptimalChoice([Scored(c, Finite(0.8)), Scored(e, Finite(0.8))],
                          Candidates([e, c], TWO_BY_TWO, GeneralPurpose))
  {
    PenalizedScore();
    OversizedScore();
    TwoCandidates(TwoCores(PENALIZED, 2048), TwoCores(OVERSIZED, 7168), TWO_BY_TWO, GeneralPurpose);
    EitherOfTwo(Scored(TwoCores(OVERSIZED, 7168), Finite(0.8)), Scored(TwoCores(PENALIZED, 2048), Finite(0.8)));
  }

  lemma TwoCandidates(a: VMSize, b: VMSize, q: Requirement, purpose: Purpose)
    requires Eligible(a, q, purpose) && Eligible(b, q, purpose)
    ensures Candidates([a, b], q, purpose) == [Scored(a, Score(a, q)), Scored(b, Score(b, q))]
  {
    assert [a, b][..1] == [a] && [a][..0] == [];
    assert Candidates([], q, purpose) == [];
    assert Candidates([a], q, purpose) == [Scored(a, Score(a, q))];
  }

  lemma EitherOfTwo(c: Scored, e: Scored)
    requires c.score == e.score
    ensures OptimalChoice([c, e], [e, c])
  {
    assert multiset([c, e]) == multiset([e, c]);
  }
}
