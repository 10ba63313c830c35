/**
 Failure domains, the topology predicate that assigns a source MachineSet to one of them, and the
 source-to-destination mapping: resolution at preflight and immutability afterwards.
 */
module FailureDomains {

  datatype Option<+T> = None | Some(value: T)

  datatype FailureDomain = FailureDomain(
    name: string, server: string, datacenter: string, computeCluster: string, resourcePool: string)

  datatype Workspace = Workspace(server: string, datacenter: string, pool: string)

  datatype Pair = Pair(source: string, destination: string)

  // ----- Topology -----

  /** An empty pool means the compute cluster's root pool; with neither set the pool is undetermined. */
  function EffectivePool(fd: FailureDomain): string {
    if fd.resourcePool != "" then fd.resourcePool
    else if fd.computeCluster != "" then fd.computeCluster + "/Resources"
    else ""
  }

  predicate Matches(ws: Workspace, fd: FailureDomain) {
    && ws.datacenter == fd.datacenter
    && (EffectivePool(fd) == "" || ws.pool == EffectivePool(fd))
  }

  /** A workspace falls into a failure domain by datacenter and, where one is determined, by its whole pool path. */
  lemma MatchesByPool(ws: Workspace, fd: FailureDomain)
    ensures fd.resourcePool != "" ==> (Matches(ws, fd) <==> ws.datacenter == fd.datacenter && ws.pool == fd.resourcePool)
    ensures fd.resourcePool == "" && fd.computeCluster != "" ==>
              (Matches(ws, fd) <==> ws.datacenter == fd.datacenter && ws.pool == fd.computeCluster + "/Resources")
    ensures fd.resourcePool == "" && fd.computeCluster == "" ==> (Matches(ws, fd) <==> ws.datacenter == fd.datacenter)
  {
  }

  predicate TopologiesOverlap(a: FailureDomain, b: FailureDomain) {
    && a.datacenter == b.datacenter
    && (EffectivePool(a) == "" || EffectivePool(b) == "" || EffectivePool(a) == EffectivePool(b))
  }

  ghost predicate AtMostOneMatch(ws: Workspace, fds: seq<FailureDomain>) {
    forall i, j | 0 <= i < j < |fds| :: !(Matches(ws, fds[i]) && Matches(ws, fds[j]))
  }

  lemma OverlapHasWitness(a: FailureDomain, b: FailureDomain)
    requires TopologiesOverlap(a, b)
    ensures exists ws :: Matches(ws, a) && Matches(ws, b)
  {
    var pool := if EffectivePool(a) == "" then EffectivePool(b) else EffectivePool(a);
    var ws := Workspace("", a.datacenter, pool);
    assert Matches(ws, a) && Matches(ws, b);
  }

  /** The disjointness check is exact: it passes if and only if no workspace can match two failure domains. */
  method ValidateTopologyDisjoint(fds: seq<FailureDomain>) returns (ok: bool)
    ensures ok <==> forall ws :: AtMostOneMatch(ws, fds)
  {
    for i := 0 to |fds|
      invariant forall p, q | 0 <= p < i && p < q < |fds| :: !TopologiesOverlap(fds[p], fds[q])
    {
      for j := i + 1 to |fds|
        invariant forall q | i < q < j :: !TopologiesOverlap(fds[i], fds[q])
      {
        if TopologiesOverlap(fds[i], fds[j]) {
          OverlapHasWitness(fds[i], fds[j]);
          ghost var ws :| Matches(ws, fds[i]) && Matches(ws, fds[j]);
          assert !AtMostOneMatch(ws, fds);
          return false;
        }
      }
    }
    return true;
  }

  // ----- Finding by name -----

  function FindByName(fds: seq<FailureDomain>, name: string): (r: Option<FailureDomain>)
    ensures r.Some? ==> r.value in fds && r.value.name == name
    ensures r.None? ==> forall fd | fd in fds :: fd.name != name
  {
    if fds == [] then None
    else if fds[0].name == name then Some(fds[0])
    else FindByName(fds[1..], name)
  }

  predicate Distinct<T(==)>(s: seq<T>) {
    forall i, j | 0 <= i < j < |s| :: s[i] != s[j]
  }

  function NamesOf(fds: seq<FailureDomain>): (r: seq<string>)
    ensures |r| == |fds| && forall i | 0 <= i < |fds| :: r[i] == fds[i].name
  {
    if fds == [] then [] else [fds[0].name] + NamesOf(fds[1..])
  }

  function SourcesOf(pairs: seq<Pair>): (r: seq<string>)
    ensures |r| == |pairs| && forall i | 0 <= i < |pairs| :: r[i] == pairs[i].source
  {
    if pairs == [] then [] else [pairs[0].source] + SourcesOf(pairs[1..])
  }

  function DestinationsOf(pairs: seq<Pair>): (r: seq<string>)
    ensures |r| == |pairs| && forall i | 0 <= i < |pairs| :: r[i] == pairs[i].destination
  {
    if pairs == [] then [] else [pairs[0].destination] + DestinationsOf(pairs[1..])
  }

  lemma {:induction false} FindDistinct(fds: seq<FailureDomain>, i: nat)
    requires i < |fds| && Distinct(NamesOf(fds))
    ensures FindByName(fds, fds[i].name) == Some(fds[i])
    decreases |fds|
  {
    var names := NamesOf(fds);
    if i > 0 {
      assert names[0] != names[i];
      assert NamesOf(fds[1..]) == names[1..];
      FindDistinct(fds[1..], i - 1);
    }
  }

  // ----- Pigeonhole -----

  function Elements<T>(s: seq<T>): set<T> {
    set x | x in s
  }

  lemma NoElements<T>(s: seq<T>)
    ensures Elements(s) == {} <==> s == []
  {
    if s != [] { assert s[0] in Elements(s); }
  }

  lemma ElementsSplit<T>(s: seq<T>)
    requires s != []
    ensures Elements(s) == Elements(s[1..]) + {s[0]}
  {
    assert s == [s[0]] + s[1..];
  }

  /** A sequence never has more distinct elements than positions, and as many only if it has no repeat. */
  lemma {:induction false} DistinctCount<T>(s: seq<T>)
    ensures |Elements(s)| <= |s|
    ensures |Elements(s)| == |s| <==> Distinct(s)
    decreases |s|
  {
    if s != [] {
      ElementsSplit(s);
      DistinctCount(s[1..]);
      var rest := s[1..];
      assert Distinct(s) <==> Distinct(rest) && s[0] !in rest by {
        if Distinct(rest) && s[0] !in rest {
          forall i, j | 0 <= i < j < |s| ensures s[i] != s[j] {
            assert s[j] == rest[j - 1];
            assert i > 0 ==> s[i] == rest[i - 1];
          }
        }
        if Distinct(s) {
          assert forall i, j | 0 <= i < j < |rest| :: rest[i] == s[i + 1] && rest[j] == s[j + 1];
        }
      }
    }
  }

  /** Equally long lists, the first without repeats and drawn from the second: each is the other reordered. */
  lemma Pigeonhole<T>(a: seq<T>, b: seq<T>)
    requires Distinct(a) && |a| == |b| && Elements(a) <= Elements(b)
    ensures Elements(a) == Elements(b) && Distinct(b)
  {
    DistinctCount(a);
    DistinctCount(b);
    SubsetCard(Elements(a), Elements(b));
  }

  lemma SubsetCard<T>(a: set<T>, b: set<T>)
    requires a <= b
    ensures |a| <= |b|
    ensures |a| == |b| ==> a == b
  {
    var rest := b - a;
    assert b == a + rest && a !! rest;
    assert |b| == |a| + |rest|;
  }

  // ----- Resolution -----

  /** Every name of the list occurs exactly once among the keys, and nothing else does. */
  predicate CoversOnce(keys: seq<string>, names: seq<string>) {
    Distinct(keys) && Distinct(names) && Elements(keys) == Elements(names)
  }

  ghost predicate SchemaUnique(pairs: seq<Pair>) {
    Distinct(SourcesOf(pairs)) && Distinct(DestinationsOf(pairs))
  }

  /**
   The resolved mapping is a bijection between source and destination failure domains, and every
   requested bijection is accepted. Uniqueness within the request is what the API schema enforces;
   that the failure domains themselves have distinct names follows from the length checks.
   */
  method ResolveMappings(requested: seq<Pair>, sourceFDs: seq<FailureDomain>, destFDs: seq<FailureDomain>)
    returns (r: Option<seq<Pair>>)
    requires SchemaUnique(requested)
    ensures r.Some? && requested != [] ==> r.value == requested
    ensures r.Some? && requested == [] ==> |sourceFDs| == |destFDs| == 1
    ensures r.Some? ==>
              && CoversOnce(SourcesOf(r.value), NamesOf(sourceFDs))
              && CoversOnce(DestinationsOf(r.value), NamesOf(destFDs))
    ensures r.None? && requested != [] ==>
              || !CoversOnce(SourcesOf(requested), NamesOf(sourceFDs))
              || !CoversOnce(DestinationsOf(requested), NamesOf(destFDs))
    ensures r.None? && requested == [] ==> |sourceFDs| != 1 || |destFDs| != 1
  {
    hide Distinct, Elements, NamesOf, SourcesOf, DestinationsOf;
    var sourceNames := NameSet(sourceFDs);
    var destNames := NameSet(destFDs);
    if |requested| == 0 {
      if |sourceFDs| == 1 && |destFDs| == 1 {
        OnlyPair(sourceFDs, destFDs);
        return Some([Pair(sourceFDs[0].name, destFDs[0].name)]);
      }
      return None;
    }
    ghost var sources, dests := SourcesOf(requested), DestinationsOf(requested);
    for i := 0 to |requested|
      invariant forall k | 0 <= k < i :: sources[k] in sourceNames && dests[k] in destNames
    {
      if requested[i].source !in sourceNames {
        UnknownKey(sources, NamesOf(sourceFDs), i);
        return None;
      }
      if requested[i].destination !in destNames {
        UnknownKey(dests, NamesOf(destFDs), i);
        return None;
      }
    }
    CoverCount(sources, NamesOf(sourceFDs));
    CoverCount(dests, NamesOf(destFDs));
    if |requested| != |sourceFDs| || |requested| != |destFDs| {
      return None;
    }
    return Some(requested);
  }

  method NameSet(fds: seq<FailureDomain>) returns (r: set<string>)
    ensures r == Elements(NamesOf(fds))
  {
    r := {};
    for i := 0 to |fds|
      invariant r == Elements(NamesOf(fds)[..i])
    {
      assert NamesOf(fds)[..i + 1] == NamesOf(fds)[..i] + [fds[i].name];
      r := r + {fds[i].name};
    }
    assert NamesOf(fds)[..|fds|] == NamesOf(fds);
  }

  lemma OnlyPair(sourceFDs: seq<FailureDomain>, destFDs: seq<FailureDomain>)
    requires |sourceFDs| == |destFDs| == 1
    ensures
      var only := [Pair(sourceFDs[0].name, destFDs[0].name)];
      CoversOnce(SourcesOf(only), NamesOf(sourceFDs)) && CoversOnce(DestinationsOf(only), NamesOf(destFDs))
  {
    var only := [Pair(sourceFDs[0].name, destFDs[0].name)];
    assert SourcesOf(only) == NamesOf(sourceFDs) && DestinationsOf(only) == NamesOf(destFDs);
  }

  lemma UnknownKey(keys: seq<string>, names: seq<string>, i: nat)
    requires i < |keys| && keys[i] !in Elements(names)
    ensures !CoversOnce(keys, names)
  {
    assert keys[i] in Elements(keys);
  }

  /** Distinct keys that are all names cover the names once exactly if there are as many. */
  lemma CoverCount(keys: seq<string>, names: seq<string>)
    requires Distinct(keys) && forall k | 0 <= k < |keys| :: keys[k] in Elements(names)
    ensures CoversOnce(keys, names) <==> |keys| == |names|
  {
    hide Distinct;
    assert Elements(keys) <= Elements(names);
    if |keys| == |names| {
      Pigeonhole(keys, names);
    }
    DistinctCount(keys);
    DistinctCount(names);
  }

  // ----- Immutability -----

  /** Keys a mapping list by source; a later entry for the same source wins. */
  function BySource(pairs: seq<Pair>): (m: map<string, string>)
    ensures m.Keys == Elements(SourcesOf(pairs))
  {
    if pairs == [] then map[]
    else
      var last := |pairs| - 1;
      assert SourcesOf(pairs) == SourcesOf(pairs[..last]) + [pairs[last].source];
      BySource(pairs[..last])[pairs[last].source := pairs[last].destination]
  }

  lemma {:induction false} BySourceLookup(pairs: seq<Pair>, p: Pair)
    requires Distinct(SourcesOf(pairs))
    ensures p in pairs <==> p.source in BySource(pairs) && BySource(pairs)[p.source] == p.destination
    decreases |pairs|
  {
    if pairs != [] {
      var last := |pairs| - 1;
      var front := pairs[..last];
      assert pairs == front + [pairs[last]];
      var sources := SourcesOf(pairs);
      assert SourcesOf(front) == sources[..last];
      BySourceLookup(front, p);
      if p.source == pairs[last].source {
        assert forall k | 0 <= k < last :: sources[k] != sources[last];
        assert p !in front;
      }
    }
  }

  predicate SameMembers(a: seq<Pair>, b: seq<Pair>) {
    (forall p | p in a :: p in b) && (forall p | p in b :: p in a)
  }

  lemma {:induction false} SameMapSameMembers(a: seq<Pair>, b: seq<Pair>)
    requires Distinct(SourcesOf(a)) && Distinct(SourcesOf(b)) && BySource(a) == BySource(b)
    ensures forall p | p in a :: p in b
  {
    forall p | p in a ensures p in b {
      BySourceLookup(a, p);
      BySourceLookup(b, p);
    }
  }

  lemma {:induction false} SameMembersSubmap(a: seq<Pair>, b: seq<Pair>, k: string)
    requires Distinct(SourcesOf(a)) && Distinct(SourcesOf(b)) && SameMembers(a, b)
    requires k in BySource(a)
    ensures k in BySource(b) && BySource(b)[k] == BySource(a)[k]
  {
    var p := Pair(k, BySource(a)[k]);
    BySourceLookup(a, p);
    BySourceLookup(b, p);
  }

  /** With distinct sources, equal keyed maps mean one list is a permutation of the other, and back. */
  lemma {:induction false} SameMapIffPermutation(a: seq<Pair>, b: seq<Pair>)
    requires Distinct(SourcesOf(a)) && Distinct(SourcesOf(b))
    ensures BySource(a) == BySource(b) <==> multiset(a) == multiset(b)
  {
    hide BySource, SourcesOf, Distinct;
    var ma, mb := BySource(a), BySource(b);
    if ma == mb {
      SameMapSameMembers(a, b);
      SameMapSameMembers(b, a);
      DistinctMultiset(a);
      DistinctMultiset(b);
      assert forall p: Pair :: multiset(a)[p] == multiset(b)[p];
    }
    if multiset(a) == multiset(b) {
      assert SameMembers(a, b) by {
        forall p | p in a ensures p in b { assert p in multiset(a); }
        forall p | p in b ensures p in a { assert p in multiset(b); }
      }
      forall k | k in ma ensures k in mb && mb[k] == ma[k] { SameMembersSubmap(a, b, k); }
      forall k | k in mb ensures k in ma { SameMembersSubmap(b, a, k); }
    }
  }

  lemma {:induction false} DistinctMultiset(a: seq<Pair>)
    requires Distinct(SourcesOf(a))
    ensures forall p: Pair :: multiset(a)[p] == if p in a then 1 else 0
    decreases |a|
  {
    if a != [] {
      var last := |a| - 1;
      var front := a[..last];
      var sources := SourcesOf(a);
      assert a == front + [a[last]];
      assert SourcesOf(front) == sources[..last];
      DistinctMultiset(front);
      assert forall k | 0 <= k < last :: sources[k] != sources[last];
      assert a[last] !in front;
    }
  }

  /**
   After preflight the mapping may be cleared or reordered and nothing else: with distinct sources on
   both sides the check accepts exactly an empty request or a permutation of the recorded pairs.
   */
  method EnsureMappingImmutable(recorded: seq<Pair>, requested: seq<Pair>) returns (ok: bool)
    requires Distinct(SourcesOf(recorded)) && Distinct(SourcesOf(requested))
    ensures ok <==> recorded == [] || requested == [] || multiset(requested) == multiset(recorded)
  {
    hide BySource, SourcesOf;
    if |recorded| == 0 || |requested| == 0 {
      return true;
    }
    SameMapIffPermutation(requested, recorded);
    var want := KeyBySource(recorded);
    var got := KeyBySource(requested);
    if |got| != |want| {
      return false;
    }
    var todo := got.Keys;
    while todo != {}
      invariant todo <= got.Keys
      invariant forall k | k in got.Keys - todo :: k in want && want[k] == got[k]
      decreases |todo|
    {
      var source :| source in todo;
      if source !in want || want[source] != got[source] {
        return false;
      }
      todo := todo - {source};
    }
    SubsetCard(got.Keys, want.Keys);
    return true;
  }

  method KeyBySource(pairs: seq<Pair>) returns (m: map<string, string>)
    ensures m == BySource(pairs)
  {
    m := map[];
    for i := 0 to |pairs|
      invariant m == BySource(pairs[..i])
    {
      assert pairs[..i + 1][..i] == pairs[..i];
      m := m[pairs[i].source := pairs[i].destination];
    }
    assert pairs[..|pairs|] == pairs;
  }
}
