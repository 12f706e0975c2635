/** The consistent-hash ring of ads_ConsistenHash.h: a sorted vector of virtual hashes, with
    repetitions, beside a map from hash to node. */
module ConsistentHashing {
  import opened Decimal

  type HashFunction = string -> nat

  datatype Option<+T> = None | Some(value: T)

  // ---------- The ring as a value ----------

  datatype Ring = Ring(hashes: multiset<nat>, circle: map<nat, string>) {
    /** Every mapped hash can be found in the sorted vector. */
    ghost predicate Covered() {
      forall h :: h in circle ==> h in hashes
    }

    /** The vector holds no hash whose mapping has been erased. */
    ghost predicate Current() {
      forall h :: h in hashes ==> h in circle
    }
  }

  /** The hashes of the first k replicas, in the order addNode produces them. */
  function VirtualHashes(hash: HashFunction, node: string, k: nat): (s: seq<nat>)
    ensures |s| == k && forall i :: 0 <= i < k ==> s[i] == hash(VirtualName(node, i))
  {
    if k == 0 then [] else VirtualHashes(hash, node, k - 1) + [hash(VirtualName(node, k - 1))]
  }

  /** The entries addNode makes in the map. */
  ghost function AllTo(hs: seq<nat>, node: string): map<nat, string> {
    map h | h in hs :: node
  }

  ghost function Added(r: Ring, hs: seq<nat>, node: string): Ring {
    Ring(r.hashes + multiset(hs), r.circle + AllTo(hs, node))
  }

  /** Multiset difference erases one occurrence per removal and none where none is left. */
  ghost function Removed(r: Ring, hs: seq<nat>): Ring {
    Ring(r.hashes - multiset(hs), r.circle - set h | h in hs)
  }

  /** The clockwise successor of a position: the least hash strictly above it, or the least
      of all when none is above. */
  ghost predicate IsSuccessor(hashes: multiset<nat>, at: nat, h: nat) {
    && h in hashes
    && (at < h ==> forall x :: x in hashes && at < x ==> h <= x)
    && (h <= at ==> forall x :: x in hashes ==> h <= x <= at)
  }

  lemma SuccessorUnique(hashes: multiset<nat>, at: nat, g: nat, h: nat)
    requires IsSuccessor(hashes, at, g) && IsSuccessor(hashes, at, h)
    ensures g == h
  {
  }

  lemma AllToOneMore(circle: map<nat, string>, hs: seq<nat>, node: string, h: nat)
    ensures circle + AllTo(hs + [h], node) == (circle + AllTo(hs, node))[h := node]
  {
    assert forall g :: g in hs + [h] <==> g in hs || g == h;
  }

  lemma AddedOneMore(r: Ring, hs: seq<nat>, node: string, h: nat)
    ensures Added(r, hs + [h], node) ==
            Ring(Added(r, hs, node).hashes + multiset{h}, Added(r, hs, node).circle[h := node])
  {
    assert multiset(hs + [h]) == multiset(hs) + multiset{h};
    assert r.hashes + multiset(hs + [h]) == r.hashes + multiset(hs) + multiset{h};
    AllToOneMore(r.circle, hs, node, h);
  }

  lemma RemovedOneMore(r: Ring, hs: seq<nat>, h: nat)
    ensures Removed(r, hs + [h]) ==
            Ring(Removed(r, hs).hashes - multiset{h}, Removed(r, hs).circle - {h})
  {
    assert multiset(hs + [h]) == multiset(hs) + multiset{h};
    assert (set g | g in hs + [h]) == (set g | g in hs) + {h};
  }

  /** The first i passes of addNode's and of removeNode's loop. */
  ghost function AddedUpTo(r: Ring, hs: seq<nat>, node: string, i: nat): Ring
    requires i <= |hs|
  {
    if i == 0 then r
    else
      var p := AddedUpTo(r, hs, node, i - 1);
      Ring(p.hashes + multiset{hs[i - 1]}, p.circle[hs[i - 1] := node])
  }

  ghost function RemovedUpTo(r: Ring, hs: seq<nat>, i: nat): Ring
    requires i <= |hs|
  {
    if i == 0 then r
    else
      var p := RemovedUpTo(r, hs, i - 1);
      Ring(p.hashes - multiset{hs[i - 1]}, p.circle - {hs[i - 1]})
  }

  lemma {:induction false} AddLoopMeans(r: Ring, hs: seq<nat>, node: string, i: nat)
    requires i <= |hs|
    ensures AddedUpTo(r, hs, node, i) == Added(r, hs[..i], node)
  {
    if i == 0 {
      assert Added(r, [], node) == r;
    } else {
      AddLoopMeans(r, hs, node, i - 1);
      assert hs[..i] == hs[..i - 1] + [hs[i - 1]];
      AddedOneMore(r, hs[..i - 1], node, hs[i - 1]);
    }
  }

  lemma {:induction false} RemoveLoopMeans(r: Ring, hs: seq<nat>, i: nat)
    requires i <= |hs|
    ensures RemovedUpTo(r, hs, i) == Removed(r, hs[..i])
  {
    if i == 0 {
      assert Removed(r, []) == r;
    } else {
      RemoveLoopMeans(r, hs, i - 1);
      assert hs[..i] == hs[..i - 1] + [hs[i - 1]];
      RemovedOneMore(r, hs[..i - 1], hs[i - 1]);
    }
  }

  lemma AddLoopEnds(r: Ring, hs: seq<nat>, node: string)
    requires r.Covered()
    ensures AddedUpTo(r, hs, node, |hs|) == Added(r, hs, node) && Added(r, hs, node).Covered()
  {
    AddLoopMeans(r, hs, node, |hs|);
    assert hs[..|hs|] == hs;
    AddKeepsCovered(r, hs, node);
  }

  lemma RemoveLoopEnds(r: Ring, hs: seq<nat>)
    requires r.Covered()
    ensures RemovedUpTo(r, hs, |hs|) == Removed(r, hs) && Removed(r, hs).Covered()
  {
    RemoveLoopMeans(r, hs, |hs|);
    assert hs[..|hs|] == hs;
    RemoveKeepsCovered(r, hs);
  }

  lemma AddKeepsCovered(r: Ring, hs: seq<nat>, node: string)
    requires r.Covered()
    ensures Added(r, hs, node).Covered()
  {
    forall h | h in hs ensures h in multiset(hs) {
    }
  }

  lemma RemoveKeepsCovered(r: Ring, hs: seq<nat>)
    requires r.Covered()
    ensures Removed(r, hs).Covered()
  {
    forall h | h in Removed(r, hs).circle ensures h in Removed(r, hs).hashes {
      assert h !in hs && multiset(hs)[h] == 0;
    }
  }

  /** After addNode, a key that moves, moves to one of the new node's hashes. */
  lemma AddMovesOnlyToNew(r: Ring, hs: seq<nat>, node: string, at: nat, before: nat, after: nat)
    requires IsSuccessor(r.hashes, at, before)
    requires IsSuccessor(Added(r, hs, node).hashes, at, after)
    ensures after == before || after in hs
  {
    assert before in Added(r, hs, node).hashes;
    if after !in hs {
      assert multiset(hs)[after] == 0;
    }
  }

  /** After removeNode, a key keeps its hash, and its owner, unless that hash was one of the
      removed node's. */
  lemma RemoveMovesOnlyOld(r: Ring, hs: seq<nat>, at: nat, before: nat, after: nat)
    requires IsSuccessor(r.hashes, at, before)
    requires IsSuccessor(Removed(r, hs).hashes, at, after)
    ensures before in hs || (after == before && (before in r.circle ==>
              before in Removed(r, hs).circle && Removed(r, hs).circle[before] == r.circle[before]))
  {
    if before !in hs {
      assert multiset(hs)[before] == 0;
      assert before in Removed(r, hs).hashes && after in r.hashes;
    }
  }

  /** Seen through the map, addNode hands keys over to the new node only, even where one of
      its hashes collides with another node's. */
  lemma AddTakesOwnership(r: Ring, hs: seq<nat>, node: string, at: nat, before: nat, after: nat)
    requires IsSuccessor(r.hashes, at, before) && before in r.circle
    requires IsSuccessor(Added(r, hs, node).hashes, at, after)
    ensures after in Added(r, hs, node).circle
    ensures Added(r, hs, node).circle[after] == r.circle[before] || Added(r, hs, node).circle[after] == node
  {
    AddMovesOnlyToNew(r, hs, node, at, before, after);
  }

  /** addNode followed by removeNode restores the ring exactly when none of the node's
      hashes was mapped before; repeated hashes do not matter. */
  lemma AddThenRemove(r: Ring, hs: seq<nat>, node: string)
    ensures Removed(Added(r, hs, node), hs) == r <==> forall h :: h in hs ==> h !in r.circle
  {
    var back := Removed(Added(r, hs, node), hs);
    assert back.hashes == r.hashes;
    if forall h :: h in hs ==> h !in r.circle {
      assert back.circle == r.circle;
    } else {
      var h :| h in hs && h in r.circle;
      assert h !in back.circle;
    }
  }

  /** One of the replicas 0, ..., k - 1 of the node hashes to h. */
  ghost predicate IsHashOf(hash: HashFunction, k: nat, node: string, h: nat) {
    exists i: nat :: i < k && hash(VirtualName(node, i)) == h
  }

  lemma AmongHashes(hash: HashFunction, k: nat, node: string, h: nat)
    ensures h in VirtualHashes(hash, node, k) <==> IsHashOf(hash, k, node, h)
    ensures 0 < multiset(VirtualHashes(hash, node, k))[h] <==> IsHashOf(hash, k, node, h)
  {
    var hs: seq<nat> := VirtualHashes(hash, node, k);
    if h in hs {
      var i :| 0 <= i < |hs| && hs[i] == h;
      assert hash(VirtualName(node, i)) == h;
    }
    if IsHashOf(hash, k, node, h) {
      var i: nat :| i < k && hash(VirtualName(node, i)) == h;
      assert hs[i] == h;
    }
    assert h in hs <==> h in multiset(hs);
  }

  /** What addNode does to each hash: one that some replica of the node has is in the vector
      more often than before, and mapped to the node; any other is as it was. */
  lemma AddedMeans(hash: HashFunction, k: nat, r: Ring, node: string, h: nat)
    ensures var t := Added(r, VirtualHashes(hash, node, k), node);
            if IsHashOf(hash, k, node, h) then (h, node) in t.circle.Items && r.hashes[h] < t.hashes[h]
            else t.hashes[h] == r.hashes[h] && (h in t.circle <==> h in r.circle)
                 && (h in r.circle ==> t.circle[h] == r.circle[h])
    ensures |Added(r, VirtualHashes(hash, node, k), node).hashes| == |r.hashes| + k
  {
    AmongHashes(hash, k, node, h);
    var hs: seq<nat> := VirtualHashes(hash, node, k);
    assert |multiset(hs)| == k;
  }

  /** And removeNode: one that some replica has is not mapped any more, and less often in the
      vector if it was there; any other is as it was. */
  lemma RemovedMeans(hash: HashFunction, k: nat, r: Ring, node: string, h: nat)
    ensures var t := Removed(r, VirtualHashes(hash, node, k));
            if IsHashOf(hash, k, node, h) then h !in t.circle && (t.hashes[h] < r.hashes[h] || h !in r.hashes)
            else t.hashes[h] == r.hashes[h] && (h in t.circle <==> h in r.circle)
                 && (h in r.circle ==> t.circle[h] == r.circle[h])
    ensures |r.hashes| <= |Removed(r, VirtualHashes(hash, node, k)).hashes| + k
  {
    AmongHashes(hash, k, node, h);
    DifferenceSize(r.hashes, multiset(VirtualHashes(hash, node, k)));
  }

  lemma DifferenceSize(m: multiset<nat>, n: multiset<nat>)
    ensures |m| <= |m - n| + |n|
  {
    assert m == (m - n) + m * n;
    assert n == (n - m) + m * n;
  }

  // ---------- Lookups that land on a mapped hash ----------

  ghost predicate LookupsMapped(r: Ring) {
    forall at, h :: IsSuccessor(r.hashes, at, h) ==> h in r.circle
  }

  lemma LookupsSeeEverything(r: Ring)
    ensures r.Current() <==> LookupsMapped(r)
  {
    if LookupsMapped(r) {
      forall x | x in r.hashes ensures x in r.circle {
        if 0 < x {
          assert IsSuccessor(r.hashes, x - 1, x);
        } else {
          var top := Largest(r.hashes);
          assert IsSuccessor(r.hashes, top, 0);
        }
      }
    }
  }

  /** Does the removal erase every copy of the node's hashes? */
  ghost predicate ErasesAll(r: Ring, hs: seq<nat>) {
    forall h :: h in hs ==> r.hashes[h] <= multiset(hs)[h]
  }

  /** addNode keeps every lookup on a mapped hash; removeNode does so if and only if the
      vector holds no more copies of the node's hashes than the call erases. */
  lemma CallsKeepMapped(r: Ring, hs: seq<nat>, node: string)
    requires LookupsMapped(r)
    ensures LookupsMapped(Added(r, hs, node))
    ensures LookupsMapped(Removed(r, hs)) <==> ErasesAll(r, hs)
  {
    LookupsSeeEverything(r);
    LookupsSeeEverything(Added(r, hs, node));
    LookupsSeeEverything(Removed(r, hs));
    forall h | h in Added(r, hs, node).hashes ensures h in Added(r, hs, node).circle {
      assert h in r.hashes || h in hs;
    }
    if Removed(r, hs).Current() {
      forall h | h in hs ensures r.hashes[h] <= multiset(hs)[h] {
        assert h !in Removed(r, hs).circle;
      }
    } else {
      var h :| h in Removed(r, hs).hashes && h !in Removed(r, hs).circle;
      assert h in r.circle && h in hs;
    }
  }

  datatype Call = Add(node: string) | Remove(node: string)

  ghost function Apply(hash: HashFunction, k: nat, r: Ring, call: Call): Ring {
    var hs := VirtualHashes(hash, call.node, k);
    if call.Add? then Added(r, hs, call.node) else Removed(r, hs)
  }

  /** Between any two of the calls, and after the last, every lookup finds a mapped hash. */
  ghost predicate AlwaysMapped(hash: HashFunction, k: nat, r: Ring, calls: seq<Call>)
    decreases |calls|
  {
    LookupsMapped(r) && (calls != [] ==> AlwaysMapped(hash, k, Apply(hash, k, r, calls[0]), calls[1..]))
  }

  ghost predicate AllClean(hash: HashFunction, k: nat, r: Ring, calls: seq<Call>)
    decreases |calls|
  {
    calls != [] ==>
      && (calls[0].Remove? ==> ErasesAll(r, VirtualHashes(hash, calls[0].node, k)))
      && AllClean(hash, k, Apply(hash, k, r, calls[0]), calls[1..])
  }

  lemma {:induction false} AlwaysMappedExactly(hash: HashFunction, k: nat, r: Ring, calls: seq<Call>)
    requires LookupsMapped(r)
    ensures AlwaysMapped(hash, k, r, calls) <==> AllClean(hash, k, r, calls)
    decreases |calls|
  {
    if calls == [] {
    } else {
      var next := Apply(hash, k, r, calls[0]);
      CallsKeepMapped(r, VirtualHashes(hash, calls[0].node, k), calls[0].node);
      if LookupsMapped(next) {
        AlwaysMappedExactly(hash, k, next, calls[1..]);
      }
    }
  }

  /** Different virtual names of the nodes in use have different hashes. */
  ghost predicate NoCollisions(hash: HashFunction, k: nat, nodes: set<string>) {
    forall m, n, i: nat, j: nat :: m in nodes && n in nodes && i < k && j < k ==>
      (hash(VirtualName(m, i)) == hash(VirtualName(n, j)) ==> VirtualName(m, i) == VirtualName(n, j))
  }

  lemma HashesDiffer(hash: HashFunction, k: nat, nodes: set<string>, m: string, i: nat, n: string, j: nat)
    requires NoCollisions(hash, k, nodes) && m in nodes && n in nodes && i < k && j < k
    ensures hash(VirtualName(m, i)) == hash(VirtualName(n, j)) <==> m == n && i == j
  {
    if hash(VirtualName(m, i)) == hash(VirtualName(n, j)) {
      VirtualNameInjective(m, i, n, j);
    }
  }

  lemma DistinctCounts(s: seq<nat>, i: nat)
    requires i < |s| && forall j :: 0 <= j < |s| && j != i ==> s[j] != s[i]
    ensures multiset(s)[s[i]] == 1
  {
    assert s == s[..i] + [s[i]] + s[i + 1..];
    assert s[i] !in multiset(s[..i]) && s[i] !in multiset(s[i + 1..]);
  }

  /** Each hash of a node occurs once among the node's hashes, and never among another's. */
  lemma HashCounts(hash: HashFunction, k: nat, nodes: set<string>, node: string, n: string, i: nat)
    requires NoCollisions(hash, k, nodes) && node in nodes && n in nodes && i < k
    ensures multiset(VirtualHashes(hash, node, k))[hash(VirtualName(n, i))] == if n == node then 1 else 0
  {
    var hs: seq<nat> := VirtualHashes(hash, node, k);
    forall j | 0 <= j < k ensures hs[j] == hash(VirtualName(n, i)) <==> n == node && i == j {
      HashesDiffer(hash, k, nodes, n, i, node, j);
    }
    if n == node {
      DistinctCounts(hs, i);
    } else {
      assert hash(VirtualName(n, i)) !in multiset(hs);
    }
  }

  /** Which nodes are present how often, as far as addNode and removeNode can tell. */
  function Present(nodes: multiset<string>, call: Call): multiset<string> {
    if call.Add? then nodes + multiset{call.node} else nodes - multiset{call.node}
  }

  ghost predicate Tracks(hash: HashFunction, k: nat, nodes: set<string>, r: Ring, present: multiset<string>) {
    forall n, i: nat :: n in nodes && i < k ==> r.hashes[hash(VirtualName(n, i))] == present[n]
  }

  lemma ApplyTracks(hash: HashFunction, k: nat, nodes: set<string>, r: Ring, present: multiset<string>, call: Call)
    requires NoCollisions(hash, k, nodes) && Tracks(hash, k, nodes, r, present) && call.node in nodes
    ensures Tracks(hash, k, nodes, Apply(hash, k, r, call), Present(present, call))
  {
    forall n, i: nat | n in nodes && i < k
      ensures Apply(hash, k, r, call).hashes[hash(VirtualName(n, i))] == Present(present, call)[n]
    {
      HashCounts(hash, k, nodes, call.node, n, i);
      ApplyCounts(hash, k, r, call, hash(VirtualName(n, i)));
    }
  }

  lemma ApplyCounts(hash: HashFunction, k: nat, r: Ring, call: Call, h: nat)
    ensures var before, own := r.hashes[h], multiset(VirtualHashes(hash, call.node, k))[h];
            Apply(hash, k, r, call).hashes[h]
            == if call.Add? then before + own else if own < before then before - own else 0
  {
  }

  lemma CleanWhenSingle(hash: HashFunction, k: nat, nodes: set<string>, r: Ring, present: multiset<string>,
                        node: string)
    requires NoCollisions(hash, k, nodes) && Tracks(hash, k, nodes, r, present) && node in nodes && 0 < k
    ensures ErasesAll(r, VirtualHashes(hash, node, k)) <==> present[node] <= 1
  {
    var hs: seq<nat> := VirtualHashes(hash, node, k);
    forall i | 0 <= i < k ensures r.hashes[hs[i]] == present[node] && multiset(hs)[hs[i]] == 1 {
      HashCounts(hash, k, nodes, node, node, i);
    }
    EraseCounts(r, hs, present[node]);
  }

  lemma EraseCounts(r: Ring, hs: seq<nat>, count: nat)
    requires hs != [] && forall i :: 0 <= i < |hs| ==> r.hashes[hs[i]] == count && multiset(hs)[hs[i]] == 1
    ensures ErasesAll(r, hs) <==> count <= 1
  {
    if ErasesAll(r, hs) {
      assert hs[0] in hs;
    }
  }

  predicate RemovesSingles(present: multiset<string>, calls: seq<Call>)
    decreases |calls|
  {
    calls != [] ==>
      (calls[0].Remove? ==> present[calls[0].node] <= 1) && RemovesSingles(Present(present, calls[0]), calls[1..])
  }

  lemma {:induction false} CleanExactly(hash: HashFunction, k: nat, nodes: set<string>, r: Ring,
                                        present: multiset<string>, calls: seq<Call>)
    requires NoCollisions(hash, k, nodes) && Tracks(hash, k, nodes, r, present) && 0 < k
    requires forall i :: 0 <= i < |calls| ==> calls[i].node in nodes
    ensures AllClean(hash, k, r, calls) <==> RemovesSingles(present, calls)
    decreases |calls|
  {
    if calls == [] {
    } else {
      ApplyTracks(hash, k, nodes, r, present, calls[0]);
      CleanWhenSingle(hash, k, nodes, r, present, calls[0].node);
      CleanExactly(hash, k, nodes, Apply(hash, k, r, calls[0]), Present(present, calls[0]), calls[1..]);
    }
  }

  /** From an empty ring and with a hash function that separates the virtual names in use,
      every lookup lands on a mapped hash if and only if no node is removed while it has been
      added more than once. */
  lemma LookupsAreMapped(hash: HashFunction, k: nat, nodes: set<string>, calls: seq<Call>)
    requires NoCollisions(hash, k, nodes) && 0 < k
    requires forall i :: 0 <= i < |calls| ==> calls[i].node in nodes
    ensures AlwaysMapped(hash, k, Ring(multiset{}, map[]), calls) <==> RemovesSingles(multiset{}, calls)
  {
    var empty := Ring(multiset{}, map[]);
    AlwaysMappedExactly(hash, k, empty, calls);
    CleanExactly(hash, k, nodes, empty, multiset{}, calls);
  }

  lemma {:induction false} Largest(m: multiset<nat>) returns (top: nat)
    requires m != multiset{}
    ensures top in m && forall x :: x in m ==> x <= top
  {
    var x :| x in m;
    var rest := m - multiset{x};
    if rest == multiset{} {
      assert m == multiset{x};
      top := x;
    } else {
      var t := Largest(rest);
      assert m == rest + multiset{x};
      top := if t < x then x else t;
    }
  }

  /** One node added twice, another once, and then the first removed once. */
  ghost function DoubleAdded(a: string, b: string, x: nat, y: nat): Ring {
    Removed(Added(Added(Added(Ring(multiset{}, map[]), [x], a), [x], a), [y], b), [x])
  }

  lemma DoubleAddedIs(a: string, b: string, x: nat, y: nat)
    requires x != y
    ensures DoubleAdded(a, b, x, y) == Ring(multiset{x, y}, map[y := b])
  {
    var empty := Ring(multiset{}, map[]);
    AddedOne(empty, a, x);
    AddedOne(Ring(multiset{x}, map[x := a]), a, x);
    AddedOne(Ring(multiset{x, x}, map[x := a]), b, y);
    assert [] + [x] == [x];
    RemovedOneMore(Ring(multiset{x, x, y}, map[x := a, y := b]), [], x);
  }

  lemma AddedOne(r: Ring, node: string, h: nat)
    ensures Added(r, [h], node) == Ring(r.hashes + multiset{h}, r.circle[h := node])
  {
    assert [] + [h] == [h];
    AddedOneMore(r, [], node, h);
  }

  /** A key at the other node's hash is then sent to a hash that belongs to nobody. */
  lemma StaleAfterDoubleAdd(a: string, b: string, x: nat, y: nat)
    requires x != y
    ensures var r := DoubleAdded(a, b, x, y);
            && r.circle == map[y := b] && x !in r.circle
            && Represents(Sort([x, y]), r)
            && Lookup(Sort([x, y]), map[y := b], y) == Some(x)
  {
    var r := DoubleAdded(a, b, x, y);
    DoubleAddedIs(a, b, x, y);
    assert multiset([x, y]) == multiset{x, y};
    LookupMeans(Sort([x, y]), r, y);
    assert y in r.circle;
    SuccessorUnique(r.hashes, y, x, Lookup(Sort([x, y]), r.circle, y).value);
  }

  // ---------- The library calls ----------

  ghost predicate Sorted(s: seq<nat>) {
    forall i, j :: 0 <= i < j < |s| ==> s[i] <= s[j]
  }

  lemma SortedCons(x: nat, s: seq<nat>)
    requires Sorted(s) && forall y :: y in multiset(s) ==> x <= y
    ensures Sorted([x] + s)
  {
    forall i | 0 <= i < |s| ensures x <= s[i] {
      assert s[i] in multiset(s);
    }
  }

  function Insert(s: seq<nat>, x: nat): (t: seq<nat>)
    requires Sorted(s)
    ensures Sorted(t) && multiset(t) == multiset(s) + multiset{x}
  {
    if s == [] then [x]
    else if x <= s[0] then
      SortedCons(x, s);
      [x] + s
    else
      var t := Insert(s[1..], x);
      InsertBehind(s, x, t);
      [s[0]] + t
  }

  lemma InsertBehind(s: seq<nat>, x: nat, t: seq<nat>)
    requires Sorted(s) && s != [] && s[0] < x && Sorted(t) && multiset(t) == multiset(s[1..]) + multiset{x}
    ensures Sorted([s[0]] + t) && multiset([s[0]] + t) == multiset(s) + multiset{x}
  {
    assert s == [s[0]] + s[1..];
    SortedCons(s[0], t);
  }

  /** std::sort */
  function Sort(s: seq<nat>): (t: seq<nat>)
    ensures Sorted(t) && multiset(t) == multiset(s)
  {
    if s == [] then []
    else
      assert s == [s[0]] + s[1..];
      Insert(Sort(s[1..]), s[0])
  }

  /** std::find: the first position of x, or the length. */
  function Find(s: seq<nat>, x: nat): (i: nat)
    ensures i <= |s| && x !in s[..i] && (i < |s| ==> s[i] == x)
  {
    if s == [] || s[0] == x then 0
    else
      var i := 1 + Find(s[1..], x);
      assert s[..i] == [s[0]] + s[1..][..i - 1];
      i
  }

  /** std::upper_bound: the first position whose element is above x, or the length. */
  function UpperBound(s: seq<nat>, x: nat): (i: nat)
    requires Sorted(s)
    ensures i <= |s| && (forall k :: 0 <= k < i ==> s[k] <= x) && (forall k :: i <= k < |s| ==> x < s[k])
  {
    if s == [] || x < s[0] then 0 else 1 + UpperBound(s[1..], x)
  }

  /** getNode, on values; None is the exception thrown on an empty map. */
  function Lookup(sorted: seq<nat>, circle: map<nat, string>, at: nat): (r: Option<nat>)
    requires Sorted(sorted) && forall h :: h in circle ==> h in sorted
    ensures r.None? <==> circle == map[]
    ensures r.Some? ==> IsSuccessor(multiset(sorted), at, r.value)
  {
    if circle == map[] then None
    else
      assert exists h :: h in circle && h in sorted;
      var it := UpperBound(sorted, at);
      if it == |sorted| then Some(sorted[0]) else Some(sorted[it])
  }

  // ---------- Two rings compared by their lookups ----------

  /** The sorted vector and the map of a ring. */
  ghost predicate Represents(sorted: seq<nat>, r: Ring) {
    Sorted(sorted) && multiset(sorted) == r.hashes && r.Covered()
  }

  lemma RepresentedIn(sorted: seq<nat>, r: Ring)
    requires Represents(sorted, r)
    ensures forall h :: h in r.circle ==> h in sorted
  {
    forall h | h in r.circle ensures h in sorted {
      assert h in multiset(sorted);
    }
  }

  /** The vector is determined by its elements. */
  lemma {:induction false} SortedUnique(s: seq<nat>, t: seq<nat>)
    requires Sorted(s) && Sorted(t) && multiset(s) == multiset(t)
    ensures s == t
  {
    assert |multiset(s)| == |s| && |multiset(t)| == |t|;
    if s == [] {
    } else {
      LeastFirst(s, t);
      LeastFirst(t, s);
      TailElements(s);
      TailElements(t);
      SortedUnique(s[1..], t[1..]);
      assert s == [s[0]] + s[1..] && t == [t[0]] + t[1..];
    }
  }

  lemma LeastFirst(s: seq<nat>, t: seq<nat>)
    requires Sorted(s) && s != [] && t != [] && multiset(s) == multiset(t)
    ensures s[0] <= t[0]
  {
    assert t[0] in multiset(s);
  }

  lemma TailElements(s: seq<nat>)
    requires s != []
    ensures multiset(s[1..]) == multiset(s) - multiset{s[0]}
  {
    assert s == [s[0]] + s[1..];
  }

  /** addNode followed by removeNode leaves the same vector and the same map if and only if
      none of the node's hashes was mapped before. */
  lemma AddThenRemoveRestores(s: seq<nat>, t: seq<nat>, r: Ring, hs: seq<nat>, node: string)
    requires Represents(s, r) && Represents(t, Removed(Added(r, hs, node), hs))
    ensures s == t
    ensures Removed(Added(r, hs, node), hs).circle == r.circle <==> forall h :: h in hs ==> h !in r.circle
  {
    assert Removed(Added(r, hs, node), hs).hashes == r.hashes;
    SortedUnique(s, t);
    AddThenRemove(r, hs, node);
  }

  lemma LookupMeans(sorted: seq<nat>, r: Ring, at: nat)
    requires Represents(sorted, r)
    ensures forall h :: h in r.circle ==> h in sorted
    ensures Lookup(sorted, r.circle, at).Some? ==> IsSuccessor(r.hashes, at, Lookup(sorted, r.circle, at).value)
  {
    RepresentedIn(sorted, r);
  }

  /** What getNode answers for one key before and after the call. Adding a node moves the
      answer, if at all, to one of the node's hashes. Removing one leaves every other node's
      answer alone, hash and owner, and makes getNode throw only if nothing stays mapped. */
  lemma MinimalDisruption(r: Ring, hs: seq<nat>, node: string, s: seq<nat>, added: seq<nat>, removed: seq<nat>,
                          at: nat)
    requires Represents(s, r) && r.circle != map[]
    requires Represents(added, Added(r, hs, node)) && Represents(removed, Removed(r, hs))
    ensures forall h :: h in r.circle ==> h in s
    ensures forall h :: h in Added(r, hs, node).circle ==> h in added
    ensures forall h :: h in Removed(r, hs).circle ==> h in removed
    ensures var before, after := Lookup(s, r.circle, at), Lookup(added, Added(r, hs, node).circle, at);
            before.Some? && after.Some? && (after == before || after.value in hs)
    ensures var before, after := Lookup(s, r.circle, at), Lookup(removed, Removed(r, hs).circle, at);
            && (after.None? <==> Removed(r, hs).circle == map[])
            && (after.Some? && before.value !in hs ==> after == before)
            && (after.Some? && before.value !in hs && before.value in r.circle ==>
                  (before.value, r.circle[before.value]) in Removed(r, hs).circle.Items)
  {
    LookupMeans(s, r, at);
    LookupMeans(added, Added(r, hs, node), at);
    LookupMeans(removed, Removed(r, hs), at);
    var before := Lookup(s, r.circle, at).value;
    var h :| h in r.circle;
    assert h in Added(r, hs, node).circle;
    AddMovesOnlyToNew(r, hs, node, at, before, Lookup(added, Added(r, hs, node).circle, at).value);
    if Removed(r, hs).circle != map[] {
      RemoveMovesOnlyOld(r, hs, at, before, Lookup(removed, Removed(r, hs).circle, at).value);
    }
  }

  // ---------- The class ----------

  class ConsistentHash {
    const numReplicas: nat
    const hashFunction: HashFunction
    var circle: map<nat, string>
    var sortedHashes: seq<nat>

    constructor (numReplicas: nat, hashFunction: HashFunction)
      ensures this.numReplicas == numReplicas && this.hashFunction == hashFunction
      ensures Valid() && GetRing() == Ring(multiset{}, map[])
    {
      this.numReplicas, this.hashFunction := numReplicas, hashFunction;
      circle, sortedHashes := map[], [];
    }

    ghost function GetRing(): Ring
      reads this
    {
      Ring(multiset(sortedHashes), circle)
    }

    ghost predicate Valid()
      reads this
    {
      Sorted(sortedHashes) && GetRing().Covered()
    }

    function Hashes(node: string): seq<nat> {
      VirtualHashes(hashFunction, node, numReplicas)
    }

    method AddNode(node: string)
      requires Valid()
      modifies this
      ensures Valid() && GetRing() == Added(old(GetRing()), Hashes(node), node)
    {
      ghost var before, hs := GetRing(), Hashes(node);
      for i := 0 to numReplicas
        invariant GetRing() == AddedUpTo(before, hs, node, i)
      {
        var hash := hashFunction(VirtualName(node, i));
        circle := circle[hash := node];
        sortedHashes := sortedHashes + [hash];
      }
      sortedHashes := Sort(sortedHashes);
      AddLoopEnds(before, hs, node);
    }

    method RemoveNode(node: string)
      requires Valid()
      modifies this
      ensures Valid() && GetRing() == Removed(old(GetRing()), Hashes(node))
    {
      ghost var before, hs := GetRing(), Hashes(node);
      for i := 0 to numReplicas
        invariant GetRing() == RemovedUpTo(before, hs, i) && Sorted(sortedHashes)
      {
        EraseHash(hashFunction(VirtualName(node, i)));
      }
      RemoveLoopEnds(before, hs);
    }

    /** The body of removeNode's loop. */
    method EraseHash(hash: nat)
      requires Sorted(sortedHashes)
      modifies this
      ensures Sorted(sortedHashes)
      ensures GetRing() == Ring(old(GetRing()).hashes - multiset{hash}, old(GetRing()).circle - {hash})
    {
      circle := circle - {hash};
      var it := Find(sortedHashes, hash);
      if it < |sortedHashes| {
        ErasedSorted(sortedHashes, it);
        ErasedElements(sortedHashes, it);
        sortedHashes := sortedHashes[..it] + sortedHashes[it + 1..];
      } else {
        assert sortedHashes[..it] == sortedHashes && hash !in multiset(sortedHashes);
      }
    }

    /** None is the exception thrown on an empty map. */
    method GetNode(key: string) returns (r: Option<nat>)
      requires Valid()
      ensures forall h :: h in circle ==> h in sortedHashes
      ensures r == Lookup(sortedHashes, circle, hashFunction(key))
      ensures r.Some? ==> IsSuccessor(multiset(sortedHashes), hashFunction(key), r.value)
    {
      RepresentedIn(sortedHashes, GetRing());
      if circle == map[] {
        return None;
      }
      var h :| h in circle;
      assert h in sortedHashes;
      var hash := hashFunction(key);
      var it := UpperBound(sortedHashes, hash);
      if it == |sortedHashes| {
        it := 0;
      }
      return Some(sortedHashes[it]);
    }
  }

  lemma ErasedSorted(s: seq<nat>, i: nat)
    requires Sorted(s) && i < |s|
    ensures Sorted(s[..i] + s[i + 1..])
  {
  }

  lemma ErasedElements(s: seq<nat>, i: nat)
    requires i < |s|
    ensures multiset(s[..i] + s[i + 1..]) == multiset(s) - multiset{s[i]}
  {
    assert s == s[..i] + [s[i]] + s[i + 1..];
  }
}
