/** The test-routing checks of `scripts/ci_validate_routing.py` and `scripts/ci_contract.py`. */
module Shards {
  import opened Options

  /** Node ids are compared by one total order; integers stand for it. */
  type Node = int

  predicate Ascending(s: seq<Node>) { forall i, j :: 0 <= i < j < |s| ==> s[i] < s[j] }

  predicate Distinct(s: seq<Node>) { forall i, j :: 0 <= i < j < |s| ==> s[i] != s[j] }

  function SetOf(s: seq<Node>): (r: set<Node>)
    ensures forall x :: x in r <==> x in s
  {
    set x | x in s
  }

  // ---- Sorting --------------------------------------------------------------

  function Insert(s: seq<Node>, x: Node): (r: seq<Node>)
    requires Ascending(s) && x !in s
    ensures Ascending(r) && |r| == |s| + 1 && forall y :: y in r <==> y in s || y == x
  {
    if s == [] then [x]
    else if x < s[0] then [x] + s
    else
      var rest := Insert(s[1..], x);
      assert forall y :: y in s <==> y == s[0] || y in s[1..];
      FirstIsLeast(s[0], rest);
      [s[0]] + rest
  }

  lemma FirstIsLeast(x: Node, s: seq<Node>)
    requires Ascending(s) && forall y :: y in s ==> x < y
    ensures Ascending([x] + s)
  {
    var t := [x] + s;
    forall i, j | 0 <= i < j < |t| ensures t[i] < t[j] {
      assert t[j] == s[j - 1] && t[j] in s;
    }
  }

  /** `sorted` on distinct ids. */
  function Sorted(s: seq<Node>): (r: seq<Node>)
    requires Distinct(s)
    ensures Ascending(r) && |r| == |s| && SetOf(r) == SetOf(s)
  {
    if s == [] then [] else
    var n := |s| - 1;
    assert forall y :: y in s <==> y in s[..n] || y == s[n];
    Insert(Sorted(s[..n]), s[n])
  }

  // ---- The stride -----------------------------------------------------------

  /** The slice `s[from::k]`. */
  function Stride(s: seq<Node>, from: nat, k: nat): (r: seq<Node>)
    requires k > 0
    ensures forall x :: x in r ==> x in s
    decreases |s| - from
  {
    if from >= |s| then [] else [s[from]] + Stride(s, from + k, k)
  }

  lemma {:induction false} StrideMember(s: seq<Node>, from: nat, k: nat, j: nat)
    requires k > 0 && j < |s| && Ascending(s)
    ensures s[j] in Stride(s, from, k) <==> j >= from && (j - from) % k == 0
    decreases |s| - from
  {
    if from < |s| {
      StrideMember(s, from + k, k, j);
      if from <= j < from + k {
        Small(j - from, k);
      } else if j >= from + k {
        Shift(j - from - k, k);
      }
    }
  }

  lemma Small(a: nat, k: nat)
    requires 0 <= a < k
    ensures a % k == 0 <==> a == 0
  {
  }

  lemma Times(d: int, k: nat)
    requires k > 0
    ensures d >= 1 ==> d * k >= k
    ensures d <= -1 ==> d * k + k <= 0
  {
    if d >= 1 { assert d * k == (d - 1) * k + k; }
    if d <= -1 { assert d * k == (d + 1) * k - k; }
  }

  /** Quotient and remainder are unique. */
  lemma Division(a: nat, k: nat, q: int, r: int)
    requires k > 0 && a == q * k + r && 0 <= r < k
    ensures a / k == q && a % k == r
  {
    var d := a / k - q;
    assert d * k == (a / k) * k - q * k;
    assert a == (a / k) * k + a % k;
    Times(d, k);
  }

  lemma Shift(a: nat, k: nat)
    requires k > 0
    ensures (a + k) % k == a % k && (a + k) / k == a / k + 1
  {
    assert (a / k + 1) * k == (a / k) * k + k;
    Division(a + k, k, a / k + 1, a % k);
  }

  lemma {:induction false} DivisionIsMonotone(a: nat, b: nat, k: nat)
    requires k > 0 && a <= b
    ensures a / k <= b / k
  {
    if b < k {
      Division(a, k, 0, a);
      Division(b, k, 0, b);
    } else if a < k {
      Division(a, k, 0, a);
    } else {
      DivisionIsMonotone(a - k, b - k, k);
      Shift(a - k, k);
      Shift(b - k, k);
    }
  }

  /** The sizes of the slices: as equal as they can be. */
  lemma {:induction false} StrideLength(s: seq<Node>, from: nat, k: nat)
    requires k > 0
    ensures |Stride(s, from, k)| == if from >= |s| then 0 else (|s| - from - 1) / k + 1
    decreases |s| - from
  {
    if from < |s| {
      StrideLength(s, from + k, k);
      if from + k < |s| {
        Shift(|s| - from - k - 1, k);
      } else {
        Division(|s| - from - 1, k, 0, |s| - from - 1);
      }
    }
  }

  lemma {:induction false} StrideAscends(s: seq<Node>, from: nat, k: nat)
    requires k > 0 && Ascending(s)
    ensures Ascending(Stride(s, from, k))
    ensures forall x :: x in Stride(s, from, k) ==> exists j :: from <= j < |s| && s[j] == x
    decreases |s| - from
  {
    if from < |s| {
      StrideAscends(s, from + k, k);
      FirstIsLeast(s[from], Stride(s, from + k, k));
    }
  }

  // ---- The shard ------------------------------------------------------------

  function Only(s: seq<Node>, keep: set<Node>): (r: seq<Node>)
    ensures forall x :: x in r <==> x in s && x in keep
    ensures Distinct(s) ==> Distinct(r)
  {
    if s == [] then [] else
    var n := |s| - 1;
    assert forall y :: y in s <==> y in s[..n] || y == s[n];
    Only(s[..n], keep) + (if s[n] in keep then [s[n]] else [])
  }

  /** The part of a collection that shard `index` of `k` runs, in the order of the collection. */
  function Shard(original: seq<Node>, k: nat, index: nat): seq<Node>
    requires k > 0 && Distinct(original)
  {
    Only(original, SetOf(Stride(Sorted(original), index, k)))
  }

  /** The position of an id in the sorted collection. */
  function Rank(original: seq<Node>, x: Node): (r: nat)
    requires Distinct(original) && x in original
    ensures r < |original| && Sorted(original)[r] == x
  {
    var s := Sorted(original);
    assert x in SetOf(s);
    Position(s, x)
  }

  function Position(s: seq<Node>, x: Node): (r: nat)
    requires x in s
    ensures r < |s| && s[r] == x
  {
    if s[0] == x then 0 else Position(s[1..], x) + 1
  }

  lemma Remainder(j: nat, index: nat, k: nat)
    requires index < k
    ensures j >= index && (j - index) % k == 0 <==> j % k == index
  {
    if j >= index { Residue(j - index, index, k); } else { Division(j, k, 0, j); }
  }

  /** A shard runs exactly the ids whose rank leaves its index as the remainder. */
  lemma ShardByRank(original: seq<Node>, k: nat, index: nat, x: Node)
    requires k > 0 && index < k && Distinct(original)
    ensures x in Shard(original, k, index) <==> x in original && Rank(original, x) % k == index
  {
    hide Sorted, Stride, Rank, Distinct, Ascending;
    if x in original {
      var j := Rank(original, x);
      StrideMember(Sorted(original), index, k, j);
      Remainder(j, index, k);
    }
  }

  lemma Residue(a: nat, b: nat, k: nat)
    requires k > 0 && b < k
    ensures a % k == 0 <==> (a + b) % k == b
  {
    var q, r := a / k, a % k;
    assert (q + 1) * k == q * k + k;
    if r + b < k { Division(a + b, k, q, r + b); } else { Division(a + b, k, q + 1, r + b - k); }
  }

  /** Every id is in exactly one shard. */
  lemma ShardsPartition(original: seq<Node>, k: nat, x: Node)
    requires k > 0 && Distinct(original) && x in original
    ensures var home := Rank(original, x) % k;
            forall index :: 0 <= index < k ==> (x in Shard(original, k, index) <==> index == home)
  {
    forall index: nat | index < k
      ensures x in Shard(original, k, index) <==> index == Rank(original, x) % k
    {
      ShardByRank(original, k, index, x);
    }
  }

  lemma {:induction false} CardinalityOfDistinct(s: seq<Node>)
    requires Distinct(s)
    ensures |SetOf(s)| == |s|
  {
    if s != [] {
      var n := |s| - 1;
      CardinalityOfDistinct(s[..n]);
      assert SetOf(s) == SetOf(s[..n]) + {s[n]};
    }
  }

  lemma ShardLength(original: seq<Node>, k: nat, index: nat)
    requires k > 0 && Distinct(original)
    ensures |Shard(original, k, index)| == if index >= |original| then 0 else (|original| - index - 1) / k + 1
  {
    var sorted := Sorted(original);
    var slice, shard := Stride(sorted, index, k), Shard(original, k, index);
    StrideAscends(sorted, index, k);
    StrideLength(sorted, index, k);
    CardinalityOfDistinct(slice);
    CardinalityOfDistinct(shard);
    assert SetOf(shard) == SetOf(slice) by {
      assert forall x :: x in slice ==> x in SetOf(sorted);
    }
  }

  /** The sizes of any two shards differ by at most one. */
  lemma ShardsAreBalanced(original: seq<Node>, k: nat, i: nat, j: nat)
    requires k > 0 && Distinct(original) && i < k && j < k
    ensures |Shard(original, k, i)| <= |Shard(original, k, j)| + 1
  {
    ShardLength(original, k, i);
    ShardLength(original, k, j);
    var n := |original|;
    if i < n {
      if j < n { QuotientsAreClose(n - i - 1, n - j - 1, k); } else { Division(n - i - 1, k, 0, n - i - 1); }
    }
  }

  lemma QuotientsAreClose(a: nat, b: nat, k: nat)
    requires k > 0 && a - b < k
    ensures a / k <= b / k + 1
  {
    DivisionIsMonotone(a, b + k, k);
    Shift(b, k);
  }

  // ---- verify_partition -----------------------------------------------------

  /** What `verify_partition` accepts, without its checks of intersection and union. */
  predicate IsPartition(original: seq<Node>, shards: seq<seq<Node>>, k: nat, routed: set<Node>)
  {
    && k > 0 && |shards| == k && original != [] && Distinct(original)
    && (forall i :: 0 <= i < k ==> shards[i] == Shard(original, k, i))
    && k <= |original| && SetOf(original) !! routed
  }

  /** `verify_partition`, for any shard count; `routed` are the ids with targets of their own. */
  method VerifyPartition(original: seq<Node>, shards: seq<seq<Node>>, k: nat, routed: set<Node>)
    returns (accepted: bool)
    requires k > 0
    ensures accepted <==> IsPartition(original, shards, k, routed)
  {
    if |shards| != k || original == [] || !Distinct(original) { return false; }
    var seen: set<Node> := {};
    for index := 0 to |shards|
      invariant forall i :: 0 <= i < index ==> shards[i] == Shard(original, k, i) && shards[i] != []
      invariant forall x :: x in seen <==> exists i :: 0 <= i < index && x in shards[i]
    {
      var shard := shards[index];
      var slice := SetOf(Stride(Sorted(original), index, k));
      var expected := Only(original, slice);
      if shard == [] || shard != expected {
        if shard == expected { ShardLength(original, k, index); }
        return false;
      }
      EarlierShardsMiss(original, shards, k, index, seen);
      if seen * SetOf(shard) != {} { return false; }
      seen := seen + SetOf(shard);
    }
    ShardLength(original, k, k - 1);
    if seen != SetOf(original) {
      ShardsCover(original, shards, k, seen);
      return false;
    }
    return seen !! routed;
  }

  /** The intersection check never fails. */
  lemma EarlierShardsMiss(original: seq<Node>, shards: seq<seq<Node>>, k: nat, index: nat, seen: set<Node>)
    requires k > 0 && index < k == |shards| && Distinct(original)
    requires forall i :: 0 <= i <= index ==> shards[i] == Shard(original, k, i)
    requires forall x :: x in seen <==> exists i :: 0 <= i < index && x in shards[i]
    ensures seen * SetOf(shards[index]) == {}
  {
    forall x | x in seen && x in shards[index] ensures false {
      var i :| 0 <= i < index && x in shards[i];
      ShardsPartition(original, k, x);
    }
  }

  /** Neither does the union check. */
  lemma ShardsCover(original: seq<Node>, shards: seq<seq<Node>>, k: nat, seen: set<Node>)
    requires k > 0 && |shards| == k && Distinct(original)
    requires forall i :: 0 <= i < k ==> shards[i] == Shard(original, k, i)
    requires forall x :: x in seen <==> exists i :: 0 <= i < k && x in shards[i]
    ensures seen == SetOf(original)
  {
    forall x | x in original ensures x in seen {
      ShardsPartition(original, k, x);
      var home := Rank(original, x) % k;
      assert 0 <= home < k;
      assert x in Shard(original, k, home) && shards[home] == Shard(original, k, home);
    }
    forall x | x in seen ensures x in original {
      var i :| 0 <= i < k && x in shards[i];
      assert x in Shard(original, k, i);
    }
  }

  // ---- collection_ownership -------------------------------------------------

  datatype Route = Route(target: nat, prefix: Option<string>, node: Option<string>, excluded: seq<string>)

  /** The id up to its parameters. */
  function Identity(id: string): (r: string)
    ensures r <= id && '[' !in r && (r == id || id[|r|] == '[')
  {
    if id == "" || id[0] == '[' then "" else [id[0]] + Identity(id[1..])
  }

  predicate Matches(r: Route, id: string)
  {
    var identity := Identity(id);
    identity !in r.excluded
    && ((r.node.Some? && identity == r.node.value) || (r.prefix.Some? && r.prefix.value <= identity))
  }

  function Matching(routes: seq<Route>, id: string): (r: seq<Route>)
    ensures forall x :: x in r ==> x in routes && Matches(x, id)
  {
    if routes == [] then [] else
    var n := |routes| - 1;
    Matching(routes[..n], id) + (if Matches(routes[n], id) then [routes[n]] else [])
  }

  /** The one target that executes a node, if there is exactly one. */
  function OwnerOf(routes: seq<Route>, id: string): (r: Option<nat>)
    ensures r.Some? ==> exists x :: x in routes && x.target == r.value
  {
    var matches := Matching(routes, id);
    if |matches| == 1 then
      assert matches[0] in routes;
      Some(matches[0].target)
    else None
  }

  predicate AllOwned(routes: seq<Route>, ids: seq<string>)
  {
    forall i :: 0 <= i < |ids| ==> OwnerOf(routes, ids[i]).Some?
  }

  /** The number of nodes that a target owns. */
  function Owned(ids: seq<string>, routes: seq<Route>, target: nat): (r: nat)
  {
    if ids == [] then 0 else
    var n := |ids| - 1;
    Owned(ids[..n], routes, target) + (if OwnerOf(routes, ids[n]) == Some(target) then 1 else 0)
  }

  function Total(counts: map<nat, nat>, targets: seq<nat>): nat
    requires forall t :: t in targets ==> t in counts
  {
    if targets == [] then 0 else counts[targets[0]] + Total(counts, targets[1..])
  }

  predicate NoRepeats(ids: seq<string>) { forall i, j :: 0 <= i < j < |ids| ==> ids[i] != ids[j] }

  /** Every target has its count, and no other key has one. */
  predicate CountsAre(counts: map<nat, nat>, ids: seq<string>, routes: seq<Route>)
  {
    && (forall r :: r in routes ==> r.target in counts)
    && (forall t :: t in counts ==> counts[t] == Owned(ids, routes, t) && exists r :: r in routes && r.target == t)
  }

  /** `collection_ownership`: accepts a collection exactly if every id has one target, and counts
      for each target the ids it owns. */
  method CollectionOwnership(ids: seq<string>, routes: seq<Route>) returns (counts: Option<map<nat, nat>>)
    ensures counts.Some? <==> ids != [] && NoRepeats(ids) && AllOwned(routes, ids)
    ensures counts.Some? ==> CountsAre(counts.value, ids, routes)
  {
    hide NoRepeats, CountsAre, OwnerOf;
    if ids == [] || !NoRepeats(ids) { return None; }
    var result: map<nat, nat> := map r | r in routes :: r.target := 0;
    NothingCounted(routes, result);
    for i := 0 to |ids|
      invariant forall j :: 0 <= j < i ==> OwnerOf(routes, ids[j]).Some?
      invariant CountsAre(result, ids[..i], routes)
    {
      var owner := OwnerOf(routes, ids[i]);
      if owner.None? { return None; }
      CountNext(result, ids[..i], ids[i], routes);
      assert ids[..i + 1] == ids[..i] + [ids[i]];
      result := result[owner.value := result[owner.value] + 1];
    }
    assert ids[..|ids|] == ids;
    return Some(result);
  }

  lemma NothingCounted(routes: seq<Route>, counts: map<nat, nat>)
    requires counts == map r | r in routes :: r.target := 0
    ensures CountsAre(counts, [], routes)
  {
  }

  lemma OwnedNext(ids: seq<string>, id: string, routes: seq<Route>, target: nat)
    ensures Owned(ids + [id], routes, target) ==
              Owned(ids, routes, target) + (if OwnerOf(routes, id) == Some(target) then 1 else 0)
  {
    hide OwnerOf;
    assert (ids + [id])[..|ids|] == ids;
  }

  lemma CountNext(counts: map<nat, nat>, ids: seq<string>, id: string, routes: seq<Route>)
    requires CountsAre(counts, ids, routes) && OwnerOf(routes, id).Some?
    ensures
      var owner := OwnerOf(routes, id).value;
      owner in counts && CountsAre(counts[owner := counts[owner] + 1], ids + [id], routes)
  {
    hide Owned, OwnerOf;
    var owner := OwnerOf(routes, id).value;
    forall t | t in counts ensures Owned(ids + [id], routes, t) == counts[t] + (if t == owner then 1 else 0) {
      OwnedNext(ids, id, routes, t);
    }
  }

  /** The counts of all targets together are the size of the collection. */
  lemma {:induction false} OwnershipIsComplete(ids: seq<string>, routes: seq<Route>, targets: seq<nat>,
                                               counts: map<nat, nat>)
    requires AllOwned(routes, ids)
    requires forall i, j :: 0 <= i < j < |targets| ==> targets[i] != targets[j]
    requires forall r :: r in routes ==> r.target in targets
    requires forall t :: t in targets ==> t in counts && counts[t] == Owned(ids, routes, t)
    ensures Total(counts, targets) == |ids|
  {
    hide OwnerOf;
    if ids == [] {
      TotalOfZero(counts, targets);
    } else {
      var n := |ids| - 1;
      var home := OwnerOf(routes, ids[n]).value;
      var before := map t | t in counts :: Owned(ids[..n], routes, t);
      assert AllOwned(routes, ids[..n]);
      OwnershipIsComplete(ids[..n], routes, targets, before);
      OneMore(before, counts, targets, home);
    }
  }

  lemma {:induction false} TotalOfZero(counts: map<nat, nat>, targets: seq<nat>)
    requires forall t :: t in targets ==> t in counts && counts[t] == 0
    ensures Total(counts, targets) == 0
  {
    if targets != [] { TotalOfZero(counts, targets[1..]); }
  }

  lemma {:induction false} OneMore(before: map<nat, nat>, after: map<nat, nat>, targets: seq<nat>, home: nat)
    requires forall i, j :: 0 <= i < j < |targets| ==> targets[i] != targets[j]
    requires forall t :: t in targets ==>
               t in before && t in after && after[t] == before[t] + (if t == home then 1 else 0)
    ensures Total(after, targets) == Total(before, targets) + (if home in targets then 1 else 0)
  {
    if targets != [] {
      OneMore(before, after, targets[1..], home);
      assert forall t :: t in targets <==> t == targets[0] || t in targets[1..];
    }
  }
}
