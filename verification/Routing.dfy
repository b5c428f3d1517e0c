/** Target selection of the least-connection manager (api/instance/util.py). */
module Routing {
  import opened Base

  type Id = string
  type Counts = map<Id, nat>

  datatype Targets = Overload | Targets(list: seq<Id>)

  ghost predicate ByLoad(r: seq<Id>, counts: Counts)
    requires forall i :: i in r ==> i in counts
  {
    forall j, k :: 0 <= j < k < |r| ==> counts[r[j]] <= counts[r[k]]
  }

  // `r` lists each instance of `pool` that is under `concurrency` exactly once, least loaded first.
  ghost predicate Plain(r: seq<Id>, pool: set<Id>, counts: Counts, concurrency: nat)
    requires pool <= counts.Keys
  {
    && NoDuplicates(r)
    && (forall i :: i in r <==> i in pool && counts[i] < concurrency)
    && ByLoad(r, counts)
  }

  ghost function MinCount(pool: set<Id>, counts: Counts): (m: nat)
    requires pool != {} && pool <= counts.Keys
    ensures forall i :: i in pool ==> m <= counts[i]
    ensures exists i :: i in pool && counts[i] == m
  {
    var i :| i in pool;
    if pool == {i} then counts[i]
    else
      var rest := MinCount(pool - {i}, counts);
      if counts[i] <= rest then counts[i] else rest
  }

  // Cache lookups per prefix, longest first: the instances hit, or `None` when the lookup raised.
  type Lookups = seq<Option<set<Id>>>

  // The instances that hold the longest prefix anyone holds; an error before that gives up.
  function LikelyCached(lookups: Lookups, pool: set<Id>): set<Id> {
    if lookups == [] || lookups[0].None? then {}
    else if lookups[0].value * pool != {} then lookups[0].value * pool
    else LikelyCached(lookups[1..], pool)
  }

  // Cached instances not more than two connections busier than the least busy one.
  function Routable(lookups: Lookups, pool: set<Id>, counts: Counts, least: nat): set<Id>
    requires pool <= counts.Keys
  {
    set i | i in LikelyCached(lookups, pool) && i in counts && counts[i] <= least + 2
  }

  function Best(n: nat): nat {
    if n < 3 then n else 3
  }

  // Prefix routing: the three least loaded routable instances, then everyone else in plain order. Other
  // routable instances are not offered at all.
  ghost predicate Prefixed(r: seq<Id>, pool: set<Id>, counts: Counts, concurrency: nat, routable: set<Id>)
    requires pool <= counts.Keys && routable <= pool
  {
    var n := Best(|routable|);
    && n <= |r| && NoDuplicates(r)
    && (forall i :: i in r[..n] ==> i in routable)
    && ByLoad(r[..n], counts)
    && (forall i, j :: i in r[..n] && j in routable && j !in r[..n] ==> counts[i] <= counts[j])
    && Plain(r[n..], pool - routable, counts, concurrency)
  }

  lemma {:induction false} LikelyAreInPool(lookups: Lookups, pool: set<Id>)
    ensures LikelyCached(lookups, pool) <= pool
  {
    if lookups != [] && lookups[0].Some? && lookups[0].value * pool == {} {
      LikelyAreInPool(lookups[1..], pool);
    }
  }

  /** The first prefix, in the given order, that anyone holds decides; it is reached only when every
      lookup before it came back empty. */
  lemma {:induction false} FirstHitDecides(lookups: Lookups, pool: set<Id>, k: nat)
    requires k < |lookups| && lookups[k].Some? && lookups[k].value * pool != {}
    requires forall j :: 0 <= j < k ==> lookups[j].Some? && lookups[j].value * pool == {}
    ensures LikelyCached(lookups, pool) == lookups[k].value * pool
  {
    if k > 0 {
      FirstHitDecides(lookups[1..], pool, k - 1);
    }
  }

  /** Plain order is headed by a least loaded instance; prefix order by one within two of it; and an
      instance at or over its concurrency can only head the list through its cache. */
  lemma HeadIsNearMinimum(r: seq<Id>, pool: set<Id>, counts: Counts, concurrency: nat, lookups: Lookups)
    requires pool != {} && pool <= counts.Keys && MinCount(pool, counts) < concurrency
    requires Routable(lookups, pool, counts, MinCount(pool, counts)) <= pool
    ensures Plain(r, pool, counts, concurrency) ==> r != [] && counts[r[0]] == MinCount(pool, counts)
    ensures var routable := Routable(lookups, pool, counts, MinCount(pool, counts));
            Prefixed(r, pool, counts, concurrency, routable) && routable != {} ==>
              r != [] && r[0] in routable && counts[r[0]] <= MinCount(pool, counts) + 2
              && forall i :: i in routable ==> counts[r[0]] <= counts[i]
  {
    if Plain(r, pool, counts, concurrency) {
      PlainHead(r, pool, counts, concurrency);
    }
    var routable := Routable(lookups, pool, counts, MinCount(pool, counts));
    hide Plain, MinCount, ByLoad;
    if Prefixed(r, pool, counts, concurrency, routable) && routable != {} {
      PrefixHead(r, pool, counts, concurrency, routable);
    }
    hide Prefixed;
  }

  lemma PlainHead(r: seq<Id>, pool: set<Id>, counts: Counts, concurrency: nat)
    requires pool != {} && pool <= counts.Keys && MinCount(pool, counts) < concurrency && Plain(r, pool, counts, concurrency)
    ensures r != [] && counts[r[0]] == MinCount(pool, counts)
  {
    var least :| least in pool && counts[least] == MinCount(pool, counts);
    assert least in r;
    var k :| 0 <= k < |r| && r[k] == least;
    assert k > 0 ==> counts[r[0]] <= counts[r[k]];
    assert r[0] in r;
  }

  lemma PrefixHead(r: seq<Id>, pool: set<Id>, counts: Counts, concurrency: nat, routable: set<Id>)
    requires pool <= counts.Keys && {} != routable <= pool && Prefixed(r, pool, counts, concurrency, routable)
    ensures r != [] && r[0] in routable && forall i :: i in routable ==> counts[r[0]] <= counts[i]
  {
    hide Plain, NoDuplicates;
    var n := Best(|routable|);
    assert n > 0 && r[..n][0] == r[0] && r[0] in r[..n];
    forall i | i in routable ensures counts[r[0]] <= counts[i] {
      if i in r[..n] {
        var k :| 0 <= k < n && r[..n][k] == i;
        assert k > 0 ==> counts[r[..n][0]] <= counts[r[..n][k]];
      }
    }
  }

  /** What stands in front of a prefix list: three routable instances, or all if there are fewer, least loaded first, and
      none that is left out is less loaded; behind it stand exactly the others under concurrency. An instance is routable
      exactly if the deciding prefix is cached there and it has at most two connections more than the least busy one. */
  lemma PrefixListFront(r: seq<Id>, pool: set<Id>, counts: Counts, concurrency: nat, lookups: Lookups)
    requires pool != {} && pool <= counts.Keys
    requires Routable(lookups, pool, counts, MinCount(pool, counts)) <= pool
    requires Prefixed(r, pool, counts, concurrency, Routable(lookups, pool, counts, MinCount(pool, counts)))
    ensures var routable := Routable(lookups, pool, counts, MinCount(pool, counts));
            var n := if |routable| >= 3 then 3 else |routable|;
            && n <= |r| && (forall j, k :: 0 <= j < k < |r| ==> r[j] != r[k])
            && (forall i :: i in routable <==>
                  i in LikelyCached(lookups, pool) && i in pool && counts[i] <= MinCount(pool, counts) + 2)
            && (forall j :: 0 <= j < n ==> r[j] in routable)
            && (forall j, k :: 0 <= j < k < n ==> counts[r[j]] <= counts[r[k]])
            && (forall j, i :: 0 <= j < n && i in routable && i !in r[..n] ==> counts[r[j]] <= counts[i])
            && forall i :: i in r[n..] <==> i in pool && i !in routable && counts[i] < concurrency
  {
    LikelyAreInPool(lookups, pool);
    var routable := Routable(lookups, pool, counts, MinCount(pool, counts));
    var n := Best(|routable|);
    assert forall j :: 0 <= j < n ==> r[..n][j] == r[j];
    assert forall j :: 0 <= j < n ==> r[j] in r[..n];
  }

  // random.shuffle: some rearrangement.
  method Shuffle(s: seq<Id>) returns (r: seq<Id>)
    requires NoDuplicates(s)
    ensures NoDuplicates(r) && ToSet(r) == ToSet(s)
  {
    r := [];
    var todo := ToSet(s);
    while todo != {}
      invariant NoDuplicates(r) && todo <= ToSet(s)
      invariant forall i :: i in r <==> i in ToSet(s) && i !in todo
      decreases |todo|
    {
      var i :| i in todo;
      todo := todo - {i};
      r := r + [i];
    }
    assert ToSet(r) == ToSet(s);
  }

  // sorted(...) of distinct numbers.
  method SortedKeys(keys: set<nat>) returns (r: seq<nat>)
    ensures forall j, k :: 0 <= j < k < |r| ==> r[j] < r[k]
    ensures forall n :: n in r <==> n in keys
  {
    r := [];
    var todo := keys;
    while todo != {}
      invariant todo <= keys && forall n :: n in r <==> n in keys && n !in todo
      invariant forall j, k :: 0 <= j < k < |r| ==> r[j] < r[k]
      invariant forall m, n :: m in r && n in todo ==> m < n
      decreases |todo|
    {
      var least := Least(todo);
      todo := todo - {least};
      assert forall j :: 0 <= j < |r| ==> r[j] in r;
      r := r + [least];
    }
  }

  method Least(s: set<nat>) returns (m: nat)
    requires s != {}
    ensures m in s && forall n :: n in s ==> m <= n
  {
    m :| m in s;
    var todo := s - {m};
    while todo != {}
      invariant m in s && todo <= s && forall n :: n in s && n !in todo ==> m <= n
      decreases |todo|
    {
      var n :| n in todo;
      todo := todo - {n};
      if n < m {
        m := n;
      }
    }
  }

  // sorted(..., key=count) over distinct instances.
  method SortByCount(pool: set<Id>, counts: Counts) returns (r: seq<Id>)
    requires pool <= counts.Keys
    ensures NoDuplicates(r) && ToSet(r) == pool && ByLoad(r, counts)
  {
    r := [];
    var todo := pool;
    while todo != {}
      invariant todo <= pool && NoDuplicates(r) && forall i :: i in r <==> i in pool && i !in todo
      invariant ByLoad(r, counts)
      invariant forall i, j :: i in r && j in todo ==> counts[i] <= counts[j]
      decreases |todo|
    {
      var i := LeastLoaded(todo, counts);
      todo := todo - {i};
      r := r + [i];
    }
  }

  method LeastLoaded(pool: set<Id>, counts: Counts) returns (i: Id)
    requires pool != {} && pool <= counts.Keys
    ensures i in pool && counts[i] == MinCount(pool, counts)
  {
    i :| i in pool;
    var todo := pool - {i};
    while todo != {}
      invariant i in pool && todo <= pool && forall j :: j in pool && j !in todo ==> counts[i] <= counts[j]
      decreases |todo|
    {
      var j :| j in todo;
      todo := todo - {j};
      if counts[j] < counts[i] {
        i := j;
      }
    }
  }

  // The instances under concurrency, filed under their count.
  ghost predicate Grouped(groups: map<nat, seq<Id>>, pool: set<Id>, counts: Counts, concurrency: nat)
    requires pool <= counts.Keys
  {
    && (forall c :: c in groups ==> c < concurrency && NoDuplicates(groups[c]))
    && (forall c, i :: c in groups && i in groups[c] ==> i in pool && counts[i] == c)
    && (forall i :: i in pool && counts[i] < concurrency ==> counts[i] in groups && i in groups[counts[i]])
  }

  method GroupByCount(available: seq<Id>, counts: Counts, concurrency: nat) returns (groups: map<nat, seq<Id>>)
    requires NoDuplicates(available) && ToSet(available) <= counts.Keys
    ensures Grouped(groups, ToSet(available), counts, concurrency)
  {
    groups := map[];
    assert forall i :: i in available ==> i in ToSet(available);
    for k := 0 to |available|
      invariant ToSet(available[..k]) <= counts.Keys
      invariant Grouped(groups, ToSet(available[..k]), counts, concurrency)
    {
      var id := available[k];
      var count := counts[id];
      assert ToSet(available[..k + 1]) == ToSet(available[..k]) + {id};
      if count >= concurrency {
        continue;
      }
      if count !in groups {
        groups := groups[count := []];
      }
      assert id !in ToSet(available[..k]);
      assert id !in groups[count];
      groups := groups[count := groups[count] + [id]];
    }
    assert available[..|available|] == available;
  }

  method ShuffleGroups(groups: map<nat, seq<Id>>, ghost pool: set<Id>, counts: Counts, concurrency: nat)
    returns (shuffled: map<nat, seq<Id>>)
    requires pool <= counts.Keys && Grouped(groups, pool, counts, concurrency)
    ensures Grouped(shuffled, pool, counts, concurrency)
  {
    shuffled := groups;
    var todo := groups.Keys;
    while todo != {}
      invariant shuffled.Keys == groups.Keys && todo <= groups.Keys
      invariant Grouped(shuffled, pool, counts, concurrency)
      decreases |todo|
    {
      var c :| c in todo;
      todo := todo - {c};
      var group := Shuffle(shuffled[c]);
      assert forall i :: i in group <==> i in shuffled[c] by {
        assert forall i :: i in group <==> i in ToSet(group);
        assert forall i :: i in shuffled[c] <==> i in ToSet(shuffled[c]);
      }
      shuffled := shuffled[c := group];
    }
  }

  // `r` lists the instances of `pool` filed under `keys`, least loaded first.
  ghost predicate Listed(r: seq<Id>, pool: set<Id>, counts: Counts, keys: set<nat>)
    requires pool <= counts.Keys
  {
    && NoDuplicates(r)
    && (forall i :: i in r <==> i in pool && counts[i] in keys)
    && ByLoad(r, counts)
  }

  lemma ListOneMore(r: seq<Id>, group: seq<Id>, pool: set<Id>, counts: Counts, keys: set<nat>, c: nat)
    requires pool <= counts.Keys && Listed(r, pool, counts, keys) && NoDuplicates(group)
    requires forall i :: i in group <==> i in pool && counts[i] == c
    requires forall k :: k in keys ==> k < c
    ensures Listed(r + group, pool, counts, keys + {c})
  {
    var all := r + group;
    forall a, b | 0 <= a < b < |all| ensures all[a] != all[b] && counts[all[a]] <= counts[all[b]] {
      assert a < |r| ==> all[a] in r;
      assert a >= |r| ==> all[a] in group;
      assert b < |r| ==> all[b] in r;
      assert b >= |r| ==> all[b] in group;
    }
  }

  // The groups one after the other, in ascending order of count, leaving out `skip`.
  method Flatten(groups: map<nat, seq<Id>>, ghost pool: set<Id>, skip: set<Id>, counts: Counts, concurrency: nat)
    returns (r: seq<Id>)
    requires pool <= counts.Keys && Grouped(groups, pool, counts, concurrency)
    ensures Plain(r, pool - skip, counts, concurrency)
  {
    var keys := SortedKeys(groups.Keys);
    r := [];
    ghost var done: set<nat> := {};
    for k := 0 to |keys|
      invariant forall n :: n in done <==> n in keys[..k]
      invariant Listed(r, pool - skip, counts, done)
    {
      hide Listed, ByLoad, NoDuplicates;
      assert keys[k] in keys;
      assert forall c :: c in keys[..k] ==> c < keys[k];
      var group := Omit(groups[keys[k]], skip);
      ListOneMore(r, group, pool - skip, counts, done, keys[k]);
      assert keys[..k + 1] == keys[..k] + [keys[k]];
      done := done + {keys[k]};
      r := r + group;
    }
    assert keys[..|keys|] == keys;
  }

  // [i for i in s if i not in skip]
  function Omit(s: seq<Id>, skip: set<Id>): (r: seq<Id>)
    requires NoDuplicates(s)
    ensures NoDuplicates(r) && forall i :: i in r <==> i in s && i !in skip
  {
    if s == [] then []
    else
      var rest := Omit(s[1..], skip);
      if s[0] in skip then rest else [s[0]] + rest
  }

  function Sum(ids: seq<Id>, counts: Counts): nat
    requires forall i :: i in ids ==> i in counts
  {
    if ids == [] then 0 else Sum(ids[..|ids| - 1], counts) + counts[ids[|ids| - 1]]
  }

  class LeastConnManager {
    var instances: seq<Id>
    var concurrency: nat
    var meanCount: Option<nat>

    constructor (instances: seq<Id>, concurrency: Option<nat>)
      ensures this.instances == instances && meanCount == None
      ensures this.concurrency == if concurrency.GetOr(0) == 0 then 1 else concurrency.value
    {
      this.instances := instances;
      this.concurrency := if concurrency.GetOr(0) == 0 then 1 else concurrency.value;
      meanCount := None;
    }

    // The cached candidates in front, or `None` to fall back to plain order.
    method HandlePrefixRouting(available: seq<Id>, counts: Counts, groups: map<nat, seq<Id>>, minCount: nat, lookups: Lookups)
      returns (result: Option<seq<Id>>)
      requires NoDuplicates(available) && available != [] && ToSet(available) <= counts.Keys
      requires Grouped(groups, ToSet(available), counts, concurrency)
      ensures Routable(lookups, ToSet(available), counts, minCount) <= ToSet(available)
      ensures result.None? <==> Routable(lookups, ToSet(available), counts, minCount) == {}
      ensures result.Some? ==>
                Prefixed(result.value, ToSet(available), counts, concurrency,
                         Routable(lookups, ToSet(available), counts, minCount))
    {
      ghost var pool := ToSet(available);
      LikelyAreInPool(lookups, pool);
      var likelyCached: set<Id> := {};
      var k := 0;
      while k < |lookups| && likelyCached == {}
        invariant 0 <= k <= |lookups|
        invariant likelyCached == {} ==> LikelyCached(lookups, pool) == LikelyCached(lookups[k..], pool)
        invariant likelyCached != {} ==> LikelyCached(lookups, pool) == likelyCached
        decreases |lookups| - k, if likelyCached == {} then 1 else 0
      {
        if lookups[k].None? {
          return None;
        }
        likelyCached := lookups[k].value * ToSet(available);
        k := k + 1;
      }
      if likelyCached == {} {
        return None;
      }
      var routable := set i | i in likelyCached && counts[i] <= minCount + 2;
      assert routable == Routable(lookups, pool, counts, minCount);
      if routable == {} {
        return None;
      }
      var sorted := SortByCount(routable, counts);
      DistinctSize(sorted);
      var best := sorted[..Best(|sorted|)];
      var rest := Flatten(groups, pool, routable, counts, concurrency);
      PutInFront(sorted, rest, pool, counts, concurrency, routable);
      result := Some(best + rest);
    }

    // Groups the available instances and orders them, by cache or by load alone.
    method OrderTargets(available: seq<Id>, counts: Counts, minCount: nat, lookups: Lookups) returns (list: seq<Id>)
      requires NoDuplicates(available) && available != [] && ToSet(available) <= counts.Keys
      ensures var routable := Routable(lookups, ToSet(available), counts, minCount);
              && routable <= ToSet(available)
              && (routable == {} ==> Plain(list, ToSet(available), counts, concurrency))
              && (routable != {} ==> Prefixed(list, ToSet(available), counts, concurrency, routable))
    {
      hide Plain, Prefixed, Grouped, LikelyCached;
      LikelyAreInPool(lookups, ToSet(available));
      var groups := GroupByCount(available, counts, concurrency);
      groups := ShuffleGroups(groups, ToSet(available), counts, concurrency);
      if lookups != [] {
        var result := HandlePrefixRouting(available, counts, groups, minCount, lookups);
        if result.Some? {
          return result.value;
        }
      } else {
        NoLookups(ToSet(available), counts, minCount);
      }
      list := Flatten(groups, ToSet(available), {}, counts, concurrency);
      assert ToSet(available) - {} == ToSet(available);
    }

    /** Targets for a request, given the counts just read. `lookups` is empty when no prefix is given or
        the dice decided against prefix routing. */
    method GetTargets(avoid: set<Id>, counts: Counts, lookups: Lookups) returns (targets: Targets)
      requires NoDuplicates(instances) && ToSet(instances) <= counts.Keys
      modifies this`meanCount
      ensures Answers(targets, ToSet(instances) - avoid, counts, concurrency, lookups)
      ensures meanCount == if avoid == {} && instances != [] then Some(Mean(instances, counts)) else old(meanCount)
    {
      hide Plain, Prefixed, LikelyCached, Routable, Mean, MinCount, Omit, NoDuplicates;
      var available := Omit(instances, avoid);
      assert ToSet(available) == ToSet(instances) - avoid;
      if avoid == {} {
        NothingOmitted(instances);
      }
      if available == [] {
        return Targets([]);
      }
      assert available[0] in ToSet(available);
      var first := LeastLoaded(ToSet(available), counts);
      var minCount := counts[first];
      if avoid == {} {
        meanCount := Some(Mean(available, counts));
      }
      if minCount >= concurrency {
        RoutableInPool(lookups, ToSet(available), counts, minCount);
        return Overload;
      }
      var list := OrderTargets(available, counts, minCount, lookups);
      targets := Targets(list);
    }
  }

  // What a caller gets for a pool of candidate instances.
  ghost predicate Answers(targets: Targets, pool: set<Id>, counts: Counts, concurrency: nat, lookups: Lookups)
    requires pool <= counts.Keys
  {
    if pool == {} then targets == Targets([])
    else
      var least := MinCount(pool, counts);
      var routable := Routable(lookups, pool, counts, least);
      && routable <= pool
      && if least >= concurrency then targets.Overload?
         else && targets.Targets?
              && (routable == {} ==> Plain(targets.list, pool, counts, concurrency))
              && (routable != {} ==> Prefixed(targets.list, pool, counts, concurrency, routable))
  }

  lemma RoutableInPool(lookups: Lookups, pool: set<Id>, counts: Counts, least: nat)
    requires pool <= counts.Keys
    ensures Routable(lookups, pool, counts, least) <= pool
  {
    LikelyAreInPool(lookups, pool);
  }

  lemma NoLookups(pool: set<Id>, counts: Counts, least: nat)
    requires pool <= counts.Keys
    ensures Routable([], pool, counts, least) == {}
  {
  }

  // int(sum / len)
  function Mean(ids: seq<Id>, counts: Counts): nat
    requires ids != [] && ToSet(ids) <= counts.Keys
  {
    assert forall i :: i in ids ==> i in ToSet(ids);
    Sum(ids, counts) / |ids|
  }

  // The mean count is the whole part of the quotient.
  lemma MeanIsWhole(ids: seq<Id>, counts: Counts)
    requires ids != [] && ToSet(ids) <= counts.Keys
    ensures forall i :: i in ids ==> i in counts
    ensures |ids| * Mean(ids, counts) <= Sum(ids, counts) < |ids| * (Mean(ids, counts) + 1)
  {
    assert forall i :: i in ids ==> i in ToSet(ids);
    Quotient(Sum(ids, counts), |ids|);
    hide Sum;
  }

  lemma Quotient(a: nat, b: nat)
    requires b > 0
    ensures b * (a / b) <= a < b * (a / b + 1)
  {
  }

  lemma {:induction false} NothingOmitted(s: seq<Id>)
    requires NoDuplicates(s)
    ensures Omit(s, {}) == s
  {
    if s != [] {
      NothingOmitted(s[1..]);
    }
  }

  lemma PutInFront(sorted: seq<Id>, rest: seq<Id>, pool: set<Id>, counts: Counts, concurrency: nat, routable: set<Id>)
    requires pool <= counts.Keys && routable <= pool
    requires NoDuplicates(sorted) && ToSet(sorted) == routable && ByLoad(sorted, counts) && |sorted| == |routable|
    requires Plain(rest, pool - routable, counts, concurrency)
    ensures Prefixed(sorted[..Best(|sorted|)] + rest, pool, counts, concurrency, routable)
  {
    var n := Best(|sorted|);
    var r := sorted[..n] + rest;
    assert r[..n] == sorted[..n] && r[n..] == rest;
    assert forall i :: i in sorted <==> i in ToSet(sorted);
    assert forall b :: 0 <= b < n ==> r[..n][b] == sorted[b];
    forall i, j | i in r[..n] && j in routable && j !in r[..n] ensures counts[i] <= counts[j] {
      var a :| 0 <= a < n && sorted[a] == i;
      var b :| 0 <= b < |sorted| && sorted[b] == j;
    }
    forall a, b | 0 <= a < b < |r| ensures r[a] != r[b] {
      if b >= n && a < n {
        assert r[a] in sorted && r[b] in rest;
      }
    }
  }
}
