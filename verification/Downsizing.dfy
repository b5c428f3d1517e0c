/** The removal loop of the autoscaler for one queued chute (chute_autoscaler.py). */
module Downsizing {
  import opened Base
  import Autoscaler

  // `established`: online for at least an hour. `jobBound`: its launch config belongs to a job.
  datatype Instance = Instance(
    id: string, active: bool, verified: bool, jobBound: bool, gpus: nat, established: bool)

  predicate DistinctIds(s: seq<Instance>) {
    forall i, j :: 0 <= i < j < |s| ==> s[i].id != s[j].id
  }

  // The instances the autoscaler counts, those it may touch, and how it sorts them.
  function Live(s: seq<Instance>): set<Instance> {
    set i | i in s && i.verified && i.active
  }

  function Malformed(s: seq<Instance>, gpuCount: nat): set<Instance> {
    set i | i in s && i.verified && i.active && !i.jobBound && i.gpus != gpuCount
  }

  function Sound(s: seq<Instance>, gpuCount: nat): set<Instance> {
    set i | i in s && i.verified && i.active && !i.jobBound && i.gpus == gpuCount
  }

  function Established(s: seq<Instance>, gpuCount: nat): set<Instance> {
    set i | i in Sound(s, gpuCount) && i.established
  }

  // [i for i in s if i.id not in kicked]
  function Without(s: seq<Instance>, kicked: set<string>): (r: seq<Instance>)
    ensures forall i :: i in r <==> i in s && i.id !in kicked
  {
    if s == [] then []
    else if s[0].id in kicked then Without(s[1..], kicked) else [s[0]] + Without(s[1..], kicked)
  }

  function OnlyEstablished(s: seq<Instance>): (r: seq<Instance>)
    ensures forall i :: i in r <==> i in s && i.established
  {
    if s == [] then []
    else if s[0].established then [s[0]] + OnlyEstablished(s[1..]) else OnlyEstablished(s[1..])
  }

  // Deletes the malformed instances and lists the sound ones.
  method PurgeMalformed(all: seq<Instance>, gpuCount: nat) returns (purged: seq<Instance>, instances: seq<Instance>)
    requires DistinctIds(all)
    ensures DistinctIds(purged) && ToSet(purged) == Malformed(all, gpuCount)
    ensures DistinctIds(instances) && ToSet(instances) == Sound(all, gpuCount)
  {
    purged, instances := [], [];
    for k := 0 to |all|
      invariant DistinctIds(purged) && DistinctIds(instances)
      invariant forall i :: i in purged <==> i in all[..k] && i in Malformed(all, gpuCount)
      invariant forall i :: i in instances <==> i in all[..k] && i in Sound(all, gpuCount)
    {
      var instance := all[k];
      assert forall i :: i in all[..k + 1] <==> i in all[..k] || i == instance;
      assert forall i :: i in all[..k] ==> i.id != instance.id;
      if instance.verified && instance.active && !instance.jobBound {
        if instance.gpus != gpuCount {
          purged := purged + [instance];
        } else {
          instances := instances + [instance];
        }
      }
    }
    assert all[..|all|] == all;
  }

  lemma DistinctCount(s: seq<Instance>)
    requires DistinctIds(s)
    ensures |ToSet(s)| == |s|
  {
    assert NoDuplicates(s);
    DistinctSize(s);
  }

  // Picks victims at random, one per round; a round without an established instance is skipped.
  method KickAtRandom(sound: seq<Instance>, rounds: nat) returns (victims: seq<Instance>)
    requires DistinctIds(sound)
    ensures DistinctIds(victims) && ToSet(victims) <= ToSet(OnlyEstablished(sound))
    ensures |victims| == if rounds <= |ToSet(OnlyEstablished(sound))| then rounds else |ToSet(OnlyEstablished(sound))|
  {
    var instances, kicked := sound, {};
    victims := [];
    ghost var candidates := ToSet(OnlyEstablished(sound));
    for idx := 0 to rounds
      invariant DistinctIds(victims) && ToSet(victims) <= candidates
      invariant kicked == set v | v in victims :: v.id
      invariant forall i :: i in instances ==> i in sound
      invariant forall i :: i in instances && i.established && i.id !in kicked <==> i in candidates && i !in victims
      invariant |victims| == idx || (|victims| <= idx && ToSet(victims) == candidates)
    {
      instances := Without(instances, kicked);
      var established := OnlyEstablished(instances);
      if established == [] {
        assert forall i :: i in instances ==> i !in established;
        assert ToSet(victims) == candidates;
        DistinctCount(victims);
        continue;
      }
      instances := established;
      var k :| 0 <= k < |instances|;
      var unlucky := instances[k];
      assert unlucky in candidates && unlucky !in victims;
      assert forall i :: i in sound && i.id == unlucky.id ==> i == unlucky;
      kicked := kicked + {unlucky.id};
      victims := victims + [unlucky];
    }
    DistinctCount(victims);
    SubsetSize(ToSet(victims), candidates);
  }

  /** One downsizing pass over a chute: malformed instances go first and count against the request;
      then established ones at random. Nothing is removed twice, and the chute stays at or above its
      target exactly when the malformed instances did not outnumber the request. */
  method Downsize(all: seq<Instance>, gpuCount: nat, requested: nat, rollingUpdate: bool)
    returns (purged: seq<Instance>)
    requires DistinctIds(all)
    ensures rollingUpdate ==> purged == []
    ensures DistinctIds(purged) && ToSet(purged) <= Live(all)
    ensures forall i :: i in purged ==>
              i in all && i.verified && i.active && !i.jobBound && (i.gpus != gpuCount || i.established)
    ensures !rollingUpdate ==>
              forall i :: i in all && i.verified && i.active && !i.jobBound && i.gpus != gpuCount ==> i in purged
    ensures !rollingUpdate ==>
              var malformed, established := Malformed(all, gpuCount), Established(all, gpuCount);
              && malformed <= ToSet(purged) <= malformed + established
              && (|Sound(all, gpuCount)| < 5 || requested <= |malformed| ==> |purged| == |malformed|)
              && (|Sound(all, gpuCount)| >= 5 && requested > |malformed| ==>
                    |purged| == if requested <= |malformed| + |established| then requested else |malformed| + |established|)
              && |purged| <= (if requested >= |malformed| then requested else |malformed|)
              && (|Live(all) - ToSet(purged)| >= |Live(all)| - requested <==> |malformed| <= requested)
  {
    if rollingUpdate {
      return [];
    }
    var instances;
    purged, instances := PurgeMalformed(all, gpuCount);
    var numToRemove: int := requested - |purged|;
    DistinctCount(purged);
    DistinctCount(instances);
    assert Malformed(all, gpuCount) <= Live(all);
    assert Established(all, gpuCount) == ToSet(OnlyEstablished(instances)) by {
      assert forall i :: i in instances <==> i in ToSet(instances);
    }
    if |instances| >= Autoscaler.UNDERUTILIZED_CAP && numToRemove > 0 {
      var victims := KickAtRandom(instances, numToRemove);
      Together(purged, victims, Malformed(all, gpuCount), Established(all, gpuCount));
      purged := purged + victims;
    }
    DistinctCount(purged);
    PurgedByFields(all, gpuCount, purged);
    hide Established, Sound;
    Remainder(Live(all), ToSet(purged));
  }

  lemma Together(first: seq<Instance>, second: seq<Instance>, malformed: set<Instance>, established: set<Instance>)
    requires DistinctIds(first) && DistinctIds(second)
    requires ToSet(first) == malformed && ToSet(second) <= established
    requires forall x, y :: x in malformed && y in established ==> x.id != y.id
    ensures DistinctIds(first + second) && ToSet(first + second) == malformed + ToSet(second)
  {
    assert forall x :: x in first ==> x in ToSet(first);
    assert forall x :: x in second ==> x in ToSet(second);
    assert forall x :: x in first + second <==> x in first || x in second;
  }

  lemma PurgedByFields(all: seq<Instance>, gpuCount: nat, purged: seq<Instance>)
    requires Malformed(all, gpuCount) <= ToSet(purged) <= Malformed(all, gpuCount) + Established(all, gpuCount)
    ensures forall i :: i in purged ==>
              i in all && i.verified && i.active && !i.jobBound && (i.gpus != gpuCount || i.established)
    ensures forall i :: i in all && i.verified && i.active && !i.jobBound && i.gpus != gpuCount ==> i in purged
  {
    forall i ensures i in purged <==> i in ToSet(purged) {
    }
  }

  lemma Remainder(whole: set<Instance>, part: set<Instance>)
    requires part <= whole
    ensures |whole - part| == |whole| - |part|
  {
  }
}
