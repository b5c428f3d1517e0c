/** The verdict on one claimed launch config under overlapping verifications: a handler reads the config and its instance,
    checks the proof, and commits later (api/instance/router.py). `LaunchDesk` has its branches. */
module Verification {

  datatype Instance = Gone | Held(verified: bool, active: bool)

  // `pending` holds the handlers between their reads and their commit, with whether each found the instance.
  datatype State = State(verified: bool, failed: bool, instance: Instance, pending: map<nat, bool>)

  const CLAIMED := State(false, false, Held(false, false), map[])

  datatype Step =
    | Load(request: nat)
    | Accept(request: nat)
    | Reject(request: nat)
    | Raise(request: nat)
    | Activate
    | DeleteInstance

  // What a commit writes does not look again: a verdict is set, an instance that was found is deleted or marked verified,
  // which does nothing if it has gone since.
  function Apply(s: State, step: Step): State {
    match step
    case Load(r) =>
      if r !in s.pending && !s.verified && !s.failed then s.(pending := s.pending[r := s.instance.Held?]) else s
    case Accept(r) =>
      if r in s.pending && s.pending[r] then
        s.(verified := true, pending := s.pending - {r},
           instance := if s.instance.Held? then s.instance.(verified := true) else Gone)
      else s
    case Reject(r) =>
      if r in s.pending then
        s.(failed := true, pending := s.pending - {r}, instance := if s.pending[r] then Gone else s.instance)
      else s
    case Raise(r) => s.(pending := s.pending - {r})
    case Activate => if s.verified && s.instance.Held? then s.(instance := s.instance.(active := true)) else s
    case DeleteInstance => s.(instance := Gone)
  }

  function Run(steps: seq<Step>): State {
    if steps == [] then CLAIMED else Apply(Run(steps[..|steps| - 1]), steps[|steps| - 1])
  }

  /** The instance disappears exactly if it is deleted or a verification that found it is rejected, and a verification ends
      exactly by being accepted with the instance, rejected or raising. */
  lemma StepEnds(s: State, step: Step, r: nat)
    ensures s.instance.Held? ==>
              (Apply(s, step).instance.Gone? <==>
                 step.DeleteInstance? || (step.Reject? && step.request in s.pending && s.pending[step.request]))
    ensures r in s.pending ==>
              (r !in Apply(s, step).pending <==>
                 (step == Accept(r) && s.pending[r]) || step == Reject(r) || step == Raise(r))
  {
  }

  // At no point of the run are more than k verifications between their reads and their commit.
  predicate Overlap(steps: seq<Step>, k: nat) {
    forall n :: 0 <= n <= |steps| ==> |Run(steps[..n]).pending| <= k
  }

  lemma OverlapPrefix(steps: seq<Step>, k: nat, n: nat)
    requires n <= |steps| && Overlap(steps, k)
    ensures Overlap(steps[..n], k)
  {
    forall j | 0 <= j <= n ensures |Run(steps[..n][..j]).pending| <= k {
      assert steps[..n][..j] == steps[..j];
    }
  }

  lemma Extend(steps: seq<Step>, k: nat, step: Step) returns (more: seq<Step>)
    requires Overlap(steps, k) && |Apply(Run(steps), step).pending| <= k
    ensures more == steps + [step] && Overlap(more, k) && Run(more) == Apply(Run(steps), step)
  {
    more := steps + [step];
    assert more[..|steps|] == steps;
    forall n | 0 <= n <= |more| ensures |Run(more[..n]).pending| <= k {
      if n <= |steps| {
        assert more[..n] == steps[..n];
      } else {
        assert more[..n] == more;
      }
    }
  }

  /** Whatever overlaps, an instance that still exists has a config that did not fail, is verified exactly if its config
      is, and is active only then. */
  lemma {:induction false} InstanceMatchesConfig(steps: seq<Step>)
    ensures var s := Run(steps);
            s.instance.Held? ==>
              && !s.failed
              && (s.instance.verified <==> s.verified)
              && (s.instance.active ==> s.verified)
              && forall r :: r in s.pending ==> s.pending[r]
  {
    if steps != [] {
      InstanceMatchesConfig(steps[..|steps| - 1]);
    }
  }

  lemma {:induction false} OneVerdict(steps: seq<Step>)
    requires Overlap(steps, 1)
    ensures var s := Run(steps);
            !(s.verified && s.failed) && (s.verified || s.failed ==> s.pending == map[])
  {
    if steps != [] {
      var n := |steps| - 1;
      OverlapPrefix(steps, 1, n);
      OneVerdict(steps[..n]);
      var s := Run(steps[..n]);
      assert |s.pending| <= 1 by { assert steps[..n][..n] == steps[..n]; }
      if (steps[n].Accept? || steps[n].Reject?) && steps[n].request in s.pending {
        OnlyOne(s.pending, steps[n].request);
      }
    }
  }

  lemma OnlyOne(pending: map<nat, bool>, r: nat)
    requires |pending| <= 1 && r in pending
    ensures pending - {r} == map[]
  {
    var rest := pending.Keys - {r};
    assert pending.Keys == rest + {r};
    assert |pending.Keys| == |rest| + 1;
    assert (pending - {r}).Keys == rest;
  }

  // Two verifications that both found the instance.
  lemma BothLoaded(k: nat) returns (steps: seq<Step>)
    requires k >= 2
    ensures Overlap(steps, k) && Run(steps) == CLAIMED.(pending := map[0 := true, 1 := true])
  {
    steps := [];
    assert Overlap([], k);
    hide Run, Overlap;
    assert Run([]) == CLAIMED by { NoSteps(); }
    assert (map[])[0 := true] == map[0 := true];
    steps := Extend(steps, k, Load(0));
    assert map[0 := true][1 := true] == map[0 := true, 1 := true];
    assert |map[0 := true, 1 := true]| == 2 by { assert map[0 := true, 1 := true].Keys == {0, 1}; }
    steps := Extend(steps, k, Load(1));
  }

  lemma NoSteps()
    ensures Run([]) == CLAIMED
  {
  }

  // The one that is accepted commits first.
  lemma AcceptedFirst(k: nat) returns (steps: seq<Step>)
    requires k >= 2
    ensures Overlap(steps, k) && Run(steps) == State(true, false, Held(true, false), map[1 := true])
  {
    steps := BothLoaded(k);
    hide Run, Overlap;
    assert map[0 := true, 1 := true] - {0} == map[1 := true];
    steps := Extend(steps, k, Accept(0));
  }

  /** A config that is never both verified and failed, in every run with at most k overlapping verifications: exactly when
      k is at most one. */
  lemma OneVerdictIff(k: nat)
    ensures k <= 1 <==> forall steps :: Overlap(steps, k) ==> !(Run(steps).verified && Run(steps).failed)
  {
    if k <= 1 {
      forall steps | Overlap(steps, k) ensures !(Run(steps).verified && Run(steps).failed) {
        assert Overlap(steps, 1);
        OneVerdict(steps);
      }
    } else {
      var steps := AcceptedFirst(k);
      hide Run, Overlap;
      assert map[1 := true] - {1} == map[];
      steps := Extend(steps, k, Reject(1));
      assert Overlap(steps, k) && Run(steps).verified && Run(steps).failed;
    }
  }

  /** Nor is a verified instance deleted by a verification, in every such run, exactly when k is at most one. */
  lemma VerifiedIsKeptIff(k: nat)
    ensures k <= 1 <==>
            forall steps, r :: Overlap(steps, k) && Run(steps).verified ==>
              Apply(Run(steps), Reject(r)).instance == Run(steps).instance
  {
    if k <= 1 {
      forall steps, r | Overlap(steps, k) && Run(steps).verified
        ensures Apply(Run(steps), Reject(r)).instance == Run(steps).instance
      {
        assert Overlap(steps, 1);
        OneVerdict(steps);
      }
    } else {
      var steps := AcceptedFirst(k);
      hide Run, Overlap;
      assert Run(steps).verified && Apply(Run(steps), Reject(1)).instance == Gone;
    }
  }
}
