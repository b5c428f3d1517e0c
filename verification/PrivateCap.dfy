/** One private chute under its instance cap: activations race with the autoscaler's pass, with
    bounties and with deletions (api/instance/router.py, chute_autoscaler.py, api/bounty/util.py). */
module PrivateCap {
  import opened Base
  import Autoscaler

  // The chute's settings, fixed here.
  datatype Settings = Settings(maxInstances: nat, scalingThreshold: real)

  // `pending` holds the activation handlers between their capacity check and their commit, with the
  // instance each will activate; `counted` is the count of the autoscaler's query until it is used.
  datatype State = State(
    verified: set<nat>, active: set<nat>, scale: Option<nat>, bounty: bool,
    pending: map<nat, nat>, counted: Option<nat>)

  const FRESH := State({}, {}, None, false, map[], None)

  datatype Step =
    | Verify(instance: nat)
    | Delete(instance: nat)
    | CheckActivation(handler: nat, instance: nat)
    | CommitActivation(handler: nat)
    | CreateBounty
    | DropBounty
    | QueryCounts
    | PublishScale(metrics: Autoscaler.Metrics)

  // The capacity test in front of an activation.
  predicate CanScale(s: State) {
    (s.active == {} && s.bounty) || |s.active| < s.scale.GetOr(0)
  }

  // The test in front of issuing and of claiming a launch config (_check_scalable_private).
  predicate MayClaim(s: State) {
    && !(s.active == {} && !s.bounty)
    && !(|s.active| >= s.scale.GetOr(0) && s.scale.GetOr(0) > 0)
  }

  /** Claims and activations are gated differently in exactly two situations: a chute that runs without
      a published scale still admits claims it will not activate, and an empty chute with a scale but
      no bounty would activate what it does not let anyone claim. */
  lemma GatesDiffer(s: State)
    ensures MayClaim(s) && !CanScale(s) <==> s.active != {} && s.scale.GetOr(0) == 0
    ensures CanScale(s) && !MayClaim(s) <==> s.active == {} && !s.bounty && s.scale.GetOr(0) > 0
  {
    assert |s.active| == 0 <==> s.active == {};
  }

  function InfoOf(c: Settings, count: nat): Autoscaler.Info {
    Autoscaler.Info(true, c.maxInstances, c.scalingThreshold, false, count, false, false)
  }

  // A check that fails raises and leaves no trace; a commit for an instance that vanished rolls back, but by then the
  // bounty is already deleted.
  function Apply(c: Settings, s: State, step: Step): State {
    match step
    case Verify(i) => s.(verified := s.verified + {i})
    case Delete(i) => s.(verified := s.verified - {i}, active := s.active - {i})
    case CheckActivation(h, i) =>
      if h !in s.pending && i in s.verified && i !in s.active && CanScale(s) then s.(pending := s.pending[h := i]) else s
    case CommitActivation(h) =>
      if h !in s.pending then s
      else
        var i, rest := s.pending[h], s.pending - {h};
        s.(pending := rest, bounty := false, active := if i in s.verified then s.active + {i} else s.active)
    case CreateBounty => s.(bounty := true)
    case DropBounty => s.(bounty := false)
    case QueryCounts => s.(counted := Some(|s.active|))
    case PublishScale(m) =>
      if s.counted.None? then s
      else s.(counted := None,
              scale := Some(Autoscaler.DecidePrivate(InfoOf(c, s.counted.value), m, s.bounty).target))
  }

  function Run(c: Settings, s: State, steps: seq<Step>): State {
    if steps == [] then s else Apply(c, Run(c, s, steps[..|steps| - 1]), steps[|steps| - 1])
  }

  // At no point of the run are more than k activations between check and commit.
  predicate Overlap(c: Settings, steps: seq<Step>, k: nat) {
    forall n :: 0 <= n <= |steps| ==> |Run(c, FRESH, steps[..n]).pending| <= k
  }

  predicate WithinCap(c: Settings, s: State) {
    && |s.active| + |s.pending| <= c.maxInstances
    && s.scale.GetOr(0) <= c.maxInstances
    && s.counted.GetOr(0) <= c.maxInstances
    && s.active <= s.verified
  }

  /** A bounty is what starts an empty chute: the pass that finds it empty publishes one with a bounty and none without,
      however the bounty came or went since the count. */
  lemma BountyStarts(c: Settings, s: State, m: Autoscaler.Metrics)
    requires s.active == {}
    ensures var counted := Apply(c, s, QueryCounts);
            && Apply(c, Apply(c, counted, CreateBounty), PublishScale(m)).scale == Some(1)
            && Apply(c, Apply(c, counted, DropBounty), PublishScale(m)).scale == Some(0)
            && Apply(c, counted, PublishScale(m)).scale == Some(if s.bounty then 1 else 0)
  {
  }

  lemma CheckKeepsCap(c: Settings, s: State, h: nat, i: nat)
    requires WithinCap(c, s) && 1 <= c.maxInstances && |Apply(c, s, CheckActivation(h, i)).pending| <= 1
    ensures WithinCap(c, Apply(c, s, CheckActivation(h, i)))
  {
    if h !in s.pending {
      assert s.pending[h := i].Keys == s.pending.Keys + {h};
    }
  }

  lemma CommitKeepsCap(c: Settings, s: State, h: nat)
    requires WithinCap(c, s)
    ensures WithinCap(c, Apply(c, s, CommitActivation(h)))
  {
    if h in s.pending {
      assert (s.pending - {h}).Keys == s.pending.Keys - {h};
    }
  }

  lemma PublishKeepsCap(c: Settings, s: State, m: Autoscaler.Metrics)
    requires 1 <= c.maxInstances && WithinCap(c, s)
    ensures WithinCap(c, Apply(c, s, PublishScale(m)))
  {
    if s.counted.Some? {
      Autoscaler.PrivateTargetsRespectCap(InfoOf(c, s.counted.value), m, s.bounty);
    }
  }

  lemma StepKeepsCap(c: Settings, s: State, step: Step)
    requires 1 <= c.maxInstances && WithinCap(c, s)
    requires |Apply(c, s, step).pending| <= 1
    ensures WithinCap(c, Apply(c, s, step))
  {
    match step
    case Delete(i) => SubsetSize(s.active - {i}, s.active);
    case CheckActivation(h, i) => CheckKeepsCap(c, s, h, i);
    case CommitActivation(h) => CommitKeepsCap(c, s, h);
    case PublishScale(m) => PublishKeepsCap(c, s, m);
    case _ =>
  }

  /** With activations serialised, over every run of passes - however stale their counts -, bounties,
      activations and deletions, the published scale and the active count stay within the cap. */
  lemma {:induction false} CapHolds(c: Settings, steps: seq<Step>)
    requires 1 <= c.maxInstances && Overlap(c, steps, 1)
    ensures var s := Run(c, FRESH, steps);
            |s.active| <= c.maxInstances && s.scale.GetOr(0) <= c.maxInstances
    ensures WithinCap(c, Run(c, FRESH, steps))
  {
    if steps != [] {
      var n := |steps| - 1;
      OverlapPrefix(c, steps, 1, n);
      CapHolds(c, steps[..n]);
      assert steps[..|steps|] == steps;
      StepKeepsCap(c, Run(c, FRESH, steps[..n]), steps[n]);
    }
  }

  lemma OverlapPrefix(c: Settings, steps: seq<Step>, k: nat, n: nat)
    requires n <= |steps| && Overlap(c, steps, k)
    ensures Overlap(c, steps[..n], k)
  {
    forall j | 0 <= j <= n ensures |Run(c, FRESH, steps[..n][..j]).pending| <= k {
      assert steps[..n][..j] == steps[..j];
    }
  }

  lemma OverlapOneMore(c: Settings, steps: seq<Step>, k: nat, step: Step)
    requires Overlap(c, steps, k) && |Apply(c, Run(c, FRESH, steps), step).pending| <= k
    ensures Overlap(c, steps + [step], k)
    ensures Run(c, FRESH, steps + [step]) == Apply(c, Run(c, FRESH, steps), step)
  {
    var more := steps + [step];
    assert more[..|steps|] == steps;
    forall n | 0 <= n <= |more| ensures |Run(c, FRESH, more[..n]).pending| <= k {
      if n <= |steps| {
        assert more[..n] == steps[..n];
      } else {
        assert more[..n] == more;
      }
    }
  }

  lemma Append(c: Settings, steps: seq<Step>, step: Step) returns (more: seq<Step>)
    requires Overlap(c, steps, 2) && |Apply(c, Run(c, FRESH, steps), step).pending| <= 2
    ensures Overlap(c, more, 2)
    ensures Run(c, FRESH, more) == Apply(c, Run(c, FRESH, steps), step)
  {
    more := steps + [step];
    OverlapOneMore(c, steps, 2, step);
  }

  // A run that can be extended: nothing pending, and unused instance names from `names` on.
  predicate Quiet(c: Settings, steps: seq<Step>, names: nat) {
    && Overlap(c, steps, 2)
    && var s := Run(c, FRESH, steps);
       && s.pending == map[]
       && s.active <= s.verified
       && forall i :: i in s.verified ==> i < names
  }

  // The checks of two activations before either commits.
  lemma CheckPair(c: Settings, steps: seq<Step>, names: nat) returns (more: seq<Step>)
    requires Quiet(c, steps, names) && |Run(c, FRESH, steps).active| < Run(c, FRESH, steps).scale.GetOr(0)
    ensures Overlap(c, more, 2)
    ensures var s := Run(c, FRESH, steps);
            Run(c, FRESH, more) == s.(verified := s.verified + {names} + {names + 1},
                                      pending := map[0 := names, 1 := names + 1])
  {
    hide Run, Overlap;
    var s := Run(c, FRESH, steps);
    more := Append(c, steps, Verify(names));
    more := Append(c, more, Verify(names + 1));
    assert Run(c, FRESH, more) == s.(verified := s.verified + {names} + {names + 1});
    assert s.pending[0 := names].Keys == {0};
    more := Append(c, more, CheckActivation(0, names));
    assert s.pending[0 := names][1 := names + 1].Keys == {0, 1};
    more := Append(c, more, CheckActivation(1, names + 1));
    assert s.pending[0 := names][1 := names + 1] == map[0 := names, 1 := names + 1];
  }

  lemma CommitPair(c: Settings, steps: seq<Step>, y: nat, z: nat) returns (more: seq<Step>)
    requires Overlap(c, steps, 2)
    requires var s := Run(c, FRESH, steps);
             && s.pending == map[0 := y, 1 := z] && y != z
             && {y, z} <= s.verified && y !in s.active && z !in s.active
    ensures Overlap(c, more, 2)
    ensures var s := Run(c, FRESH, steps);
            Run(c, FRESH, more) == s.(active := s.active + {y} + {z}, bounty := false, pending := map[])
  {
    hide Run, Overlap;
    var s := Run(c, FRESH, steps);
    assert (s.pending - {0}).Keys == {1};
    more := Append(c, steps, CommitActivation(0));
    assert s.pending - {0} - {1} == map[];
    more := Append(c, more, CommitActivation(1));
  }

  // Two activations that passed the check together.
  lemma ActivatePair(c: Settings, steps: seq<Step>, names: nat) returns (more: seq<Step>)
    requires Quiet(c, steps, names) && |Run(c, FRESH, steps).active| < Run(c, FRESH, steps).scale.GetOr(0)
    ensures Quiet(c, more, names + 2)
    ensures |Run(c, FRESH, more).active| == |Run(c, FRESH, steps).active| + 2
  {
    hide Run, Overlap, Apply;
    more := CheckPair(c, steps, names);
    more := CommitPair(c, more, names, names + 1);
  }

  // A busy pass publishes at least the present count.
  lemma PublishPresent(c: Settings, steps: seq<Step>, names: nat) returns (more: seq<Step>)
    requires Quiet(c, steps, names) && Run(c, FRESH, steps).active != {}
    ensures Quiet(c, more, names)
    ensures Run(c, FRESH, more).active == Run(c, FRESH, steps).active
    ensures Run(c, FRESH, more).scale.GetOr(0) >= |Run(c, FRESH, steps).active|
  {
    hide Run, Overlap;
    var u := c.scalingThreshold;
    more := Append(c, steps, QueryCounts);
    more := Append(c, more, PublishScale(Autoscaler.Metrics(u, u, u, 0.0, 0.0, 0.0)));
  }

  /** With two activations open at a time the count passes every number: each busy pass publishes the
      present count, and after one deletion two activations fit under it. */
  lemma {:induction false} OverlapDrifts(c: Settings, n: nat) returns (steps: seq<Step>, names: nat)
    requires n >= 1
    ensures Quiet(c, steps, names) && |Run(c, FRESH, steps).active| == n
  {
    if n == 1 {
      names := 1;
      steps := FirstActivation(c);
    } else {
      hide Run, Overlap;
      steps, names := OverlapDrifts(c, n - 1);
      steps := PublishPresent(c, steps, names);
      var victim :| victim in Run(c, FRESH, steps).active;
      steps := Append(c, steps, Delete(victim));
      steps := ActivatePair(c, steps, names);
      names := names + 2;
    }
  }

  lemma FirstActivation(c: Settings) returns (steps: seq<Step>)
    ensures Quiet(c, steps, 1) && Run(c, FRESH, steps).active == {0}
  {
    steps := [];
    assert Overlap(c, steps, 2) && Run(c, FRESH, steps) == FRESH;
    hide Run, Overlap;
    steps := Append(c, steps, CreateBounty);
    steps := Append(c, steps, Verify(0));
    assert FRESH.pending[0 := 0].Keys == {0};
    steps := Append(c, steps, CheckActivation(0, 0));
    assert FRESH.pending[0 := 0] - {0} == map[];
    steps := Append(c, steps, CommitActivation(0));
  }

  /** The cap holds in every run with at most k overlapping activations exactly when k is at most one. */
  lemma CapHoldsIffSerialised(c: Settings, k: nat)
    requires 1 <= c.maxInstances
    ensures k <= 1 <==> forall steps :: Overlap(c, steps, k) ==> |Run(c, FRESH, steps).active| <= c.maxInstances
  {
    if k <= 1 {
      forall steps | Overlap(c, steps, k) ensures |Run(c, FRESH, steps).active| <= c.maxInstances {
        CapHolds(c, steps);
      }
    } else {
      var steps, names := OverlapDrifts(c, c.maxInstances + 1);
      assert Overlap(c, steps, k);
    }
  }

  /** An activation is let through exactly when the chute is empty with a bounty, or below its
      published scale; when it commits alone it takes the bounty with it. */
  lemma ActivationAlone(c: Settings, s: State, handler: nat, instance: nat)
    requires s.pending == map[] && instance in s.verified && instance !in s.active
    ensures var t := Apply(c, Apply(c, s, CheckActivation(handler, instance)), CommitActivation(handler));
            if (s.active == {} && s.bounty) || |s.active| < s.scale.GetOr(0) then
              t == s.(active := s.active + {instance}, bounty := false)
            else t == s
  {
    assert (s.pending[handler := instance] - {handler}) == map[];
  }

  /** The stored state of the chute and the handlers that write it. */
  class PrivateChute {
    const c: Settings
    var verified: set<nat>
    var active: set<nat>
    var scaleValue: Option<nat>
    var bounty: bool
    var pending: map<nat, nat>
    var counted: Option<nat>

    function Now(): State
      reads this
    {
      State(verified, active, scaleValue, bounty, pending, counted)
    }

    constructor (c: Settings)
      ensures this.c == c && Now() == FRESH
    {
      this.c := c;
      verified, active, scaleValue, bounty, pending, counted := {}, {}, None, false, map[], None;
    }

    // activate_launch_config_instance up to its commit; `false` is the 423 response.
    method BeginActivation(handler: nat, instance: nat) returns (canScale: bool)
      requires handler !in pending && instance in verified
      modifies this
      ensures Now() == Apply(c, old(Now()), CheckActivation(handler, instance))
      ensures canScale == old(CanScale(Now()))
    {
      var activeCount := |active|;
      var targetCount := if scaleValue.Some? then scaleValue.value else 0;
      canScale := false;
      if activeCount == 0 && bounty {
        canScale := true;
      } else if activeCount < targetCount {
        canScale := true;
      }
      if canScale && instance !in active {
        pending := pending[handler := instance];
      }
    }

    // The bounty goes first, in Redis; the commit may then find its row gone.
    method FinishActivation(handler: nat)
      requires handler in pending
      modifies this
      ensures Now() == Apply(c, old(Now()), CommitActivation(handler))
    {
      var instance := pending[handler];
      pending := pending - {handler};
      bounty := false;
      if instance in verified {
        active := active + {instance};
      }
    }

    method DeleteInstance(instance: nat)
      modifies this
      ensures Now() == Apply(c, old(Now()), Delete(instance))
    {
      verified, active := verified - {instance}, active - {instance};
    }

    // The autoscaler reads the count in one transaction and publishes later.
    method QueryActive()
      modifies this
      ensures Now() == Apply(c, old(Now()), QueryCounts)
    {
      counted := Some(|active|);
    }

    method Publish(m: Autoscaler.Metrics)
      requires counted.Some?
      modifies this
      ensures Now() == Apply(c, old(Now()), PublishScale(m))
    {
      var pass := new Autoscaler.Pass(map[]);
      pass.AnalyzePrivate("", InfoOf(c, counted.value), m, bounty);
      scaleValue := Some(pass.scaleKeys[""]);
      counted := None;
    }
  }
}
