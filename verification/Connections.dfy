/** Connection tracking of the least-connection manager: time-scored sets in Redis, and requests that
    read counts, choose an instance and register with it in separate steps (api/instance/util.py). */
module Connections {
  import opened Base
  import Routing

  type Id = string

  // A tracked set with the time at which Redis drops the whole key.
  datatype Tracked = Tracked(scores: map<Id, real>, dropAt: real)

  // A request between choosing its instance and registering there, and one that was handed out.
  datatype Context = Chosen(instance: Id) | Open(instance: Id)

  // `leaked`: connections whose removal script failed.
  datatype State = State(now: real, sets: map<Id, Tracked>, contexts: map<Id, Context>, leaked: set<Id>)

  // Limits of the manager; `slack` is 0 for plain routing and 2 for prefix routing.
  datatype Limits = Limits(concurrency: nat, slack: nat, expiry: real)

  datatype Step =
    | Choose(conn: Id, instance: Id, least: Id)
    | Register(conn: Id)
    | RegisterLost(conn: Id)
    | Close(conn: Id, expired: set<Id>)
    | CloseLost(conn: Id)
    | Cleanup(keys: set<Id>)
    | DropKey(instance: Id)
    | Wait(until: real)

  const START := State(0.0, map[], map[], {})

  // ZCOUNT key now-expiry now
  function Live(tracked: Tracked, expiry: real, now: real): set<Id> {
    set c | c in tracked.scores && now - expiry <= tracked.scores[c] <= now
  }

  function Count(sets: map<Id, Tracked>, instance: Id, expiry: real, now: real): nat {
    if instance in sets then |Live(sets[instance], expiry, now)| else 0
  }

  // int(time.time())
  function Whole(t: real): real {
    t.Floor as real
  }

  function Add(sets: map<Id, Tracked>, instance: Id, conn: Id, expiry: real, now: real): map<Id, Tracked> {
    var scores := if instance in sets then sets[instance].scores else map[];
    sets[instance := Tracked(scores[conn := Whole(now)], now + expiry)]
  }

  function Discard(sets: map<Id, Tracked>, instance: Id, gone: set<Id>): map<Id, Tracked> {
    if instance in sets then sets[instance := sets[instance].(scores := sets[instance].scores - gone)] else sets
  }

  // ZREMRANGEBYSCORE 0 cutoff on every listed key.
  function Expired(tracked: Tracked, cutoff: real): set<Id> {
    set c | c in tracked.scores && 0.0 <= tracked.scores[c] <= cutoff
  }

  function CleanedUp(sets: map<Id, Tracked>, keys: set<Id>, cutoff: real): map<Id, Tracked> {
    map i | i in sets ::
      if i in keys then sets[i].(scores := sets[i].scores - Expired(sets[i], cutoff)) else sets[i]
  }

  // At most ten expired members leave with a removal.
  predicate Piggyback(sets: map<Id, Tracked>, instance: Id, expired: set<Id>, cutoff: real) {
    |expired| <= 10 && (expired == {} || (instance in sets && expired <= Expired(sets[instance], cutoff)))
  }

  // The choice get_targets allows on the counts it reads now: some instance is under concurrency, and the
  // chosen one is at most `slack` busier than the least busy one.
  predicate MayChoose(l: Limits, s: State, instance: Id, least: Id) {
    && Count(s.sets, least, l.expiry, s.now) < l.concurrency
    && Count(s.sets, instance, l.expiry, s.now) <= Count(s.sets, least, l.expiry, s.now) + l.slack
  }

  predicate Unused(s: State, conn: Id) {
    conn !in s.contexts && conn !in s.leaked
  }

  function Apply(l: Limits, s: State, step: Step): State {
    match step
    case Choose(c, i, least) =>
      if Unused(s, c) && MayChoose(l, s, i, least) then s.(contexts := s.contexts[c := Chosen(i)]) else s
    case Register(c) =>
      if c in s.contexts && s.contexts[c].Chosen? then
        var i := s.contexts[c].instance;
        s.(sets := Add(s.sets, i, c, l.expiry, s.now), contexts := s.contexts[c := Open(i)])
      else s
    case RegisterLost(c) =>
      if c in s.contexts && s.contexts[c].Chosen? then
        s.(contexts := s.contexts[c := Open(s.contexts[c].instance)])
      else s
    case Close(c, expired) =>
      if c in s.contexts && Piggyback(s.sets, s.contexts[c].instance, expired, Whole(s.now) - l.expiry) then
        s.(sets := Discard(s.sets, s.contexts[c].instance, {c} + expired), contexts := s.contexts - {c})
      else s
    case CloseLost(c) =>
      if c in s.contexts then s.(contexts := s.contexts - {c}, leaked := s.leaked + {c}) else s
    case Cleanup(keys) => s.(sets := CleanedUp(s.sets, keys, s.now - l.expiry))
    case DropKey(i) => if i in s.sets && s.sets[i].dropAt <= s.now then s.(sets := s.sets - {i}) else s
    case Wait(until) => if s.now <= until then s.(now := until) else s
  }

  function Run(l: Limits, steps: seq<Step>): State {
    if steps == [] then START else Apply(l, Run(l, steps[..|steps| - 1]), steps[|steps| - 1])
  }

  function Choosing(s: State): set<Id> {
    set c | c in s.contexts && s.contexts[c].Chosen?
  }

  function ChoosingFor(s: State, instance: Id): set<Id> {
    set c | c in s.contexts && s.contexts[c] == Chosen(instance)
  }

  // At no point are more than k requests between reading counts and registering.
  ghost predicate Overlap(l: Limits, steps: seq<Step>, k: nat) {
    forall n :: 0 <= n <= |steps| ==> |Choosing(Run(l, steps[..n]))| <= k
  }

  // Every tracked connection is accounted for, and no score lies in the future or outlives its key.
  ghost predicate Sane(l: Limits, s: State) {
    && 0.0 <= s.now
    && forall i, c :: i in s.sets && c in s.sets[i].scores ==> SaneEntry(l, s, i, c)
  }

  predicate SaneEntry(l: Limits, s: State, i: Id, c: Id)
    requires i in s.sets && c in s.sets[i].scores
  {
    && ((c in s.contexts && s.contexts[c] == Open(i)) || c in s.leaked)
    && 0.0 <= s.sets[i].scores[c] <= s.now
    && s.sets[i].scores[c] + l.expiry <= s.sets[i].dropAt
  }

  function Bound(l: Limits, k: nat): int {
    l.concurrency - 1 + l.slack + k
  }

  // Tracked plus pending on one instance.
  function Load(l: Limits, s: State, i: Id): nat {
    Count(s.sets, i, l.expiry, s.now) + |ChoosingFor(s, i)|
  }

  lemma StepKeepsSane(l: Limits, s: State, step: Step)
    requires l.expiry > 0.0 && Sane(l, s)
    ensures Sane(l, Apply(l, s, step))
  {
  }

  lemma FewerLive(l: Limits, s: State, u: State, i: Id)
    requires i in u.sets ==> i in s.sets && Live(u.sets[i], l.expiry, u.now) <= Live(s.sets[i], l.expiry, s.now)
    requires ChoosingFor(u, i) <= ChoosingFor(s, i)
    ensures Load(l, u, i) <= Load(l, s, i)
  {
    SubsetSize(ChoosingFor(u, i), ChoosingFor(s, i));
    if i in u.sets {
      SubsetSize(Live(u.sets[i], l.expiry, u.now), Live(s.sets[i], l.expiry, s.now));
    }
  }

  lemma ChooseKeepsBound(l: Limits, s: State, c: Id, chosen: Id, least: Id, i: Id, k: nat)
    requires Load(l, s, i) <= Bound(l, k)
    requires |Choosing(Apply(l, s, Choose(c, chosen, least)))| <= k
    ensures Load(l, Apply(l, s, Choose(c, chosen, least)), i) <= Bound(l, k)
  {
    var u := Apply(l, s, Choose(c, chosen, least));
    if i == chosen && u != s {
      SubsetSize(ChoosingFor(u, i), Choosing(u));
    } else {
      assert ChoosingFor(u, i) == ChoosingFor(s, i);
    }
  }

  lemma RegisterMovesLoad(l: Limits, s: State, c: Id, i: Id)
    requires l.expiry > 0.0 && 0.0 <= s.now
    ensures Load(l, Apply(l, s, Register(c)), i) <= Load(l, s, i)
  {
    var u := Apply(l, s, Register(c));
    if u != s {
      var chosen := s.contexts[c].instance;
      if i == chosen {
        assert ChoosingFor(s, i) == ChoosingFor(u, i) + {c};
        var before := if i in s.sets then Live(s.sets[i], l.expiry, s.now) else {};
        SubsetSize(Live(u.sets[i], l.expiry, u.now), before + {c});
      } else {
        FewerLive(l, s, u, i);
      }
    }
  }

  lemma RemovalKeepsLoad(l: Limits, s: State, step: Step, i: Id)
    requires Sane(l, s)
    requires step.RegisterLost? || step.Close? || step.CloseLost? || step.Cleanup? || step.DropKey? || step.Wait?
    ensures Load(l, Apply(l, s, step), i) <= Load(l, s, i)
  {
    var u := Apply(l, s, step);
    if i in u.sets {
      assert i in s.sets;
      forall c | c in Live(u.sets[i], l.expiry, u.now) ensures c in Live(s.sets[i], l.expiry, s.now) {
        assert SaneEntry(l, s, i, c);
      }
    }
    FewerLive(l, s, u, i);
  }

  lemma StepKeepsBound(l: Limits, s: State, step: Step, i: Id, k: nat)
    requires l.expiry > 0.0 && Sane(l, s) && Load(l, s, i) <= Bound(l, k)
    requires |Choosing(Apply(l, s, step))| <= k
    ensures Load(l, Apply(l, s, step), i) <= Bound(l, k)
  {
    match step
    case Choose(c, chosen, least) => ChooseKeepsBound(l, s, c, chosen, least, i, k);
    case Register(c) => RegisterMovesLoad(l, s, c, i);
    case _ => RemovalKeepsLoad(l, s, step, i);
  }

  lemma OverlapPrefix(l: Limits, steps: seq<Step>, k: nat, n: nat)
    requires n <= |steps| && Overlap(l, steps, k)
    ensures Overlap(l, steps[..n], k)
  {
    forall j | 0 <= j <= n ensures |Choosing(Run(l, steps[..n][..j]))| <= k {
      assert steps[..n][..j] == steps[..j];
    }
  }

  lemma {:induction false} RunIsSane(l: Limits, steps: seq<Step>)
    requires l.expiry > 0.0
    ensures Sane(l, Run(l, steps))
  {
    if steps != [] {
      RunIsSane(l, steps[..|steps| - 1]);
      StepKeepsSane(l, Run(l, steps[..|steps| - 1]), steps[|steps| - 1]);
    }
  }

  /** If at most k requests are ever between reading counts and registering, what any count read sees
      on an instance never exceeds concurrency - 1 + k with plain routing and concurrency + 1 + k with
      prefix routing, whatever expires, leaks or is cleaned up meanwhile. */
  lemma {:induction false} CapacityBound(l: Limits, steps: seq<Step>, i: Id, k: nat)
    requires l.expiry > 0.0 && l.concurrency >= 1 && Overlap(l, steps, k)
    ensures Count(Run(l, steps).sets, i, l.expiry, Run(l, steps).now) <= Bound(l, k)
    ensures Load(l, Run(l, steps), i) <= Bound(l, k)
  {
    if steps == [] {
      assert ChoosingFor(START, i) == {};
    } else {
      var n := |steps| - 1;
      OverlapPrefix(l, steps, k, n);
      CapacityBound(l, steps[..n], i, k);
      RunIsSane(l, steps[..n]);
      assert steps[..|steps|] == steps;
      StepKeepsBound(l, Run(l, steps[..n]), steps[n], i, k);
    }
  }

  /** Every tracked connection belongs to a request still open on that instance, or its removal failed;
      so when no removal fails, the tracked ids are among the open contexts. */
  lemma {:induction false} TrackedAreOpen(l: Limits, steps: seq<Step>, i: Id, c: Id)
    requires l.expiry > 0.0
    ensures var s := Run(l, steps);
            i in s.sets && c in s.sets[i].scores ==>
              (c in s.contexts && s.contexts[c] == Open(i)) || c in s.leaked
    ensures (forall n :: 0 <= n < |steps| ==> !steps[n].CloseLost?) ==> Run(l, steps).leaked == {}
  {
    RunIsSane(l, steps);
    if steps != [] {
      TrackedAreOpen(l, steps[..|steps| - 1], i, c);
    }
  }

  // A step that only forgets expired members, at the present time.
  predicate Forgets(step: Step) {
    step.Cleanup? || step.DropKey?
  }

  // What a count at time `later` sees on an instance.
  function Seen(l: Limits, s: State, i: Id, later: real): set<Id> {
    if i in s.sets then Live(s.sets[i], l.expiry, later) else {}
  }

  /** Cleanup and the expiry of a key are invisible to every later count. */
  lemma ForgettingIsInvisible(l: Limits, s: State, step: Step, i: Id, later: real)
    requires Sane(l, s) && later > s.now && Forgets(step)
    ensures Seen(l, Apply(l, s, step), i, later) == Seen(l, s, i, later)
  {
    var u := Apply(l, s, step);
    forall c | c in Seen(l, s, i, later) ensures c in Seen(l, u, i, later) {
      assert SaneEntry(l, s, i, c);
    }
  }

  /** A context ends when it is closed, whether the removal of its connection succeeds or not, and only then; a removal sweeps
      out at most ten others. One that has chosen becomes open when it registers, whether that succeeds or not. */
  lemma ContextEndsIff(l: Limits, s: State, step: Step, c: Id)
    requires c in s.contexts
    ensures c !in Apply(l, s, step).contexts <==>
            || step == CloseLost(c)
            || (step.Close? && step.conn == c
                && Piggyback(s.sets, s.contexts[c].instance, step.expired, Whole(s.now) - l.expiry) && |step.expired| <= 10)
    ensures c in Apply(l, s, step).contexts ==>
              var i := s.contexts[c].instance;
              Apply(l, s, step).contexts[c] == if step == Register(c) || step == RegisterLost(c) then Open(i) else s.contexts[c]
    ensures Apply(l, s, step).now == if step.Wait? && step.until > s.now then step.until else s.now
  {
  }

  /** A removal takes its own connection out of every later count and no other, whatever expired members
      it sweeps out with it. */
  lemma RemovalIsExact(l: Limits, s: State, c: Id, expired: set<Id>, i: Id, later: real)
    requires Sane(l, s) && later > s.now
    requires c in s.contexts && Piggyback(s.sets, s.contexts[c].instance, expired, Whole(s.now) - l.expiry)
    ensures Seen(l, Apply(l, s, Close(c, expired)), i, later)
            == Seen(l, s, i, later) - (if s.contexts[c].instance == i then {c} else {})
  {
    var u := Apply(l, s, Close(c, expired));
    forall d | d in Seen(l, s, i, later) && (s.contexts[c].instance == i ==> d != c) ensures d in Seen(l, u, i, later) {
      assert SaneEntry(l, s, i, d);
    }
  }

  // ---- What the counts see of the open requests ----

  // Step n registered the request c with the instance, and c has not been closed since.
  ghost predicate RegisteredAt(l: Limits, steps: seq<Step>, n: nat, c: Id, i: Id) {
    && n < |steps| && steps[n] == Register(c)
    && c in Run(l, steps[..n]).contexts && Run(l, steps[..n]).contexts[c] == Chosen(i)
    && forall m :: n < m < |steps| ==> !Ends(steps[m], c)
  }

  predicate Ends(step: Step, c: Id) {
    (step.Close? || step.CloseLost?) && step.conn == c
  }

  // The request is open with the given score, if it is still tracked, as it is until its score has expired.
  ghost predicate Tracks(l: Limits, s: State, c: Id, i: Id, score: real) {
    && c in s.contexts && s.contexts[c] == Open(i) && score <= s.now
    && (s.now - score < l.expiry ==> i in s.sets && c in s.sets[i].scores)
    && (i in s.sets && c in s.sets[i].scores ==> s.sets[i].scores[c] == score)
  }

  lemma StepTracks(l: Limits, s: State, step: Step, c: Id, i: Id, score: real)
    requires l.expiry > 0.0 && Sane(l, s) && Tracks(l, s, c, i, score) && !Ends(step, c)
    ensures Tracks(l, Apply(l, s, step), c, i, score)
  {
    if i in s.sets && c in s.sets[i].scores {
      assert SaneEntry(l, s, i, c);
    }
  }

  lemma RegisterTracks(l: Limits, s: State, c: Id, i: Id)
    requires l.expiry > 0.0 && c in s.contexts && s.contexts[c] == Chosen(i)
    ensures Tracks(l, Apply(l, s, Register(c)), c, i, Whole(s.now))
  {
  }

  lemma {:induction false} StaysTracked(l: Limits, steps: seq<Step>, n: nat, c: Id, i: Id)
    requires l.expiry > 0.0 && RegisteredAt(l, steps, n, c, i)
    ensures Tracks(l, Run(l, steps), c, i, Whole(Run(l, steps[..n]).now))
    decreases |steps|
  {
    hide Apply, Tracks, Sane, Ends;
    var m := |steps| - 1;
    if n == m {
      RegisterTracks(l, Run(l, steps[..n]), c, i);
    } else {
      assert steps[..m][..n] == steps[..n];
      assert forall j :: n < j < m ==> steps[..m][j] == steps[j];
      StaysTracked(l, steps[..m], n, c, i);
      RunIsSane(l, steps[..m]);
      StepTracks(l, Run(l, steps[..m]), steps[m], c, i, Whole(Run(l, steps[..n]).now));
    }
  }

  /** A count sees every request that was registered less than an expiry ago, in whole seconds, and has not been closed,
      and none that was registered longer ago: over every run, whatever else is added, removed, swept out or dropped. */
  lemma OpenIsSeen(l: Limits, steps: seq<Step>, n: nat, c: Id, i: Id)
    requires l.expiry > 0.0 && RegisteredAt(l, steps, n, c, i)
    ensures var s, since := Run(l, steps), Whole(Run(l, steps[..n]).now);
            && c in s.contexts && s.contexts[c] == Open(i)
            && (s.now - since < l.expiry ==> c in Seen(l, s, i, s.now))
            && (s.now - since > l.expiry ==> c !in Seen(l, s, i, s.now))
  {
    StaysTracked(l, steps, n, c, i);
    hide Run, RegisteredAt;
  }

  // The requests that are open on an instance and were registered less than an expiry ago.
  ghost function OpenOn(l: Limits, steps: seq<Step>, i: Id): set<Id> {
    set c | c in Run(l, steps).contexts
            && exists n: nat :: RegisteredAt(l, steps, n, c, i)
                 && Run(l, steps).now - Whole(Run(l, steps[..n]).now) < l.expiry
  }

  /** The bound holds for the requests themselves: with at most k overlaps, those open on an instance, registered less than
      an expiry ago, and those about to register there are together within it. */
  lemma OpenIsBounded(l: Limits, steps: seq<Step>, i: Id, k: nat)
    requires l.expiry > 0.0 && l.concurrency >= 1 && Overlap(l, steps, k)
    ensures |OpenOn(l, steps, i)| + |ChoosingFor(Run(l, steps), i)| <= Bound(l, k)
  {
    CapacityBound(l, steps, i, k);
    var s := Run(l, steps);
    hide Run, Overlap;
    forall c | c in OpenOn(l, steps, i) ensures c in Seen(l, s, i, s.now) {
      var n: nat :| RegisteredAt(l, steps, n, c, i) && s.now - Whole(Run(l, steps[..n]).now) < l.expiry;
      OpenIsSeen(l, steps, n, c, i);
    }
    SubsetSize(OpenOn(l, steps, i), Seen(l, s, i, s.now));
  }

  // ---- The bound is reached ----

  lemma Extend(l: Limits, steps: seq<Step>, k: nat, step: Step) returns (more: seq<Step>)
    requires Overlap(l, steps, k) && |Choosing(Apply(l, Run(l, steps), step))| <= k
    ensures Overlap(l, more, k) && Run(l, more) == Apply(l, Run(l, steps), step)
  {
    more := steps + [step];
    assert more[..|steps|] == steps;
    forall n | 0 <= n <= |more| ensures |Choosing(Run(l, more[..n]))| <= k {
      if n <= |steps| {
        assert more[..n] == steps[..n];
      } else {
        assert more[..n] == more;
      }
    }
  }

  // A run at time zero whose connection ids are all shorter than `names`, with the counts of two instances.
  ghost predicate At(l: Limits, steps: seq<Step>, k: nat, names: nat, i: Id, ni: nat, j: Id, nj: nat) {
    && Overlap(l, steps, k)
    && var s := Run(l, steps);
       && s.now == 0.0 && s.leaked == {}
       && (forall c :: c in s.contexts ==> |c| < names)
       && Count(s.sets, i, l.expiry, 0.0) == ni && Count(s.sets, j, l.expiry, 0.0) == nj
  }

  function Name(n: nat): Id {
    seq(n, _ => 'c')
  }

  lemma CountAfterAdd(l: Limits, s: State, x: Id, conn: Id, y: Id)
    requires l.expiry > 0.0 && s.now == 0.0 && s.leaked == {} && Sane(l, s)
    requires conn in s.contexts && s.contexts[conn].Chosen?
    ensures Count(Add(s.sets, x, conn, l.expiry, 0.0), y, l.expiry, 0.0)
            == Count(s.sets, y, l.expiry, 0.0) + if x == y then 1 else 0
  {
    if x == y {
      var before := if x in s.sets then Live(s.sets[x], l.expiry, 0.0) else {};
      assert x in s.sets && conn in s.sets[x].scores ==> SaneEntry(l, s, x, conn);
      assert conn !in before;
      assert Whole(0.0) == 0.0;
      assert Live(Add(s.sets, x, conn, l.expiry, 0.0)[x], l.expiry, 0.0) == before + {conn};
    }
  }

  // One more request chooses instance x.
  lemma ChooseOne(l: Limits, steps: seq<Step>, k: nat, names: nat, i: Id, ni: nat, j: Id, nj: nat, x: Id)
    returns (more: seq<Step>)
    requires At(l, steps, k, names, i, ni, j, nj) && |Choosing(Run(l, steps))| < k
    requires MayChoose(l, Run(l, steps), x, j)
    ensures At(l, more, k, names + 1, i, ni, j, nj)
    ensures Choosing(Run(l, more)) == Choosing(Run(l, steps)) + {Name(names)}
    ensures Run(l, more).contexts == Run(l, steps).contexts[Name(names) := Chosen(x)]
    ensures Run(l, more).sets == Run(l, steps).sets && Name(names) !in Choosing(Run(l, steps))
  {
    hide Run, Overlap;
    var s := Run(l, steps);
    var step := Choose(Name(names), x, j);
    assert Choosing(Apply(l, s, step)) == Choosing(s) + {Name(names)};
    more := Extend(l, steps, k, step);
  }

  // A request that has chosen registers.
  lemma RegisterOne(l: Limits, steps: seq<Step>, k: nat, names: nat, i: Id, ni: nat, j: Id, nj: nat, c: Id)
    returns (more: seq<Step>)
    requires l.expiry > 0.0 && At(l, steps, k, names, i, ni, j, nj) && c in Choosing(Run(l, steps))
    ensures var x := Run(l, steps).contexts[c].instance;
            At(l, more, k, names, i, ni + (if x == i then 1 else 0), j, nj + (if x == j then 1 else 0))
    ensures Choosing(Run(l, more)) == Choosing(Run(l, steps)) - {c}
    ensures forall d :: d in Choosing(Run(l, more)) ==> Run(l, more).contexts[d] == Run(l, steps).contexts[d]
  {
    RunIsSane(l, steps);
    assert steps[..|steps|] == steps;
    assert |Choosing(Run(l, steps))| <= k;
    hide Run, Overlap, Sane;
    var s := Run(l, steps);
    var x := s.contexts[c].instance;
    assert Choosing(Apply(l, s, Register(c))) == Choosing(s) - {c};
    more := Extend(l, steps, k, Register(c));
    CountAfterAdd(l, s, x, c, i);
    CountAfterAdd(l, s, x, c, j);
  }

  // n requests go to x one after the other.
  lemma {:induction false} Fill(
    l: Limits, steps: seq<Step>, k: nat, names: nat, i: Id, ni: nat, j: Id, nj: nat, x: Id, n: nat)
    returns (more: seq<Step>)
    requires l.expiry > 0.0 && k >= 1 && i != j && x in {i, j}
    requires At(l, steps, k, names, i, ni, j, nj) && Choosing(Run(l, steps)) == {}
    requires if x == j then nj + n < l.concurrency else nj < l.concurrency && ni + n <= nj + l.slack + 1
    ensures At(l, more, k, names + n, i, ni + (if x == i then n else 0), j, nj + (if x == j then n else 0))
    ensures Choosing(Run(l, more)) == {}
    decreases n
  {
    hide Run, Overlap;
    if n == 0 {
      more := steps;
    } else {
      more := ChooseOne(l, steps, k, names, i, ni, j, nj, x);
      more := RegisterOne(l, more, k, names + 1, i, ni, j, nj, Name(names));
      more := Fill(l, more, k, names + 1, i, ni + (if x == i then 1 else 0), j, nj + (if x == j then 1 else 0), x, n - 1);
    }
  }

  // n requests choose i before any of them registers.
  lemma {:induction false} Crowd(
    l: Limits, steps: seq<Step>, k: nat, names: nat, i: Id, ni: nat, j: Id, nj: nat, n: nat)
    returns (more: seq<Step>)
    requires i != j && At(l, steps, k, names, i, ni, j, nj) && |Choosing(Run(l, steps))| + n <= k
    requires nj < l.concurrency && ni <= nj + l.slack
    requires forall c :: c in Choosing(Run(l, steps)) ==> Run(l, steps).contexts[c] == Chosen(i)
    ensures At(l, more, k, names + n, i, ni, j, nj)
    ensures |Choosing(Run(l, more))| == |Choosing(Run(l, steps))| + n
    ensures forall c :: c in Choosing(Run(l, more)) ==> Run(l, more).contexts[c] == Chosen(i)
    decreases n
  {
    hide Run, Overlap;
    if n == 0 {
      more := steps;
    } else {
      more := ChooseOne(l, steps, k, names, i, ni, j, nj, i);
      more := Crowd(l, more, k, names + 1, i, ni, j, nj, n - 1);
    }
  }

  // Then all of them register.
  lemma {:induction false} Land(
    l: Limits, steps: seq<Step>, k: nat, names: nat, i: Id, ni: nat, j: Id, nj: nat, n: nat)
    returns (more: seq<Step>)
    requires l.expiry > 0.0 && i != j && At(l, steps, k, names, i, ni, j, nj) && |Choosing(Run(l, steps))| == n
    requires forall c :: c in Choosing(Run(l, steps)) ==> Run(l, steps).contexts[c] == Chosen(i)
    ensures At(l, more, k, names, i, ni + n, j, nj)
    decreases n
  {
    hide Run, Overlap;
    if n == 0 {
      more := steps;
    } else {
      var c :| c in Choosing(Run(l, steps));
      more := RegisterOne(l, steps, k, names, i, ni, j, nj, c);
      more := Land(l, more, k, names, i, ni + 1, j, nj, n - 1);
    }
  }

  /** No smaller bound holds: for every k, k overlapping requests can bring an instance to it. */
  lemma BoundIsReached(l: Limits, i: Id, j: Id, k: nat) returns (steps: seq<Step>)
    requires l.expiry > 0.0 && l.concurrency >= 1 && k >= 1 && i != j
    ensures Overlap(l, steps, k)
    ensures Count(Run(l, steps).sets, i, l.expiry, Run(l, steps).now) == Bound(l, k)
  {
    steps := [];
    assert Choosing(START) == {};
    assert At(l, steps, k, 0, i, 0, j, 0) && Choosing(Run(l, steps)) == {};
    hide Run, Overlap;
    var full := l.concurrency - 1;
    steps := Fill(l, steps, k, 0, i, 0, j, 0, j, full);
    steps := Fill(l, steps, k, full, i, 0, j, full, i, full + l.slack);
    var names := full + full + l.slack;
    steps := Crowd(l, steps, k, names, i, full + l.slack, j, full, k);
    steps := Land(l, steps, k, names + k, i, full + l.slack, j, full, k);
  }

  // Number of tracked connections over all instances.
  ghost function TrackedIn(sets: map<Id, Tracked>): nat
    decreases |sets|
  {
    if sets == map[] then 0
    else
      var i :| i in sets;
      TrackedIn(sets - {i}) + |sets[i].scores|
  }

  lemma {:induction false} TrackedWithout(sets: map<Id, Tracked>, i: Id)
    requires i in sets
    ensures TrackedIn(sets) == TrackedIn(sets - {i}) + |sets[i].scores|
    decreases |sets|
  {
    var j: Id :| j in sets && TrackedIn(sets) == TrackedIn(sets - {j}) + |sets[j].scores|;
    if j != i {
      TrackedWithout(sets - {j}, i);
      TrackedWithout(sets - {i}, j);
      assert sets - {j} - {i} == sets - {i} - {j};
    }
  }

  lemma TrackedDrops(sets: map<Id, Tracked>, i: Id, gone: set<Id>)
    requires i in sets && gone <= sets[i].scores.Keys
    ensures TrackedIn(sets[i := sets[i].(scores := sets[i].scores - gone)]) + |gone| == TrackedIn(sets)
  {
    hide TrackedIn;
    var after := sets[i := sets[i].(scores := sets[i].scores - gone)];
    TrackedWithout(sets, i);
    TrackedWithout(after, i);
    assert after - {i} == sets - {i};
    assert (sets[i].scores - gone).Keys == sets[i].scores.Keys - gone;
    assert |sets[i].scores| == |sets[i].scores.Keys|;
    assert |after[i].scores| == |after[i].scores.Keys|;
  }

  lemma NoneCleaned(sets: map<Id, Tracked>, cutoff: real)
    ensures CleanedUp(sets, {}, cutoff) == sets
  {
  }

  lemma CleanOneMore(sets: map<Id, Tracked>, done: set<Id>, i: Id, cutoff: real)
    requires i in sets && i !in done
    ensures var now := CleanedUp(sets, done, cutoff);
            && now.Keys == sets.Keys && Expired(now[i], cutoff) <= now[i].scores.Keys
            && CleanedUp(sets, done + {i}, cutoff) == now[i := now[i].(scores := now[i].scores - Expired(now[i], cutoff))]
  {
  }

  /** The Redis side: one evaluation of a script or one pipelined command per method. */
  class ConnectionStore {
    const expiry: real
    var sets: map<Id, Tracked>

    constructor (expiry: real)
      ensures this.expiry == expiry && sets == map[]
    {
      this.expiry := expiry;
      sets := map[];
    }

    // The script scores and counts at the whole second; Redis lets the key expire by its own clock.
    method AddConnection(instance: Id, conn: Id, now: real) returns (live: nat)
      modifies this
      ensures sets == Add(old(sets), instance, conn, expiry, now)
      ensures live == Count(sets, instance, expiry, Whole(now))
    {
      if instance !in sets {
        sets := sets[instance := Tracked(map[], now)];
      }
      sets := sets[instance := sets[instance].(scores := sets[instance].scores[conn := now.Floor as real])];
      sets := sets[instance := sets[instance].(dropAt := now + expiry)];
      live := |Live(sets[instance], expiry, now.Floor as real)|;
      assert sets == Add(old(sets), instance, conn, expiry, now);
    }

    // ZREM, then up to ten expired members.
    method RemoveConnection(instance: Id, conn: Id, now: real) returns (removed: bool, expired: set<Id>)
      modifies this
      ensures removed <==> instance in old(sets) && conn in old(sets)[instance].scores
      ensures Piggyback(old(sets), instance, expired, Whole(now) - expiry) && |expired| <= 10
      ensures sets == Discard(old(sets), instance, {conn} + expired)
    {
      expired := {};
      if instance !in sets {
        return false, {};
      }
      removed := conn in sets[instance].scores;
      var scores := sets[instance].scores - {conn};
      var cutoff := now.Floor as real - expiry;
      var todo := scores.Keys;
      while todo != {} && |expired| < 10
        invariant todo <= scores.Keys && |expired| <= 10
        invariant expired <= Expired(sets[instance], cutoff)
        invariant conn !in expired
        decreases |todo|
      {
        var c :| c in todo;
        todo := todo - {c};
        if 0.0 <= scores[c] <= cutoff {
          expired := expired + {c};
        }
      }
      assert scores - expired == sets[instance].scores - ({conn} + expired);
      sets := sets[instance := sets[instance].(scores := scores - expired)];
    }

    method CleanupExpiredConnections(now: real) returns (totalRemoved: nat)
      modifies this
      ensures sets == CleanedUp(old(sets), old(sets).Keys, now - expiry)
      ensures TrackedIn(sets) + totalRemoved == TrackedIn(old(sets))
    {
      hide TrackedIn, CleanedUp, Expired;
      var cutoff := now - expiry;
      totalRemoved := 0;
      var todo := sets.Keys;
      ghost var done: set<Id> := {};
      NoneCleaned(sets, cutoff);
      while todo != {}
        invariant todo <= sets.Keys && todo !! done && done + todo == old(sets).Keys
        invariant sets == CleanedUp(old(sets), done, cutoff)
        invariant TrackedIn(sets) + totalRemoved == TrackedIn(old(sets))
        decreases |todo|
      {
        var i :| i in todo;
        var gone := Expired(sets[i], cutoff);
        CleanOneMore(old(sets), done, i, cutoff);
        TrackedDrops(sets, i, gone);
        todo, done := todo - {i}, done + {i};
        totalRemoved := totalRemoved + |gone|;
        sets := sets[i := sets[i].(scores := sets[i].scores - gone)];
      }
      assert done == old(sets).Keys;
    }

    method GetConnectionCounts(ids: seq<Id>, now: real) returns (counts: map<Id, nat>)
      ensures counts == map i | i in ids :: Count(sets, i, expiry, now)
      ensures forall i :: i in ids ==>
                counts[i] == if i in sets then |set c | c in sets[i].scores && now - expiry <= sets[i].scores[c] <= now| else 0
    {
      counts := map[];
      for k := 0 to |ids|
        invariant counts == map i | i in ids[..k] :: Count(sets, i, expiry, now)
      {
        assert ids[..k + 1] == ids[..k] + [ids[k]];
        counts := counts[ids[k] := if ids[k] in sets then |Live(sets[ids[k]], expiry, now)| else 0];
      }
      assert ids[..|ids|] == ids;
      forall i | i in ids && i in sets
        ensures Live(sets[i], expiry, now) == set c | c in sets[i].scores && now - expiry <= sets[i].scores[c] <= now
      {
      }
    }
  }

  /** The head of any target list get_targets returns is a choice the capacity argument covers: with
      `slack` 0 for plain and 2 for prefix routing. */
  lemma HeadMayBeChosen(l: Limits, s: State, targets: Routing.Targets, pool: set<Id>, lookups: Routing.Lookups)
    requires pool != {}
    requires var counts := map i | i in pool :: Count(s.sets, i, l.expiry, s.now);
             Routing.Answers(targets, pool, counts, l.concurrency, lookups)
    requires targets.Targets? && targets.list != []
    requires l.slack == 2 || (l.slack == 0 && lookups == [])
    ensures exists least :: least in pool && MayChoose(l, s, targets.list[0], least)
  {
    var counts: Routing.Counts := map i | i in pool :: Count(s.sets, i, l.expiry, s.now);
    assert counts.Keys == pool;
    var least :| least in pool && counts[least] == Routing.MinCount(pool, counts);
    Routing.RoutableInPool(lookups, pool, counts, counts[least]);
    Routing.NoLookups(pool, counts, counts[least]);
    Routing.HeadIsNearMinimum(targets.list, pool, counts, l.concurrency, lookups);
    assert MayChoose(l, s, targets.list[0], least);
  }
}
