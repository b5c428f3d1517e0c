/** The miner history of one job under overlapping requests for its launch config: the handler reads the history, checks
    it, and appends to it in a later statement (api/instance/router.py). */
module JobHistory {
  import opened Base

  const MAX_HISTORY := 15

  // `pending` holds the requests between their check and their commit, with the hotkey of each.
  datatype State = State(history: seq<string>, pending: map<nat, string>)

  const FRESH := State([], map[])

  datatype Step = Check(request: nat, hotkey: string) | Append(request: nat)

  predicate MayTry(history: seq<string>, hotkey: string) {
    |history| < MAX_HISTORY && hotkey !in history
  }

  // A check that fails raises.
  function Apply(s: State, step: Step): State {
    match step
    case Check(r, h) => if r !in s.pending && MayTry(s.history, h) then s.(pending := s.pending[r := h]) else s
    case Append(r) =>
      if r in s.pending then State(s.history + [s.pending[r]], s.pending - {r}) else s
  }

  function Run(steps: seq<Step>): State {
    if steps == [] then FRESH else Apply(Run(steps[..|steps| - 1]), steps[|steps| - 1])
  }

  // At no point of the run are more than k requests between check and commit.
  predicate Overlap(steps: seq<Step>, k: nat) {
    forall n :: 0 <= n <= |steps| ==> |Run(steps[..n]).pending| <= k
  }

  function Waiting(s: State, hotkey: string): set<nat> {
    set r | r in s.pending && s.pending[r] == hotkey
  }

  function Times(history: seq<string>, hotkey: string): nat {
    multiset(history)[hotkey]
  }

  // What the history can still come to counts the requests that passed the check already.
  ghost predicate Bounded(s: State, k: nat) {
    && |s.history| + |s.pending| <= MAX_HISTORY - 1 + k
    && forall h :: Times(s.history, h) + |Waiting(s, h)| <= k
  }

  lemma CheckKeepsBound(s: State, r: nat, h: string, k: nat)
    requires Bounded(s, k) && |Apply(s, Check(r, h)).pending| <= k
    ensures Bounded(Apply(s, Check(r, h)), k)
  {
    if r !in s.pending && MayTry(s.history, h) {
      var t := Apply(s, Check(r, h));
      forall g ensures Times(t.history, g) + |Waiting(t, g)| <= k {
        if g == h {
          assert h !in multiset(s.history);
          SubsetSize(Waiting(t, h), t.pending.Keys);
        } else {
          assert Waiting(t, g) == Waiting(s, g);
        }
      }
    }
  }

  lemma AppendKeepsBound(s: State, r: nat, k: nat)
    requires Bounded(s, k)
    ensures Bounded(Apply(s, Append(r)), k)
  {
    if r in s.pending {
      var t, h := Apply(s, Append(r)), s.pending[r];
      assert t.pending.Keys == s.pending.Keys - {r};
      forall g ensures Times(t.history, g) + |Waiting(t, g)| <= k {
        assert multiset(t.history) == multiset(s.history) + multiset{h};
        if g == h {
          assert Waiting(t, h) == Waiting(s, h) - {r};
        } else {
          assert Waiting(t, g) == Waiting(s, g);
        }
      }
    }
  }

  lemma OverlapPrefix(steps: seq<Step>, k: nat, n: nat)
    requires n <= |steps| && Overlap(steps, k)
    ensures Overlap(steps[..n], k)
  {
    forall j | 0 <= j <= n ensures |Run(steps[..n][..j]).pending| <= k {
      assert steps[..n][..j] == steps[..j];
    }
  }

  lemma {:induction false} RunIsBounded(steps: seq<Step>, k: nat)
    requires k >= 1 && Overlap(steps, k)
    ensures Bounded(Run(steps), k)
  {
    if steps != [] {
      var n := |steps| - 1;
      OverlapPrefix(steps, k, n);
      RunIsBounded(steps[..n], k);
      assert steps[..|steps|] == steps;
      match steps[n]
      case Check(r, h) => CheckKeepsBound(Run(steps[..n]), r, h, k);
      case Append(r) => AppendKeepsBound(Run(steps[..n]), r, k);
    } else {
      assert forall h :: Waiting(FRESH, h) == {};
    }
  }

  /** With at most k requests between check and commit, a job's history has at most 14 + k entries and names nobody more
      than k times. */
  lemma HistoryIsBounded(steps: seq<Step>, k: nat)
    requires k >= 1 && Overlap(steps, k)
    ensures |Run(steps).history| <= 14 + k
    ensures forall h :: Times(Run(steps).history, h) <= k
  {
    RunIsBounded(steps, k);
  }

  // ---- Both bounds are reached ----

  lemma Extend(steps: seq<Step>, k: nat, step: Step) returns (more: seq<Step>)
    requires Overlap(steps, k) && |Apply(Run(steps), step).pending| <= k
    ensures Overlap(more, k) && Run(more) == Apply(Run(steps), step)
  {
    more := steps + [step];
    assert more[..|steps|] == steps;
    forall n | 0 <= n <= |more| ensures |Run(more[..n]).pending| <= k {
      if n <= |steps| {
        assert more[..n] == steps[..n];
      } else {
        assert more[..n] == more;
      }
    }
  }

  // Names that differ.
  function Name(n: nat): string {
    seq(n, _ => 'm')
  }

  function Names(from: nat, n: nat): seq<string>
    ensures |Names(from, n)| == n && forall i :: 0 <= i < n ==> Names(from, n)[i] == Name(from + i)
  {
    seq(n, i requires 0 <= i => Name(from + i))
  }

  function Open(n: nat, hotkey: nat -> string): map<nat, string> {
    map r | 0 <= r < n :: hotkey(r)
  }

  lemma OpenSize(n: nat, hotkey: nat -> string)
    ensures |Open(n, hotkey)| == n
  {
    if n > 0 {
      OpenSize(n - 1, hotkey);
      assert Open(n, hotkey).Keys == Open(n - 1, hotkey).Keys + {n - 1};
    }
    assert |Open(n, hotkey)| == |Open(n, hotkey).Keys|;
  }

  // n requests pass the check on one and the same history.
  lemma {:induction false} CheckAll(steps: seq<Step>, k: nat, n: nat, hotkey: nat -> string) returns (more: seq<Step>)
    requires Overlap(steps, k) && n <= k && Run(steps).pending == map[]
    requires forall r :: 0 <= r < n ==> MayTry(Run(steps).history, hotkey(r))
    ensures Overlap(more, k) && Run(more) == State(Run(steps).history, Open(n, hotkey))
  {
    if n == 0 {
      more := steps;
      assert Open(0, hotkey) == map[];
    } else {
      more := CheckAll(steps, k, n - 1, hotkey);
      OpenSize(n - 1, hotkey);
      OpenSize(n, hotkey);
      assert Open(n, hotkey) == Open(n - 1, hotkey)[n - 1 := hotkey(n - 1)];
      hide Run, Overlap;
      more := Extend(more, k, Check(n - 1, hotkey(n - 1)));
    }
  }

  function Backwards(n: nat, hotkey: nat -> string): (r: seq<string>)
    ensures |r| == n && forall i :: 0 <= i < n ==> r[i] == hotkey(n - 1 - i)
  {
    if n == 0 then [] else [hotkey(n - 1)] + Backwards(n - 1, hotkey)
  }

  lemma LastOpen(n: nat, hotkey: nat -> string)
    requires n > 0
    ensures n - 1 in Open(n, hotkey) && Open(n, hotkey)[n - 1] == hotkey(n - 1)
    ensures Open(n, hotkey) - {n - 1} == Open(n - 1, hotkey)
  {
  }

  lemma AppendLast(steps: seq<Step>, k: nat, n: nat, hotkey: nat -> string) returns (more: seq<Step>)
    requires Overlap(steps, k) && 0 < n <= k && Run(steps).pending == Open(n, hotkey)
    ensures Overlap(more, k) && Run(more) == State(Run(steps).history + [hotkey(n - 1)], Open(n - 1, hotkey))
  {
    LastOpen(n, hotkey);
    OpenSize(n - 1, hotkey);
    hide Run, Overlap, Open;
    more := Extend(steps, k, Append(n - 1));
  }

  // And all append, the last one first.
  lemma {:induction false} AppendAll(steps: seq<Step>, k: nat, n: nat, hotkey: nat -> string) returns (more: seq<Step>)
    requires Overlap(steps, k) && n <= k && Run(steps).pending == Open(n, hotkey)
    ensures Overlap(more, k) && Run(more).pending == map[]
    ensures Run(more).history == Run(steps).history + Backwards(n, hotkey)
    decreases n
  {
    if n == 0 {
      more := steps;
    } else {
      hide Run, Overlap, Open, Apply;
      more := AppendLast(steps, k, n, hotkey);
      var history := Run(more).history;
      more := AppendAll(more, k, n - 1, hotkey);
      assert history + Backwards(n - 1, hotkey) == Run(steps).history + ([hotkey(n - 1)] + Backwards(n - 1, hotkey));
    }
  }

  lemma TryOne(steps: seq<Step>, hotkey: string) returns (more: seq<Step>)
    requires Overlap(steps, 1) && Run(steps).pending == map[] && MayTry(Run(steps).history, hotkey)
    ensures Overlap(more, 1) && Run(more) == State(Run(steps).history + [hotkey], map[])
  {
    hide Run, Overlap;
    assert (map[])[0 := hotkey] == map[0 := hotkey];
    more := Extend(steps, 1, Check(0, hotkey));
    assert map[0 := hotkey] - {0} == map[];
    more := Extend(more, 1, Append(0));
  }

  lemma {:induction false} FillSerially(n: nat) returns (steps: seq<Step>)
    requires n <= 14
    ensures Overlap(steps, 1) && Run(steps) == State(Names(0, n), map[])
  {
    if n == 0 {
      steps := [];
    } else {
      steps := FillSerially(n - 1);
      hide Run, Overlap, Apply;
      NameIsNew(n - 1, n - 1);
      steps := TryOne(steps, Name(n - 1));
      assert Names(0, n) == Names(0, n - 1) + [Name(n - 1)];
    }
  }

  lemma OverlapWeakens(steps: seq<Step>, j: nat, k: nat)
    requires Overlap(steps, j) && j <= k
    ensures Overlap(steps, k)
  {
  }

  /** Neither bound can be lowered: k overlapping requests of different miners bring the history to 14 + k entries, and k
      overlapping requests of one miner put it there k times. */
  lemma BoundsAreReached(k: nat) returns (crowd: seq<Step>, repeats: seq<Step>, hotkey: string)
    requires k >= 1
    ensures Overlap(crowd, k) && |Run(crowd).history| == 14 + k
    ensures Overlap(repeats, k) && Times(Run(repeats).history, hotkey) == k
  {
    crowd := FillSerially(14);
    OverlapWeakens(crowd, 1, k);
    NewNames(k);
    crowd := CheckAll(crowd, k, k, OtherName);
    crowd := AppendAll(crowd, k, k, OtherName);
    hotkey := "m";
    repeats := [];
    assert Overlap([], k) && Run([]) == FRESH;
    hide Run, Overlap;
    repeats := CheckAll(repeats, k, k, _ => "m");
    repeats := AppendAll(repeats, k, k, _ => "m");
    AllSame(k, Run(repeats).history, "m");
  }

  lemma NameIsNew(n: nat, r: nat)
    requires n <= r
    ensures Name(r) !in Names(0, n)
  {
    assert forall i :: 0 <= i < n ==> |Names(0, n)[i]| == i;
  }

  function OtherName(r: nat): string {
    Name(14 + r)
  }

  lemma NewNames(k: nat)
    ensures forall r :: 0 <= r < k ==> MayTry(Names(0, 14), OtherName(r))
  {
    forall r | 0 <= r < k ensures OtherName(r) !in Names(0, 14) {
      NameIsNew(14, 14 + r);
    }
  }

  lemma {:induction false} AllSame(n: nat, history: seq<string>, hotkey: string)
    requires |history| == n && forall i :: 0 <= i < n ==> history[i] == hotkey
    ensures Times(history, hotkey) == n
  {
    if n > 0 {
      AllSame(n - 1, history[..n - 1], hotkey);
      assert history == history[..n - 1] + [hotkey];
    }
  }

  /** The promises of the handler, at most 15 miners and none twice, hold in every run with at most k overlapping requests
      exactly when k is at most one. */
  lemma PromisesHoldIffSerialised(k: nat)
    ensures k <= 1 <==> forall steps :: Overlap(steps, k) ==> |Run(steps).history| <= 15 && NoDuplicates(Run(steps).history)
  {
    if k <= 1 {
      forall steps | Overlap(steps, k) ensures |Run(steps).history| <= 15 && NoDuplicates(Run(steps).history) {
        OverlapWeakens(steps, k, 1);
        HistoryIsBounded(steps, 1);
        OnceEach(Run(steps).history);
      }
    } else {
      var crowd, _, _ := BoundsAreReached(k);
      assert Overlap(crowd, k);
    }
  }

  lemma TwiceCounts(history: seq<string>, i: nat, j: nat)
    requires i < j < |history| && history[i] == history[j]
    ensures Times(history, history[i]) >= 2
  {
    var h := history[i];
    assert history == history[..j] + history[j..];
    assert history[..j][i] == h && history[j..][0] == h;
    assert h in multiset(history[..j]) && h in multiset(history[j..]);
    assert multiset(history) == multiset(history[..j]) + multiset(history[j..]);
  }

  lemma OnceEach(history: seq<string>)
    requires forall h :: Times(history, h) <= 1
    ensures NoDuplicates(history)
  {
    if i, j :| 0 <= i < j < |history| && history[i] == history[j] {
      TwiceCounts(history, i, j);
      assert false;
    }
  }

  /** The history column and the two halves of the handler. */
  class HistoryDesk {
    var history: seq<string>
    var pending: map<nat, string>

    function Now(): State
      reads this
    {
      State(history, pending)
    }

    constructor ()
      ensures Now() == FRESH
    {
      history, pending := [], map[];
    }

    // `false` is the 423 or the 403 response.
    method CheckHistory(request: nat, hotkey: string) returns (ok: bool)
      requires request !in pending
      modifies this
      ensures Now() == Apply(old(Now()), Check(request, hotkey))
      ensures ok <==> |old(history)| < 15 && hotkey !in old(history)
    {
      if |history| >= 15 {
        return false;
      }
      if hotkey in history {
        return false;
      }
      pending := pending[request := hotkey];
      ok := true;
    }

    // The append is done by the database, on the history as it is then.
    method AppendHotkey(request: nat)
      requires request in pending
      modifies this
      ensures Now() == Apply(old(Now()), Append(request))
    {
      history := history + [pending[request]];
      pending := pending - {request};
    }
  }
}
