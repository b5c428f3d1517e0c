/** The pending ledger and its flush into balances and usage rows (api/payment/usage_tracker.py). */
module Ledger {
  import opened Base

  // A ledger hash "balance:<user>:<chute>".
  datatype Key = Key(user: string, chute: string)

  datatype Row = Row(amount: real, count: int, inputTokens: int, outputTokens: int, timestamp: int)

  const BLANK := Row(0.0, 0, 0, 0, 0)

  datatype User = User(free: bool, invoiced: bool)

  // A usage row, at hour granularity.
  datatype Slot = Slot(user: string, chute: string, bucket: int)

  // One increment of the ledger; `timestamp` is absent for the credit of a chute's owner.
  datatype Event = Event(key: Key, amount: real, count: int, inputTokens: int, outputTokens: int, timestamp: Option<int>)

  // What became of an increment. `Staged`: read and deleted by a flush that has not committed.
  datatype Fate = Pending | Staged | Deducted | Waived | Dropped | Lost

  datatype Entry = Entry(event: Event, fate: Fate)

  // Progress of a flush: keys listed, hashes read so far with the length of the history at that time,
  // and whether the keys were already deleted.
  datatype Flush = Flush(keys: seq<Key>, rows: seq<Row>, marks: seq<nat>, deleted: bool)

  // `history` is not stored anywhere: it lists every increment with its fate, oldest first.
  datatype State = State(
    pending: map<Key, Row>, balances: map<string, real>, usage: map<Slot, Row>,
    flush: Option<Flush>, history: seq<Entry>)

  datatype Step =
    | Charge(event: Event)
    | List(keys: seq<Key>)
    | Read
    | Delete
    | Commit
    | Crash

  // The hour of a timestamp, in seconds.
  function Bucket(timestamp: int): (hour: int)
    ensures hour % 3600 == 0 && hour <= timestamp < hour + 3600
  {
    timestamp / 3600 * 3600
  }

  function Plus(r: Row, e: Event): Row {
    Row(r.amount + e.amount, r.count + e.count, r.inputTokens + e.inputTokens, r.outputTokens + e.outputTokens,
        if e.timestamp.Some? then e.timestamp.value else r.timestamp)
  }

  function Stored(pending: map<Key, Row>, k: Key): Row {
    if k in pending then pending[k] else BLANK
  }

  // Totals per user over the rows read, in order of the keys.
  function TotalOf(user: string, keys: seq<Key>, rows: seq<Row>): real
    requires |rows| <= |keys|
  {
    if rows == [] then 0.0
    else
      var n := |rows| - 1;
      TotalOf(user, keys, rows[..n]) + if keys[n].user == user then rows[n].amount else 0.0
  }

  predicate Waives(u: User) {
    u.free && !u.invoiced
  }

  // Where a staged increment ends up when the flush commits.
  function Settled(users: map<string, User>, k: Key): Fate {
    if k.user !in users then Dropped else if Waives(users[k.user]) then Waived else Deducted
  }

  function AddUsage(usage: map<Slot, Row>, k: Key, r: Row): map<Slot, Row> {
    var slot := Slot(k.user, k.chute, Bucket(r.timestamp));
    var had := if slot in usage then usage[slot] else BLANK;
    usage[slot := Row(had.amount + r.amount, had.count + r.count, had.inputTokens + r.inputTokens,
                      had.outputTokens + r.outputTokens, 0)]
  }

  // The upserts of the rows read; a row of an unknown user is not written.
  function UsageAfter(users: map<string, User>, usage: map<Slot, Row>, keys: seq<Key>, rows: seq<Row>): map<Slot, Row>
    requires |rows| <= |keys|
  {
    if rows == [] then usage
    else
      var n := |rows| - 1;
      var before := UsageAfter(users, usage, keys, rows[..n]);
      if keys[n].user in users then AddUsage(before, keys[n], rows[n]) else before
  }

  function BalancesAfter(users: map<string, User>, balances: map<string, real>, f: Flush): map<string, real>
    requires |f.rows| <= |f.keys|
  {
    map u | u in balances ::
      if u in users && !Waives(users[u]) then balances[u] - TotalOf(u, f.keys, f.rows) else balances[u]
  }

  function Refate(h: seq<Entry>, f: (nat, Entry) -> Fate): (r: seq<Entry>)
    ensures |r| == |h| && forall i :: 0 <= i < |h| ==> r[i] == Entry(h[i].event, f(i, h[i]))
  {
    seq(|h|, i requires 0 <= i < |h| => Entry(h[i].event, f(i, h[i])))
  }

  // Position of a key in a listing.
  function IndexOf(keys: seq<Key>, k: Key): nat
    requires k in keys
    ensures IndexOf(keys, k) < |keys| && keys[IndexOf(keys, k)] == k
  {
    if keys[0] == k then 0 else 1 + IndexOf(keys[1..], k)
  }

  // Deleting a key takes along whatever was added to it after it was read.
  function OnDelete(f: Flush, i: nat, e: Entry): Fate
    requires |f.marks| == |f.keys|
  {
    if e.fate != Pending || e.event.key !in f.keys then e.fate
    else if i < f.marks[IndexOf(f.keys, e.event.key)] then Staged else Lost
  }

  function OnCommit(users: map<string, User>, e: Entry): Fate {
    if e.fate == Staged then Settled(users, e.event.key) else e.fate
  }

  function OnCrash(e: Entry): Fate {
    if e.fate == Staged then Lost else e.fate
  }

  predicate AllRead(f: Flush) {
    |f.rows| == |f.marks| == |f.keys|
  }

  function Apply(users: map<string, User>, s: State, step: Step): State {
    match step
    case Charge(e) =>
      s.(pending := s.pending[e.key := Plus(Stored(s.pending, e.key), e)], history := s.history + [Entry(e, Pending)])
    case List(keys) =>
      if s.flush.None? then s.(flush := Some(Flush(keys, [], [], false))) else s
    case Read =>
      if s.flush.Some? && |s.flush.value.rows| < |s.flush.value.keys| then
        var f := s.flush.value;
        s.(flush := Some(f.(rows := f.rows + [Stored(s.pending, f.keys[|f.rows|])], marks := f.marks + [|s.history|])))
      else s
    case Delete =>
      if s.flush.Some? && AllRead(s.flush.value) && !s.flush.value.deleted then
        var f := s.flush.value;
        s.(pending := s.pending - ToSet(f.keys), flush := Some(f.(deleted := true)),
           history := Refate(s.history, (i: nat, e: Entry) => OnDelete(f, i, e)))
      else s
    case Commit =>
      if s.flush.Some? && AllRead(s.flush.value) && s.flush.value.deleted then
        var f := s.flush.value;
        s.(balances := BalancesAfter(users, s.balances, f), usage := UsageAfter(users, s.usage, f.keys, f.rows),
           flush := None, history := Refate(s.history, (i: nat, e: Entry) => OnCommit(users, e)))
      else s
    case Crash => s.(flush := None, history := Refate(s.history, (i: nat, e: Entry) => OnCrash(e)))
  }

  function Run(users: map<string, User>, balances: map<string, real>, steps: seq<Step>): State {
    if steps == [] then State(map[], balances, map[], None, [])
    else Apply(users, Run(users, balances, steps[..|steps| - 1]), steps[|steps| - 1])
  }

  // ---- Sums over the history ----

  datatype Totals = Totals(amount: real, count: int, inputTokens: int, outputTokens: int)

  function Add(a: Totals, b: Totals): Totals {
    Totals(a.amount + b.amount, a.count + b.count, a.inputTokens + b.inputTokens, a.outputTokens + b.outputTokens)
  }

  const NOTHING := Totals(0.0, 0, 0, 0)

  lemma AddSwap(a: Totals, b: Totals, c: Totals)
    ensures Add(Add(a, c), b) == Add(Add(a, b), c)
    ensures Add(a, Add(b, c)) == Add(Add(a, b), c)
  {
  }

  function OfEvent(e: Event): Totals {
    Totals(e.amount, e.count, e.inputTokens, e.outputTokens)
  }

  function OfRow(r: Row): Totals {
    Totals(r.amount, r.count, r.inputTokens, r.outputTokens)
  }

  datatype Query =
    | OfFate(fate: Fate)
    | OfKey(fate: Fate, key: Key)
    | OfUser(fate: Fate, user: string)
    | Among(fate: Fate, user: string, keys: set<Key>)
    | Under(key: Key)

  predicate Matches(q: Query, e: Entry) {
    match q
    case OfFate(f) => e.fate == f
    case OfKey(f, k) => e.fate == f && e.event.key == k
    case OfUser(f, u) => e.fate == f && e.event.key.user == u
    case Among(f, u, keys) => e.fate == f && e.event.key.user == u && e.event.key in keys
    case Under(k) => e.event.key == k
  }

  function Sum(h: seq<Entry>, q: Query): Totals {
    if h == [] then NOTHING
    else
      var n := |h| - 1;
      if Matches(q, h[n]) then Add(Sum(h[..n], q), OfEvent(h[n].event)) else Sum(h[..n], q)
  }

  lemma SumAppend(h: seq<Entry>, e: Entry, q: Query)
    ensures Sum(h + [e], q) == if Matches(q, e) then Add(Sum(h, q), OfEvent(e.event)) else Sum(h, q)
  {
    assert (h + [e])[..|h|] == h;
  }

  lemma AddNothing(a: Totals)
    ensures Add(a, NOTHING) == a == Add(NOTHING, a)
  {
  }

  // The first m entries of h under q are all that g has under r.
  lemma {:induction false} SumCut(h: seq<Entry>, g: seq<Entry>, m: nat, q: Query, r: Query)
    requires m <= |h| <= |g|
    requires forall i :: 0 <= i < m ==> g[i].event == h[i].event && (Matches(q, h[i]) <==> Matches(r, g[i]))
    requires forall i :: m <= i < |g| ==> !Matches(r, g[i])
    ensures Sum(g, r) == Sum(h[..m], q)
  {
    hide Matches, Add;
    if |g| > m {
      var n := |g| - 1;
      if |h| == |g| {
        assert h[..n][..m] == h[..m];
        assert forall i :: 0 <= i < n ==> g[..n][i] == g[i] && h[..n][i] == h[i];
        SumCut(h[..n], g[..n], m, q, r);
      } else {
        assert forall i :: m <= i < n ==> g[..n][i] == g[i];
        SumCut(h, g[..n], m, q, r);
      }
    } else if m > 0 {
      assert h[..m] == h;
      SumCut(h[..m - 1], g[..m - 1], m - 1, q, r);
      assert h[..m - 1][..m - 1] == h[..m - 1];
    }
  }

  lemma SumSame(h: seq<Entry>, g: seq<Entry>, q: Query, r: Query)
    requires |h| == |g|
    requires forall i :: 0 <= i < |h| ==> g[i].event == h[i].event && (Matches(q, h[i]) <==> Matches(r, g[i]))
    ensures Sum(g, r) == Sum(h, q)
  {
    hide Matches, Add, Sum;
    assert h[..|h|] == h;
    SumCut(h, g, |h|, q, r);
  }

  // What g has under r is what h has under p and under q together.
  lemma {:induction false} SumUnion(h: seq<Entry>, g: seq<Entry>, p: Query, q: Query, r: Query)
    requires |h| == |g|
    requires forall i :: 0 <= i < |h| ==>
               && g[i].event == h[i].event
               && (Matches(r, g[i]) <==> Matches(p, h[i]) || Matches(q, h[i]))
               && !(Matches(p, h[i]) && Matches(q, h[i]))
    ensures Sum(g, r) == Add(Sum(h, p), Sum(h, q))
  {
    hide Matches, Add;
    if h != [] {
      var n := |h| - 1;
      SumUnion(h[..n], g[..n], p, q, r);
      AddSwap(Sum(h[..n], p), Sum(h[..n], q), OfEvent(h[n].event));
    } else {
      AddNothing(NOTHING);
    }
  }

  lemma {:induction false} SumNone(h: seq<Entry>, q: Query)
    requires forall i :: 0 <= i < |h| ==> !Matches(q, h[i])
    ensures Sum(h, q) == NOTHING
  {
    if h != [] {
      SumNone(h[..|h| - 1], q);
    }
  }

  // ---- Usage rows of one user and chute, over all hours ----

  function Share(usage: map<Slot, Row>, slot: Slot, k: Key): Totals
    requires slot in usage
  {
    if slot.user == k.user && slot.chute == k.chute then OfRow(usage[slot]) else NOTHING
  }

  ghost function UsageOf(usage: map<Slot, Row>, k: Key): Totals
    decreases |usage|
  {
    if usage == map[] then NOTHING
    else
      var slot :| slot in usage;
      Add(UsageOf(usage - {slot}, k), Share(usage, slot, k))
  }

  lemma {:induction false} UsageOfWithout(usage: map<Slot, Row>, slot: Slot, k: Key)
    requires slot in usage
    ensures UsageOf(usage, k) == Add(UsageOf(usage - {slot}, k), Share(usage, slot, k))
    decreases |usage|
  {
    hide Add;
    var other: Slot :| other in usage && UsageOf(usage, k) == Add(UsageOf(usage - {other}, k), Share(usage, other, k));
    if other != slot {
      UsageOfWithout(usage - {other}, slot, k);
      UsageOfWithout(usage - {slot}, other, k);
      assert usage - {other} - {slot} == usage - {slot} - {other};
      AddSwap(UsageOf(usage - {slot} - {other}, k), Share(usage, other, k), Share(usage, slot, k));
    }
  }

  lemma AddUsageGrows(usage: map<Slot, Row>, q: Key, r: Row, k: Key)
    ensures UsageOf(AddUsage(usage, q, r), k) == if q == k then Add(UsageOf(usage, k), OfRow(r)) else UsageOf(usage, k)
  {
    hide UsageOf, Bucket, Add;
    var slot := Slot(q.user, q.chute, Bucket(r.timestamp));
    var after := AddUsage(usage, q, r);
    var had := if slot in usage then usage[slot] else BLANK;
    var rest := UsageOf(usage - {slot}, k);
    UsageOfWithout(after, slot, k);
    assert after - {slot} == usage - {slot};
    SlotGrows(had, r, after[slot]);
    AddSwap(rest, OfRow(had), OfRow(r));
    AddNothing(rest);
    if slot in usage {
      UsageOfWithout(usage, slot, k);
    } else {
      assert usage - {slot} == usage;
    }
  }

  lemma SlotGrows(had: Row, r: Row, after: Row)
    requires after == Row(had.amount + r.amount, had.count + r.count, had.inputTokens + r.inputTokens,
                          had.outputTokens + r.outputTokens, 0)
    ensures OfRow(after) == Add(OfRow(had), OfRow(r))
    ensures OfRow(BLANK) == NOTHING
  {
  }

  // ---- The invariant of every run whose listings name each key once ----

  ghost predicate PendingMatches(s: State) {
    forall k :: OfRow(Stored(s.pending, k)) == Sum(s.history, OfKey(Pending, k))
  }

  ghost predicate BalancesMatch(balances: map<string, real>, s: State) {
    && s.balances.Keys == balances.Keys
    && forall u :: u in balances ==> s.balances[u] == balances[u] - Sum(s.history, OfUser(Deducted, u)).amount
  }

  ghost predicate UsageMatches(s: State) {
    forall k :: UsageOf(s.usage, k) == Add(Sum(s.history, OfKey(Deducted, k)), Sum(s.history, OfKey(Waived, k)))
  }

  ghost predicate RowMatches(f: Flush, h: seq<Entry>, j: nat)
    requires j < |f.rows| == |f.marks| <= |f.keys|
  {
    if f.deleted then OfRow(f.rows[j]) == Sum(h, OfKey(Staged, f.keys[j]))
    else f.marks[j] <= |h| && OfRow(f.rows[j]) == Sum(h[..f.marks[j]], OfKey(Pending, f.keys[j]))
  }

  ghost predicate FlushMatches(f: Flush, h: seq<Entry>) {
    && NoDuplicates(f.keys) && |f.rows| == |f.marks| <= |f.keys|
    && (f.deleted ==> AllRead(f))
    && forall j :: 0 <= j < |f.rows| ==> RowMatches(f, h, j)
  }

  predicate IsStaged(e: Entry) {
    e.fate == Staged
  }

  ghost predicate StagedMatches(s: State) {
    forall e :: e in s.history && IsStaged(e) ==>
      s.flush.Some? && s.flush.value.deleted && e.event.key in s.flush.value.keys
  }

  predicate IsPending(e: Entry) {
    e.fate == Pending
  }

  ghost predicate PendingIsKept(s: State) {
    forall e :: e in s.history && IsPending(e) ==> e.event.key in s.pending
  }

  ghost predicate Inv(balances: map<string, real>, s: State) {
    && PendingMatches(s)
    && PendingIsKept(s)
    && BalancesMatch(balances, s)
    && UsageMatches(s)
    && StagedMatches(s)
    && (s.flush.Some? ==> FlushMatches(s.flush.value, s.history))
  }

  predicate ListsOnce(step: Step) {
    step.List? ==> NoDuplicates(step.keys)
  }

  lemma ChargeKeeps(balances: map<string, real>, users: map<string, User>, s: State, e: Event)
    requires Inv(balances, s)
    ensures Inv(balances, Apply(users, s, Charge(e)))
  {
    var t := Apply(users, s, Charge(e));
    var x := Entry(e, Pending);
    hide Sum, Add, UsageOf;
    assert PendingMatches(t) by {
      forall k ensures OfRow(Stored(t.pending, k)) == Sum(t.history, OfKey(Pending, k)) {
        SumAppend(s.history, x, OfKey(Pending, k));
        PlusAdds(Stored(s.pending, k), e);
      }
    }
    assert BalancesMatch(balances, t) by {
      forall u | u in balances ensures Sum(t.history, OfUser(Deducted, u)) == Sum(s.history, OfUser(Deducted, u)) {
        SumAppend(s.history, x, OfUser(Deducted, u));
      }
    }
    assert UsageMatches(t) by {
      forall k ensures UsageOf(t.usage, k) == Add(Sum(t.history, OfKey(Deducted, k)), Sum(t.history, OfKey(Waived, k))) {
        SumAppend(s.history, x, OfKey(Deducted, k));
        SumAppend(s.history, x, OfKey(Waived, k));
      }
    }
    if s.flush.Some? {
      var f := s.flush.value;
      forall j | 0 <= j < |f.rows| ensures RowMatches(f, t.history, j) {
        assert RowMatches(f, s.history, j);
        SumAppend(s.history, x, OfKey(Staged, f.keys[j]));
        assert !f.deleted ==> t.history[..f.marks[j]] == s.history[..f.marks[j]];
      }
    }
  }

  lemma PlusAdds(r: Row, e: Event)
    ensures OfRow(Plus(r, e)) == Add(OfRow(r), OfEvent(e))
  {
  }

  lemma ListKeeps(balances: map<string, real>, users: map<string, User>, s: State, keys: seq<Key>)
    requires Inv(balances, s) && NoDuplicates(keys)
    ensures Inv(balances, Apply(users, s, List(keys)))
  {
    hide Sum, Add, UsageOf, Stored;
    assert BalancesMatch(balances, Apply(users, s, List(keys)));
  }

  lemma ReadKeeps(balances: map<string, real>, users: map<string, User>, s: State)
    requires Inv(balances, s)
    ensures Inv(balances, Apply(users, s, Read))
  {
    var t := Apply(users, s, Read);
    hide Sum, Add, UsageOf, Stored;
    assert BalancesMatch(balances, t);
    if s.flush.Some? && t.flush != s.flush {
      var f, g := s.flush.value, t.flush.value;
      assert PendingMatches(s);
      assert s.history[..|s.history|] == s.history;
      forall j | 0 <= j < |g.rows| ensures RowMatches(g, t.history, j) {
        assert j < |f.rows| ==> RowMatches(f, s.history, j);
      }
    }
  }

  lemma IndexInListing(keys: seq<Key>, j: nat)
    requires NoDuplicates(keys) && j < |keys|
    ensures IndexOf(keys, keys[j]) == j
  {
  }

  // A change of fates that touches neither the pending increments nor the settled ones.
  lemma SettledSame(h: seq<Entry>, g: seq<Entry>, q: Query)
    requires |h| == |g|
    requires forall i :: 0 <= i < |h| ==> g[i].event == h[i].event
    requires forall i :: 0 <= i < |h| ==> (Matches(q, h[i]) <==> Matches(q, g[i]))
    ensures Sum(g, q) == Sum(h, q)
  {
    SumSame(h, g, q, q);
  }

  predicate ReadyToDelete(s: State) {
    s.flush.Some? && AllRead(s.flush.value) && !s.flush.value.deleted
  }

  lemma DeleteKeepsPending(users: map<string, User>, s: State)
    requires PendingMatches(s) && PendingIsKept(s) && ReadyToDelete(s)
    ensures PendingMatches(Apply(users, s, Delete)) && PendingIsKept(Apply(users, s, Delete))
  {
    var t := Apply(users, s, Delete);
    var f := s.flush.value;
    hide Sum, Add, IndexOf;
    forall e | e in t.history && IsPending(e) ensures e.event.key in t.pending {
      var i :| 0 <= i < |t.history| && t.history[i] == e;
      assert s.history[i] in s.history && IsPending(s.history[i]);
    }
    forall k ensures OfRow(Stored(t.pending, k)) == Sum(t.history, OfKey(Pending, k)) {
      if k in f.keys {
        SumNone(t.history, OfKey(Pending, k));
        assert OfRow(BLANK) == NOTHING;
      } else {
        SettledSame(s.history, t.history, OfKey(Pending, k));
      }
    }
  }

  lemma DeleteKeepsSettled(balances: map<string, real>, users: map<string, User>, s: State)
    requires BalancesMatch(balances, s) && UsageMatches(s) && ReadyToDelete(s)
    ensures BalancesMatch(balances, Apply(users, s, Delete)) && UsageMatches(Apply(users, s, Delete))
  {
    var t := Apply(users, s, Delete);
    hide Sum, Add, IndexOf, UsageOf;
    forall u | u in balances ensures Sum(t.history, OfUser(Deducted, u)) == Sum(s.history, OfUser(Deducted, u)) {
      SettledSame(s.history, t.history, OfUser(Deducted, u));
    }
    forall k ensures UsageOf(t.usage, k) == Add(Sum(t.history, OfKey(Deducted, k)), Sum(t.history, OfKey(Waived, k))) {
      SettledSame(s.history, t.history, OfKey(Deducted, k));
      SettledSame(s.history, t.history, OfKey(Waived, k));
    }
  }

  // What the flush read of a key is what deleting it stages.
  lemma DeleteKeepsRow(users: map<string, User>, s: State, j: nat)
    requires ReadyToDelete(s) && StagedMatches(s) && FlushMatches(s.flush.value, s.history)
    requires j < |s.flush.value.rows|
    ensures RowMatches(Apply(users, s, Delete).flush.value, Apply(users, s, Delete).history, j)
  {
    var t := Apply(users, s, Delete);
    var f := s.flush.value;
    var k := f.keys[j];
    assert RowMatches(f, s.history, j);
    IndexInListing(f.keys, j);
    hide Sum, Add, IndexOf, NoDuplicates, StagedMatches;
    forall i | 0 <= i < |s.history| ensures s.history[i].fate != Staged {
      NoneStaged(s, i);
    }
    SumCut(s.history, t.history, f.marks[j], OfKey(Pending, k), OfKey(Staged, k));
  }

  lemma NoneStaged(s: State, i: nat)
    requires StagedMatches(s) && i < |s.history|
    requires s.flush.None? || !s.flush.value.deleted
    ensures s.history[i].fate != Staged
  {
    assert s.history[i] in s.history;
    assert IsStaged(s.history[i]) <==> s.history[i].fate == Staged;
  }

  lemma DeleteKeeps(balances: map<string, real>, users: map<string, User>, s: State)
    requires Inv(balances, s) && ReadyToDelete(s)
    ensures Inv(balances, Apply(users, s, Delete))
  {
    var t := Apply(users, s, Delete);
    DeleteKeepsPending(users, s);
    DeleteKeepsSettled(balances, users, s);
    forall j | 0 <= j < |t.flush.value.rows| ensures RowMatches(t.flush.value, t.history, j) {
      DeleteKeepsRow(users, s, j);
    }
    hide Sum, Add, UsageOf, PendingMatches, PendingIsKept, BalancesMatch, UsageMatches, RowMatches, IndexOf;
    assert FlushMatches(t.flush.value, t.history);
    forall e | e in t.history && IsStaged(e) ensures e.event.key in t.flush.value.keys {
      var i :| 0 <= i < |t.history| && t.history[i] == e;
      NoneStaged(s, i);
    }
  }

  // A user's total over the rows read is what is staged for the user.
  lemma {:induction false} TotalOverPrefix(s: State, u: string, n: nat)
    requires s.flush.Some? && s.flush.value.deleted && FlushMatches(s.flush.value, s.history) && n <= |s.flush.value.keys|
    ensures TotalOf(u, s.flush.value.keys, s.flush.value.rows[..n])
            == Sum(s.history, Among(Staged, u, ToSet(s.flush.value.keys[..n]))).amount
  {
    var f := s.flush.value;
    hide Sum, NoDuplicates;
    if n == 0 {
      SumNone(s.history, Among(Staged, u, ToSet(f.keys[..0])));
    } else {
      TotalOverPrefix(s, u, n - 1);
      var k := f.keys[n - 1];
      var some, one, all := Among(Staged, u, ToSet(f.keys[..n - 1])), OfKey(Staged, k), Among(Staged, u, ToSet(f.keys[..n]));
      assert RowMatches(f, s.history, n - 1);
      KeysGrow(f.keys, n);
      assert f.rows[..n][..n - 1] == f.rows[..n - 1];
      if k.user == u {
        SumUnion(s.history, s.history, some, one, all);
      } else {
        SumSame(s.history, s.history, some, all);
      }
    }
  }

  lemma KeysGrow(keys: seq<Key>, n: nat)
    requires NoDuplicates(keys) && 0 < n <= |keys|
    ensures ToSet(keys[..n]) == ToSet(keys[..n - 1]) + {keys[n - 1]}
    ensures keys[n - 1] !in ToSet(keys[..n - 1])
  {
    assert keys[..n] == keys[..n - 1] + [keys[n - 1]];
  }

  lemma TotalIsStaged(s: State, u: string)
    requires s.flush.Some? && s.flush.value.deleted && FlushMatches(s.flush.value, s.history) && StagedMatches(s)
    ensures TotalOf(u, s.flush.value.keys, s.flush.value.rows) == Sum(s.history, OfUser(Staged, u)).amount
  {
    var f := s.flush.value;
    TotalOverPrefix(s, u, |f.keys|);
    assert f.rows[..|f.keys|] == f.rows && f.keys[..|f.keys|] == f.keys;
    hide Sum, TotalOf, NoDuplicates;
    forall i | 0 <= i < |s.history| && IsStaged(s.history[i]) ensures s.history[i].event.key in f.keys {
      assert s.history[i] in s.history;
    }
    SumSame(s.history, s.history, Among(Staged, u, ToSet(f.keys)), OfUser(Staged, u));
  }

  predicate ReadyToCommit(s: State) {
    s.flush.Some? && AllRead(s.flush.value) && s.flush.value.deleted
  }

  lemma CommitKeepsBalances(balances: map<string, real>, users: map<string, User>, s: State)
    requires Inv(balances, s) && ReadyToCommit(s)
    ensures BalancesMatch(balances, Apply(users, s, Commit))
  {
    var t := Apply(users, s, Commit);
    var h, g := s.history, t.history;
    forall u | u in balances ensures t.balances[u] == balances[u] - Sum(g, OfUser(Deducted, u)).amount {
      TotalIsStaged(s, u);
      hide Sum, TotalOf, UsageAfter, PendingMatches, UsageMatches, StagedMatches, FlushMatches;
      if u in users && !Waives(users[u]) {
        SumUnion(h, g, OfUser(Deducted, u), OfUser(Staged, u), OfUser(Deducted, u));
      } else {
        SumSame(h, g, OfUser(Deducted, u), OfUser(Deducted, u));
      }
    }
  }

  // The usage rows of a user and chute grow by the row read under their key, if the user exists.
  // `i` is the position of the key in the listing; a key that is not listed has none.
  lemma {:induction false} UsageOverPrefix(users: map<string, User>, usage: map<Slot, Row>, keys: seq<Key>, rows: seq<Row>,
                                           k: Key, i: nat, n: nat)
    requires NoDuplicates(keys) && n <= |rows| == |keys|
    requires if i < |keys| then keys[i] == k else k !in keys
    ensures UsageOf(UsageAfter(users, usage, keys, rows[..n]), k)
            == if i < n && k.user in users then Add(UsageOf(usage, k), OfRow(rows[i])) else UsageOf(usage, k)
  {
    hide Add, UsageOf, AddUsage, UsageAfter, OfRow;
    UsageUnfolds(users, usage, keys, rows, n);
    if n > 0 {
      UsageOverPrefix(users, usage, keys, rows, k, i, n - 1);
      AddUsageGrows(UsageAfter(users, usage, keys, rows[..n - 1]), keys[n - 1], rows[n - 1], k);
      assert keys[n - 1] == k <==> i == n - 1;
    }
  }

  lemma UsageUnfolds(users: map<string, User>, usage: map<Slot, Row>, keys: seq<Key>, rows: seq<Row>, n: nat)
    requires n <= |rows| <= |keys|
    ensures UsageAfter(users, usage, keys, rows[..n])
            == if n == 0 then usage
               else if keys[n - 1].user in users
               then AddUsage(UsageAfter(users, usage, keys, rows[..n - 1]), keys[n - 1], rows[n - 1])
               else UsageAfter(users, usage, keys, rows[..n - 1])
  {
    assert n > 0 ==> rows[..n][..n - 1] == rows[..n - 1];
  }

  lemma RowIsStaged(s: State, j: nat)
    requires s.flush.Some? && s.flush.value.deleted && FlushMatches(s.flush.value, s.history) && j < |s.flush.value.keys|
    ensures OfRow(s.flush.value.rows[j]) == Sum(s.history, OfKey(Staged, s.flush.value.keys[j]))
  {
    assert RowMatches(s.flush.value, s.history, j);
  }

  lemma CommitKeepsUsage(balances: map<string, real>, users: map<string, User>, s: State)
    requires Inv(balances, s) && ReadyToCommit(s)
    ensures UsageMatches(Apply(users, s, Commit))
  {
    var t := Apply(users, s, Commit);
    var g := t.history;
    hide Sum, Add, UsageOf, UsageAfter, PendingMatches, StagedMatches, FlushMatches;
    forall k ensures UsageOf(t.usage, k) == Add(Sum(g, OfKey(Deducted, k)), Sum(g, OfKey(Waived, k))) {
      UsageOfKeyAfter(users, s, k);
      SettledOfKey(users, s, g, k);
    }
  }

  lemma UsageOfKeyAfter(users: map<string, User>, s: State, k: Key)
    requires ReadyToCommit(s) && FlushMatches(s.flush.value, s.history) && StagedMatches(s)
    ensures UsageOf(Apply(users, s, Commit).usage, k)
            == if k.user in users then Add(UsageOf(s.usage, k), Sum(s.history, OfKey(Staged, k))) else UsageOf(s.usage, k)
  {
    hide Sum, Add, UsageOf, UsageAfter;
    var f := s.flush.value;
    assert f.rows[..|f.keys|] == f.rows;
    if i: nat :| i < |f.keys| && f.keys[i] == k {
      UsageOverPrefix(users, s.usage, f.keys, f.rows, k, i, |f.keys|);
      RowIsStaged(s, i);
    } else {
      UsageOverPrefix(users, s.usage, f.keys, f.rows, k, |f.keys|, |f.keys|);
      StagedOfKey(s, k);
      AddNothing(UsageOf(s.usage, k));
    }
  }

  lemma SettledOfKey(users: map<string, User>, s: State, g: seq<Entry>, k: Key)
    requires |g| == |s.history|
    requires forall i :: 0 <= i < |g| ==> g[i] == Entry(s.history[i].event, OnCommit(users, s.history[i]))
    ensures var h := s.history;
            Add(Sum(g, OfKey(Deducted, k)), Sum(g, OfKey(Waived, k)))
            == if k.user in users
               then Add(Add(Sum(h, OfKey(Deducted, k)), Sum(h, OfKey(Waived, k))), Sum(h, OfKey(Staged, k)))
               else Add(Sum(h, OfKey(Deducted, k)), Sum(h, OfKey(Waived, k)))
  {
    hide Sum, Add;
    var h := s.history;
    AddSwap(Sum(h, OfKey(Deducted, k)), Sum(h, OfKey(Waived, k)), Sum(h, OfKey(Staged, k)));
    if k.user !in users {
      SettledSame(h, g, OfKey(Deducted, k));
      SettledSame(h, g, OfKey(Waived, k));
    } else if Waives(users[k.user]) {
      SettledSame(h, g, OfKey(Deducted, k));
      SumUnion(h, g, OfKey(Waived, k), OfKey(Staged, k), OfKey(Waived, k));
    } else {
      SettledSame(h, g, OfKey(Waived, k));
      SumUnion(h, g, OfKey(Deducted, k), OfKey(Staged, k), OfKey(Deducted, k));
    }
  }

  lemma StagedOfKey(s: State, k: Key)
    requires StagedMatches(s) && s.flush.Some? && k !in s.flush.value.keys
    ensures Sum(s.history, OfKey(Staged, k)) == NOTHING
  {
    hide Sum;
    forall i | 0 <= i < |s.history| ensures !Matches(OfKey(Staged, k), s.history[i]) {
      assert s.history[i] in s.history;
      assert IsStaged(s.history[i]) <==> s.history[i].fate == Staged;
    }
    SumNone(s.history, OfKey(Staged, k));
  }

  // Once a flush is over, whichever way, nothing is staged and what is pending has not changed.
  lemma EndKeepsPending(s: State, t: State)
    requires PendingMatches(s) && PendingIsKept(s) && t.pending == s.pending && t.flush == None
    requires |t.history| == |s.history|
    requires forall i :: 0 <= i < |s.history| ==>
               && t.history[i].event == s.history[i].event && t.history[i].fate != Staged
               && (t.history[i].fate == Pending <==> s.history[i].fate == Pending)
    ensures PendingMatches(t) && PendingIsKept(t) && StagedMatches(t)
  {
    hide Sum, Stored;
    forall e | e in t.history && IsPending(e) ensures e.event.key in t.pending {
      var i :| 0 <= i < |t.history| && t.history[i] == e;
      assert s.history[i] in s.history && IsPending(s.history[i]);
    }
    forall k ensures OfRow(Stored(t.pending, k)) == Sum(t.history, OfKey(Pending, k)) {
      SettledSame(s.history, t.history, OfKey(Pending, k));
    }
  }

  lemma CommitKeeps(balances: map<string, real>, users: map<string, User>, s: State)
    requires Inv(balances, s) && ReadyToCommit(s)
    ensures Inv(balances, Apply(users, s, Commit))
  {
    CommitKeepsBalances(balances, users, s);
    CommitKeepsUsage(balances, users, s);
    EndKeepsPending(s, Apply(users, s, Commit));
  }

  lemma CrashKeeps(balances: map<string, real>, users: map<string, User>, s: State)
    requires Inv(balances, s)
    ensures Inv(balances, Apply(users, s, Crash))
  {
    var t := Apply(users, s, Crash);
    hide Sum, Add, UsageOf, PendingMatches, PendingIsKept, StagedMatches;
    EndKeepsPending(s, t);
    forall u | u in balances ensures Sum(t.history, OfUser(Deducted, u)) == Sum(s.history, OfUser(Deducted, u)) {
      SettledSame(s.history, t.history, OfUser(Deducted, u));
    }
    forall k ensures UsageOf(t.usage, k) == Add(Sum(t.history, OfKey(Deducted, k)), Sum(t.history, OfKey(Waived, k))) {
      SettledSame(s.history, t.history, OfKey(Deducted, k));
      SettledSame(s.history, t.history, OfKey(Waived, k));
    }
  }

  lemma StepKeeps(balances: map<string, real>, users: map<string, User>, s: State, step: Step)
    requires Inv(balances, s) && ListsOnce(step)
    ensures Inv(balances, Apply(users, s, step))
  {
    match step
    case Charge(e) => ChargeKeeps(balances, users, s, e);
    case List(keys) => ListKeeps(balances, users, s, keys);
    case Read => ReadKeeps(balances, users, s);
    case Delete => if ReadyToDelete(s) { DeleteKeeps(balances, users, s); }
    case Commit => if ReadyToCommit(s) { CommitKeeps(balances, users, s); }
    case Crash => CrashKeeps(balances, users, s);
  }

  /**
    * For every run, with charges landing between any two steps of a flush and a crash at any point, as long as each
    * listing names a key once: a balance is its initial value less what was deducted from it, a pending hash holds
    * what is pending under its key, and the usage rows of a user and chute hold what was deducted or waived there.
    */
  lemma {:induction false} LedgerIsExact(balances: map<string, real>, users: map<string, User>, steps: seq<Step>)
    requires forall i :: 0 <= i < |steps| ==> ListsOnce(steps[i])
    ensures Inv(balances, Run(users, balances, steps))
  {
    hide Apply, Inv;
    if steps == [] {
      StartsExact(balances, users);
    } else {
      LedgerIsExact(balances, users, steps[..|steps| - 1]);
      StepKeeps(balances, users, Run(users, balances, steps[..|steps| - 1]), steps[|steps| - 1]);
    }
  }

  lemma StartsExact(balances: map<string, real>, users: map<string, User>)
    ensures Inv(balances, State(map[], balances, map[], None, []))
  {
    AddNothing(NOTHING);
    assert OfRow(BLANK) == NOTHING;
    hide Add;
    forall k ensures UsageOf(map[], k) == NOTHING {
    }
    forall q ensures Sum([], q) == NOTHING {
    }
  }

  // ---- Conservation, against the stored tables ----

  // Amounts of all usage rows of a user.
  function Paid(usage: map<Slot, Row>, slot: Slot, u: string): real
    requires slot in usage
  {
    if slot.user == u then usage[slot].amount else 0.0
  }

  ghost function PaidBy(usage: map<Slot, Row>, u: string): real
    decreases |usage|
  {
    if usage == map[] then 0.0
    else
      var slot :| slot in usage;
      PaidBy(usage - {slot}, u) + Paid(usage, slot, u)
  }

  lemma {:induction false} PaidWithout(usage: map<Slot, Row>, slot: Slot, u: string)
    requires slot in usage
    ensures PaidBy(usage, u) == PaidBy(usage - {slot}, u) + Paid(usage, slot, u)
    decreases |usage|
  {
    var other: Slot :| other in usage && PaidBy(usage, u) == PaidBy(usage - {other}, u) + Paid(usage, other, u);
    if other != slot {
      PaidWithout(usage - {other}, slot, u);
      PaidWithout(usage - {slot}, other, u);
      assert usage - {other} - {slot} == usage - {slot} - {other};
      assert Paid(usage - {other}, slot, u) == Paid(usage, slot, u) && Paid(usage - {slot}, other, u) == Paid(usage, other, u);
    }
  }

  lemma AddUsagePays(usage: map<Slot, Row>, k: Key, r: Row, u: string)
    ensures PaidBy(AddUsage(usage, k, r), u) == PaidBy(usage, u) + if k.user == u then r.amount else 0.0
  {
    hide PaidBy, Bucket;
    var slot := Slot(k.user, k.chute, Bucket(r.timestamp));
    var after := AddUsage(usage, k, r);
    PaidWithout(after, slot, u);
    assert after - {slot} == usage - {slot};
    if slot in usage {
      PaidWithout(usage, slot, u);
    } else {
      assert usage - {slot} == usage;
    }
  }

  lemma {:induction false} UsagePays(users: map<string, User>, usage: map<Slot, Row>, keys: seq<Key>, rows: seq<Row>, u: string)
    requires |rows| <= |keys|
    ensures PaidBy(UsageAfter(users, usage, keys, rows), u)
            == PaidBy(usage, u) + if u in users then TotalOf(u, keys, rows) else 0.0
    decreases |rows|
  {
    hide PaidBy, AddUsage;
    if rows != [] {
      var n := |rows| - 1;
      UsagePays(users, usage, keys, rows[..n], u);
      AddUsagePays(UsageAfter(users, usage, keys, rows[..n]), keys[n], rows[n], u);
    }
  }

  // Every user has a balance, and it is down by what the usage rows of the user come to, unless it is waived.
  ghost predicate BalancesAgree(balances: map<string, real>, users: map<string, User>, s: State) {
    && s.balances.Keys == balances.Keys
    && forall u :: u in balances && u in users ==>
         balances[u] - s.balances[u] == if Waives(users[u]) then 0.0 else PaidBy(s.usage, u)
  }

  ghost predicate FlushFits(s: State) {
    s.flush.Some? ==> |s.flush.value.rows| == |s.flush.value.marks| <= |s.flush.value.keys|
  }

  lemma StepAgrees(balances: map<string, real>, users: map<string, User>, s: State, step: Step)
    requires BalancesAgree(balances, users, s) && FlushFits(s)
    ensures BalancesAgree(balances, users, Apply(users, s, step)) && FlushFits(Apply(users, s, step))
  {
    hide PaidBy, Settled, Refate, OnDelete, TotalOf;
    if step.Commit? && ReadyToCommit(s) {
      var f := s.flush.value;
      forall u | u in balances && u in users
        ensures PaidBy(UsageAfter(users, s.usage, f.keys, f.rows), u) == PaidBy(s.usage, u) + TotalOf(u, f.keys, f.rows)
      {
        UsagePays(users, s.usage, f.keys, f.rows, u);
      }
      hide UsageAfter;
    }
  }

  /** Over every run, whatever is listed twice, lost or interleaved: the balance of a paying user is down by exactly what
      the usage rows of the user come to, and that of a free account is not down at all. */
  lemma {:induction false} BalancesFollowUsage(balances: map<string, real>, users: map<string, User>, steps: seq<Step>)
    requires users.Keys == balances.Keys
    ensures var s := Run(users, balances, steps);
            && s.balances.Keys == users.Keys
            && forall u :: u in users ==>
                 balances[u] - s.balances[u] == if users[u].free && !users[u].invoiced then 0.0 else PaidBy(s.usage, u)
    ensures BalancesAgree(balances, users, Run(users, balances, steps)) && FlushFits(Run(users, balances, steps))
  {
    if steps != [] {
      var n := |steps| - 1;
      BalancesFollowUsage(balances, users, steps[..n]);
      hide Apply, PaidBy;
      StepAgrees(balances, users, Run(users, balances, steps[..n]), steps[n]);
    }
  }

  function Places(pending: Totals, deducted: Totals, waived: Totals, staged: Totals, dropped: Totals, lost: Totals): Totals {
    Add(Add(pending, Add(deducted, waived)), Add(Add(staged, dropped), lost))
  }

  lemma PlaceOneMore(p: Totals, d: Totals, w: Totals, s: Totals, r: Totals, l: Totals, e: Totals)
    ensures Places(Add(p, e), d, w, s, r, l) == Add(Places(p, d, w, s, r, l), e)
    ensures Places(p, Add(d, e), w, s, r, l) == Add(Places(p, d, w, s, r, l), e)
    ensures Places(p, d, Add(w, e), s, r, l) == Add(Places(p, d, w, s, r, l), e)
    ensures Places(p, d, w, Add(s, e), r, l) == Add(Places(p, d, w, s, r, l), e)
    ensures Places(p, d, w, s, Add(r, e), l) == Add(Places(p, d, w, s, r, l), e)
    ensures Places(p, d, w, s, r, Add(l, e)) == Add(Places(p, d, w, s, r, l), e)
  {
  }

  function PlacesOf(h: seq<Entry>, k: Key): Totals {
    Places(Sum(h, OfKey(Pending, k)), Sum(h, OfKey(Deducted, k)), Sum(h, OfKey(Waived, k)),
           Sum(h, OfKey(Staged, k)), Sum(h, OfKey(Dropped, k)), Sum(h, OfKey(Lost, k)))
  }

  // The increments under one key are in the six places.
  lemma {:induction false} FatesPartitionKey(h: seq<Entry>, k: Key)
    ensures Sum(h, Under(k)) == PlacesOf(h, k)
  {
    hide Add, Places;
    if h != [] {
      var n := |h| - 1;
      var i, e := h[..n], h[n];
      FatesPartitionKey(i, k);
      assert h == i + [e];
      hide Sum;
      SumAppend(i, e, Under(k));
      forall f: Fate ensures Sum(h, OfKey(f, k))
                             == if e.fate == f && e.event.key == k then Add(Sum(i, OfKey(f, k)), OfEvent(e.event))
                                else Sum(i, OfKey(f, k)) {
        SumAppend(i, e, OfKey(f, k));
      }
      PlaceOneMore(Sum(i, OfKey(Pending, k)), Sum(i, OfKey(Deducted, k)), Sum(i, OfKey(Waived, k)),
                   Sum(i, OfKey(Staged, k)), Sum(i, OfKey(Dropped, k)), Sum(i, OfKey(Lost, k)), OfEvent(e.event));
    } else {
      NothingPlaced();
    }
  }

  lemma NothingPlaced()
    ensures Places(NOTHING, NOTHING, NOTHING, NOTHING, NOTHING, NOTHING) == NOTHING
  {
  }

  /**
    * Over every run whose listings name each key once, nothing charged under a key disappears and nothing is invented:
    * what was charged is in the pending hash or in the usage rows of its user and chute, or it is staged by the flush in
    * flight, or was dropped for want of a user, or lost. And what the usage rows of a paying user come to is what the
    * user's balance is down by.
    */
  lemma ChargesAreConserved(balances: map<string, real>, users: map<string, User>, steps: seq<Step>)
    requires users.Keys == balances.Keys && forall i :: 0 <= i < |steps| ==> ListsOnce(steps[i])
    ensures var s := Run(users, balances, steps);
            && (forall k :: Sum(s.history, Under(k))
                  == Add(Add(OfRow(Stored(s.pending, k)), UsageOf(s.usage, k)),
                         Add(Add(Sum(s.history, OfKey(Staged, k)), Sum(s.history, OfKey(Dropped, k))),
                             Sum(s.history, OfKey(Lost, k)))))
            && s.balances.Keys == users.Keys
            && forall u :: u in users ==>
                 balances[u] - s.balances[u] == if users[u].free && !users[u].invoiced then 0.0 else PaidBy(s.usage, u)
  {
    LedgerIsExact(balances, users, steps);
    BalancesFollowUsage(balances, users, steps);
    var s := Run(users, balances, steps);
    hide Run, Sum, Add, UsageOf, PaidBy, Stored;
    forall k ensures Sum(s.history, Under(k))
                     == Add(Add(OfRow(Stored(s.pending, k)), UsageOf(s.usage, k)),
                            Add(Add(Sum(s.history, OfKey(Staged, k)), Sum(s.history, OfKey(Dropped, k))),
                                Sum(s.history, OfKey(Lost, k)))) {
      FatesPartitionKey(s.history, k);
      PendingOfKey(s, k);
      assert UsageOf(s.usage, k) == Add(Sum(s.history, OfKey(Deducted, k)), Sum(s.history, OfKey(Waived, k)));
    }
  }

  predicate IsFinal(f: Fate) {
    f == Deducted || f == Waived || f == Dropped || f == Lost
  }

  ghost predicate Continues(h: seq<Entry>, g: seq<Entry>) {
    && |h| <= |g|
    && forall i :: 0 <= i < |h| ==> g[i].event == h[i].event && (IsFinal(h[i].fate) ==> g[i].fate == h[i].fate)
  }

  /** No charge is forgotten, and one that is deducted, waived, dropped or lost stays so: it is deducted at most once. */
  lemma {:induction false} FatesAreFinal(balances: map<string, real>, users: map<string, User>, steps: seq<Step>, n: nat)
    requires n <= |steps|
    ensures Continues(Run(users, balances, steps[..n]).history, Run(users, balances, steps).history)
    decreases |steps|
  {
    if n == |steps| {
      assert steps[..n] == steps;
    } else {
      var m := |steps| - 1;
      assert steps[..m][..n] == steps[..n];
      FatesAreFinal(balances, users, steps[..m], n);
      hide Run;
      StepContinues(users, Run(users, balances, steps[..m]), steps[m]);
    }
  }

  lemma StepContinues(users: map<string, User>, s: State, step: Step)
    ensures Continues(s.history, Apply(users, s, step).history)
  {
    hide UsageAfter, BalancesAfter, TotalOf, IndexOf;
  }

  /**
    * The two ways to lose a charge: it was added to a hash between that hash being read and deleted, or the flush
    * that deleted its hash did not commit.
    */
  lemma LossSources(balances: map<string, real>, users: map<string, User>, s: State, step: Step, i: nat)
    requires Inv(balances, s) && i < |s.history| && s.history[i].fate != Lost
    ensures Apply(users, s, step).history[i].fate == Lost <==>
            || (step == Delete && ReadyToDelete(s) && s.history[i].fate == Pending
                && exists j :: 0 <= j < |s.flush.value.keys| && s.flush.value.keys[j] == s.history[i].event.key
                               && s.flush.value.marks[j] <= i)
            || (step == Crash && s.flush.Some? && s.flush.value.deleted && s.history[i].fate == Staged)
  {
    hide UsageAfter, BalancesAfter, TotalOf, PendingMatches, PendingIsKept, BalancesMatch, UsageMatches, RowMatches;
    if step == Delete && ReadyToDelete(s) && s.history[i].event.key in s.flush.value.keys {
      var keys := s.flush.value.keys;
      var at := IndexOf(keys, s.history[i].event.key);
      assert forall j :: 0 <= j < |keys| && keys[j] == s.history[i].event.key ==> j == at;
    }
    if s.history[i].fate == Staged {
      assert s.history[i] in s.history && IsStaged(s.history[i]);
    }
  }

  // ---- A flush that nothing interleaves with ----

  function ReadAll(users: map<string, User>, s: State, n: nat): State {
    if n == 0 then s else Apply(users, ReadAll(users, s, n - 1), Read)
  }

  function WholeFlush(users: map<string, User>, s: State, keys: seq<Key>): State {
    Apply(users, Apply(users, ReadAll(users, Apply(users, s, List(keys)), |keys|), Delete), Commit)
  }

  function RowsOf(pending: map<Key, Row>, keys: seq<Key>): seq<Row> {
    seq(|keys|, i requires 0 <= i < |keys| => Stored(pending, keys[i]))
  }

  lemma {:induction false} ReadsInOrder(users: map<string, User>, s: State, keys: seq<Key>, n: nat)
    requires s.flush == None && n <= |keys|
    ensures ReadAll(users, Apply(users, s, List(keys)), n)
            == s.(flush := Some(Flush(keys, RowsOf(s.pending, keys[..n]), seq(n, _ => |s.history|), false)))
  {
    if n > 0 {
      ReadsInOrder(users, s, keys, n - 1);
      assert RowsOf(s.pending, keys[..n]) == RowsOf(s.pending, keys[..n - 1]) + [Stored(s.pending, keys[n - 1])];
      assert seq(n, _ => |s.history|) == seq(n - 1, _ => |s.history|) + [|s.history|];
    } else {
      assert RowsOf(s.pending, keys[..0]) == [] && seq(0, _ => |s.history|) == [];
    }
  }

  // Deleting right after reading stages whatever is pending and loses nothing.
  lemma DeleteStagesAll(users: map<string, User>, s: State, f: Flush)
    requires PendingIsKept(s) && s.flush == Some(f) && AllRead(f) && !f.deleted && ToSet(f.keys) == s.pending.Keys
    requires forall j :: 0 <= j < |f.marks| ==> f.marks[j] == |s.history|
    ensures var t := Apply(users, s, Delete);
            && t == s.(pending := t.pending, flush := Some(f.(deleted := true)), history := t.history)
            && t.pending == map[] && |t.history| == |s.history|
            && forall i :: 0 <= i < |s.history| ==>
                 t.history[i] == Entry(s.history[i].event,
                                       if s.history[i].fate == Pending then Staged else s.history[i].fate)
  {
    hide IndexOf;
    forall i | 0 <= i < |s.history| ensures IsPending(s.history[i]) ==> s.history[i].event.key in f.keys {
      assert s.history[i] in s.history;
      assert s.history[i].event.key in ToSet(f.keys) <==> s.history[i].event.key in f.keys;
    }
  }

  // Where every charge is after a flush that nothing interleaved with.
  lemma WholeFlushSettles(users: map<string, User>, s: State, keys: seq<Key>)
    requires PendingIsKept(s) && StagedMatches(s) && s.flush == None && ToSet(keys) == s.pending.Keys
    ensures var t := WholeFlush(users, s, keys);
            && t.pending == map[] && t.flush == None && |t.history| == |s.history|
            && t.balances == BalancesAfter(users, s.balances, Flush(keys, RowsOf(s.pending, keys), [], true))
            && forall i :: 0 <= i < |s.history| ==>
                 t.history[i] == Entry(s.history[i].event,
                                       if s.history[i].fate == Pending then Settled(users, s.history[i].event.key)
                                       else s.history[i].fate)
    ensures forall i :: 0 <= i < |s.history| && s.history[i].fate == Pending ==>
              var u := s.history[i].event.key.user;
              WholeFlush(users, s, keys).history[i].fate
              == if u !in users then Dropped else if users[u].free && !users[u].invoiced then Waived else Deducted
  {
    ReadsInOrder(users, s, keys, |keys|);
    assert keys[..|keys|] == keys;
    var read := ReadAll(users, Apply(users, s, List(keys)), |keys|);
    var f := read.flush.value;
    hide ReadAll, ToSet;
    assert PendingIsKept(read);
    DeleteStagesAll(users, read, f);
    forall i | 0 <= i < |s.history| ensures s.history[i].fate != Staged {
      NoneStaged(s, i);
    }
    hide UsageAfter, TotalOf, RowsOf, OnDelete, PendingIsKept, StagedMatches;
  }

  lemma {:induction false} ReadAllKeeps(balances: map<string, real>, users: map<string, User>, s: State, n: nat)
    requires Inv(balances, s)
    ensures Inv(balances, ReadAll(users, s, n))
  {
    hide Inv, Apply;
    if n > 0 {
      ReadAllKeeps(balances, users, s, n - 1);
      StepKeeps(balances, users, ReadAll(users, s, n - 1), Read);
    }
  }

  lemma WholeFlushKeeps(balances: map<string, real>, users: map<string, User>, s: State, keys: seq<Key>)
    requires Inv(balances, s) && NoDuplicates(keys)
    ensures Inv(balances, WholeFlush(users, s, keys))
  {
    hide Inv, Apply;
    var listed := Apply(users, s, List(keys));
    StepKeeps(balances, users, s, List(keys));
    ReadAllKeeps(balances, users, listed, |keys|);
    var read := ReadAll(users, listed, |keys|);
    StepKeeps(balances, users, read, Delete);
    StepKeeps(balances, users, Apply(users, read, Delete), Commit);
  }

  // What a user has to pay for the pending increments.
  function Due(users: map<string, User>, h: seq<Entry>, u: string): real {
    if u in users && !(users[u].free && !users[u].invoiced) then Sum(h, OfUser(Pending, u)).amount else 0.0
  }

  /**
    * A flush that lists every pending key once, with no charge landing in between and no crash, empties the ledger and
    * loses nothing: each paying user's balance falls by what was pending for the user, and the usage rows of every
    * existing user and chute grow by exactly what was pending there.
    */
  lemma WholeFlushIsExact(balances: map<string, real>, users: map<string, User>, s: State, keys: seq<Key>)
    requires Inv(balances, s) && s.flush == None && NoDuplicates(keys) && ToSet(keys) == s.pending.Keys
    ensures var t := WholeFlush(users, s, keys);
            && t.pending == map[] && t.balances.Keys == s.balances.Keys
            && Sum(t.history, OfFate(Pending)) == NOTHING && Sum(t.history, OfFate(Lost)) == Sum(s.history, OfFate(Lost))
            && (forall u :: u in s.balances ==> t.balances[u] == s.balances[u] - Due(users, s.history, u))
            && forall k :: UsageOf(t.usage, k) == Add(UsageOf(s.usage, k),
                 if k.user in users then Sum(s.history, OfKey(Pending, k)) else NOTHING)
  {
    var t := WholeFlush(users, s, keys);
    WholeFlushSettles(users, s, keys);
    WholeFlushKeeps(balances, users, s, keys);
    hide WholeFlush, Sum, Add, UsageOf, PendingMatches, PendingIsKept, StagedMatches, BalancesAfter;
    SumNone(t.history, OfFate(Pending));
    SettledSame(s.history, t.history, OfFate(Lost));
    forall u | u in s.balances
      ensures t.balances[u] == s.balances[u] - Due(users, s.history, u)
    {
      FlushedBalance(users, s.history, t.history, u);
    }
    forall k
      ensures UsageOf(t.usage, k) == Add(UsageOf(s.usage, k),
                if k.user in users then Sum(s.history, OfKey(Pending, k)) else NOTHING)
    {
      FlushedUsage(users, s.history, t.history, k);
    }
  }

  ghost predicate FlushedFates(users: map<string, User>, h: seq<Entry>, g: seq<Entry>) {
    && |g| == |h|
    && forall i :: 0 <= i < |h| ==>
         g[i] == Entry(h[i].event, if h[i].fate == Pending then Settled(users, h[i].event.key) else h[i].fate)
  }

  lemma FlushedBalance(users: map<string, User>, h: seq<Entry>, g: seq<Entry>, u: string)
    requires FlushedFates(users, h, g)
    ensures Sum(g, OfUser(Deducted, u)).amount == Sum(h, OfUser(Deducted, u)).amount + Due(users, h, u)
  {
    hide Sum;
    if u in users && !Waives(users[u]) {
      SumUnion(h, g, OfUser(Deducted, u), OfUser(Pending, u), OfUser(Deducted, u));
    } else {
      SettledSame(h, g, OfUser(Deducted, u));
    }
  }

  lemma FlushedUsage(users: map<string, User>, h: seq<Entry>, g: seq<Entry>, k: Key)
    requires FlushedFates(users, h, g)
    ensures Add(Sum(g, OfKey(Deducted, k)), Sum(g, OfKey(Waived, k)))
            == Add(Add(Sum(h, OfKey(Deducted, k)), Sum(h, OfKey(Waived, k))),
                   if k.user in users then Sum(h, OfKey(Pending, k)) else NOTHING)
  {
    hide Sum, Add;
    AddSwap(Sum(h, OfKey(Deducted, k)), Sum(h, OfKey(Waived, k)), Sum(h, OfKey(Pending, k)));
    AddNothing(Add(Sum(h, OfKey(Deducted, k)), Sum(h, OfKey(Waived, k))));
    if k.user !in users {
      SettledSame(h, g, OfKey(Deducted, k));
      SettledSame(h, g, OfKey(Waived, k));
    } else if Waives(users[k.user]) {
      SettledSame(h, g, OfKey(Deducted, k));
      SumUnion(h, g, OfKey(Waived, k), OfKey(Pending, k), OfKey(Waived, k));
    } else {
      SettledSame(h, g, OfKey(Waived, k));
      SumUnion(h, g, OfKey(Deducted, k), OfKey(Pending, k), OfKey(Deducted, k));
    }
  }

  // ---- The hour a charge is booked to ----

  // The timestamp of the last pending increment of a key that carries one.
  function LastStamp(h: seq<Entry>, k: Key): int {
    if h == [] then 0
    else
      var last := h[|h| - 1];
      if last.fate == Pending && last.event.key == k && last.event.timestamp.Some? then last.event.timestamp.value
      else LastStamp(h[..|h| - 1], k)
  }

  lemma {:induction false} StampsSame(h: seq<Entry>, g: seq<Entry>, k: Key)
    requires |h| == |g|
    requires forall i :: 0 <= i < |h| ==>
               h[i].event == g[i].event && (h[i].event.key == k ==> (h[i].fate == Pending <==> g[i].fate == Pending))
    ensures LastStamp(h, k) == LastStamp(g, k)
  {
    if h != [] {
      StampsSame(h[..|h| - 1], g[..|g| - 1], k);
    }
  }

  lemma {:induction false} NoStamp(h: seq<Entry>, k: Key)
    requires forall i :: 0 <= i < |h| && h[i].event.key == k ==> h[i].fate != Pending
    ensures LastStamp(h, k) == 0
  {
    if h != [] {
      NoStamp(h[..|h| - 1], k);
    }
  }

  lemma StepKeepsStamp(users: map<string, User>, s: State, step: Step, k: Key)
    requires Stored(s.pending, k).timestamp == LastStamp(s.history, k) && FlushFits(s)
    ensures var t := Apply(users, s, step);
            Stored(t.pending, k).timestamp == LastStamp(t.history, k) && FlushFits(t)
  {
    hide IndexOf, UsageAfter, BalancesAfter;
    var t := Apply(users, s, step);
    if step.Charge? {
      assert t.history[..|t.history| - 1] == s.history;
    } else if step.Delete? && ReadyToDelete(s) && k in s.flush.value.keys {
      NoStamp(t.history, k);
    } else {
      StampsSame(s.history, t.history, k);
    }
  }

  /** Over every run, a pending hash carries the timestamp of the last increment pending under its key that had one. */
  lemma {:induction false} StampIsLast(balances: map<string, real>, users: map<string, User>, steps: seq<Step>, k: Key)
    ensures var s := Run(users, balances, steps);
            Stored(s.pending, k).timestamp == LastStamp(s.history, k) && FlushFits(s)
  {
    hide Apply, Stored, LastStamp, FlushFits;
    if steps == [] {
      NoStampYet(balances, k);
    } else {
      StampIsLast(balances, users, steps[..|steps| - 1], k);
      StepKeepsStamp(users, Run(users, balances, steps[..|steps| - 1]), steps[|steps| - 1], k);
    }
  }

  lemma NoStampYet(balances: map<string, real>, k: Key)
    ensures Stored(map[], k).timestamp == LastStamp([], k) && FlushFits(State(map[], balances, map[], None, []))
  {
  }

  function Booked(usage: map<Slot, Row>, slot: Slot): Totals {
    if slot in usage then OfRow(usage[slot]) else NOTHING
  }

  // The slot is of the hour in which the timestamp lies.
  predicate IsHourOf(slot: Slot, timestamp: int) {
    slot.bucket % 3600 == 0 && slot.bucket <= timestamp < slot.bucket + 3600
  }

  lemma AddUsageBooks(usage: map<Slot, Row>, k: Key, r: Row, slot: Slot)
    ensures Booked(AddUsage(usage, k, r), slot)
            == if k == Key(slot.user, slot.chute) && IsHourOf(slot, r.timestamp)
               then Add(Booked(usage, slot), OfRow(r)) else Booked(usage, slot)
  {
    assert IsHourOf(slot, r.timestamp) <==> slot.bucket == Bucket(r.timestamp);
    hide Bucket, IsHourOf;
    var at := Slot(k.user, k.chute, Bucket(r.timestamp));
    var had := if at in usage then usage[at] else BLANK;
    SlotGrows(had, r, AddUsage(usage, k, r)[at]);
  }

  // `i` is the position of the slot's key in the listing; a key that is not listed has none.
  lemma {:induction false} BooksOverPrefix(users: map<string, User>, usage: map<Slot, Row>, keys: seq<Key>, rows: seq<Row>,
                                           slot: Slot, i: nat, n: nat)
    requires NoDuplicates(keys) && n <= |rows| == |keys|
    requires if i < |keys| then keys[i] == Key(slot.user, slot.chute) else Key(slot.user, slot.chute) !in keys
    ensures Booked(UsageAfter(users, usage, keys, rows[..n]), slot)
            == if i < n && slot.user in users && IsHourOf(slot, rows[i].timestamp)
               then Add(Booked(usage, slot), OfRow(rows[i])) else Booked(usage, slot)
  {
    hide Add, Booked, AddUsage, UsageAfter, OfRow, IsHourOf;
    UsageUnfolds(users, usage, keys, rows, n);
    if n > 0 {
      BooksOverPrefix(users, usage, keys, rows, slot, i, n - 1);
      AddUsageBooks(UsageAfter(users, usage, keys, rows[..n - 1]), keys[n - 1], rows[n - 1], slot);
      assert keys[n - 1] == Key(slot.user, slot.chute) <==> i == n - 1;
    }
  }

  lemma FlushUsage(users: map<string, User>, s: State, keys: seq<Key>)
    requires s.flush == None
    ensures WholeFlush(users, s, keys).usage == UsageAfter(users, s.usage, keys, RowsOf(s.pending, keys))
  {
    ReadsInOrder(users, s, keys, |keys|);
    assert keys[..|keys|] == keys;
    hide ReadAll, UsageAfter, OnDelete, BalancesAfter;
  }

  /** A flush that nothing interleaves with books what is pending of an existing user to one usage row: that of the user,
      the chute and the hour of the hash's timestamp. No other row changes. */
  lemma WholeFlushBooks(users: map<string, User>, s: State, keys: seq<Key>, slot: Slot)
    requires s.flush == None && NoDuplicates(keys) && ToSet(keys) == s.pending.Keys
    ensures var k := Key(slot.user, slot.chute);
            Booked(WholeFlush(users, s, keys).usage, slot)
            == if k in s.pending && slot.user in users && IsHourOf(slot, s.pending[k].timestamp)
               then Add(Booked(s.usage, slot), OfRow(s.pending[k])) else Booked(s.usage, slot)
  {
    var k, rows := Key(slot.user, slot.chute), RowsOf(s.pending, keys);
    FlushUsage(users, s, keys);
    assert rows[..|keys|] == rows;
    hide WholeFlush, UsageAfter, Add, Booked, IsHourOf;
    assert k in s.pending <==> k in ToSet(keys);
    if i: nat :| i < |keys| && keys[i] == k {
      BooksOverPrefix(users, s.usage, keys, rows, slot, i, |keys|);
    } else {
      BooksOverPrefix(users, s.usage, keys, rows, slot, |keys|, |keys|);
    }
  }

  // ---- A listing that repeats a key ----

  ghost predicate RepeatsUser(keys: seq<Key>, u: string) {
    exists i, j :: 0 <= i < j < |keys| && keys[i] == keys[j] && keys[i].user == u
  }

  // What is pending under the listed keys of a user, each key counted once.
  function OnceEach(pending: map<Key, Row>, keys: seq<Key>, u: string): real {
    if keys == [] then 0.0
    else
      var n := |keys| - 1;
      OnceEach(pending, keys[..n], u)
      + if keys[n].user == u && keys[n] !in keys[..n] then Stored(pending, keys[n]).amount else 0.0
  }

  lemma {:induction false} OnceEachOrMore(pending: map<Key, Row>, keys: seq<Key>, u: string)
    requires forall k :: k in keys && k.user == u ==> Stored(pending, k).amount > 0.0
    ensures TotalOf(u, keys, RowsOf(pending, keys)) >= OnceEach(pending, keys, u)
    ensures TotalOf(u, keys, RowsOf(pending, keys)) == OnceEach(pending, keys, u) <==> !RepeatsUser(keys, u)
  {
    if keys != [] {
      var n := |keys| - 1;
      var init := keys[..n];
      OnceEachOrMore(pending, init, u);
      assert RowsOf(pending, keys)[..n] == RowsOf(pending, init);
      TotalOfPrefix(u, init, keys, RowsOf(pending, init));
      hide TotalOf, OnceEach, Stored, RepeatsUser, RowsOf;
      TotalUnfolds(u, keys, RowsOf(pending, keys));
      OnceUnfolds(pending, keys, u);
      RepeatsGrows(keys, u);
    }
  }

  lemma RepeatsGrows(keys: seq<Key>, u: string)
    requires keys != []
    ensures var n := |keys| - 1;
            RepeatsUser(keys, u) <==> RepeatsUser(keys[..n], u) || (keys[n].user == u && keys[n] in keys[..n])
  {
    var n := |keys| - 1;
    var init := keys[..n];
    if RepeatsUser(init, u) {
      var i, j :| 0 <= i < j < |init| && init[i] == init[j] && init[i].user == u;
      assert keys[i] == keys[j];
    }
    if keys[n].user == u && keys[n] in init {
      var i :| 0 <= i < n && init[i] == keys[n];
      assert keys[i] == keys[n];
    }
    if RepeatsUser(keys, u) {
      var i, j :| 0 <= i < j < |keys| && keys[i] == keys[j] && keys[i].user == u;
      assert init[i] == keys[i];
      assert j < n ==> init[j] == keys[j];
    }
  }

  lemma TotalUnfolds(u: string, keys: seq<Key>, rows: seq<Row>)
    requires 0 < |rows| == |keys|
    ensures var n := |rows| - 1;
            TotalOf(u, keys, rows) == TotalOf(u, keys, rows[..n]) + if keys[n].user == u then rows[n].amount else 0.0
  {
  }

  lemma OnceUnfolds(pending: map<Key, Row>, keys: seq<Key>, u: string)
    requires keys != []
    ensures var n := |keys| - 1;
            OnceEach(pending, keys, u) == OnceEach(pending, keys[..n], u)
              + if keys[n].user == u && keys[n] !in keys[..n] then Stored(pending, keys[n]).amount else 0.0
  {
  }

  lemma {:induction false} TotalOfPrefix(u: string, init: seq<Key>, keys: seq<Key>, rows: seq<Row>)
    requires |rows| <= |init| <= |keys| && init == keys[..|init|]
    ensures TotalOf(u, init, rows) == TotalOf(u, keys, rows)
    decreases |rows|
  {
    if rows != [] {
      TotalOfPrefix(u, init, keys, rows[..|rows| - 1]);
    }
  }

  lemma {:induction false} OnceEachIsPending(s: State, keys: seq<Key>, u: string)
    requires PendingMatches(s)
    ensures OnceEach(s.pending, keys, u) == Sum(s.history, Among(Pending, u, ToSet(keys))).amount
  {
    hide Sum, Stored, PendingMatches;
    if keys == [] {
      SumNone(s.history, Among(Pending, u, ToSet(keys)));
    } else {
      var n := |keys| - 1;
      var k := keys[n];
      OnceEachIsPending(s, keys[..n], u);
      var some, one, all := Among(Pending, u, ToSet(keys[..n])), OfKey(Pending, k), Among(Pending, u, ToSet(keys));
      assert keys == keys[..n] + [k];
      assert ToSet(keys) == ToSet(keys[..n]) + {k};
      if k.user == u && k !in keys[..n] {
        PendingOfKey(s, k);
        SumUnion(s.history, s.history, some, one, all);
      } else {
        SumSame(s.history, s.history, some, all);
      }
    }
  }

  lemma PendingOfKey(s: State, k: Key)
    requires PendingMatches(s)
    ensures OfRow(Stored(s.pending, k)) == Sum(s.history, OfKey(Pending, k))
  {
  }

  // What the repeated positions of a user's keys add.
  function Repeated(pending: map<Key, Row>, keys: seq<Key>, u: string): real {
    if keys == [] then 0.0
    else
      var n := |keys| - 1;
      Repeated(pending, keys[..n], u)
      + if keys[n].user == u && keys[n] in keys[..n] then Stored(pending, keys[n]).amount else 0.0
  }

  lemma {:induction false} TotalWithRepeats(pending: map<Key, Row>, keys: seq<Key>, u: string)
    ensures TotalOf(u, keys, RowsOf(pending, keys)) == OnceEach(pending, keys, u) + Repeated(pending, keys, u)
  {
    if keys != [] {
      var n := |keys| - 1;
      var init := keys[..n];
      TotalWithRepeats(pending, init, u);
      assert RowsOf(pending, keys)[..n] == RowsOf(pending, init);
      TotalOfPrefix(u, init, keys, RowsOf(pending, init));
    }
  }

  /**
    * A listing that repeats a key breaks the "at most once": a flush takes from a paying user what was pending, whatever
    * its sign, and once more the amount of every repeated position. So it is exact if and only if the repeated positions
    * of the user's keys add up to nothing; when the pending amounts are positive, if and only if no key is repeated.
    */
  lemma RepeatedKeyOvercharges(users: map<string, User>, s: State, keys: seq<Key>, u: string)
    requires PendingMatches(s) && PendingIsKept(s) && StagedMatches(s) && s.flush == None
    requires ToSet(keys) == s.pending.Keys
    requires u in s.balances && u in users && (users[u].free ==> users[u].invoiced)
    ensures u in WholeFlush(users, s, keys).balances
    ensures WholeFlush(users, s, keys).balances[u]
            == s.balances[u] - Sum(s.history, OfUser(Pending, u)).amount - Repeated(s.pending, keys, u)
    ensures (forall k :: k in s.pending && k.user == u ==> s.pending[k].amount > 0.0) ==>
              (Repeated(s.pending, keys, u) == 0.0 <==> !RepeatsUser(keys, u)) && Repeated(s.pending, keys, u) >= 0.0
  {
    WholeFlushSettles(users, s, keys);
    TotalWithRepeats(s.pending, keys, u);
    OnceEachIsPending(s, keys, u);
    hide Sum, WholeFlush, TotalOf, OnceEach, PendingMatches, StagedMatches, Stored, RowsOf, Repeated, RepeatsUser;
    forall i | 0 <= i < |s.history| && IsPending(s.history[i]) ensures s.history[i].event.key in ToSet(keys) {
      assert s.history[i] in s.history;
    }
    SumSame(s.history, s.history, Among(Pending, u, ToSet(keys)), OfUser(Pending, u));
    if forall k :: k in s.pending && k.user == u ==> s.pending[k].amount > 0.0 {
      PositiveRepeats(s.pending, keys, u);
    }
  }

  lemma PositiveRepeats(pending: map<Key, Row>, keys: seq<Key>, u: string)
    requires ToSet(keys) == pending.Keys && forall k :: k in pending && k.user == u ==> pending[k].amount > 0.0
    ensures (Repeated(pending, keys, u) == 0.0 <==> !RepeatsUser(keys, u)) && Repeated(pending, keys, u) >= 0.0
  {
    forall k | k in keys && k.user == u ensures Stored(pending, k).amount > 0.0 {
      assert k in ToSet(keys);
    }
    hide Stored, TotalOf, OnceEach, Repeated, RepeatsUser, RowsOf;
    OnceEachOrMore(pending, keys, u);
    TotalWithRepeats(pending, keys, u);
  }

  // ---- The ledger and its flush, in place ----

  lemma {:induction false} NoTotal(u: string, keys: seq<Key>, rows: seq<Row>)
    requires |rows| <= |keys| && forall j :: 0 <= j < |rows| ==> keys[j].user != u
    ensures TotalOf(u, keys, rows) == 0.0
    decreases |rows|
  {
    if rows != [] {
      NoTotal(u, keys, rows[..|rows| - 1]);
    }
  }

  class UsageTracker {
    const users: map<string, User>
    var pending: map<Key, Row>
    var balances: map<string, real>
    var usage: map<Slot, Row>
    // The flush in flight: what it listed, what it read, and whether it deleted.
    var flushing: bool
    var keys: seq<Key>
    var rows: seq<Row>
    var deleted: bool
    ghost var marks: seq<nat>
    ghost var history: seq<Entry>

    ghost function View(): State
      reads this
    {
      State(pending, balances, usage, if flushing then Some(Flush(keys, rows, marks, deleted)) else None, history)
    }

    ghost predicate Valid()
      reads this
    {
      |marks| == |rows| <= |keys|
    }

    constructor (users: map<string, User>, balances: map<string, real>)
      ensures Valid() && this.users == users && View() == Run(users, balances, [])
    {
      this.users, this.balances := users, balances;
      pending, usage, history := map[], map[], [];
      flushing, keys, rows, marks, deleted := false, [], [], [], false;
    }

    // The increments of one billed call, sent as one pipeline.
    method Charge(e: Event)
      requires Valid()
      modifies this
      ensures Valid() && View() == Apply(users, old(View()), Step.Charge(e))
    {
      var row := Stored(pending, e.key);
      row := row.(amount := row.amount + e.amount, count := row.count + e.count);
      row := row.(inputTokens := row.inputTokens + e.inputTokens, outputTokens := row.outputTokens + e.outputTokens);
      if e.timestamp.Some? {
        row := row.(timestamp := e.timestamp.value);
      }
      pending := pending[e.key := row];
      history := history + [Entry(e, Pending)];
    }

    method ListKeys(found: seq<Key>)
      requires Valid()
      modifies this
      ensures Valid() && View() == Apply(users, old(View()), Step.List(found))
    {
      if !flushing {
        flushing, keys, rows, marks, deleted := true, found, [], [], false;
      }
    }

    method ReadKey()
      requires Valid()
      modifies this
      ensures Valid() && View() == Apply(users, old(View()), Step.Read)
    {
      if flushing && |rows| < |keys| {
        rows, marks := rows + [Stored(pending, keys[|rows|])], marks + [|history|];
      }
    }

    method RemovePending()
      modifies `pending
      ensures pending == old(pending) - ToSet(keys)
    {
      for i := 0 to |keys|
        invariant pending == old(pending) - ToSet(keys[..i])
      {
        pending := pending - {keys[i]};
      }
      assert keys[..|keys|] == keys;
    }

    method DeleteKeys()
      requires Valid()
      modifies this
      ensures Valid() && View() == Apply(users, old(View()), Step.Delete)
    {
      if flushing && |rows| == |keys| && !deleted {
        ghost var f := Flush(keys, rows, marks, false);
        history := Refate(history, (i: nat, e: Entry) => OnDelete(f, i, e));
        RemovePending();
        deleted := true;
      }
    }

    // Accumulates the totals per user.
    method Totalled() returns (totals: map<string, real>)
      requires Valid() && |rows| == |keys|
      ensures forall u :: u in totals <==> exists j :: 0 <= j < |keys| && keys[j].user == u
      ensures forall u :: u in totals ==> totals[u] == TotalOf(u, keys, rows)
    {
      totals := map[];
      for i := 0 to |keys|
        invariant forall u :: u in totals <==> exists j :: 0 <= j < i && keys[j].user == u
        invariant forall u :: u in totals ==> totals[u] == TotalOf(u, keys, rows[..i])
      {
        var user := keys[i].user;
        if user !in totals {
          NoTotal(user, keys, rows[..i]);
          totals := totals[user := 0.0];
        }
        assert rows[..i + 1][..i] == rows[..i];
        totals := totals[user := totals[user] + rows[i].amount];
      }
      assert rows[..|keys|] == rows;
    }

    method WriteUsage()
      requires Valid() && |rows| == |keys|
      modifies `usage
      ensures usage == UsageAfter(users, old(usage), keys, rows)
    {
      for i := 0 to |keys|
        invariant usage == UsageAfter(users, old(usage), keys, rows[..i])
      {
        UsageUnfolds(users, old(usage), keys, rows, i + 1);
        if keys[i].user in users {
          usage := AddUsage(usage, keys[i], rows[i]);
        }
      }
      assert rows[..|keys|] == rows;
    }

    method Deduct(totals: map<string, real>)
      modifies `balances
      ensures balances.Keys == old(balances).Keys
      ensures forall u :: u in balances ==>
                balances[u] == old(balances)[u]
                  - if u in totals && u in users && (users[u].free ==> users[u].invoiced) then totals[u] else 0.0
    {
      var todo := totals.Keys;
      while todo != {}
        invariant todo <= totals.Keys && balances.Keys == old(balances).Keys
        invariant forall u :: u in balances ==>
                    balances[u] == old(balances)[u]
                      - if u in totals && u !in todo && u in users && (users[u].free ==> users[u].invoiced)
                        then totals[u] else 0.0
      {
        var u :| u in todo;
        todo := todo - {u};
        if u in users && users[u].free && !users[u].invoiced {
        } else if u in users && u in balances {
          balances := balances[u := balances[u] - totals[u]];
        }
      }
    }

    method CommitFlush()
      requires Valid()
      modifies this
      ensures Valid() && View() == Apply(users, old(View()), Step.Commit)
    {
      if flushing && |rows| == |keys| && deleted {
        ghost var f := Flush(keys, rows, marks, deleted);
        var totals := Totalled();
        WriteUsage();
        Deduct(totals);
        assert balances == BalancesAfter(users, old(balances), f) by {
          forall u | u in balances && u !in totals ensures TotalOf(u, keys, rows) == 0.0 {
            NoTotal(u, keys, rows);
          }
        }
        history := Refate(history, (i: nat, e: Entry) => OnCommit(users, e));
        flushing := false;
      }
    }

    // The flush fails or its process dies: the transaction is rolled back.
    method Crash()
      requires Valid()
      modifies this
      ensures Valid() && View() == Apply(users, old(View()), Step.Crash)
    {
      history := Refate(history, (i: nat, e: Entry) => OnCrash(e));
      flushing := false;
    }
  }
}
