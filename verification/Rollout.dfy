/** Rolling updates: deploys, update handlers that sleep between instances, claims and the watchtower
    race over the same chutes (api/chute/router.py, api/graval_worker.py, watchtower.py,
    api/instance/router.py, api/image/forge.py). */
module Rollout {
  import opened Base

  type Id = string
  type Version = string

  datatype Instance = Instance(chute: Id, version: Version, hotkey: string)

  // The rolling-update record of a chute; `permitted` is the relaunch quota per miner.
  datatype Update = Update(oldVersion: Version, newVersion: Version, startedAt: int, permitted: map<string, nat>)

  // A handler task: `Queued` until it loads the chute, then the instances it still has to visit, then those its last
  // transaction is going to delete.
  datatype Phase = Queued | Visiting(todo: seq<Id>) | Finishing(gone: set<Id>)
  datatype Task = Task(chute: Id, version: Version, phase: Phase)

  // An instance the watchtower decided to purge, with the chute version it compared against.
  datatype Purge = Purge(instance: Id, chute: Id, comparedTo: Version)

  // A claim handler that has loaded its chute and not yet committed.
  datatype Claim = Claim(chute: Id, version: Version, hotkey: string)

  // An image upgrade that has loaded one of its chutes and not yet committed.
  datatype Upgrade = Upgrade(chute: Id, version: Version)

  datatype Tables = Tables(
    chutes: map<Id, Version>, updates: map<Id, Update>, instances: map<Id, Instance>,
    tasks: map<Id, Task>, claims: map<Id, Claim>, upgrades: map<Id, Upgrade>, purges: seq<Purge>, used: set<Id>)

  const EMPTY := Tables(map[], map[], map[], map[], map[], map[], [], {})

  datatype Step =
    | CreateChute(chute: Id, version: Version)
    | DeleteChute(chute: Id)
    | Deploy(chute: Id, version: Version, samePublic: bool, now: int)
    | LoadUpgrade(upgrade: Id, chute: Id)
    | CommitUpgrade(upgrade: Id, permitted: map<string, nat>, now: int)
    | QueueTask(task: Id, chute: Id, version: Version)
    | PurgeAll(chute: Id)
    | StartTask(task: Id, order: seq<Id>)
    | VisitInstance(task: Id)
    | LoadFinish(task: Id)
    | CommitFinish(task: Id)
    | ExpireUpdates(now: int)
    | ScanOutdated(order: seq<Id>)
    | PurgeNext
    | LoadClaim(claim: Id, chute: Id, hotkey: string)
    | CommitClaim(claim: Id, instance: Id)
    | DeleteInstance(instance: Id)

  function OfChute(s: Tables, c: Id): set<Id> {
    set i | i in s.instances && s.instances[i].chute == c
  }

  // Instances of the chute that a handler for `version` removes.
  function Behind(s: Tables, c: Id, version: Version): set<Id> {
    set i | i in s.instances && s.instances[i].chute == c && s.instances[i].version != version
  }

  // How many of these instances each miner holds.
  function QuotaOf(instances: map<Id, Instance>, part: set<Id>): map<string, nat>
    requires part <= instances.Keys
  {
    map h | h in (set i | i in part :: instances[i].hotkey) :: |HeldBy(instances, part, h)|
  }

  function HeldBy(instances: map<Id, Instance>, part: set<Id>, hotkey: string): set<Id>
    requires part <= instances.Keys
  {
    set i | i in part && instances[i].hotkey == hotkey
  }

  function Quota(s: Tables, c: Id): map<string, nat> {
    QuotaOf(s.instances, OfChute(s, c))
  }

  // The update is still the one its handler was started for.
  predicate InForce(s: Tables, task: Task) {
    task.chute in s.updates && s.updates[task.chute].newVersion == task.version
  }

  function Stale(s: Tables, now: int): set<Id> {
    set c | c in s.updates && s.updates[c].startedAt <= now - 3600
  }

  // Instances the watchtower considers left behind: no update in progress, a version, and not the chute's.
  function Outdated(s: Tables): set<Id> {
    set i | i in s.instances && s.instances[i].chute in s.chutes && s.instances[i].chute !in s.updates
            && s.instances[i].version != "" && s.instances[i].version != s.chutes[s.instances[i].chute]
  }

  function PurgesFor(s: Tables, order: seq<Id>): seq<Purge>
    requires ToSet(order) == Outdated(s)
  {
    seq(|order|, k requires 0 <= k < |order| =>
      assert order[k] in ToSet(order);
      Purge(order[k], s.instances[order[k]].chute, s.chutes[s.instances[order[k]].chute]))
  }

  // The committed effect of each handler. Guards that fail leave everything as it was.

  function AfterDelete(s: Tables, c: Id): (u: Tables)
    ensures u.tasks == s.tasks && u.used == s.used
  {
    s.(chutes := s.chutes - {c}, updates := s.updates - {c}, instances := s.instances - OfChute(s, c))
  }

  function AfterDeploy(s: Tables, c: Id, v: Version, samePublic: bool, now: int): (u: Tables)
    ensures u.tasks == s.tasks && u.instances == s.instances && u.used == s.used
  {
    if c !in s.chutes || (s.chutes[c] == v && samePublic) then s
    else s.(chutes := s.chutes[c := v],
            updates := if OfChute(s, c) == {} then s.updates - {c}
                       else s.updates[c := Update(s.chutes[c], v, now, Quota(s, c))])
  }

  // The record names the version that was loaded.
  function AfterUpgrade(s: Tables, k: Id, permitted: map<string, nat>, now: int): (u: Tables)
    ensures u.tasks == s.tasks && u.chutes == s.chutes && u.instances == s.instances && u.used == s.used
  {
    if k !in s.upgrades then s
    else
      var u, ended := s.upgrades[k], s.(upgrades := s.upgrades - {k});
      if u.chute !in s.chutes then ended
      else if permitted == map[] then ended.(updates := s.updates - {u.chute})
      else ended.(updates := s.updates[u.chute := Update(u.version, u.version, now, permitted)])
  }

  function AfterStart(s: Tables, t: Id, order: seq<Id>): (u: Tables)
    ensures u == s.(tasks := u.tasks)
  {
    if t !in s.tasks || !s.tasks[t].phase.Queued? || ToSet(order) != OfChute(s, s.tasks[t].chute) then s
    else if s.tasks[t].chute !in s.chutes || order == [] then s.(tasks := s.tasks - {t})
    else s.(tasks := s.tasks[t := s.tasks[t].(phase := Visiting(order))])
  }

  function AfterVisit(s: Tables, t: Id): (u: Tables)
    ensures u == s.(tasks := u.tasks)
  {
    if t !in s.tasks || !s.tasks[t].phase.Visiting? || s.tasks[t].phase.todo == [] then s
    else
      var todo := s.tasks[t].phase.todo;
      if todo[0] in s.instances && !InForce(s, s.tasks[t]) then s.(tasks := s.tasks - {t})
      else s.(tasks := s.tasks[t := s.tasks[t].(phase := Visiting(todo[1..]))])
  }

  predicate Visited(s: Tables, t: Id) {
    t in s.tasks && s.tasks[t].phase == Visiting([])
  }

  // The last transaction reads the record and the chute's instances,
  function AfterLoad(s: Tables, t: Id): (u: Tables)
    ensures u == s.(tasks := u.tasks)
  {
    if !Visited(s, t) then s
    else
      var task := s.tasks[t];
      if !InForce(s, task) || task.chute !in s.chutes then s.(tasks := s.tasks - {t})
      else s.(tasks := s.tasks[t := task.(phase := Finishing(Behind(s, task.chute, task.version)))])
  }

  // and deletes both when it commits, whatever the record is by then.
  function AfterFinish(s: Tables, t: Id): (u: Tables)
    ensures u.chutes == s.chutes && u.used == s.used
  {
    if t !in s.tasks || !s.tasks[t].phase.Finishing? then s
    else s.(tasks := s.tasks - {t}, updates := s.updates - {s.tasks[t].chute},
            instances := s.instances - s.tasks[t].phase.gone)
  }

  function AfterScan(s: Tables, order: seq<Id>): (u: Tables)
    ensures u == s.(purges := u.purges)
  {
    if s.purges == [] && ToSet(order) == Outdated(s) then s.(purges := PurgesFor(s, order)) else s
  }

  function AfterPurge(s: Tables): (u: Tables)
    ensures u.tasks == s.tasks && u.chutes == s.chutes && u.used == s.used
  {
    if s.purges == [] then s
    else s.(purges := s.purges[1..], instances := s.instances - {s.purges[0].instance})
  }

  function AfterCommit(s: Tables, k: Id, i: Id): (u: Tables)
    ensures u.tasks == s.tasks && u.chutes == s.chutes
  {
    if k !in s.claims then s
    else
      var claim := s.claims[k];
      if claim.chute !in s.chutes || i in s.used then s.(claims := s.claims - {k})
      else s.(claims := s.claims - {k}, used := s.used + {i},
              instances := s.instances[i := Instance(claim.chute, claim.version, claim.hotkey)])
  }

  function Apply(s: Tables, step: Step): Tables {
    match step
    case CreateChute(c, v) => if c in s.chutes then s else s.(chutes := s.chutes[c := v])
    case DeleteChute(c) => AfterDelete(s, c)
    case Deploy(c, v, samePublic, now) => AfterDeploy(s, c, v, samePublic, now)
    case LoadUpgrade(k, c) =>
      if c in s.chutes && k !in s.upgrades then s.(upgrades := s.upgrades[k := Upgrade(c, s.chutes[c])]) else s
    case CommitUpgrade(k, permitted, now) => AfterUpgrade(s, k, permitted, now)
    case QueueTask(t, c, v) => if t !in s.tasks then s.(tasks := s.tasks[t := Task(c, v, Queued)]) else s
    case PurgeAll(c) => s.(instances := s.instances - OfChute(s, c))
    case StartTask(t, order) => AfterStart(s, t, order)
    case VisitInstance(t) => AfterVisit(s, t)
    case LoadFinish(t) => AfterLoad(s, t)
    case CommitFinish(t) => AfterFinish(s, t)
    case ExpireUpdates(now) => s.(updates := s.updates - Stale(s, now))
    case ScanOutdated(order) => AfterScan(s, order)
    case PurgeNext => AfterPurge(s)
    case LoadClaim(k, c, hotkey) =>
      if c in s.chutes && k !in s.claims then s.(claims := s.claims[k := Claim(c, s.chutes[c], hotkey)]) else s
    case CommitClaim(k, i) => AfterCommit(s, k, i)
    case DeleteInstance(i) => s.(instances := s.instances - {i})
  }

  function Run(steps: seq<Step>): Tables {
    if steps == [] then EMPTY else Apply(Run(steps[..|steps| - 1]), steps[|steps| - 1])
  }

  // An update record is of a chute that exists and names its current version.
  predicate RecordsCurrent(s: Tables) {
    forall c :: c in s.updates ==> c in s.chutes && s.updates[c].newVersion == s.chutes[c]
  }

  // What every run keeps besides: instance names are never reused, and a pending purge or deletion concerns an instance
  // that was behind when it was compared.
  predicate Sound(s: Tables) {
    && (forall i :: i in s.instances ==> i in s.used && s.instances[i].chute in s.chutes)
    && (forall p :: p in s.purges ==>
          && p.instance in s.used
          && (p.instance in s.instances ==>
                s.instances[p.instance].chute == p.chute && s.instances[p.instance].version != p.comparedTo))
    && forall t :: t in s.tasks ==> SoundTask(s, s.tasks[t])
  }

  // What a handler is about to delete is of its chute and not on its version.
  predicate SoundTask(s: Tables, task: Task) {
    task.phase.Finishing? ==>
      forall i :: i in task.phase.gone ==>
        i in s.used
        && (i in s.instances ==> s.instances[i].chute == task.chute && s.instances[i].version != task.version)
  }

  // An image upgrade commits a record for a version that a deploy has replaced since the upgrade loaded it.
  predicate Misnames(s: Tables, step: Step) {
    && step.CommitUpgrade? && step.upgrade in s.upgrades && step.permitted != map[]
    && s.upgrades[step.upgrade].chute in s.chutes
    && s.upgrades[step.upgrade].version != s.chutes[s.upgrades[step.upgrade].chute]
  }

  // No image upgrade overlaps a deploy of one of its chutes.
  ghost predicate Serial(steps: seq<Step>) {
    forall n :: 0 <= n < |steps| ==> !Misnames(Run(steps[..n]), steps[n])
  }

  lemma ScanKeepsSound(s: Tables, order: seq<Id>)
    requires Sound(s)
    ensures Sound(AfterScan(s, order))
  {
    if s.purges == [] && ToSet(order) == Outdated(s) {
      forall p | p in PurgesFor(s, order)
        ensures p.instance in Outdated(s)
                && p == Purge(p.instance, s.instances[p.instance].chute, s.chutes[s.instances[p.instance].chute])
      {
        var k :| 0 <= k < |order| && PurgesFor(s, order)[k] == p;
        assert order[k] in ToSet(order);
      }
    }
  }

  lemma PurgeKeepsSound(s: Tables)
    requires Sound(s)
    ensures Sound(AfterPurge(s))
  {
    if s.purges != [] {
      assert forall p :: p in s.purges[1..] ==> p in s.purges;
    }
  }

  lemma CommitKeepsSound(s: Tables, k: Id, i: Id)
    requires Sound(s)
    ensures Sound(AfterCommit(s, k, i))
  {
  }

  lemma DeleteKeepsSound(s: Tables, c: Id)
    requires Sound(s)
    ensures Sound(AfterDelete(s, c))
  {
  }

  // Steps that lose no chute and add no instance.
  lemma RemovalKeepsSound(s: Tables, u: Tables)
    requires Sound(s) && s.chutes.Keys <= u.chutes.Keys && u.purges == s.purges && u.used == s.used
    requires forall i :: i in u.instances ==> i in s.instances && u.instances[i] == s.instances[i]
    requires forall t :: t in u.tasks ==> (t in s.tasks && u.tasks[t] == s.tasks[t]) || !u.tasks[t].phase.Finishing?
    ensures Sound(u)
  {
    hide SoundTask;
    forall t | t in u.tasks ensures SoundTask(u, u.tasks[t]) {
      TaskStaysSound(s, u, t);
    }
  }

  lemma TaskStaysSound(s: Tables, u: Tables, t: Id)
    requires t in u.tasks && u.used == s.used
    requires forall i :: i in u.instances ==> i in s.instances && u.instances[i] == s.instances[i]
    requires (t in s.tasks && u.tasks[t] == s.tasks[t] && SoundTask(s, s.tasks[t])) || !u.tasks[t].phase.Finishing?
    ensures SoundTask(u, u.tasks[t])
  {
  }

  lemma DeployKeepsSound(s: Tables, c: Id, v: Version, samePublic: bool, now: int)
    requires Sound(s)
    ensures Sound(AfterDeploy(s, c, v, samePublic, now))
  {
    hide Quota, OfChute, Sound;
    RemovalKeepsSound(s, AfterDeploy(s, c, v, samePublic, now));
  }

  lemma UpgradeKeepsSound(s: Tables, k: Id, permitted: map<string, nat>, now: int)
    requires Sound(s)
    ensures Sound(AfterUpgrade(s, k, permitted, now))
  {
    hide Sound;
    RemovalKeepsSound(s, AfterUpgrade(s, k, permitted, now));
  }

  lemma TaskKeepsSound(s: Tables, t: Id, order: seq<Id>)
    requires Sound(s)
    ensures Sound(AfterStart(s, t, order)) && Sound(AfterVisit(s, t))
  {
    hide Sound, InForce, OfChute, ToSet;
    RemovalKeepsSound(s, AfterStart(s, t, order));
    RemovalKeepsSound(s, AfterVisit(s, t));
  }

  lemma FinishKeepsSound(s: Tables, t: Id)
    requires Sound(s)
    ensures Sound(AfterFinish(s, t))
  {
    hide Sound;
    RemovalKeepsSound(s, AfterFinish(s, t));
  }

  lemma LoadKeepsSound(s: Tables, t: Id)
    requires Sound(s)
    ensures Sound(AfterLoad(s, t))
  {
    hide Visited, InForce;
    var u := AfterLoad(s, t);
    forall k | k in u.tasks ensures SoundTask(u, u.tasks[k]) {
      assert k in s.tasks ==> SoundTask(s, s.tasks[k]);
    }
  }

  lemma InstancesKeepSound(s: Tables, gone: set<Id>)
    requires Sound(s)
    ensures Sound(s.(instances := s.instances - gone))
  {
    hide Sound;
    RemovalKeepsSound(s, s.(instances := s.instances - gone));
  }

  lemma StepKeepsSound(s: Tables, step: Step)
    requires Sound(s)
    ensures Sound(Apply(s, step))
  {
    hide AfterScan, AfterPurge, AfterCommit, AfterDelete, AfterLoad, AfterFinish, AfterDeploy, AfterUpgrade, AfterStart, AfterVisit,
      Sound, SoundTask;
    match step
    case DeleteChute(c) => DeleteKeepsSound(s, c);
    case ScanOutdated(order) => ScanKeepsSound(s, order);
    case PurgeNext => PurgeKeepsSound(s);
    case CommitClaim(k, i) => CommitKeepsSound(s, k, i);
    case LoadFinish(t) => LoadKeepsSound(s, t);
    case CommitFinish(t) => FinishKeepsSound(s, t);
    case PurgeAll(c) => InstancesKeepSound(s, OfChute(s, c));
    case DeleteInstance(i) => InstancesKeepSound(s, {i});
    case Deploy(c, v, samePublic, now) => DeployKeepsSound(s, c, v, samePublic, now);
    case CommitUpgrade(k, permitted, now) => UpgradeKeepsSound(s, k, permitted, now);
    case StartTask(t, order) => TaskKeepsSound(s, t, order);
    case VisitInstance(t) => TaskKeepsSound(s, t, []);
    case _ => OthersKeepSound(s, step);
  }

  lemma OthersKeepSound(s: Tables, step: Step)
    requires Sound(s)
    requires step.CreateChute? || step.LoadUpgrade? || step.QueueTask? || step.ExpireUpdates? || step.LoadClaim?
    ensures Sound(Apply(s, step))
  {
    hide Sound, Stale;
    RemovalKeepsSound(s, Apply(s, step));
  }

  // Whatever happened before, the records stay right exactly until an upgrade commits a version replaced meanwhile.
  lemma StepKeepsRecords(s: Tables, step: Step)
    requires RecordsCurrent(s)
    ensures RecordsCurrent(Apply(s, step)) <==> !Misnames(s, step)
  {
    hide Quota, Outdated, Behind, OfChute, PurgesFor;
    if step.CommitUpgrade? {
      UpgradeKeepsRecords(s, step.upgrade, step.permitted, step.now);
    }
  }

  lemma UpgradeKeepsRecords(s: Tables, k: Id, permitted: map<string, nat>, now: int)
    requires RecordsCurrent(s)
    ensures RecordsCurrent(AfterUpgrade(s, k, permitted, now)) <==> !Misnames(s, CommitUpgrade(k, permitted, now))
  {
    if Misnames(s, CommitUpgrade(k, permitted, now)) {
      assert s.upgrades[k].chute in AfterUpgrade(s, k, permitted, now).updates;
    }
  }

  lemma {:induction false} RunIsSound(steps: seq<Step>)
    ensures Sound(Run(steps))
  {
    hide Apply, Sound;
    if steps == [] {
      EmptyIsSound();
    } else {
      RunIsSound(steps[..|steps| - 1]);
      StepKeepsSound(Run(steps[..|steps| - 1]), steps[|steps| - 1]);
    }
  }

  lemma EmptyIsSound()
    ensures Sound(EMPTY)
  {
  }

  lemma SerialPrefix(steps: seq<Step>, n: nat)
    requires Serial(steps) && n <= |steps|
    ensures Serial(steps[..n])
  {
    forall m | 0 <= m < n ensures !Misnames(Run(steps[..n][..m]), steps[..n][m]) {
      assert steps[..n][..m] == steps[..m];
    }
  }

  /** Over every interleaving of deploys, claims, image upgrades, sleeping handlers and the watchtower in which no image
      upgrade overlaps a deploy, the record of a rolling update names the current version of its chute; the first
      upgrade that does overlap leaves a record that does not. */
  lemma {:induction false} UpdatesNameCurrentVersion(steps: seq<Step>)
    requires steps != [] ==> Serial(steps[..|steps| - 1])
    ensures RecordsCurrent(Run(steps)) <==> Serial(steps)
  {
    hide Apply, RecordsCurrent, Misnames;
    if steps == [] {
      EmptyIsCurrent();
    } else {
      var n := |steps| - 1;
      if n > 0 {
        SerialPrefix(steps[..n], n - 1);
        assert steps[..n][..n - 1] == steps[..n - 1];
      }
      UpdatesNameCurrentVersion(steps[..n]);
      StepKeepsRecords(Run(steps[..n]), steps[n]);
      forall m | 0 <= m < n ensures !Misnames(Run(steps[..m]), steps[m]) {
        assert steps[..n][..m] == steps[..m] && steps[..n][m] == steps[m];
      }
    }
  }

  lemma EmptyIsCurrent()
    ensures RecordsCurrent(EMPTY)
  {
  }

  lemma SerialRunIsCurrent(steps: seq<Step>)
    requires Serial(steps)
    ensures RecordsCurrent(Run(steps))
  {
    hide Run, Serial, RecordsCurrent;
    if steps != [] {
      SerialPrefix(steps, |steps| - 1);
    }
    UpdatesNameCurrentVersion(steps);
  }

  /** What a handler reads at its end, in a run without such overlaps. It goes on exactly when an update is in progress and
      its version is the chute's, and then it is going to delete exactly the chute's instances that are not on the current
      version; a superseded one stops. Either way no table changes. */
  lemma EndReadsOutdated(steps: seq<Step>, t: Id)
    requires Serial(steps) && Visited(Run(steps), t)
    ensures var s, u := Run(steps), Apply(Run(steps), LoadFinish(t));
            var task := s.tasks[t];
            && u == s.(tasks := u.tasks)
            && (t in u.tasks <==> task.chute in s.updates && task.chute in s.chutes && task.version == s.chutes[task.chute])
            && (t in u.tasks ==>
                  u.tasks[t].phase == Finishing(set i | i in OfChute(s, task.chute)
                                                        && s.instances[i].version != s.chutes[task.chute]))
  {
    SerialRunIsCurrent(steps);
    hide Run, Serial;
    EndOnCurrent(Run(steps), t);
  }

  lemma EndOnCurrent(s: Tables, t: Id)
    requires RecordsCurrent(s) && Visited(s, t)
    ensures var u, task := Apply(s, LoadFinish(t)), s.tasks[t];
            && u == s.(tasks := u.tasks)
            && (t in u.tasks <==> task.chute in s.updates && task.chute in s.chutes && task.version == s.chutes[task.chute])
            && (t in u.tasks ==>
                  u.tasks[t].phase == Finishing(set i | i in OfChute(s, task.chute)
                                                        && s.instances[i].version != s.chutes[task.chute]))
  {
  }

  predicate IsFinishing(s: Tables, t: Id) {
    t in s.tasks && s.tasks[t].phase.Finishing?
  }

  /** What the commit of that end removes: exactly those of the instances read that still exist, all of its chute and none on
      its version, and the chute's record, whichever it is by then. The chute is still on the handler's version exactly if
      the record, if there is one, is still that of the handler; then only outdated instances go. */
  lemma FinishDeletesOnlyOutdated(steps: seq<Step>, t: Id)
    requires Serial(steps) && IsFinishing(Run(steps), t)
    ensures var s, u := Run(steps), Apply(Run(steps), CommitFinish(t));
            var task := s.tasks[t];
            && u.updates == s.updates - {task.chute} && u.chutes == s.chutes
            && (forall i :: i in s.instances && i !in u.instances <==> i in s.instances && i in task.phase.gone)
            && (forall i :: i in s.instances && i !in u.instances ==>
                  s.instances[i].chute == task.chute && s.instances[i].version != task.version)
            && (task.chute in s.updates ==>
                  task.chute in s.chutes
                  && (s.updates[task.chute].newVersion == task.version <==> s.chutes[task.chute] == task.version))
  {
    SerialRunIsCurrent(steps);
    RunIsSound(steps);
    hide Run, Serial, RecordsCurrent, Apply;
    assert SoundTask(Run(steps), Run(steps).tasks[t]);
    hide Sound, SoundTask;
    FinishOnCurrent(Run(steps), t);
  }

  lemma FinishOnCurrent(s: Tables, t: Id)
    requires IsFinishing(s, t) && RecordsCurrent(s) && SoundTask(s, s.tasks[t])
    ensures var u, task := Apply(s, CommitFinish(t)), s.tasks[t];
            && u.updates == s.updates - {task.chute} && u.chutes == s.chutes
            && (forall i :: i in s.instances && i !in u.instances <==> i in s.instances && i in task.phase.gone)
            && (forall i :: i in s.instances && i !in u.instances ==>
                  s.instances[i].chute == task.chute && s.instances[i].version != task.version)
            && (task.chute in s.updates ==>
                  task.chute in s.chutes
                  && (s.updates[task.chute].newVersion == task.version <==> s.chutes[task.chute] == task.version))
  {
  }

  /** And a deploy can commit in between, after any run: the end then removes the record of the newer update. */
  lemma LateDeployLosesRecord(steps: seq<Step>, t: Id, v: Version, now: int) returns (more: seq<Step>)
    requires IsFinishing(Run(steps), t)
    requires var s, c := Run(steps), Run(steps).tasks[t].chute;
             c in s.chutes && s.chutes[c] != v && OfChute(s, c) != {}
    ensures more == steps + [Deploy(Run(steps).tasks[t].chute, v, true, now), CommitFinish(t)]
    ensures var c := Run(steps).tasks[t].chute;
            && c in Run(more[..|steps| + 1]).updates && Run(more[..|steps| + 1]).updates[c].newVersion == v
            && c in Run(more).chutes && Run(more).chutes[c] == v && c !in Run(more).updates
  {
    hide Run, Quota;
    var deployed := Extend(steps, Deploy(Run(steps).tasks[t].chute, v, true, now));
    more := Extend(deployed, CommitFinish(t));
    assert more[..|steps| + 1] == deployed;
  }

  /** With a record that does not name the current version, the handler it belongs to deletes every instance on the
      current version and spares those on its own. */
  lemma MisnamedUpdateDeletesCurrent(s: Tables, t: Id)
    requires Visited(s, t) && InForce(s, s.tasks[t]) && s.tasks[t].chute in s.chutes
    requires s.tasks[t].version != s.chutes[s.tasks[t].chute]
    ensures var u, task := Apply(Apply(s, LoadFinish(t)), CommitFinish(t)), s.tasks[t];
            forall i :: i in OfChute(s, task.chute) ==>
              && (s.instances[i].version == s.chutes[task.chute] ==> i !in u.instances)
              && (s.instances[i].version == task.version ==> i in u.instances)
  {
  }

  /** And such a record can follow any run: an upgrade loads the chute, a deploy replaces its version, and the upgrade
      commits. */
  lemma OverlappingUpgradeMisnames(steps: seq<Step>, c: Id, k: Id, v: Version, permitted: map<string, nat>, now: int)
    returns (more: seq<Step>)
    requires c in Run(steps).chutes && Run(steps).chutes[c] != v && k !in Run(steps).upgrades && permitted != map[]
    ensures more == steps + [LoadUpgrade(k, c), Deploy(c, v, true, now), CommitUpgrade(k, permitted, now)]
    ensures var s := Run(more);
            && c in s.chutes && s.chutes[c] == v && c in s.updates
            && s.updates[c].newVersion == Run(steps).chutes[c] != s.chutes[c]
  {
    hide Run, Quota;
    more := Extend(steps, LoadUpgrade(k, c));
    more := Extend(more, Deploy(c, v, true, now));
    more := Extend(more, CommitUpgrade(k, permitted, now));
  }

  // ---- What each step does to instances and records, told from the tables before it ----

  /** An instance disappears exactly if its chute is deleted or purged, a handler that read it for deletion commits, the
      watchtower gets to it, or it is deleted on its own; no step changes one. */
  lemma InstanceIsLostIff(s: Tables, step: Step, i: Id)
    requires i in s.instances && i in s.used
    ensures i !in Apply(s, step).instances <==>
            match step
            case DeleteChute(c) => s.instances[i].chute == c
            case PurgeAll(c) => s.instances[i].chute == c
            case CommitFinish(t) => t in s.tasks && s.tasks[t].phase.Finishing? && i in s.tasks[t].phase.gone
            case PurgeNext => s.purges != [] && s.purges[0].instance == i
            case DeleteInstance(j) => j == i
            case _ => false
    ensures i in Apply(s, step).instances ==> Apply(s, step).instances[i] == s.instances[i]
  {
    hide Quota, Stale, InForce, ToSet, Behind;
  }

  /** An instance appears exactly if a claim commits under a name that was never used while its chute exists, and then with
      the version the claim had loaded. */
  lemma InstanceIsNewIff(s: Tables, step: Step, i: Id)
    requires i !in s.instances
    ensures i in Apply(s, step).instances <==>
            && step.CommitClaim? && step.instance == i && step.claim in s.claims
            && s.claims[step.claim].chute in s.chutes && i !in s.used
    ensures i in Apply(s, step).instances ==>
              var claim := s.claims[step.claim];
              Apply(s, step).instances[i] == Instance(claim.chute, claim.version, claim.hotkey)
  {
    hide Quota, Stale, InForce, ToSet, Behind, OfChute;
  }

  /** An update record disappears exactly if its chute is deleted or is deployed or upgraded without instances, a handler of
      the chute commits its end, or the record is an hour old when the watchtower drops such. */
  lemma RecordIsLostIff(s: Tables, step: Step, c: Id)
    requires c in s.updates
    ensures c !in Apply(s, step).updates <==>
            match step
            case DeleteChute(d) => d == c
            case Deploy(d, v, same, _) =>
              && d == c && c in s.chutes && !(s.chutes[c] == v && same)
              && forall i :: i in s.instances ==> s.instances[i].chute != c
            case CommitUpgrade(k, permitted, _) =>
              k in s.upgrades && s.upgrades[k].chute == c && c in s.chutes && permitted == map[]
            case CommitFinish(t) => t in s.tasks && s.tasks[t].phase.Finishing? && s.tasks[t].chute == c
            case ExpireUpdates(now) => now - s.updates[c].startedAt >= 3600
            case _ => false
  {
    hide Quota, InForce, ToSet, Behind;
    if step.Deploy? {
      assert OfChute(s, c) == {} <==> forall i :: i in s.instances ==> s.instances[i].chute != c by {
        assert forall i :: i in OfChute(s, c) <==> i in s.instances && s.instances[i].chute == c;
      }
    }
  }

  /** A deploy of another version leaves a record exactly if the chute has instances, from the old version to the new one,
      with each miner permitted as many relaunches as it has instances; nothing else in the tables changes but the version. */
  lemma DeployRecords(s: Tables, c: Id, v: Version, samePublic: bool, now: int)
    requires c in s.chutes && !(s.chutes[c] == v && samePublic)
    ensures var u := Apply(s, Deploy(c, v, samePublic, now));
            && u == s.(chutes := s.chutes[c := v], updates := u.updates)
            && (forall d :: d != c ==> (d in u.updates <==> d in s.updates) && (d in u.updates ==> u.updates[d] == s.updates[d]))
            && (c in u.updates <==> exists i :: i in s.instances && s.instances[i].chute == c)
            && (c in u.updates ==>
                  && u.updates[c].oldVersion == s.chutes[c] && u.updates[c].newVersion == v && u.updates[c].startedAt == now
                  && forall h :: (if h in u.updates[c].permitted then u.updates[c].permitted[h] else 0)
                                 == |set i | i in s.instances && s.instances[i].chute == c && s.instances[i].hotkey == h|)
  {
    assert forall i :: i in OfChute(s, c) <==> i in s.instances && s.instances[i].chute == c;
    hide QuotaOf;
    forall h ensures (if h in Quota(s, c) then Quota(s, c)[h] else 0)
                     == |set i | i in s.instances && s.instances[i].chute == c && s.instances[i].hotkey == h| {
      QuotaCounts(s, c, h);
    }
  }

  lemma QuotaCounts(s: Tables, c: Id, h: string)
    ensures (if h in Quota(s, c) then Quota(s, c)[h] else 0)
            == |set i | i in s.instances && s.instances[i].chute == c && s.instances[i].hotkey == h|
  {
    var held := set i | i in s.instances && s.instances[i].chute == c && s.instances[i].hotkey == h;
    assert held == HeldBy(s.instances, OfChute(s, c), h);
    NobodyHeld(s.instances, OfChute(s, c), h);
  }

  /** The watchtower lists an instance exactly if it has a version, its chute has another, and no update of the chute is in
      progress; each with the version it compared. */
  lemma ScanListsExactly(s: Tables, order: seq<Id>, i: Id)
    requires Sound(s) && s.purges == [] && ToSet(order) == Outdated(s)
    ensures (exists p :: p in Apply(s, ScanOutdated(order)).purges && p.instance == i) <==>
            && i in s.instances && s.instances[i].chute !in s.updates
            && s.instances[i].version != "" && s.instances[i].version != s.chutes[s.instances[i].chute]
    ensures forall p :: p in Apply(s, ScanOutdated(order)).purges && p.instance == i ==>
              p.instance in s.instances && p.chute == s.instances[i].chute && p.chute in s.chutes
              && p.comparedTo == s.chutes[p.chute]
  {
    var purges := PurgesFor(s, order);
    assert i in ToSet(order) <==> i in order;
    forall k | 0 <= k < |order| ensures purges[k].instance == order[k] && order[k] in Outdated(s) {
      assert order[k] in ToSet(order);
    }
    if i in order {
      var k :| 0 <= k < |order| && order[k] == i;
      assert purges[k] in purges && purges[k].instance == i;
    }
  }

  /** A claim that a deploy overlaps can follow any run: its instance is on the replaced version, and the quota of the
      deploy's record does not count it. */
  lemma LateClaimIsBehind(steps: seq<Step>, c: Id, k: Id, i: Id, hotkey: string, v: Version, now: int)
    returns (more: seq<Step>)
    requires c in Run(steps).chutes && Run(steps).chutes[c] != v && k !in Run(steps).claims && i !in Run(steps).used
    ensures more == steps + [LoadClaim(k, c, hotkey), Deploy(c, v, true, now), CommitClaim(k, i)]
    ensures var s := Run(more);
            && i in s.instances && s.instances[i] == Instance(c, Run(steps).chutes[c], hotkey)
            && c in s.chutes && s.chutes[c] == v
            && (c in s.updates ==> s.updates[c].permitted == Quota(Run(steps), c))
            && (c !in s.updates <==> OfChute(Run(steps), c) == {})
  {
    hide Run, Quota;
    more := Extend(steps, LoadClaim(k, c, hotkey));
    assert OfChute(Run(more), c) == OfChute(Run(steps), c);
    assert Quota(Run(more), c) == Quota(Run(steps), c) by { SameQuota(Run(more), Run(steps), c); }
    more := Extend(more, Deploy(c, v, true, now));
    more := Extend(more, CommitClaim(k, i));
  }

  lemma SameQuota(s: Tables, u: Tables, c: Id)
    requires s.instances == u.instances
    ensures Quota(s, c) == Quota(u, c)
  {
    assert OfChute(s, c) == OfChute(u, c);
  }

  // ---- A handler that nothing interleaves with ----

  /** A round of a handler ends it exactly if its next instance still exists and its update is not the one in progress. */
  lemma VisitEndsIff(s: Tables, t: Id)
    requires t in s.tasks && s.tasks[t].phase.Visiting? && s.tasks[t].phase.todo != []
    ensures var u, task := Apply(s, VisitInstance(t)), s.tasks[t];
            && u == s.(tasks := u.tasks)
            && (t !in u.tasks <==>
                  && task.phase.todo[0] in s.instances
                  && (task.chute in s.updates ==> s.updates[task.chute].newVersion != task.version))
            && (t in u.tasks ==> u.tasks[t] == task.(phase := Visiting(task.phase.todo[1..])))
  {
  }

  function VisitAll(s: Tables, t: Id, n: nat): Tables {
    if n == 0 then s else Apply(VisitAll(s, t, n - 1), VisitInstance(t))
  }

  lemma {:induction false} VisitsInOrder(s: Tables, t: Id, n: nat)
    requires t in s.tasks && s.tasks[t].phase.Visiting? && n <= |s.tasks[t].phase.todo| && InForce(s, s.tasks[t])
    ensures VisitAll(s, t, n) == s.(tasks := s.tasks[t := s.tasks[t].(phase := Visiting(s.tasks[t].phase.todo[n..]))])
  {
    if n == 0 {
      assert s.tasks[t := s.tasks[t]] == s.tasks;
    } else {
      VisitsInOrder(s, t, n - 1);
      var u := VisitAll(s, t, n - 1);
      assert u.tasks[t].phase.todo[1..] == s.tasks[t].phase.todo[n..];
    }
  }

  /** The first transaction of a handler ends it exactly if its chute is gone or has no instances; otherwise every instance
      is to be visited. */
  lemma StartEndsIff(s: Tables, t: Id, order: seq<Id>)
    requires t in s.tasks && s.tasks[t].phase.Queued? && ToSet(order) == OfChute(s, s.tasks[t].chute)
    ensures var u, task := Apply(s, StartTask(t, order)), s.tasks[t];
            && (t !in u.tasks <==> task.chute !in s.chutes || forall i :: i in s.instances ==> s.instances[i].chute != task.chute)
            && (t in u.tasks ==> u.tasks[t] == task.(phase := Visiting(order)))
  {
    assert forall i :: i in OfChute(s, s.tasks[t].chute) <==> i in ToSet(order);
    assert order == [] <==> ToSet(order) == {} by {
      assert order != [] ==> order[0] in ToSet(order);
    }
    assert OfChute(s, s.tasks[t].chute) == {} <==> forall i :: i in s.instances ==> s.instances[i].chute != s.tasks[t].chute by {
      assert forall i :: i in OfChute(s, s.tasks[t].chute) <==> i in s.instances && s.instances[i].chute == s.tasks[t].chute;
    }
  }

  // Queueing, the start, one round per instance, and the last transaction.
  function WholeUpdate(s: Tables, t: Id, c: Id, v: Version, order: seq<Id>): Tables {
    var started := Apply(Apply(s, QueueTask(t, c, v)), StartTask(t, order));
    Apply(Apply(VisitAll(started, t, |order|), LoadFinish(t)), CommitFinish(t))
  }

  /** A handler that nothing interleaves with, whose update is in progress, leaves exactly the chute's instances on its
      version and all of other chutes, and no record of the chute. */
  lemma WholeUpdateDeletesOutdated(s: Tables, t: Id, c: Id, v: Version, order: seq<Id>)
    requires t !in s.tasks && c in s.chutes && c in s.updates && s.updates[c].newVersion == v
    requires ToSet(order) == OfChute(s, c) && order != []
    ensures var u := WholeUpdate(s, t, c, v, order);
            && t !in u.tasks && u.chutes == s.chutes && u.updates == s.updates - {c}
            && forall i :: i in u.instances <==>
                 i in s.instances && (s.instances[i].chute == c ==> s.instances[i].version == v)
  {
    var queued := Apply(s, QueueTask(t, c, v));
    assert OfChute(queued, c) == OfChute(s, c);
    var started := Apply(queued, StartTask(t, order));
    assert started.tasks[t] == Task(c, v, Visiting(order));
    VisitsInOrder(started, t, |order|);
    assert order[|order|..] == [];
    hide VisitAll, OfChute, ToSet;
  }

  function PurgeTimes(s: Tables, n: nat): Tables {
    if n == 0 then s else Apply(PurgeTimes(s, n - 1), PurgeNext)
  }

  /** The watchtower gets to every instance it listed, one transaction each and in order, and to no other. */
  lemma {:induction false} PurgesEveryListed(s: Tables, n: nat)
    requires n <= |s.purges|
    ensures var u := PurgeTimes(s, n);
            && u == s.(purges := s.purges[n..], instances := u.instances)
            && forall i :: i in u.instances <==> i in s.instances && forall k :: 0 <= k < n ==> s.purges[k].instance != i
    ensures forall i :: i in PurgeTimes(s, n).instances ==> PurgeTimes(s, n).instances[i] == s.instances[i]
  {
    if n > 0 {
      PurgesEveryListed(s, n - 1);
    }
  }

  // ---- A superseded handler over the rest of a run ----

  predicate IsOf(step: Step, t: Id) {
    (step.StartTask? || step.VisitInstance? || step.LoadFinish? || step.CommitFinish?) && step.task == t
  }

  // The step makes `v` the version of the chute, or gives the handler's name to another.
  predicate Revives(step: Step, t: Id, c: Id, v: Version) {
    || (step.Deploy? && step.chute == c && step.version == v)
    || (step.CreateChute? && step.chute == c && step.version == v)
    || (step.QueueTask? && step.task == t)
  }

  // If it still runs, the handler is for the chute and version and has not read its end yet, and the chute is on another
  // version or gone.
  predicate IsSuperseded(s: Tables, t: Id, c: Id, v: Version) {
    && (t in s.tasks ==> s.tasks[t].chute == c && s.tasks[t].version == v && !s.tasks[t].phase.Finishing?)
    && (c in s.chutes ==> s.chutes[c] != v)
  }

  lemma TasksAfter(s: Tables, step: Step, t: Id)
    requires t in Apply(s, step).tasks && !(step.QueueTask? && step.task == t)
    ensures t in s.tasks && Apply(s, step).tasks[t].chute == s.tasks[t].chute
    ensures Apply(s, step).tasks[t].version == s.tasks[t].version
    ensures Apply(s, step).tasks[t].phase.Finishing? ==> s.tasks[t].phase.Finishing? || InForce(s, s.tasks[t])
  {
    hide AfterDelete, AfterDeploy, AfterUpgrade, AfterScan, AfterPurge, AfterCommit, InForce, OfChute, Behind, Stale, ToSet;
  }

  lemma ChutesAfter(s: Tables, step: Step, c: Id)
    requires c in Apply(s, step).chutes
    ensures || ((step.Deploy? || step.CreateChute?) && step.chute == c && Apply(s, step).chutes[c] == step.version)
            || (c in s.chutes && Apply(s, step).chutes[c] == s.chutes[c])
  {
    hide AfterUpgrade, AfterScan, AfterPurge, AfterCommit, AfterStart, AfterVisit, AfterLoad, AfterFinish, OfChute, Quota, Stale;
  }

  lemma SupersededTouchesNothing(s: Tables, step: Step, t: Id, c: Id, v: Version)
    requires RecordsCurrent(s) && IsSuperseded(s, t, c, v) && IsOf(step, t)
    ensures Apply(s, step) == s.(tasks := Apply(s, step).tasks)
  {
    hide OfChute, Behind, ToSet;
    assert t in s.tasks ==> !InForce(s, s.tasks[t]);
  }

  lemma StaysSuperseded(s: Tables, step: Step, t: Id, c: Id, v: Version)
    requires RecordsCurrent(s) && IsSuperseded(s, t, c, v) && !Revives(step, t, c, v)
    ensures IsSuperseded(Apply(s, step), t, c, v)
    ensures IsOf(step, t) ==> Apply(s, step) == s.(tasks := Apply(s, step).tasks)
  {
    assert t in s.tasks ==> !InForce(s, s.tasks[t]);
    hide Apply, RecordsCurrent, IsOf, InForce;
    if t in Apply(s, step).tasks {
      TasksAfter(s, step, t);
    }
    if c in Apply(s, step).chutes {
      ChutesAfter(s, step, c);
    }
    if IsOf(step, t) {
      SupersededTouchesNothing(s, step, t, c, v);
    }
  }

  /** Once its chute is on another version, a handler that has not read its end yet changes no chute, no update record and
      no instance for the rest of the run, through all its visits and its end, as long as its own version is not deployed
      again. */
  lemma {:induction false} SupersededIsInert(steps: seq<Step>, n: nat, m: nat, t: Id)
    requires Serial(steps) && n <= m <= |steps| && t in Run(steps[..n]).tasks
    requires var task := Run(steps[..n]).tasks[t];
             && (task.chute in Run(steps[..n]).chutes ==> Run(steps[..n]).chutes[task.chute] != task.version)
             && !task.phase.Finishing?
             && forall k :: n <= k < |steps| ==> !Revives(steps[k], t, task.chute, task.version)
    ensures var task := Run(steps[..n]).tasks[t];
            IsSuperseded(Run(steps[..m]), t, task.chute, task.version)
    ensures m < |steps| && IsOf(steps[m], t) ==>
              Run(steps[..m + 1]) == Run(steps[..m]).(tasks := Run(steps[..m + 1]).tasks)
  {
    hide Run, Apply, RecordsCurrent, Serial, Revives, IsOf;
    var task := Run(steps[..n]).tasks[t];
    if m > n {
      SupersededIsInert(steps, n, m - 1, t);
      SerialPrefix(steps, m - 1);
      SerialRunIsCurrent(steps[..m - 1]);
      OneMore(steps, m - 1);
      hide IsSuperseded;
      StaysSuperseded(Run(steps[..m - 1]), steps[m - 1], t, task.chute, task.version);
    }
    if m < |steps| {
      SerialPrefix(steps, m);
      SerialRunIsCurrent(steps[..m]);
      OneMore(steps, m);
      hide IsSuperseded;
      StaysSuperseded(Run(steps[..m]), steps[m], t, task.chute, task.version);
    }
  }

  lemma OneMore(steps: seq<Step>, m: nat)
    requires m < |steps|
    ensures Run(steps[..m + 1]) == Apply(Run(steps[..m]), steps[m])
  {
    assert steps[..m + 1][..m] == steps[..m];
  }

  // ---- What a purge removes ----

  // The version the last of the steps from n on gave the chute, or its version after n steps.
  function LastDeployed(steps: seq<Step>, n: nat, c: Id): Version
    requires n <= |steps| && c in Run(steps[..n]).chutes
    decreases |steps|
  {
    if n == |steps| then Run(steps[..n]).chutes[c]
    else
      var m := |steps| - 1;
      assert steps[..m][..n] == steps[..n];
      if steps[m].Deploy? && steps[m].chute == c then steps[m].version else LastDeployed(steps[..m], n, c)
  }

  // Names are never reused, so an instance that exists at both ends of a stretch of a run existed throughout.
  lemma InstancesDoNotReturn(s: Tables, step: Step, i: Id)
    requires i in s.used
    ensures i in Apply(s, step).used
    ensures i in Apply(s, step).instances ==> i in s.instances && Apply(s, step).instances[i] == s.instances[i]
  {
    hide AfterDeploy, AfterUpgrade, AfterStart, AfterVisit, AfterLoad, AfterScan, OfChute, Behind, Stale, InForce, ToSet;
  }

  lemma VersionAfter(s: Tables, step: Step, i: Id)
    requires Sound(s) && i in s.instances && i in Apply(s, step).instances
    ensures var c := s.instances[i].chute;
            && c in s.chutes && c in Apply(s, step).chutes
            && Apply(s, step).chutes[c] == if step.Deploy? && step.chute == c then step.version else s.chutes[c]
  {
    hide AfterUpgrade, AfterScan, AfterPurge, AfterCommit, AfterStart, AfterVisit, AfterLoad, AfterFinish, Quota, Stale;
  }

  lemma {:induction false} VersionIsLastDeployed(steps: seq<Step>, n: nat, i: Id)
    requires n <= |steps| && i in Run(steps[..n]).instances && i in Run(steps).instances
    ensures var c := Run(steps[..n]).instances[i].chute;
            && Run(steps).instances[i] == Run(steps[..n]).instances[i]
            && c in Run(steps[..n]).chutes && c in Run(steps).chutes && Run(steps).chutes[c] == LastDeployed(steps, n, c)
    decreases |steps|
  {
    hide Apply, Sound;
    RunIsSound(steps[..n]);
    ChuteOfInstance(Run(steps[..n]), i);
    if n == |steps| {
      assert steps[..n] == steps;
    } else {
      var m := |steps| - 1;
      assert steps[..m][..n] == steps[..n];
      UsedFrom(steps[..m], n, i);
      RunIsSound(steps[..m]);
      InstancesDoNotReturn(Run(steps[..m]), steps[m], i);
      VersionIsLastDeployed(steps[..m], n, i);
      VersionAfter(Run(steps[..m]), steps[m], i);
    }
  }

  lemma ChuteOfInstance(s: Tables, i: Id)
    requires Sound(s) && i in s.instances
    ensures s.instances[i].chute in s.chutes
  {
  }

  lemma {:induction false} UsedFrom(steps: seq<Step>, n: nat, i: Id)
    requires n <= |steps| && i in Run(steps[..n]).instances
    ensures i in Run(steps).used
    decreases |steps|
  {
    if n == |steps| {
      assert steps[..n] == steps;
      RunIsSound(steps);
    } else {
      var m := |steps| - 1;
      assert steps[..m][..n] == steps[..n];
      UsedFrom(steps[..m], n, i);
      hide Apply;
      InstancesDoNotReturn(Run(steps[..m]), steps[m], i);
    }
  }

  /** A watchtower purge compares in one transaction and deletes in a later one. Of an instance that existed after n
      steps and still does, it removes one on the current version exactly when the last deploy of its chute since then,
      or the version at that time if there was none, names the instance's own version. */
  lemma PurgeRemovesCurrentIff(steps: seq<Step>, n: nat)
    requires n <= |steps| && Run(steps).purges != []
    requires Run(steps).purges[0].instance in Run(steps[..n]).instances
    requires Run(steps).purges[0].instance in Run(steps).instances
    ensures var s, i := Run(steps), Run(steps).purges[0].instance;
            var instance := Run(steps[..n]).instances[i];
            && i !in Apply(s, PurgeNext).instances
            && instance.chute in s.chutes && instance.chute in Run(steps[..n]).chutes && s.instances[i] == instance
            && (s.instances[i].version == s.chutes[instance.chute]
                <==> LastDeployed(steps, n, instance.chute) == instance.version)
  {
    hide Run, Sound, LastDeployed;
    VersionIsLastDeployed(steps, n, Run(steps).purges[0].instance);
  }

  /** In particular it does so only if the chute was redeployed since the comparison. */
  lemma PurgeOfCurrentNeedsRedeploy(steps: seq<Step>)
    requires Run(steps).purges != []
    requires var s, p := Run(steps), Run(steps).purges[0];
             && p.instance in s.instances && s.instances[p.instance].chute in s.chutes
             && s.instances[p.instance].version == s.chutes[s.instances[p.instance].chute]
    ensures var s, p := Run(steps), Run(steps).purges[0];
            p.chute in s.chutes && s.chutes[p.chute] != p.comparedTo
  {
    RunIsSound(steps);
  }

  lemma RunOneMore(steps: seq<Step>, step: Step)
    ensures Run(steps + [step]) == Apply(Run(steps), step)
  {
    assert (steps + [step])[..|steps|] == steps;
  }

  lemma Extend(steps: seq<Step>, step: Step) returns (more: seq<Step>)
    ensures more == steps + [step] && Run(more) == Apply(Run(steps), step)
  {
    RunOneMore(steps, step);
    more := steps + [step];
  }

  // A chute on "v1" with one instance.
  lemma Launched() returns (steps: seq<Step>)
    ensures Run(steps) == EMPTY.(chutes := map["c" := "v1"], instances := map["i" := Instance("c", "v1", "miner")],
                                 used := {"i"})
  {
    steps := [];
    assert Run(steps) == EMPTY;
    hide Run;
    steps := Extend(steps, CreateChute("c", "v1"));
    steps := Extend(steps, LoadClaim("k", "c", "miner"));
    assert Run(steps).claims - {"k"} == map[];
    steps := Extend(steps, CommitClaim("k", "i"));
  }

  // The same chute on "v2" with the old instance still there and its update expired.
  lemma LeftBehind() returns (steps: seq<Step>)
    ensures Run(steps) == EMPTY.(chutes := map["c" := "v2"], instances := map["i" := Instance("c", "v1", "miner")],
                                 used := {"i"})
  {
    hide Run, Quota;
    steps := Launched();
    assert "i" in OfChute(Run(steps), "c");
    var chutes := Run(steps).chutes;
    steps := Extend(steps, Deploy("c", "v2", true, 0));
    assert chutes["c" := "v2"] == map["c" := "v2"];
    assert Stale(Run(steps), 3600) == {"c"};
    assert Run(steps).updates - {"c"} == map[];
    steps := Extend(steps, ExpireUpdates(3600));
  }

  /** And that does happen: a chute is updated, its update expires, the watchtower lists the old
      instance, the old version is deployed again, and the purge removes a current instance. */
  lemma PurgeCanRemoveCurrent() returns (steps: seq<Step>)
    ensures var s := Run(steps);
            && "i" in s.instances && s.instances["i"].chute == "c" && "c" in s.chutes
            && s.instances["i"].version == s.chutes["c"]
            && "i" !in Apply(s, PurgeNext).instances
  {
    hide Run, Quota;
    steps := LeftBehind();
    var s := Run(steps);
    assert "v1"[1] != "v2"[1] && |"v1"| == 2;
    assert "i" in ["i"];
    assert "c" == s.instances["i"].chute && s.chutes["c"] == "v2";
    assert s.instances["i"].version == "v1" != s.chutes["c"];
    assert "i" in Outdated(s);
    assert Outdated(s) == ToSet(["i"]);
    steps := Extend(steps, ScanOutdated(["i"]));
    assert Run(steps).purges == PurgesFor(s, ["i"]) == [Purge("i", "c", "v2")];
    steps := Extend(steps, Deploy("c", "v1", true, 7200));
  }

  // Seconds slept after each instance: the visits spread over at most 45 minutes, 5 minutes apart at most.
  function SleepPerInstance(n: nat): nat
    requires n > 0
  {
    var even := 2700 / n;
    var atLeast := if even == 0 then 1 else even;
    if atLeast < 300 then atLeast else 300
  }

  /** All sleeps of a handler together stay below the hour after which the watchtower drops its record
      exactly when it started with fewer than 3600 instances. */
  lemma SleepsFitBeforeExpiry(n: nat)
    requires n > 0
    ensures n * SleepPerInstance(n) < 3600 <==> n < 3600
    ensures n <= 2700 ==> n * SleepPerInstance(n) <= 2700
  {
    if n > 2700 {
      assert 2700 / n == 0;
    } else {
      assert n * (2700 / n) <= 2700;
      assert 2700 / n >= 1;
      assert n * SleepPerInstance(n) <= n * (2700 / n);
    }
  }

  /** The tables and the handlers that write them, one committed transaction per method. */
  class Registry {
    var chutes: map<Id, Version>
    var updates: map<Id, Update>
    var instances: map<Id, Instance>
    var tasks: map<Id, Task>
    var claims: map<Id, Claim>
    var upgrades: map<Id, Upgrade>
    var purges: seq<Purge>
    var used: set<Id>

    function Now(): Tables
      reads this
    {
      Tables(chutes, updates, instances, tasks, claims, upgrades, purges, used)
    }

    constructor ()
      ensures Now() == EMPTY
    {
      chutes, updates, instances, tasks, claims, upgrades := map[], map[], map[], map[], map[], map[];
      purges, used := [], {};
    }

    // selectinload(Chute.instances), in whatever order the database returns them.
    method LoadInstances(c: Id) returns (loaded: seq<Id>)
      ensures NoDuplicates(loaded) && ToSet(loaded) == OfChute(Now(), c)
      ensures forall i :: i in loaded <==> i in OfChute(Now(), c)
    {
      loaded := [];
      var todo := instances.Keys;
      while todo != {}
        invariant todo <= instances.Keys && NoDuplicates(loaded)
        invariant forall i :: i in loaded <==> i in OfChute(Now(), c) && i !in todo
        decreases |todo|
      {
        var i :| i in todo;
        todo := todo - {i};
        if instances[i].chute == c {
          loaded := loaded + [i];
        }
      }
    }

    // The loop of _deploy_chute that counts instances per miner.
    method CountPermitted(loaded: seq<Id>) returns (permitted: map<string, nat>)
      requires NoDuplicates(loaded) && ToSet(loaded) <= instances.Keys
      ensures permitted == QuotaOf(instances, ToSet(loaded))
    {
      hide QuotaOf, HeldBy;
      assert forall i :: i in loaded ==> i in ToSet(loaded);
      permitted := map[];
      NoQuota(instances);
      assert ToSet(loaded[..0]) == {};
      for k := 0 to |loaded|
        invariant ToSet(loaded[..k]) <= instances.Keys
        invariant permitted == QuotaOf(instances, ToSet(loaded[..k]))
      {
        assert loaded[k] in loaded;
        var hotkey := instances[loaded[k]].hotkey;
        OneMoreHeld(instances, loaded, k);
        if hotkey !in permitted {
          permitted := permitted[hotkey := 0];
        }
        permitted := permitted[hotkey := permitted[hotkey] + 1];
      }
      assert loaded[..|loaded|] == loaded;
    }

    // _deploy_chute on an existing chute; `false` is the 409 response.
    method DeployChute(c: Id, version: Version, samePublic: bool, now: int) returns (accepted: bool)
      requires c in chutes
      modifies this
      ensures Now() == Apply(old(Now()), Deploy(c, version, samePublic, now))
      ensures accepted <==> !(old(chutes)[c] == version && samePublic)
    {
      hide QuotaOf;
      if chutes[c] == version && samePublic {
        return false;
      }
      var loaded := LoadInstances(c);
      var permitted := CountPermitted(loaded);
      updates := updates - {c};
      if loaded != [] {
        assert loaded[0] in loaded;
        updates := updates[c := Update(chutes[c], version, now, permitted)];
        assert updates == old(updates)[c := updates[c]];
      } else {
        assert OfChute(Now(), c) == {};
      }
      chutes := chutes[c := version];
      accepted := true;
    }

    // The chute upgrade of an image loads its chutes in one statement and replaces their records in later ones.
    method BeginUpgrade(k: Id, c: Id)
      requires c in chutes && k !in upgrades
      modifies this
      ensures Now() == Apply(old(Now()), LoadUpgrade(k, c))
    {
      upgrades := upgrades[k := Upgrade(c, chutes[c])];
    }

    method FinishUpgrade(k: Id, permitted: map<string, nat>, now: int)
      requires k in upgrades
      modifies this
      ensures Now() == Apply(old(Now()), CommitUpgrade(k, permitted, now))
    {
      var upgrade := upgrades[k];
      upgrades := upgrades - {k};
      if upgrade.chute !in chutes {
        return;
      }
      updates := updates - {upgrade.chute};
      if permitted != map[] {
        updates := updates[upgrade.chute := Update(upgrade.version, upgrade.version, now, permitted)];
        assert updates == old(updates)[upgrade.chute := updates[upgrade.chute]];
      }
    }

    // The first transaction of handle_rolling_update.
    method StartUpdate(t: Id) returns (order: seq<Id>)
      requires t in tasks && tasks[t].phase.Queued?
      modifies this
      ensures Now() == Apply(old(Now()), StartTask(t, order))
      ensures ToSet(order) == old(OfChute(Now(), tasks[t].chute)) && NoDuplicates(order)
    {
      order := LoadInstances(tasks[t].chute);
      if tasks[t].chute !in chutes || order == [] {
        tasks := tasks - {t};
        return;
      }
      tasks := tasks[t := tasks[t].(phase := Visiting(order))];
    }

    // One round of its loop; `continue` and falling through both move on, `return` ends the handler.
    method VisitNext(t: Id)
      requires t in tasks && tasks[t].phase.Visiting? && tasks[t].phase.todo != []
      modifies this
      ensures Now() == Apply(old(Now()), VisitInstance(t))
    {
      var task := tasks[t];
      var inst := task.phase.todo[0];
      var rest := task.phase.todo[1..];
      if inst !in instances {
        tasks := tasks[t := task.(phase := Visiting(rest))];
        return;
      }
      if task.chute !in updates || updates[task.chute].newVersion != task.version {
        tasks := tasks - {t};
        return;
      }
      tasks := tasks[t := task.(phase := Visiting(rest))];
    }

    // Its last transaction up to the commit: which instances are to go.
    method LoadEnd(t: Id)
      requires Visited(Now(), t)
      modifies this
      ensures Now() == Apply(old(Now()), LoadFinish(t))
    {
      var task := tasks[t];
      if task.chute !in updates || updates[task.chute].newVersion != task.version {
        tasks := tasks - {t};
        return;
      }
      if task.chute !in chutes {
        tasks := tasks - {t};
        return;
      }
      var loaded := LoadInstances(task.chute);
      var gone: set<Id> := {};
      for k := 0 to |loaded|
        invariant forall i :: i in gone <==> i in loaded[..k] && i in instances && instances[i].version != task.version
        invariant Now() == old(Now())
      {
        assert loaded[k] in loaded;
        assert forall i :: i in loaded[..k + 1] <==> i in loaded[..k] || i == loaded[k];
        if instances[loaded[k]].version != task.version {
          gone := gone + {loaded[k]};
        }
      }
      assert loaded[..|loaded|] == loaded;
      assert gone == Behind(Now(), task.chute, task.version);
      tasks := tasks[t := task.(phase := Finishing(gone))];
    }

    method CommitEnd(t: Id)
      requires IsFinishing(Now(), t)
      modifies this
      ensures Now() == Apply(old(Now()), CommitFinish(t))
    {
      instances := instances - tasks[t].phase.gone;
      updates := updates - {tasks[t].chute};
      tasks := tasks - {t};
    }

    // rolling_update_cleanup: the first commit.
    method DropStaleUpdates(now: int)
      modifies this
      ensures Now() == Apply(old(Now()), ExpireUpdates(now))
    {
      var todo := updates.Keys;
      var kept := updates;
      while todo != {}
        invariant todo <= updates.Keys && Now() == old(Now())
        invariant forall c :: c in kept <==> c in updates && (c in todo || c !in Stale(Now(), now))
        invariant forall c :: c in kept ==> kept[c] == updates[c]
        decreases |todo|
      {
        var c :| c in todo;
        todo := todo - {c};
        if updates[c].startedAt <= now - 3600 {
          kept := kept - {c};
        }
      }
      assert kept == updates - Stale(Now(), now);
      updates := kept;
    }

    // Its scan: which instances it goes on to purge, one transaction each.
    method FindOutdated() returns (order: seq<Id>)
      requires purges == [] && forall i :: i in instances ==> instances[i].chute in chutes
      modifies this
      ensures ToSet(order) == old(Outdated(Now()))
      ensures forall i :: i in order <==>
                && i in instances && instances[i].chute in chutes && instances[i].chute !in updates
                && instances[i].version != "" && instances[i].version != chutes[instances[i].chute]
      ensures Now() == Apply(old(Now()), ScanOutdated(order))
    {
      order := [];
      var found: seq<Purge> := [];
      var todo := instances.Keys;
      while todo != {}
        invariant todo <= instances.Keys && Now() == old(Now())
        invariant forall i :: i in order <==> i in Outdated(Now()) && i !in todo
        invariant |found| == |order|
        invariant forall k :: 0 <= k < |order| ==>
                    order[k] in instances
                    && found[k] == Purge(order[k], instances[order[k]].chute, chutes[instances[order[k]].chute])
        decreases |todo|
      {
        var i :| i in todo;
        todo := todo - {i};
        var instance := instances[i];
        if instance.chute in updates {
          continue;
        }
        if instance.version != "" && instance.version != chutes[instance.chute] {
          order := order + [i];
          found := found + [Purge(i, instance.chute, chutes[instance.chute])];
        }
      }
      assert forall i :: i in order <==> i in Outdated(Now());
      assert ToSet(order) == Outdated(Now());
      assert found == PurgesFor(Now(), order);
      purges := found;
    }

    method PurgeOne()
      requires purges != []
      modifies this
      ensures Now() == Apply(old(Now()), PurgeNext)
    {
      instances := instances - {purges[0].instance};
      purges := purges[1..];
    }

    // claim_launch_config: the chute is read long before the instance is committed.
    method BeginClaim(k: Id, c: Id, hotkey: string)
      requires c in chutes && k !in claims
      modifies this
      ensures Now() == Apply(old(Now()), LoadClaim(k, c, hotkey))
    {
      claims := claims[k := Claim(c, chutes[c], hotkey)];
    }

    method FinishClaim(k: Id, i: Id)
      requires k in claims && i !in used
      modifies this
      ensures Now() == Apply(old(Now()), CommitClaim(k, i))
    {
      var claim := claims[k];
      claims := claims - {k};
      if claim.chute in chutes {
        used := used + {i};
        instances := instances[i := Instance(claim.chute, claim.version, claim.hotkey)];
      }
    }
  }

  lemma HeldGrows(instances: map<Id, Instance>, before: set<Id>, i: Id, h: string)
    requires before <= instances.Keys && i in instances && i !in before
    ensures |HeldBy(instances, before + {i}, h)|
            == |HeldBy(instances, before, h)| + if h == instances[i].hotkey then 1 else 0
  {
    if h == instances[i].hotkey {
      assert HeldBy(instances, before + {i}, h) == HeldBy(instances, before, h) + {i};
    } else {
      assert HeldBy(instances, before + {i}, h) == HeldBy(instances, before, h);
    }
  }

  lemma QuotaGrows(instances: map<Id, Instance>, before: set<Id>, i: Id)
    requires before <= instances.Keys && i in instances && i !in before
    ensures var hotkey, q := instances[i].hotkey, QuotaOf(instances, before);
            QuotaOf(instances, before + {i}) == q[hotkey := (if hotkey in q then q[hotkey] else 0) + 1]
  {
    hide HeldBy;
    var hotkey, q := instances[i].hotkey, QuotaOf(instances, before);
    var grown := q[hotkey := (if hotkey in q then q[hotkey] else 0) + 1];
    assert (set j | j in before + {i} :: instances[j].hotkey)
           == (set j | j in before :: instances[j].hotkey) + {hotkey};
    HeldGrows(instances, before, i, hotkey);
    NobodyHeld(instances, before, hotkey);
    forall h | h in q && h != hotkey ensures |HeldBy(instances, before + {i}, h)| == q[h] {
      HeldGrows(instances, before, i, h);
    }
    assert QuotaOf(instances, before + {i}) == grown;
  }

  lemma NoQuota(instances: map<Id, Instance>)
    ensures QuotaOf(instances, {}) == map[]
  {
  }

  lemma NobodyHeld(instances: map<Id, Instance>, part: set<Id>, h: string)
    requires part <= instances.Keys
    ensures h !in (set j | j in part :: instances[j].hotkey) ==> |HeldBy(instances, part, h)| == 0
  {
    if h !in (set j | j in part :: instances[j].hotkey) {
      assert HeldBy(instances, part, h) == {};
    }
  }

  lemma OneMoreHeld(instances: map<Id, Instance>, loaded: seq<Id>, k: nat)
    requires NoDuplicates(loaded) && k < |loaded| && forall i :: i in loaded ==> i in instances
    ensures ToSet(loaded[..k]) <= instances.Keys && ToSet(loaded[..k + 1]) <= instances.Keys
    ensures var hotkey, q := instances[loaded[k]].hotkey, QuotaOf(instances, ToSet(loaded[..k]));
            QuotaOf(instances, ToSet(loaded[..k + 1])) == q[hotkey := (if hotkey in q then q[hotkey] else 0) + 1]
  {
    hide QuotaOf;
    assert ToSet(loaded[..k + 1]) == ToSet(loaded[..k]) + {loaded[k]};
    QuotaGrows(instances, ToSet(loaded[..k]), loaded[k]);
  }
}
