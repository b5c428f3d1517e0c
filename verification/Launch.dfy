/**
  * Launch configs, instances, GPU assignment and jobs: every handler that writes them, as one step on the shared tables
  * (api/instance/router.py, api/job/router.py, api/miner/router.py, watchtower.py, balance_refresher.py, and the trigger
  * of api/migrations/20250705010101_jobs.sql).
  */
module Launch {
  import opened Base
  import Gpu

  type Id = string

  // A chute's selector and the hourly price computed from it, absent if computing it raises.
  datatype Chute = Chute(selector: Gpu.Selector, price: Option<real>)

  datatype Node = Node(hotkey: string, gpu: string, verified: bool, host: string)

  // What no step of this model changes.
  datatype World = World(catalogue: Gpu.Catalogue, chutes: map<Id, Chute>, nodes: map<Id, Node>)

  datatype Config = Config(chute: Id, job: Option<Id>, hotkey: string,
                           retrievedAt: Option<int>, verifiedAt: Option<int>, failedAt: Option<int>)

  datatype Instance = Instance(chute: Id, config: Id, hotkey: string, host: string,
                               active: bool, verified: bool, hourlyRate: real)

  // `files` maps each declared output file to whether it was uploaded; `hasDetail` is whether error_detail is set.
  datatype Job = Job(chute: Id, holder: Option<string>, instance: Option<Id>, history: seq<string>, status: string,
                     hasDetail: bool, files: map<string, bool>, startedAt: Option<int>, finishedAt: Option<int>)

  // `rows` is the table instance_nodes; `batch` the jobs the billing loop selected and has not got to yet, each with the
  // instance it was selected with; `stamping` the configs whose claim committed and whose second transaction is to come;
  // `claims` is not stored anywhere: it lists the config of every instance ever created.
  datatype State = State(configs: map<Id, Config>, instances: map<Id, Instance>, rows: set<(Id, Id)>,
                         jobs: map<Id, Job>, batch: map<Id, Option<Id>>, stamping: set<Id>, claims: seq<Id>)

  // How a claim fares outside the tables: an exception before anything is committed, a rejected environment, command,
  // cluster or filesystem check, or everything up to the GPUs in order.
  datatype ClaimOutcome = Raises | Rejected | Proceeds(host: string, nodes: set<Id>, portsMatch: bool, encrypts: bool)

  // How a verification fares: an exception, a late or wrong answer, or a right one with the ports of a job open or not.
  datatype VerifyOutcome = Throws | Fails | Passes(portsOpen: bool)

  datatype Step =
    | CreateJob(id: Id, chute: Id)
    | Issue(id: Id, chute: Id, job: Option<Id>, hotkey: string, scalable: bool)
    | Claim(id: Id, instance: Id, claim: ClaimOutcome, now: int)
    | Restamp(id: Id, now: int)
    | Verify(id: Id, verify: VerifyOutcome, now: int)
    | Activate(id: Id, permitted: bool)
    | DeleteByMiner(instance: Id, hotkey: string, now: int)
    | Purge(instance: Id, now: int)
    | Remove(instance: Id)
    | Finish(id: Id, status: string, filenames: seq<string>, detail: bool)
    | Upload(id: Id, filename: string)
    | Complete(id: Id, now: int)
    | Release(id: Id, hotkey: string)
    | BillingSelect(broke: set<Id>)
    | BillingTurn(id: Id, now: int)

  const MAX_HISTORY := 15

  // ---- What the database does by itself ----

  // Trigger fn_reset_job_assignment: updating a config that has failed takes its job from whoever holds it.
  function ResetJob(jobs: map<Id, Job>, c: Config): map<Id, Job> {
    if c.job.Some? && c.failedAt.Some? && c.job.value in jobs
    then jobs[c.job.value := jobs[c.job.value].(holder := None, instance := None)]
    else jobs
  }

  function SaveConfig(s: State, id: Id, c: Config): State {
    s.(configs := s.configs[id := c], jobs := ResetJob(s.jobs, c))
  }

  // Deleting instances deletes their rows and clears the references of jobs.
  function Detached(j: Job, gone: set<Id>): Job {
    if j.instance.Some? && j.instance.value in gone then j.(instance := None) else j
  }

  function RemoveInstances(s: State, gone: set<Id>): State {
    s.(instances := s.instances - gone,
       rows := (set r | r in s.rows && r.0 !in gone),
       jobs := map j | j in s.jobs :: Detached(s.jobs[j], gone))
  }

  // ---- The handlers ----

  function Failed(j: Job, instance: Id, now: int): Job {
    if j.instance == Some(instance) && j.finishedAt.None?
    then j.(status := "error", hasDetail := true, finishedAt := Some(now))
    else j
  }

  function FailJobsOn(s: State, instance: Id, now: int): State {
    s.(jobs := map j | j in s.jobs :: Failed(s.jobs[j], instance, now))
  }

  // Loading a config through its token marks it retrieved.
  function Retrieved(c: Config, now: int): Config {
    if c.retrievedAt.None? then c.(retrievedAt := Some(now)) else c
  }

  function InstancesOf(s: State, config: Id): set<Id> {
    set i | i in s.instances && s.instances[i].config == config
  }

  function LowerChar(c: char): char {
    if 'A' <= c <= 'Z' then c - 'A' + 'a' else c
  }

  function Lower(s: string): (r: string)
    ensures |r| == |s|
  {
    seq(|s|, i requires 0 <= i < |s| => LowerChar(s[i]))
  }

  predicate IsTaken(rows: set<(Id, Id)>, node: Id) {
    exists r :: r in rows && r.1 == node
  }

  predicate NodeFits(w: World, rows: set<(Id, Id)>, chute: Chute, hotkey: string, n: Id) {
    && n in w.nodes && w.nodes[n].hotkey == hotkey && w.nodes[n].verified
    && !IsTaken(rows, n)
    && Gpu.IsSuitable(w.catalogue, chute.selector, w.nodes[n].gpu, w.nodes[n].verified)
  }

  predicate NodesFit(w: World, rows: set<(Id, Id)>, chute: Chute, hotkey: string, host: string, nodes: set<Id>) {
    && chute.selector.gpuCount == Some(|nodes|) && nodes != {}
    && (forall n :: n in nodes ==> NodeFits(w, rows, chute, hotkey, n))
    && (forall m, n :: m in nodes && n in nodes ==> w.nodes[m].host == w.nodes[n].host)
    && forall n :: n in nodes ==> Lower(w.nodes[n].host) == Lower(host)
  }

  function Assignments(instance: Id, nodes: set<Id>): set<(Id, Id)> {
    set n | n in nodes :: (instance, n)
  }

  function OnIssue(w: World, s: State, id: Id, chute: Id, job: Option<Id>, hotkey: string, scalable: bool): State {
    var config := Config(chute, job, hotkey, None, None, None);
    if id in s.configs || chute !in w.chutes then s
    else if job.None? then (if scalable then s.(configs := s.configs[id := config]) else s)
    else if job.value !in s.jobs || s.jobs[job.value].chute != chute then s
    else
      var j := s.jobs[job.value];
      if |j.history| >= MAX_HISTORY || hotkey in j.history then s
      else s.(configs := s.configs[id := config], jobs := s.jobs[job.value := j.(history := j.history + [hotkey])])
  }

  // The mark "retrieved" reaches the database before the job is assigned, so the trigger may fire before and after.
  function OnClaim(w: World, s: State, id: Id, instance: Id, claim: ClaimOutcome, now: int): State {
    if id !in s.configs || s.configs[id].retrievedAt.Some? || s.configs[id].chute !in w.chutes || instance in s.instances
    then s
    else
      var c := Retrieved(s.configs[id], now);
      match claim
      case Raises => s
      case Rejected => SaveConfig(s, id, c.(failedAt := Some(now)))
      case Proceeds(host, nodes, portsMatch, encrypts) =>
        var chute := w.chutes[c.chute];
        var t := SaveConfig(s, id, c);
        if c.job.Some? && !(c.job.value in t.jobs && t.jobs[c.job.value].holder.None?)
        then SaveConfig(s, id, c.(failedAt := Some(now)))
        else if chute.price.None? || (c.job.Some? && !portsMatch) then s
        else if !NodesFit(w, s.rows, chute, c.hotkey, host, nodes)
        then SaveConfig(s, id, s.configs[id].(failedAt := Some(now)))
        else if !encrypts then s
        else SaveConfig(Placed(t, id, c, instance, host, nodes, chute.price.value), id, c)
  }

  // The new instance with its GPUs, and the job if there is one.
  function Placed(t: State, id: Id, c: Config, instance: Id, host: string, nodes: set<Id>, price: real): State
    requires c.job.Some? ==> c.job.value in t.jobs
  {
    t.(instances := t.instances[instance := Instance(c.chute, id, c.hotkey, host, false, false, price)],
       rows := t.rows + Assignments(instance, nodes),
       jobs := if c.job.None? then t.jobs
               else t.jobs[c.job.value := t.jobs[c.job.value].(holder := Some(c.hotkey), instance := Some(instance))],
       stamping := t.stamping + {id}, claims := t.claims + [id])
  }

  // The second transaction of a claim stamps the config anew. It is an update, so the trigger may fire once more.
  function OnRestamp(s: State, id: Id, now: int): State {
    if id !in s.stamping || id !in s.configs then s
    else SaveConfig(s, id, s.configs[id].(retrievedAt := Some(now))).(stamping := s.stamping - {id})
  }

  predicate HasJob(s: State, instances: set<Id>) {
    exists j :: j in s.jobs && s.jobs[j].instance.Some? && s.jobs[j].instance.value in instances
  }

  function Started(j: Job, instances: set<Id>, now: int): Job {
    if j.instance.Some? && j.instance.value in instances then j.(startedAt := Some(now)) else j
  }

  function MarkVerified(s: State, of: set<Id>, now: int): State {
    s.(instances := map i | i in s.instances :: if i in of then s.instances[i].(verified := true) else s.instances[i],
       jobs := map j | j in s.jobs :: Started(s.jobs[j], of, now))
  }

  // The time since a config was retrieved cannot be computed for one that never was: that raises.
  function OnVerify(s: State, id: Id, verify: VerifyOutcome, now: int): State {
    if id !in s.configs || s.configs[id].verifiedAt.Some? || s.configs[id].failedAt.Some? then s
    else if s.configs[id].retrievedAt.None? || verify.Throws? then s
    else
      var c := s.configs[id];
      var of := InstancesOf(s, id);
      if of == {} then SaveConfig(s, id, c.(failedAt := Some(now)))
      else if verify.Fails? then SaveConfig(RemoveInstances(s, of), id, c.(failedAt := Some(now)))
      else if HasJob(s, of) && !verify.portsOpen then s
      else SaveConfig(MarkVerified(s, of, now), id, c.(verifiedAt := Some(now)))
  }

  function OnActivate(s: State, id: Id, permitted: bool): State {
    if id !in s.configs || s.configs[id].verifiedAt.None? || !permitted then s
    else
      var of := InstancesOf(s, id);
      s.(instances := map i | i in s.instances :: if i in of then s.instances[i].(active := true) else s.instances[i])
  }

  // ---- The handlers of jobs ----

  function SaveJob(s: State, id: Id, j: Job): State {
    s.(jobs := s.jobs[id := j])
  }

  function Declared(filenames: seq<string>): map<string, bool> {
    map f | f in filenames :: false
  }

  function OnFinish(s: State, id: Id, status: string, filenames: seq<string>, detail: bool): State {
    if id !in s.jobs || s.jobs[id].finishedAt.Some? then s
    else SaveJob(s, id, s.jobs[id].(
                 status := if status == "complete" && filenames != [] then "complete_pending_uploads" else status,
                 hasDetail := detail, files := Declared(filenames)))
  }

  function OnUpload(s: State, id: Id, filename: string): State {
    if id !in s.jobs || s.jobs[id].finishedAt.Some? || filename !in s.jobs[id].files then s
    else SaveJob(s, id, s.jobs[id].(files := s.jobs[id].files[filename := true]))
  }

  predicate AllUploaded(files: map<string, bool>) {
    forall f :: f in files ==> files[f]
  }

  predicate StartsComplete(status: string) {
    "complete" <= status
  }

  // The status with which a job closes; closing raises if a file is missing from a job that has no error to add to.
  function Closed(j: Job): Option<Job> {
    if j.files == map[] then Some(j)
    else if AllUploaded(j.files) then Some(if StartsComplete(j.status) then j.(status := "complete") else j)
    else if StartsComplete(j.status) then Some(j.(status := "partial_failure", hasDetail := true))
    else if j.hasDetail then Some(j)
    else None
  }

  // An absent instance removes nothing.
  function RemoveFor(s: State, instance: Option<Id>): State {
    if instance.Some? then RemoveInstances(s, {instance.value}) else s
  }

  function OnComplete(s: State, id: Id, now: int): State {
    if id !in s.jobs || s.jobs[id].finishedAt.Some? || Closed(s.jobs[id]).None? then s
    else
      RemoveFor(SaveJob(s, id, Closed(s.jobs[id]).value.(finishedAt := Some(now))), s.jobs[id].instance)
  }

  function OnRelease(s: State, id: Id, hotkey: string): State {
    if id !in s.jobs || s.jobs[id].holder != Some(hotkey) || s.jobs[id].finishedAt.Some? then s
    else SaveJob(s, id, s.jobs[id].(holder := None, instance := None))
  }

  function OnBillingSelect(s: State, broke: set<Id>): State {
    s.(batch := map j | j in broke && j in s.jobs && s.jobs[j].finishedAt.None? :: s.jobs[j].instance)
  }

  // The loop does not look again at whether the job has finished meanwhile, nor at which instance runs it.
  function OnBillingTurn(s: State, id: Id, now: int): State {
    if id !in s.batch || id !in s.jobs then s
    else
      var t := SaveJob(s, id, s.jobs[id].(status := "billing_termination", hasDetail := true, finishedAt := Some(now)));
      RemoveFor(t, s.batch[id]).(batch := s.batch - {id})
  }

  function Apply(w: World, s: State, step: Step): State {
    match step
    case CreateJob(id, chute) =>
      if id in s.jobs || chute !in w.chutes then s
      else SaveJob(s, id, Job(chute, None, None, [], "pending", false, map[], None, None))
    case Issue(id, chute, job, hotkey, scalable) => OnIssue(w, s, id, chute, job, hotkey, scalable)
    case Claim(id, instance, claim, now) => OnClaim(w, s, id, instance, claim, now)
    case Restamp(id, now) => OnRestamp(s, id, now)
    case Verify(id, verify, now) => OnVerify(s, id, verify, now)
    case Activate(id, permitted) => OnActivate(s, id, permitted)
    case DeleteByMiner(i, hotkey, now) =>
      if i !in s.instances || s.instances[i].hotkey != hotkey then s else RemoveInstances(FailJobsOn(s, i, now), {i})
    case Purge(i, now) => FailJobsOn(RemoveInstances(s, {i}), i, now)
    case Remove(i) => RemoveInstances(s, {i})
    case Finish(id, status, filenames, detail) => OnFinish(s, id, status, filenames, detail)
    case Upload(id, filename) => OnUpload(s, id, filename)
    case Complete(id, now) => OnComplete(s, id, now)
    case Release(id, hotkey) => OnRelease(s, id, hotkey)
    case BillingSelect(broke) => OnBillingSelect(s, broke)
    case BillingTurn(id, now) => OnBillingTurn(s, id, now)
  }

  const START := State(map[], map[], {}, map[], map[], {}, [])

  function Run(w: World, steps: seq<Step>): State {
    if steps == [] then START else Apply(w, Run(w, steps[..|steps| - 1]), steps[|steps| - 1])
  }
}
