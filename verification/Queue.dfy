/**
 The coordinator's job tables and the transactions over them.

 A table is a sequence: the row number is the row's identifier and its insertion
 order. An attempt is stored inside the assignment that produced it, because
 attempts.assignment_id is unique. A transaction is a function from tables to
 tables; a raised conflict is an outcome that leaves the tables unchanged.
 */
module Queue {
  import opened Basics

  const MAX_INITIAL_JOBS := 100
  const MAX_ASSIGNMENTS := 100
  const MAX_REPAIRS := 2
  const MAX_TASK_RESULT_BYTES := 8192
  const MAX_DEPTH := 4

  datatype RunStatus = Running | Solved | Exhausted | Errored
  datatype JobStatus = Queued | Assigned | Verifying | Done | Failed | Cancelled
  datatype LeaseStatus = Active | Completed | Expired | Rejected
  datatype Verdict = Verified | LeanRejected | Timeout | VerifierError

  datatype TaskType = Plan | Question | Finding | Critique | TaskProposal
  datatype Kind = Generate | Respond(task: TaskType)
  datatype Settings = Settings(temperature: bool, seed: Option<nat>) {
    predicate Plain() {
      !temperature && seed.None?
    }
  }

  datatype Run = Run(status: RunStatus, maxRepairs: nat, maxAssignments: nat)

  datatype GroupLink = GroupLink(group: nat, task: nat, cost: nat)

  datatype Job = Job(run: nat, status: JobStatus, model: string, kind: Kind, settings: Settings,
                     maxAssignments: nat, parent: Option<nat>, depth: nat, link: Option<GroupLink>)
  {
    predicate Live() {
      status.Queued? || status.Assigned? || status.Verifying?
    }
    predicate In(g: nat) {
      link.Some? && link.value.group == g
    }
  }

  /** What a worker reports. A completed proof job's output becomes an attempt. */
  datatype Output = Typed(task: TaskType, text: string) | Untyped(text: string) | Malformed
  datatype FailureClass = Transient | Permanent
  datatype RejectionKind = MalformedAssignment | UnsupportedProtocol
  datatype Payload =
    | Finished(output: Output)
    | Failure(severity: Option<FailureClass>)
    | Refusal(kind: RejectionKind)

  datatype Attempt = Attempt(candidate: string, verdict: Option<Verdict>)

  /** A row of assignments, with the attempt and verification that reference it. */
  datatype Lease = Lease(job: nat, token: nat, expires: int, status: LeaseStatus,
                         result: Option<Payload>, attempt: Option<Attempt>)
  {
    function Verdict(): Option<Verdict> {
      if attempt.Some? then attempt.value.verdict else None
    }
  }

  datatype Loop = NoLoop | Looping(deadline: int) | Stopped
  datatype Group = Group(maxWork: nat, remaining: int, maxTasks: nat, run: Option<nat>, loop: Loop)
  datatype Task = Task(group: nat, budget: nat, remaining: int, open: bool, depth: nat)

  datatype Db = Db(runs: seq<Run>, jobs: seq<Job>, leases: seq<Lease>, groups: seq<Group>, tasks: seq<Task>)

  const EMPTY := Db([], [], [], [], [])

  /** Every reference names an existing row. */
  predicate Linked(db: Db) {
    && (forall j | 0 <= j < |db.jobs| :: JobLinked(db, db.jobs[j]))
    && (forall a | 0 <= a < |db.leases| :: db.leases[a].job < |db.jobs|)
    && (forall t | 0 <= t < |db.tasks| :: db.tasks[t].group < |db.groups|)
    && (forall g | 0 <= g < |db.groups| :: db.groups[g].run.Some? ==> db.groups[g].run.value < |db.runs|)
  }

  predicate JobLinked(db: Db, job: Job) {
    && job.run < |db.runs|
    && (job.parent.Some? ==> job.parent.value < |db.leases|)
    && (job.link.Some? ==> job.link.value.group < |db.groups| && job.link.value.task < |db.tasks|)
  }

  /** What is counted among a job's assignments. */
  datatype Tally = OnLease | Budgeted | Attempted | Undecided

  predicate Counts(lease: Lease, t: Tally) {
    match t
    case OnLease => lease.status.Active?
    case Budgeted => !lease.status.Rejected?
    case Attempted => lease.attempt.Some?
    case Undecided => lease.attempt.Some? && lease.attempt.value.verdict.None?
  }

  function One(b: bool): nat {
    if b then 1 else 0
  }

  /** SELECT count(*) FROM assignments WHERE job_id = j AND ... */
  function Count(leases: seq<Lease>, j: nat, t: Tally): nat {
    if leases == [] then 0
    else
      var last := leases[|leases| - 1];
      Count(leases[..|leases| - 1], j, t) + One(last.job == j && Counts(last, t))
  }

  /** _retry: a rejected assignment is not counted against the budget. */
  function RetryStatus(db: Db, j: nat): JobStatus
    requires Linked(db) && j < |db.jobs|
  {
    if Halted(db, j) then Cancelled
    else if Count(db.leases, j, Budgeted) < db.jobs[j].maxAssignments then Queued
    else Failed
  }

  predicate Halted(db: Db, j: nat)
    requires Linked(db) && j < |db.jobs|
  {
    db.jobs[j].link.Some? && db.groups[db.jobs[j].link.value.group].loop.Stopped?
  }

  function SetJob(db: Db, j: nat, status: JobStatus): (d: Db)
    requires j < |db.jobs|
    ensures Linked(db) ==> Linked(d)
  {
    db.(jobs := db.jobs[j := db.jobs[j].(status := status)])
  }

  function SetLease(db: Db, a: nat, lease: Lease): (d: Db)
    requires a < |db.leases| && lease.job == db.leases[a].job
    ensures Linked(db) ==> Linked(d)
  {
    db.(leases := db.leases[a := lease])
  }

  function Retry(db: Db, j: nat): (d: Db)
    requires Linked(db) && j < |db.jobs|
    ensures Linked(d)
  {
    SetJob(db, j, RetryStatus(db, j))
  }

  predicate HasLive(jobs: seq<Job>, r: nat) {
    exists j | 0 <= j < |jobs| :: jobs[j].run == r && jobs[j].Live()
  }

  predicate Terminal(status: RunStatus) {
    status.Solved? || status.Errored?
  }

  /** The first statement of _refresh, for the runs in scope. */
  function CancelQueued(db: Db, scope: set<nat>): (jobs: seq<Job>)
    requires Linked(db)
    ensures |jobs| == |db.jobs|
    ensures forall j | 0 <= j < |jobs| ::
              jobs[j] == (if db.jobs[j].status.Queued? && db.jobs[j].run in scope
                             && Terminal(db.runs[db.jobs[j].run].status)
                          then db.jobs[j].(status := Cancelled) else db.jobs[j])
  {
    seq(|db.jobs|, j requires 0 <= j < |db.jobs| =>
      if db.jobs[j].status.Queued? && db.jobs[j].run in scope && Terminal(db.runs[db.jobs[j].run].status)
      then db.jobs[j].(status := Cancelled) else db.jobs[j])
  }

  /** The second statement of _refresh. */
  function Exhaust(runs: seq<Run>, jobs: seq<Job>, scope: set<nat>): (result: seq<Run>)
    ensures |result| == |runs|
    ensures forall r | 0 <= r < |runs| ::
              result[r] == (if r in scope && runs[r].status.Running? && !HasLive(jobs, r)
                            then runs[r].(status := Exhausted) else runs[r])
  {
    seq(|runs|, r requires 0 <= r < |runs| =>
      if r in scope && runs[r].status.Running? && !HasLive(jobs, r)
      then runs[r].(status := Exhausted) else runs[r])
  }

  function Refresh(db: Db, scope: set<nat>): (d: Db)
    requires Linked(db)
    ensures Linked(d)
  {
    var jobs := CancelQueued(db, scope);
    db.(jobs := jobs, runs := Exhaust(db.runs, jobs, scope))
  }

  function Below(n: nat): (s: set<nat>)
    ensures forall i: nat :: i in s <==> i < n
  {
    if n == 0 then {} else Below(n - 1) + {n - 1}
  }

  function RefreshAll(db: Db): (d: Db)
    requires Linked(db)
    ensures Linked(d)
  {
    Refresh(db, Below(|db.runs|))
  }

  // ---------------------------------------------------------------- leases

  predicate Overdue(lease: Lease, now: int) {
    lease.status.Active? && lease.expires <= now
  }

  /** One iteration of the loop in _expire. */
  function ExpireOne(db: Db, a: nat, now: int): (d: Db)
    requires Linked(db) && a < |db.leases|
    ensures Linked(d) && |d.leases| == |db.leases| && |d.jobs| == |db.jobs|
  {
    var lease := db.leases[a];
    if Overdue(lease, now) then
      Retry(SetLease(db, a, lease.(status := Expired)), lease.job)
    else db
  }

  function ExpireUpTo(db: Db, k: nat, now: int): (d: Db)
    requires Linked(db) && k <= |db.leases|
    ensures Linked(d) && |d.leases| == |db.leases| && |d.jobs| == |db.jobs|
  {
    if k == 0 then db else ExpireOne(ExpireUpTo(db, k - 1, now), k - 1, now)
  }

  /** The runs whose leases _expire ends; only these are refreshed. */
  function OverdueRuns(db: Db, now: int): set<nat>
    requires Linked(db)
  {
    set a | 0 <= a < |db.leases| && Overdue(db.leases[a], now) :: db.jobs[db.leases[a].job].run
  }

  function Expire(db: Db, now: int): (d: Db)
    requires Linked(db)
    ensures Linked(d)
  {
    Refresh(ExpireUpTo(db, |db.leases|, now), OverdueRuns(db, now))
  }

  datatype Capabilities = Capabilities(models: set<string>, settings: bool, respond: bool, unavailable: bool)

  /** The WHERE clause of claim. */
  predicate Claimable(db: Db, j: nat, cap: Capabilities, now: int)
    requires Linked(db) && j < |db.jobs|
  {
    var job := db.jobs[j];
    && job.status.Queued?
    && db.runs[job.run].status.Running?
    && job.model in cap.models
    && (cap.settings || job.settings.Plain())
    && (cap.respond || job.kind.Generate?)
    && (job.link.Some? ==>
          match db.groups[job.link.value.group].loop
          case NoLoop => true
          case Looping(deadline) => deadline > now
          case Stopped => false)
  }

  /** ORDER BY j.rowid LIMIT 1, looking at rows from j on. */
  function FirstClaimable(db: Db, j: nat, cap: Capabilities, now: int): (r: Option<nat>)
    requires Linked(db) && j <= |db.jobs|
    ensures r.Some? ==> j <= r.value < |db.jobs| && Claimable(db, r.value, cap, now)
    ensures forall i | j <= i < |db.jobs| && (r.Some? ==> i < r.value) :: !Claimable(db, i, cap, now)
    decreases |db.jobs| - j
  {
    if j == |db.jobs| then None
    else if Claimable(db, j, cap, now) then Some(j)
    else FirstClaimable(db, j + 1, cap, now)
  }

  function Grant(db: Db, j: nat, token: nat, expires: int): (d: Db)
    requires Linked(db) && j < |db.jobs|
    ensures Linked(d)
  {
    var d := SetJob(db, j, Assigned);
    d.(leases := db.leases + [Lease(j, token, expires, Active, None, None)])
  }

  /** The rest of claim, after the sweep of overdue leases. */
  function Assign(db: Db, cap: Capabilities, token: nat, now: int, term: int): (d: Db)
    requires Linked(db)
    ensures Linked(d)
  {
    if cap.unavailable || cap.models == {} then db
    else
      match FirstClaimable(db, 0, cap, now)
      case None => db
      case Some(j) => Grant(db, j, token, now + term)
  }

  function Claim(db: Db, cap: Capabilities, token: nat, now: int, term: int): (d: Db)
    requires Linked(db)
    ensures Linked(d)
  {
    Assign(Expire(db, now), cap, token, now, term)
  }

  predicate Holds(db: Db, a: nat, token: nat) {
    a < |db.leases| && db.leases[a].token == token
  }

  datatype Reply = Accepted | Conflict | Invalid

  function Heartbeat(db: Db, a: nat, token: nat, now: int, term: int): (r: (Db, Reply))
    requires Linked(db)
    ensures Linked(r.0)
  {
    if !Holds(db, a, token) then (db, Conflict)
    else if !db.leases[a].status.Active? || db.leases[a].expires <= now then (db, Conflict)
    else (SetLease(db, a, db.leases[a].(expires := now + term)), Accepted)
  }

  // --------------------------------------------------------------- results

  /** The white space of Unicode. */
  predicate WhiteSpace(c: char) {
    var n := c as int;
    || 0x09 <= n <= 0x0D || n in {0x20, 0x85, 0xA0, 0x1680, 0x2028, 0x2029, 0x202F, 0x205F, 0x3000}
    || 0x2000 <= n <= 0x200A
  }

  /** The coordinator also strips the four ASCII separators. */
  predicate Stripped(c: char) {
    WhiteSpace(c) || 0x1C <= c as int <= 0x1F
  }

  predicate Blank(text: string) {
    forall i | 0 <= i < |text| :: Stripped(text[i])
  }

  predicate ValidOutput(kind: Kind, output: Output) {
    match kind
    case Generate => !output.Malformed?
    case Respond(task) =>
      && output.Typed? && output.task == task
      && !Blank(output.text) && Utf8Bytes(output.text) <= MAX_TASK_RESULT_BYTES
  }

  /** A failure without a class is a transient one. */
  function Canonical(p: Payload): Payload {
    if p.Failure? && p.severity.None? then Failure(Some(Transient)) else p
  }

  function FirstResult(db: Db, a: nat, p: Payload): (d: Db)
    requires Linked(db) && a < |db.leases|
    requires p.Finished? && db.jobs[db.leases[a].job].kind.Generate? ==> !p.output.Malformed?
    ensures Linked(d)
  {
    var lease := db.leases[a];
    var j := lease.job;
    match p
    case Finished(output) =>
      if db.jobs[j].kind.Generate? then
        SetJob(SetLease(db, a, lease.(status := Completed, result := Some(p),
                                      attempt := Some(Attempt(output.text, None)))), j, Verifying)
      else
        SetJob(SetLease(db, a, lease.(status := Completed, result := Some(p))), j, Done)
    case Failure(severity) =>
      var d := SetLease(db, a, lease.(status := Completed, result := Some(p)));
      if severity == Some(Permanent) then SetJob(d, j, Failed) else Retry(d, j)
    case Refusal(_) =>
      Retry(SetLease(db, a, lease.(status := Rejected, result := Some(p))), j)
  }

  /** Store.result */
  function Deliver(db: Db, a: nat, token: nat, raw: Payload, now: int): (r: (Db, Reply))
    requires Linked(db)
    ensures Linked(r.0)
  {
    var p := Canonical(raw);
    if !Holds(db, a, token) then (db, Conflict)
    else
      var lease := db.leases[a];
      if p.Finished? && !ValidOutput(db.jobs[lease.job].kind, p.output) then (db, Invalid)
      else if lease.result.Some? then
        (db, if lease.result == Some(p) then Accepted else Conflict)
      else if !lease.status.Active? || lease.expires <= now then (db, Conflict)
      else (RefreshAll(FirstResult(db, a, p)), Accepted)
  }

  // -------------------------------------------------------------- verdicts

  function Upgrade(status: RunStatus, v: Verdict): RunStatus {
    match v
    case Verified => Solved
    case VerifierError => if status.Running? then Errored else status
    case LeanRejected => status
    case Timeout => status
  }

  function StopLoop(group: Group): Group {
    if group.loop.NoLoop? then group else group.(loop := Stopped)
  }

  /** A verified target stops the loop of the group that owns the run. */
  function StopLoopsOf(groups: seq<Group>, r: nat): (result: seq<Group>)
    ensures |result| == |groups|
    ensures forall g | 0 <= g < |groups| ::
      result[g] == if groups[g].run == Some(r) then StopLoop(groups[g]) else groups[g]
  {
    seq(|groups|, g requires 0 <= g < |groups| =>
      if groups[g].run == Some(r) then StopLoop(groups[g]) else groups[g])
  }

  function CloseTask(tasks: seq<Task>, t: nat): (result: seq<Task>)
    requires t < |tasks|
    ensures |result| == |tasks|
  {
    tasks[t := tasks[t].(open := false)]
  }

  /** The verification row and its effect on the job, the run and the group. */
  function Record(db: Db, a: nat, v: Verdict): (d: Db)
    requires Linked(db) && a < |db.leases| && db.leases[a].attempt.Some?
    ensures Linked(d) && |d.leases| == |db.leases|
  {
    var lease := db.leases[a];
    var job := db.jobs[lease.job];
    var run := db.runs[job.run];
    var attempt := Some(lease.attempt.value.(verdict := Some(v)));
    var d := SetJob(SetLease(db, a, lease.(attempt := attempt)), lease.job, Done);
    var d := d.(runs := db.runs[job.run := run.(status := Upgrade(run.status, v))]);
    if v.Verified? then
      d.(groups := StopLoopsOf(db.groups, job.run),
         tasks := if job.link.Some? then CloseTask(db.tasks, job.link.value.task) else db.tasks)
    else d
  }

  /** A Lean rejection of a running run buys one repair child, within max_repairs. */
  predicate Repairs(db: Db, a: nat, v: Verdict)
    requires Linked(db) && a < |db.leases|
  {
    var job := db.jobs[db.leases[a].job];
    v.LeanRejected? && db.runs[job.run].status.Running? && job.depth < db.runs[job.run].maxRepairs
  }

  function RepairJob(parent: Job, a: nat): Job {
    Job(parent.run, Queued, parent.model, Generate, parent.settings, parent.maxAssignments,
        Some(a), parent.depth + 1, None)
  }

  predicate Open(db: Db, a: nat) {
    a < |db.leases| && db.leases[a].attempt.Some? && db.leases[a].Verdict().None?
  }

  function Settle(db: Db, a: nat, v: Verdict): (d: Db)
    requires Linked(db) && Open(db, a)
    ensures Linked(d)
  {
    var d := Record(db, a, v);
    if Repairs(db, a, v) then d.(jobs := d.jobs + [RepairJob(db.jobs[db.leases[a].job], a)]) else d
  }

  /** Store.verified, once the caller's right to commit is settled. */
  function Judge(db: Db, a: nat, v: Verdict): (d: Db)
    requires Linked(db)
    ensures Linked(d)
  {
    if Open(db, a) then RefreshAll(Settle(db, a, v)) else db
  }

  // ------------------------------------------------------------ submission

  datatype InitialGroup = InitialGroup(model: string, count: nat)

  function InitialCount(groups: seq<InitialGroup>): nat {
    if groups == [] then 0 else InitialCount(groups[..|groups| - 1]) + groups[|groups| - 1].count
  }

  /** Chain i of a seeded run samples with seed + i. */
  function ChainSettings(s: Settings, chain: nat): Settings {
    s.(seed := if s.seed.Some? then Some(s.seed.value + chain) else None)
  }

  function InitialJob(r: nat, model: string, s: Settings, chain: nat, maxAssignments: nat): Job {
    Job(r, Queued, model, Generate, ChainSettings(s, chain), maxAssignments, None, 0, None)
  }

  /** The model of chain i: groups are expanded in request order. */
  function ChainModel(groups: seq<InitialGroup>, chain: nat): string
    requires chain < InitialCount(groups)
  {
    var before := groups[..|groups| - 1];
    if chain < InitialCount(before) then ChainModel(before, chain) else groups[|groups| - 1].model
  }

  function InitialJobs(r: nat, groups: seq<InitialGroup>, s: Settings, maxAssignments: nat): (jobs: seq<Job>)
    ensures |jobs| == InitialCount(groups)
  {
    seq(InitialCount(groups), i requires 0 <= i < InitialCount(groups) =>
      InitialJob(r, ChainModel(groups, i), s, i, maxAssignments))
  }

  predicate ValidSubmission(groups: seq<InitialGroup>, maxRepairs: nat, maxAssignments: nat) {
    && 1 <= |groups| && (forall i | 0 <= i < |groups| :: 1 <= groups[i].count)
    && InitialCount(groups) <= MAX_INITIAL_JOBS
    && maxRepairs <= MAX_REPAIRS
    && 1 <= maxAssignments <= MAX_ASSIGNMENTS
  }

  function Submit(db: Db, groups: seq<InitialGroup>, maxRepairs: nat, maxAssignments: nat, s: Settings): (r: (Db, Reply))
    requires Linked(db)
    ensures Linked(r.0)
  {
    if !ValidSubmission(groups, maxRepairs, maxAssignments) then (db, Invalid)
    else (db.(runs := db.runs + [Run(Running, maxRepairs, maxAssignments)],
              jobs := db.jobs + InitialJobs(|db.runs|, groups, s, maxAssignments)), Accepted)
  }

  predicate OwnedByGroup(db: Db, r: nat) {
    exists g | 0 <= g < |db.groups| :: db.groups[g].run == Some(r)
  }

  function EnqueueTask(db: Db, r: nat, model: string, task: TaskType): (res: (Db, Reply))
    requires Linked(db)
    ensures Linked(res.0)
  {
    if OwnedByGroup(db, r) || r >= |db.runs| || !db.runs[r].status.Running? then (db, Conflict)
    else
      var job := Job(r, Queued, model, Respond(task), Settings(false, None), db.runs[r].maxAssignments, None, 0, None);
      (db.(jobs := db.jobs + [job]), Accepted)
  }

  // ---------------------------------------------------------------- groups

  const MAX_GROUP_WORK := 256
  const MAX_GROUP_TASKS := 64
  const MAX_UNIT := 32

  function CreateGroup(db: Db, maxWork: nat, maxTasks: nat): (r: (Db, Reply))
    requires Linked(db)
    ensures Linked(r.0)
  {
    if !(1 <= maxWork <= MAX_GROUP_WORK && 1 <= maxTasks <= MAX_GROUP_TASKS) then (db, Invalid)
    else (db.(groups := db.groups + [Group(maxWork, maxWork, maxTasks, None, NoLoop)]), Accepted)
  }

  function StartLoop(db: Db, g: nat, deadline: int): (r: (Db, Reply))
    requires Linked(db)
    ensures Linked(r.0)
  {
    if g >= |db.groups| || !db.groups[g].loop.NoLoop? then (db, Conflict)
    else (db.(groups := db.groups[g := db.groups[g].(loop := Looping(deadline))]), Accepted)
  }

  function TaskCount(tasks: seq<Task>, g: nat): nat {
    if tasks == [] then 0
    else TaskCount(tasks[..|tasks| - 1], g) + One(tasks[|tasks| - 1].group == g)
  }

  predicate ParentTask(db: Db, g: nat, parent: Option<nat>) {
    parent.Some? ==> parent.value < |db.tasks| && db.tasks[parent.value].group == g
  }

  function ChildDepth(db: Db, parent: Option<nat>): nat
    requires parent.Some? ==> parent.value < |db.tasks|
  {
    if parent.Some? then db.tasks[parent.value].depth + 1 else 0
  }

  function AddTask(db: Db, g: nat, parent: Option<nat>, budget: nat): (r: (Db, Reply))
    requires Linked(db)
    ensures Linked(r.0)
  {
    if !(1 <= budget <= MAX_UNIT) then (db, Invalid)
    else if g >= |db.groups| || !ParentTask(db, g, parent) then (db, Conflict)
    else if ChildDepth(db, parent) > MAX_DEPTH || (parent.Some? && !db.tasks[parent.value].open) then (db, Conflict)
    else if TaskCount(db.tasks, g) >= db.groups[g].maxTasks then (db, Conflict)
    else if budget > db.groups[g].remaining then (db, Conflict)
    else
      (db.(tasks := db.tasks + [Task(g, budget, budget, true, ChildDepth(db, parent))],
           groups := db.groups[g := db.groups[g].(remaining := db.groups[g].remaining - budget)]), Accepted)
  }

  function SetTaskStatus(db: Db, t: nat): (r: (Db, Reply))
    requires Linked(db)
    ensures Linked(r.0)
  {
    if t >= |db.tasks| || !db.tasks[t].open then (db, Conflict)
    else (db.(tasks := CloseTask(db.tasks, t)), Accepted)
  }

  /** create_group_run, or the existing group run made to run again. */
  function GroupRun(db: Db, g: nat): (d: Db)
    requires Linked(db) && g < |db.groups|
    ensures Linked(d) && |d.groups| == |db.groups| && |d.tasks| == |db.tasks|
    ensures d.groups[g].run.Some?
  {
    match db.groups[g].run
    case None =>
      db.(runs := db.runs + [Run(Running, 0, 3)],
          groups := db.groups[g := db.groups[g].(run := Some(|db.runs|))])
    case Some(r) =>
      if db.runs[r].status.Exhausted?
      then db.(runs := db.runs[r := db.runs[r].(status := Running)])
      else db
  }

  function InsertGroupJob(db: Db, g: nat, t: nat, cost: nat, maxAssignments: nat, model: string, kind: Kind): (d: Db)
    requires Linked(db) && g < |db.groups| && t < |db.tasks|
    ensures Linked(d)
  {
    var d := GroupRun(db, g);
    var job := Job(d.groups[g].run.value, Queued, model, kind, Settings(false, None), maxAssignments,
                   None, 0, Some(GroupLink(g, t, cost)));
    d.(jobs := d.jobs + [job])
  }

  function Spend(db: Db, t: nat, cost: nat): (d: Db)
    requires t < |db.tasks|
    ensures Linked(db) ==> Linked(d)
  {
    db.(tasks := db.tasks[t := db.tasks[t].(remaining := db.tasks[t].remaining - cost)])
  }

  function EnqueueGroupJob(db: Db, t: nat, cost: nat, model: string, kind: Kind): (r: (Db, Reply))
    requires Linked(db)
    ensures Linked(r.0)
  {
    if !(1 <= cost <= MAX_UNIT) then (db, Invalid)
    else if t >= |db.tasks| then (db, Conflict)
    else
      var g := db.tasks[t].group;
      var run := db.groups[g].run;
      if db.groups[g].loop.Stopped? then (db, Conflict)
      else if !db.tasks[t].open || cost > db.tasks[t].remaining then (db, Conflict)
      else if run.Some? && Terminal(db.runs[run.value].status) then (db, Conflict)
      else
        (InsertGroupJob(Spend(db, t, cost), g, t, cost, cost, model, kind), Accepted)
  }

  /** stop_group_jobs, then the open tasks are closed and every run is refreshed. */
  function StopGroup(db: Db, g: nat): (d: Db)
    requires Linked(db)
    ensures Linked(d)
  {
    if g >= |db.groups| then db
    else
      var groups := db.groups[g := StopLoop(db.groups[g])];
      var jobs := CancelGroup(db.jobs, g);
      RefreshAll(db.(groups := groups, jobs := jobs, tasks := CloseTasks(db.tasks, g)))
  }

  function CancelGroup(jobs: seq<Job>, g: nat): (result: seq<Job>)
    ensures |result| == |jobs|
    ensures forall j | 0 <= j < |jobs| ::
      result[j] == if jobs[j].status.Queued? && jobs[j].In(g) then jobs[j].(status := Cancelled) else jobs[j]
  {
    seq(|jobs|, j requires 0 <= j < |jobs| =>
      if jobs[j].status.Queued? && jobs[j].In(g) then jobs[j].(status := Cancelled) else jobs[j])
  }

  function CloseTasks(tasks: seq<Task>, g: nat): (result: seq<Task>)
    ensures |result| == |tasks|
    ensures forall t | 0 <= t < |tasks| ::
      result[t] == if tasks[t].group == g then tasks[t].(open := false) else tasks[t]
  {
    seq(|tasks|, t requires 0 <= t < |tasks| =>
      if tasks[t].group == g then tasks[t].(open := false) else tasks[t])
  }

  /** Where a loop's dispatch takes its numbers from. */
  datatype Order = Order(
    unit: nat,                // cost of the routed model; two leases are reserved
    held: nat,                // work kept back for the completion tail
    planning: Option<nat>,    // planning and critique calls left, for those actions
    dispatched: Option<nat>,  // the frontier's own count of dispatches; the fixed loop counts tasks
    parent: Option<nat>, model: string, kind: Kind)

  predicate OverTaskLimit(db: Db, g: nat, o: Order)
    requires g < |db.groups|
  {
    (if o.dispatched.Some? then o.dispatched.value else TaskCount(db.tasks, g)) >= db.groups[g].maxTasks
  }

  function LeaseLimit(o: Order): nat {
    if o.planning.Some? then Min(2, o.planning.value) else 2
  }

  /** One advance of the fixed loop or the frontier that wants to dispatch o. */
  function Dispatch(db: Db, g: nat, o: Order, now: int): (d: Db)
    requires Linked(db)
    ensures Linked(d)
  {
    if g >= |db.groups| || !db.groups[g].loop.Looping? || !ParentTask(db, g, o.parent)
       || o.unit == 0 || o.planning == Some(0) then db
    else
      var run := db.groups[g].run;
      if run.Some? && Terminal(db.runs[run.value].status) then StopGroup(db, g)
      else if now >= db.groups[g].loop.deadline then StopGroup(db, g)
      else if 2 * o.unit > db.groups[g].remaining - o.held then StopGroup(db, g)
      else if OverTaskLimit(db, g, o) then StopGroup(db, g)
      else if ChildDepth(db, o.parent) > MAX_DEPTH then StopGroup(db, g)
      else Buy(db, g, o, ChildDepth(db, o.parent))
  }

  function ChargeTask(db: Db, g: nat, cost: nat, depth: nat): (d: Db)
    requires Linked(db) && g < |db.groups|
    ensures Linked(d)
  {
    db.(tasks := db.tasks + [Task(g, cost, 0, true, depth)],
        groups := db.groups[g := db.groups[g].(remaining := db.groups[g].remaining - cost)])
  }

  /** The task and its work come first; then a job is inserted, unless the run turns out to be over. */
  function Buy(db: Db, g: nat, o: Order, depth: nat): (d: Db)
    requires Linked(db) && g < |db.groups|
    ensures Linked(d)
  {
    var cost := 2 * o.unit;
    var d := ChargeTask(db, g, cost, depth);
    var run := db.groups[g].run;
    if run.Some? && Terminal(db.runs[run.value].status) then StopGroup(d, g)
    else InsertGroupJob(d, g, |db.tasks|, cost, LeaseLimit(o), o.model, o.kind)
  }

  function Unchecked(db: Db, a: nat): (d: Db)
    requires Linked(db) && Open(db, a)
    ensures Linked(d)
  {
    var j := db.leases[a].job;
    if db.jobs[j].status.Verifying? then SetJob(db, j, Cancelled) else db
  }

  /** stop_unchecked_target: a target that could not reserve Lean capacity gets no verdict. */
  function StopUnchecked(db: Db, a: nat): (d: Db)
    requires Linked(db)
    ensures Linked(d)
  {
    if !Open(db, a) || db.jobs[db.leases[a].job].link.None? then db
    else StopGroup(Unchecked(db, a), db.jobs[db.leases[a].job].link.value.group)
  }

  // ------------------------------------------------------------------ runs

  datatype Event =
    | ESubmit(groups: seq<InitialGroup>, maxRepairs: nat, maxAssignments: nat, settings: Settings)
    | EEnqueueTask(run: nat, model: string, task: TaskType)
    | EExpire(now: int)
    | EClaim(cap: Capabilities, token: nat, now: int, term: int)
    | EHeartbeat(lease: nat, token: nat, now: int, term: int)
    | EDeliver(lease: nat, token: nat, payload: Payload, now: int)
    | EJudge(lease: nat, verdict: Verdict)
    | ECreateGroup(maxWork: nat, maxTasks: nat)
    | EStartLoop(group: nat, deadline: int)
    | EAddTask(group: nat, parent: Option<nat>, budget: nat)
    | ESetTaskStatus(taskId: nat)
    | EEnqueueGroupJob(taskId: nat, cost: nat, model: string, kind: Kind)
    | EDispatch(group: nat, order: Order, now: int)
    | EStop(group: nat)
    | EStopUnchecked(lease: nat)

  function Step(db: Db, e: Event): (d: Db)
    requires Linked(db)
    ensures Linked(d)
  {
    match e
    case ESubmit(groups, maxRepairs, maxAssignments, s) => Submit(db, groups, maxRepairs, maxAssignments, s).0
    case EEnqueueTask(r, model, task) => EnqueueTask(db, r, model, task).0
    case EExpire(now) => Expire(db, now)
    case EClaim(cap, token, now, term) => Claim(db, cap, token, now, term)
    case EHeartbeat(a, token, now, term) => Heartbeat(db, a, token, now, term).0
    case EDeliver(a, token, p, now) => Deliver(db, a, token, p, now).0
    case EJudge(a, v) => Judge(db, a, v)
    case ECreateGroup(maxWork, maxTasks) => CreateGroup(db, maxWork, maxTasks).0
    case EStartLoop(g, deadline) => StartLoop(db, g, deadline).0
    case EAddTask(g, parent, budget) => AddTask(db, g, parent, budget).0
    case ESetTaskStatus(t) => SetTaskStatus(db, t).0
    case EEnqueueGroupJob(t, cost, model, kind) => EnqueueGroupJob(db, t, cost, model, kind).0
    case EDispatch(g, o, now) => Dispatch(db, g, o, now)
    case EStop(g) => StopGroup(db, g)
    case EStopUnchecked(a) => StopUnchecked(db, a)
  }

  // What each event does, one at a time. Proofs about Step use these equations instead of
  // unfolding its whole definition.

  lemma SubmitStep(db: Db, groups: seq<InitialGroup>, maxRepairs: nat, maxAssignments: nat, s: Settings)
    requires Linked(db)
    ensures Step(db, ESubmit(groups, maxRepairs, maxAssignments, s)) == Submit(db, groups, maxRepairs, maxAssignments, s).0
  {
  }

  lemma EnqueueTaskStep(db: Db, r: nat, model: string, task: TaskType)
    requires Linked(db)
    ensures Step(db, EEnqueueTask(r, model, task)) == EnqueueTask(db, r, model, task).0
  {
  }

  lemma ExpireStep(db: Db, now: int)
    requires Linked(db)
    ensures Step(db, EExpire(now)) == Expire(db, now)
  {
  }

  lemma ClaimStep(db: Db, cap: Capabilities, token: nat, now: int, term: int)
    requires Linked(db)
    ensures Step(db, EClaim(cap, token, now, term)) == Claim(db, cap, token, now, term)
  {
  }

  lemma HeartbeatStep(db: Db, a: nat, token: nat, now: int, term: int)
    requires Linked(db)
    ensures Step(db, EHeartbeat(a, token, now, term)) == Heartbeat(db, a, token, now, term).0
  {
  }

  lemma DeliverStep(db: Db, a: nat, token: nat, p: Payload, now: int)
    requires Linked(db)
    ensures Step(db, EDeliver(a, token, p, now)) == Deliver(db, a, token, p, now).0
  {
  }

  lemma JudgeStep(db: Db, a: nat, v: Verdict)
    requires Linked(db)
    ensures Step(db, EJudge(a, v)) == Judge(db, a, v)
  {
  }

  lemma CreateGroupStep(db: Db, maxWork: nat, maxTasks: nat)
    requires Linked(db)
    ensures Step(db, ECreateGroup(maxWork, maxTasks)) == CreateGroup(db, maxWork, maxTasks).0
  {
  }

  lemma StartLoopStep(db: Db, g: nat, deadline: int)
    requires Linked(db)
    ensures Step(db, EStartLoop(g, deadline)) == StartLoop(db, g, deadline).0
  {
  }

  lemma AddTaskStep(db: Db, g: nat, parent: Option<nat>, budget: nat)
    requires Linked(db)
    ensures Step(db, EAddTask(g, parent, budget)) == AddTask(db, g, parent, budget).0
  {
  }

  lemma SetTaskStatusStep(db: Db, t: nat)
    requires Linked(db)
    ensures Step(db, ESetTaskStatus(t)) == SetTaskStatus(db, t).0
  {
  }

  lemma EnqueueGroupJobStep(db: Db, t: nat, cost: nat, model: string, kind: Kind)
    requires Linked(db)
    ensures Step(db, EEnqueueGroupJob(t, cost, model, kind)) == EnqueueGroupJob(db, t, cost, model, kind).0
  {
  }

  lemma DispatchStep(db: Db, g: nat, o: Order, now: int)
    requires Linked(db)
    ensures Step(db, EDispatch(g, o, now)) == Dispatch(db, g, o, now)
  {
  }

  lemma StopStep(db: Db, g: nat)
    requires Linked(db)
    ensures StopGroup(db, g) == Step(db, EStop(g))
  {
  }

  lemma StopUncheckedStep(db: Db, a: nat)
    requires Linked(db)
    ensures Step(db, EStopUnchecked(a)) == StopUnchecked(db, a)
  {
  }

  /** The tables after a history of transactions, oldest first. */
  function After(events: seq<Event>): (d: Db)
    ensures Linked(d)
  {
    if events == [] then EMPTY else Step(After(events[..|events| - 1]), events[|events| - 1])
  }
}
