/** Connection-test jobs: three short transactions around unlocked network I/O, driven by
    an at-least-once queue.

    A `State` is one tenant's rows (sessions see one tenant only, and the advisory key is a
    function of the tenant), the locks on them, and the phase of every delivery. `Apply` is
    one step; a step whose delivery is in another phase, or that would have to wait for a
    lock, changes nothing. Every list of events is one interleaving of deliveries (repeated,
    reordered, crashing) with requests, source changes and pruning. */
module ConnectionTests {
  import opened Wrappers

  type JobId = nat
  type SourceId = nat
  type WorkerId = nat
  type UpdateId = nat

  datatype SourceStatus = Active | Disabled
  datatype Content = Content(endpoint: string, secretName: string)
  datatype Source = Source(content: Content, status: SourceStatus, version: nat)

  datatype JobStatus = Queued | Running | Succeeded | Failed | Stale

  datatype Job = Job(
    sourceId: SourceId,
    sourceVersion: nat,
    attempt: nat,
    key: string,
    status: JobStatus,
    startedAt: Option<int>,
    leaseExpiresAt: Option<int>,
    completedAt: Option<int>,
    code: Option<string>)

  datatype Envelope = Envelope(jobId: JobId, sourceId: SourceId, sourceVersion: nat, attempt: nat, key: string)

  /** `Raised` when the connector threw, otherwise the diagnostic outcome. */
  datatype TestResult = Raised | Passed | Broken(code: string)

  datatype Kind = TestRequested | TestCompleted | TestFailed | TestDenied
  datatype Notice = Notice(kind: Kind, job: JobId)
  datatype Access = Access(job: JobId, source: SourceId, used: Source)

  datatype Reply = Denied | Already(status: JobStatus) | Deferred | WentStale | Done(status: JobStatus) | Crashed

  datatype Phase =
    | ClaimLocked(env: Envelope, job: Option<Job>)
    | ClaimRead(env: Envelope, job: Option<Job>, src: Option<Source>)
    | ClaimWaiting(env: Envelope, job: Option<Job>, now: int)
    | ClaimCounting(env: Envelope, job: Option<Job>, now: int)
    | ClaimCounted(env: Envelope, job: Option<Job>, now: int, running: nat)
    | Claimed(env: Envelope)
    | FenceLocked(env: Envelope, job: Option<Job>)
    | FenceRead(env: Envelope, job: Option<Job>, src: Option<Source>)
    | Executing(env: Envelope, used: Source)
    | Executed(env: Envelope, used: Source, result: TestResult)
    | FinishLocked(env: Envelope, used: Source, result: TestResult, job: Option<Job>)
    | FinishRead(env: Envelope, used: Source, result: TestResult, job: Option<Job>, src: Option<Source>)
    | Returned(reply: Reply)

  /** An update or disable request between its unlocked read and its write. */
  datatype PendingUpdate = PendingUpdate(source: SourceId, readVersion: nat, disables: bool,
                                         endpoint: Option<string>, secretName: Option<string>)

  /** Deployment settings: running jobs a tenant may have, and how long a lease lasts. */
  datatype Config = Config(limit: nat, lease: int)

  datatype State = State(
    jobs: map<JobId, Job>,
    sources: map<SourceId, Source>,
    rowLocks: map<JobId, WorkerId>,
    advisory: Option<WorkerId>,
    workers: map<WorkerId, Phase>,
    updates: map<UpdateId, PendingUpdate>,
    audit: seq<Notice>,
    outbox: seq<Notice>,
    accesses: seq<Access>,                // history: credential and network uses
    committed: set<(SourceId, Source)>,   // history: every source row ever committed
    issued: set<JobId>)                   // history: job ids ever used

  /** The steps of one delivery. */
  datatype Step =
    | Deliver(env: Envelope)
    | ReadSource
    | DecideClaim(now: int)
    | TakeAdvisory
    | CountRunning
    | CommitClaim
    | LockAgain
    | DecideFence(now: int)
    | Connect(result: TestResult)
    | DecideFinish(now: int)
    | Abort

  /** Everything else that changes the tenant's rows. */
  datatype Change =
    | RequestTest(job: JobId, source: SourceId, key: string)
    | Prune(job: JobId)
    | CreateSource(source: SourceId, content: Content)
    | BeginUpdate(update: UpdateId, source: SourceId, expectedVersion: nat,
                  endpoint: Option<string>, secretName: Option<string>)
    | BeginDisable(update: UpdateId, source: SourceId)
    | CommitUpdate(update: UpdateId)

  datatype Event = Work(worker: WorkerId, step: Step) | Outside(change: Change)

  // --------------------------------------------------------------- decisions

  predicate Terminal(status: JobStatus) {
    status == Succeeded || status == Failed || status == Stale
  }

  /** What one transaction decides after its reads. */
  datatype Verdict =
    | Deny
    | Keep(reply: Reply)
    | Write(job: Job, reply: Reply)
    | NeedSlot
    | Proceed
    | Complete(job: Job)

  predicate LeaseHeld(job: Job, now: int) {
    job.status == Running && job.leaseExpiresAt.Some? && job.leaseExpiresAt.value > now
  }

  /** An expired lease puts the job back in the queue, inside the claiming transaction. */
  function Requeued(job: Job): Job {
    if job.status == Running then job.(status := Queued, startedAt := None, leaseExpiresAt := None) else job
  }

  predicate ClaimMatches(env: Envelope, job: Job, src: Source) {
    && job.sourceId == env.sourceId
    && job.sourceVersion == env.sourceVersion
    && src.version == env.sourceVersion
    && src.status == Active
    && job.attempt == env.attempt
    && job.key == env.key
  }

  function ClaimVerdict(env: Envelope, job: Option<Job>, src: Option<Source>, now: int): Verdict {
    if job.None? || src.None? then Deny
    else if Terminal(job.value.status) then Keep(Already(job.value.status))
    else if LeaseHeld(job.value, now) then Keep(Deferred)
    else if !ClaimMatches(env, job.value, src.value) then
      Write(Requeued(job.value).(status := Stale, completedAt := Some(now)), WentStale)
    else NeedSlot
  }

  /** The row the claiming transaction commits once it has counted the running jobs. With no
      free slot it still commits, so an expired job is left queued. */
  function SlottedJob(job: Job, running: nat, limit: nat, now: int, lease: int): Job {
    if running >= limit then Requeued(job)
    else job.(status := Running, startedAt := Some(now), leaseExpiresAt := Some(now + lease))
  }

  predicate StillCurrent(env: Envelope, job: Job, src: Option<Source>) {
    && src.Some?
    && job.status == Running
    && job.attempt == env.attempt
    && job.sourceVersion == env.sourceVersion
    && src.value.version == env.sourceVersion
    && src.value.status == Active
  }

  function GoStale(env: Envelope, job: Job, now: int): Verdict {
    if job.status == Running && job.attempt == env.attempt then
      Write(job.(status := Stale, completedAt := Some(now), leaseExpiresAt := None), WentStale)
    else Keep(WentStale)
  }

  function FenceVerdict(env: Envelope, job: Option<Job>, src: Option<Source>, now: int): Verdict {
    if job.None? then Keep(WentStale)
    else if StillCurrent(env, job.value, src) then Proceed
    else GoStale(env, job.value, now)
  }

  function FinishVerdict(env: Envelope, job: Option<Job>, src: Option<Source>, result: TestResult, now: int): Verdict {
    if job.None? then Keep(WentStale)
    else if !StillCurrent(env, job.value, src) then GoStale(env, job.value, now)
    else
      var ended := job.value.(completedAt := Some(now), leaseExpiresAt := None);
      match result
      case Raised => Complete(ended.(status := Failed, code := Some("CONNECTION_TEST_INTERNAL_FAILURE")))
      case Passed => Complete(ended.(status := Succeeded, code := Some("CONNECTION_OK")))
      case Broken(code) => Complete(ended.(status := Failed, code := Some(code)))
  }

  // ------------------------------------------------------------------- steps

  datatype LockChange = KeepLocks | LockRow | LockAdvisory | Release

  /** What one step does: the worker's next phase, and what becomes of the locks, the job row,
      the two logs and the credential. `Release` ends the worker's transaction. */
  datatype Effect =
    | Nothing
    | Effect(phase: Phase, job: JobId, locks: LockChange, write: Option<Job>,
             audit: seq<Notice>, outbox: seq<Notice>, accesses: seq<Access>)

  function Move(p: Phase, j: JobId, locks: LockChange): Effect {
    Effect(p, j, locks, None, [], [], [])
  }

  function Finish(reply: Reply, j: JobId, write: Option<Job>): Effect {
    Effect(Returned(reply), j, Release, write, [], [], [])
  }

  predicate LocksRow(p: Phase) {
    !p.Claimed? && !p.Executing? && !p.Executed? && !p.Returned? && p.job.Some?
  }

  predicate HoldsAdvisory(p: Phase) { p.ClaimCounting? || p.ClaimCounted? }

  function RunningJobs(jobs: map<JobId, Job>): set<JobId> {
    set j | j in jobs && jobs[j].status == Running
  }

  function Lookup<K, V>(m: map<K, V>, k: K): Option<V> {
    if k in m then Some(m[k]) else None
  }

  /** SELECT ... FOR UPDATE: waits for the row lock; a missing row takes none. */
  function LockThen(s: State, j: JobId, p: Phase): Effect {
    if j in s.rowLocks then Nothing
    else Move(p, j, if j in s.jobs then LockRow else KeepLocks)
  }

  function DecideClaimEffect(p: Phase, now: int): Effect
    requires p.ClaimRead?
  {
    var j := p.env.jobId;
    match ClaimVerdict(p.env, p.job, p.src, now)
    case Deny => Effect(Returned(Denied), j, Release, None, [Notice(TestDenied, j)], [], [])
    case Write(job, reply) => Finish(reply, j, Some(job))
    case Keep(reply) => Finish(reply, j, None)
    case _ => Move(ClaimWaiting(p.env, p.job, now), j, KeepLocks)
  }

  function CommitClaimEffect(cfg: Config, p: Phase): Effect
    requires p.ClaimCounted? && p.job.Some?
  {
    var job := SlottedJob(p.job.value, p.running, cfg.limit, p.now, cfg.lease);
    Effect(if p.running >= cfg.limit then Returned(Deferred) else Claimed(p.env),
           p.env.jobId, Release, Some(job), [], [], [])
  }

  function DecideFenceEffect(p: Phase, now: int): Effect
    requires p.FenceRead?
  {
    var j := p.env.jobId;
    match FenceVerdict(p.env, p.job, p.src, now)
    case Write(job, reply) => Finish(reply, j, Some(job))
    case Keep(reply) => Finish(reply, j, None)
    case _ => if p.src.Some? then Move(Executing(p.env, p.src.value), j, Release) else Nothing
  }

  function DecideFinishEffect(p: Phase, now: int): Effect
    requires p.FinishRead?
  {
    var j := p.env.jobId;
    match FinishVerdict(p.env, p.job, p.src, p.result, now)
    case Complete(job) =>
      var notice := Notice(if job.status == Succeeded then TestCompleted else TestFailed, j);
      Effect(Returned(Done(job.status)), j, Release, Some(job), [notice], [notice], [])
    case Write(job, reply) => Finish(reply, j, Some(job))
    case Keep(reply) => Finish(reply, j, None)
    case _ => Nothing
  }

  /** The step of a delivery that is in phase `p`. */
  function PhaseEffect(cfg: Config, s: State, p: Phase, step: Step): Effect {
    match (p, step)
    case (Returned(_), _) => Nothing
    case (_, Abort) => Finish(Crashed, p.env.jobId, None)
    case (ClaimLocked(env, job), ReadSource) =>
      Move(ClaimRead(env, job, Lookup(s.sources, env.sourceId)), env.jobId, KeepLocks)
    case (ClaimRead(_, _, _), DecideClaim(now)) => DecideClaimEffect(p, now)
    case (ClaimWaiting(env, job, now), TakeAdvisory) =>
      if s.advisory.Some? then Nothing else Move(ClaimCounting(env, job, now), env.jobId, LockAdvisory)
    // counts committed rows: the requeue of this very job is not flushed yet
    case (ClaimCounting(env, job, now), CountRunning) =>
      Move(ClaimCounted(env, job, now, |RunningJobs(s.jobs)|), env.jobId, KeepLocks)
    case (ClaimCounted(_, job, _, _), CommitClaim) => if job.None? then Nothing else CommitClaimEffect(cfg, p)
    case (Claimed(env), LockAgain) => LockThen(s, env.jobId, FenceLocked(env, Lookup(s.jobs, env.jobId)))
    case (FenceLocked(env, job), ReadSource) =>
      Move(FenceRead(env, job, Lookup(s.sources, env.sourceId)), env.jobId, KeepLocks)
    case (FenceRead(_, _, _), DecideFence(now)) => DecideFenceEffect(p, now)
    case (Executing(env, used), Connect(result)) =>
      Effect(Executed(env, used, result), env.jobId, KeepLocks, None, [], [],
             [Access(env.jobId, env.sourceId, used)])
    case (Executed(env, used, result), LockAgain) =>
      LockThen(s, env.jobId, FinishLocked(env, used, result, Lookup(s.jobs, env.jobId)))
    case (FinishLocked(env, used, result, job), ReadSource) =>
      Move(FinishRead(env, used, result, job, Lookup(s.sources, env.sourceId)), env.jobId, KeepLocks)
    case (FinishRead(_, _, _, _, _), DecideFinish(now)) => DecideFinishEffect(p, now)
    case _ => Nothing
  }

  function StepEffect(cfg: Config, s: State, w: WorkerId, step: Step): Effect {
    if w in s.workers then PhaseEffect(cfg, s, s.workers[w], step)
    else if step.Deliver? then
      LockThen(s, step.env.jobId, ClaimLocked(step.env, Lookup(s.jobs, step.env.jobId)))
    else Nothing
  }

  function Perform(s: State, w: WorkerId, e: Effect): State {
    if e.Nothing? then s
    else
      s.(workers := s.workers[w := e.phase],
         jobs := if e.write.Some? then s.jobs[e.job := e.write.value] else s.jobs,
         rowLocks :=
           match e.locks
           case LockRow => s.rowLocks[e.job := w]
           case Release => map j | j in s.rowLocks && s.rowLocks[j] != w :: s.rowLocks[j]
           case _ => s.rowLocks,
         advisory :=
           match e.locks
           case LockAdvisory => Some(w)
           case Release => if s.advisory == Some(w) then None else s.advisory
           case _ => s.advisory,
         audit := s.audit + e.audit,
         outbox := s.outbox + e.outbox,
         accesses := s.accesses + e.accesses)
  }

  function ApplyRequestTest(s: State, j: JobId, id: SourceId, key: string): State {
    if j in s.issued || id !in s.sources || s.sources[id].status != Active
       || exists k :: k in s.jobs && s.jobs[k].key == key
    then s
    else
      s.(jobs := s.jobs[j := Job(id, s.sources[id].version, 1, key, Queued, None, None, None, None)],
         issued := s.issued + {j},
         audit := s.audit + [Notice(TestRequested, j)],
         outbox := s.outbox + [Notice(TestRequested, j)])
  }

  function ApplyPrune(s: State, j: JobId): State {
    if j in s.jobs && Terminal(s.jobs[j].status) && j !in s.rowLocks then s.(jobs := s.jobs - {j}) else s
  }

  function PutSource(s: State, id: SourceId, source: Source): State {
    s.(sources := s.sources[id := source], committed := s.committed + {(id, source)})
  }

  function ApplyCreateSource(s: State, id: SourceId, content: Content): State {
    if id in s.sources then s else PutSource(s, id, Source(content, Active, 1))
  }

  /** Setting a column to the value that was read writes nothing. */
  function Changed(value: Option<string>, current: string): Option<string> {
    if value == Some(current) then None else value
  }

  /** The unlocked read of `update`, with its two guards. */
  function ApplyBeginUpdate(s: State, u: UpdateId, id: SourceId, expected: nat,
                            endpoint: Option<string>, secretName: Option<string>): State {
    if u in s.updates || id !in s.sources || s.sources[id].status != Active || s.sources[id].version != expected
       || (endpoint.None? && secretName.None?)
    then s
    else
      var content := s.sources[id].content;
      var pending := PendingUpdate(id, expected, false, Changed(endpoint, content.endpoint),
                                   Changed(secretName, content.secretName));
      s.(updates := s.updates[u := pending])
  }

  /** The unlocked read of `disable`. Its second, locking read returns the row object of the first
      one, with the values loaded then, so nothing is checked again. */
  function ApplyBeginDisable(s: State, u: UpdateId, id: SourceId): State {
    if u in s.updates || id !in s.sources || s.sources[id].status != Active then s
    else s.(updates := s.updates[u := PendingUpdate(id, s.sources[id].version, true, None, None)])
  }

  /** The write: only the changed columns, and the version that was read plus one. */
  function Updated(row: Source, pending: PendingUpdate): Source {
    Source(Content(if pending.endpoint.Some? then pending.endpoint.value else row.content.endpoint,
                   if pending.secretName.Some? then pending.secretName.value else row.content.secretName),
           if pending.disables then Disabled else row.status, pending.readVersion + 1)
  }

  function ApplyCommitUpdate(s: State, u: UpdateId): State {
    if u !in s.updates || s.updates[u].source !in s.sources then s
    else
      var pending := s.updates[u];
      PutSource(s, pending.source, Updated(s.sources[pending.source], pending)).(updates := s.updates - {u})
  }

  function ApplyChange(s: State, c: Change): State {
    match c
    case RequestTest(j, id, key) => ApplyRequestTest(s, j, id, key)
    case Prune(j) => ApplyPrune(s, j)
    case CreateSource(id, content) => ApplyCreateSource(s, id, content)
    case BeginUpdate(u, id, expected, endpoint, secretName) =>
      ApplyBeginUpdate(s, u, id, expected, endpoint, secretName)
    case BeginDisable(u, id) => ApplyBeginDisable(s, u, id)
    case CommitUpdate(u) => ApplyCommitUpdate(s, u)
  }

  function Apply(cfg: Config, s: State, e: Event): State {
    match e
    case Work(w, step) => Perform(s, w, StepEffect(cfg, s, w, step))
    case Outside(change) => ApplyChange(s, change)
  }

  function Run(cfg: Config, s: State, es: seq<Event>): State
    decreases |es|
  {
    if es == [] then s else Run(cfg, Apply(cfg, s, es[0]), es[1..])
  }

  // ---------------------------------------------------------------- invariants

  /** While a worker holds a row lock, the row is exactly what it read. */
  ghost predicate LocksProtectReads(s: State) {
    && (forall w | w in s.workers && LocksRow(s.workers[w]) ::
          var p := s.workers[w];
          && p.env.jobId in s.rowLocks && s.rowLocks[p.env.jobId] == w
          && p.env.jobId in s.jobs && s.jobs[p.env.jobId] == p.job.value)
    && (forall w | w in s.workers && HoldsAdvisory(s.workers[w]) :: s.advisory == Some(w))
    && (forall w | w in s.workers :: ClaimTakesLiveJobs(s.workers[w]))
  }

  /** Past the claim decision the row that was read exists and is not terminal. */
  predicate ClaimTakesLiveJobs(p: Phase) {
    p.ClaimWaiting? || HoldsAdvisory(p) ==> p.job.Some? && !Terminal(p.job.value.status)
  }

  /** The table's CHECK constraint on a job's lifecycle columns. */
  predicate LifecycleOk(job: Job) {
    match job.status
    case Queued => job.startedAt.None? && job.leaseExpiresAt.None? && job.completedAt.None?
    case Running => job.startedAt.Some? && job.leaseExpiresAt.Some? && job.completedAt.None?
    case _ => job.completedAt.Some?
  }

  ghost predicate JobsOk(s: State) {
    && s.jobs.Keys <= s.issued
    && forall j | j in s.jobs :: LifecycleOk(s.jobs[j])
  }

  ghost predicate BoundHolds(cfg: Config, s: State) {
    && |RunningJobs(s.jobs)| <= cfg.limit
    && forall w | w in s.workers && s.workers[w].ClaimCounted? :: |RunningJobs(s.jobs)| <= s.workers[w].running
  }

  function One(b: bool): nat { if b then 1 else 0 }

  function Count(notices: seq<Notice>, kind: Kind, j: JobId): nat {
    multiset(notices)[Notice(kind, j)]
  }

  /** One terminal audit event and one terminal message per finished job, of the right kind. */
  predicate JobNotices(s: State, j: JobId) {
    var completed, failed := Count(s.audit, TestCompleted, j), Count(s.audit, TestFailed, j);
    && Count(s.outbox, TestCompleted, j) == completed
    && Count(s.outbox, TestFailed, j) == failed
    && completed + failed <= One(j in s.issued)
    && (j in s.jobs ==>
          && completed == One(s.jobs[j].status == Succeeded)
          && failed == One(s.jobs[j].status == Failed))
  }

  ghost predicate NoticesMatch(s: State) {
    forall j :: JobNotices(s, j)
  }

  ghost predicate Inv(cfg: Config, s: State) {
    LocksProtectReads(s) && JobsOk(s) && BoundHolds(cfg, s) && NoticesMatch(s)
  }

  // ------------------------------------------------------- what a step may do

  /** What a write may do to a row: it must be alive, its identity columns stay, and the new
      row is legal. */
  predicate LegalWrite(before: Job, after: Job) {
    && !Terminal(before.status)
    && LifecycleOk(after)
    && after.sourceId == before.sourceId && after.sourceVersion == before.sourceVersion
    && after.attempt == before.attempt && after.key == before.key
  }

  /** Locks follow phases: a step keeps what it holds, takes exactly one free lock, or ends
      the transaction. */
  ghost predicate LocksFit(s: State, w: WorkerId, e: Effect)
    requires e.Effect?
  {
    var holdsRow := w in s.workers && LocksRow(s.workers[w]);
    match e.locks
    case KeepLocks =>
      && (LocksRow(e.phase) ==>
            holdsRow && e.phase.env.jobId == s.workers[w].env.jobId && e.phase.job == s.workers[w].job)
      && (HoldsAdvisory(e.phase) ==> w in s.workers && HoldsAdvisory(s.workers[w]))
    case LockRow =>
      && !holdsRow && LocksRow(e.phase) && !HoldsAdvisory(e.phase)
      && e.phase.env.jobId == e.job && e.job !in s.rowLocks && e.job in s.jobs && e.phase.job == Some(s.jobs[e.job])
    case LockAdvisory =>
      && s.advisory.None?
      && LocksRow(e.phase) && holdsRow && e.phase.env.jobId == s.workers[w].env.jobId && e.phase.job == s.workers[w].job
    case Release => !LocksRow(e.phase) && !HoldsAdvisory(e.phase)
  }

  /** A write needs the row lock, and is committed when the transaction ends. */
  ghost predicate WriteFits(s: State, w: WorkerId, e: Effect)
    requires e.Effect?
  {
    e.write.Some? ==>
      && e.locks == Release
      && w in s.workers && LocksRow(s.workers[w]) && e.job == s.workers[w].env.jobId
      && LegalWrite(s.workers[w].job.value, e.write.value)
  }

  /** Starting a job needs a count below the limit, taken under the advisory lock. */
  ghost predicate SlotFits(cfg: Config, s: State, w: WorkerId, e: Effect)
    requires e.Effect?
  {
    && (e.write.Some? && e.write.value.status == Running ==>
          w in s.workers && s.workers[w].ClaimCounted? && s.workers[w].running < cfg.limit)
    && (e.phase.ClaimCounted? ==> e.phase.running == |RunningJobs(s.jobs)| && e.write.None?)
  }

  /** A completion tells both logs once; no other step writes a terminal notice. */
  predicate NoticesFit(e: Effect)
    requires e.Effect?
  {
    if e.write.Some? && e.write.value.status in {Succeeded, Failed} then
      var notice := Notice(if e.write.value.status == Succeeded then TestCompleted else TestFailed, e.job);
      e.audit == [notice] && e.outbox == [notice]
    else e.outbox == [] && (e.audit == [] || e.audit == [Notice(TestDenied, e.job)])
  }

  /** Everything the proof needs to know about a step. */
  ghost predicate Fits(cfg: Config, s: State, w: WorkerId, e: Effect) {
    e.Effect? ==>
      && LocksFit(s, w, e) && WriteFits(s, w, e) && SlotFits(cfg, s, w, e) && NoticesFit(e)
      && ClaimTakesLiveJobs(e.phase)
  }

  /** While it is locked, the row a phase carries is the committed one. */
  ghost predicate Reads(s: State, p: Phase) {
    LocksRow(p) ==> p.env.jobId in s.jobs && s.jobs[p.env.jobId] == p.job.value && LifecycleOk(p.job.value)
  }

  lemma ClaimDecisionFits(cfg: Config, s: State, w: WorkerId, now: int)
    requires w in s.workers && s.workers[w].ClaimRead? && Reads(s, s.workers[w])
    ensures Fits(cfg, s, w, DecideClaimEffect(s.workers[w], now))
  {
  }

  lemma CommitClaimFits(cfg: Config, s: State, w: WorkerId)
    requires w in s.workers && s.workers[w].ClaimCounted? && Reads(s, s.workers[w])
    requires ClaimTakesLiveJobs(s.workers[w])
    ensures Fits(cfg, s, w, CommitClaimEffect(cfg, s.workers[w]))
  {
  }

  lemma FenceDecisionFits(cfg: Config, s: State, w: WorkerId, now: int)
    requires w in s.workers && s.workers[w].FenceRead? && Reads(s, s.workers[w])
    ensures Fits(cfg, s, w, DecideFenceEffect(s.workers[w], now))
  {
  }

  lemma FinishDecisionFits(cfg: Config, s: State, w: WorkerId, now: int)
    requires w in s.workers && s.workers[w].FinishRead? && Reads(s, s.workers[w])
    ensures Fits(cfg, s, w, DecideFinishEffect(s.workers[w], now))
  {
  }

  lemma LockThenFits(cfg: Config, s: State, w: WorkerId, p: Phase)
    requires p.ClaimLocked? || p.FenceLocked? || p.FinishLocked?
    requires p.job == Lookup(s.jobs, p.env.jobId)
    requires w in s.workers ==> !LocksRow(s.workers[w])
    ensures Fits(cfg, s, w, LockThen(s, p.env.jobId, p))
  {
  }

  predicate Claiming(p: Phase) {
    p.ClaimLocked? || p.ClaimRead? || p.ClaimWaiting? || p.ClaimCounting? || p.ClaimCounted?
  }

  lemma ClaimStepFits(cfg: Config, s: State, w: WorkerId, step: Step)
    requires w in s.workers && Reads(s, s.workers[w]) && ClaimTakesLiveJobs(s.workers[w]) && Claiming(s.workers[w])
    ensures Fits(cfg, s, w, PhaseEffect(cfg, s, s.workers[w], step))
  {
    match s.workers[w]
    case ClaimRead(_, _, _) => if step.DecideClaim? { ClaimDecisionFits(cfg, s, w, step.now); }
    case ClaimCounted(_, _, _, _) => if step.CommitClaim? { CommitClaimFits(cfg, s, w); }
    case _ =>
  }

  lemma LaterStepFits(cfg: Config, s: State, w: WorkerId, step: Step)
    requires w in s.workers && Reads(s, s.workers[w]) && !Claiming(s.workers[w])
    ensures Fits(cfg, s, w, PhaseEffect(cfg, s, s.workers[w], step))
  {
    match s.workers[w]
    case FenceRead(_, _, _) => if step.DecideFence? { FenceDecisionFits(cfg, s, w, step.now); }
    case FinishRead(_, _, _, _, _) => if step.DecideFinish? { FinishDecisionFits(cfg, s, w, step.now); }
    case Claimed(env) =>
      if step.LockAgain? { LockThenFits(cfg, s, w, FenceLocked(env, Lookup(s.jobs, env.jobId))); }
    case Executed(env, used, result) =>
      if step.LockAgain? { LockThenFits(cfg, s, w, FinishLocked(env, used, result, Lookup(s.jobs, env.jobId))); }
    case _ =>
  }

  lemma StepFits(cfg: Config, s: State, w: WorkerId, step: Step)
    requires LocksProtectReads(s) && JobsOk(s)
    ensures Fits(cfg, s, w, StepEffect(cfg, s, w, step))
  {
    if w in s.workers {
      if Claiming(s.workers[w]) {
        ClaimStepFits(cfg, s, w, step);
      } else {
        LaterStepFits(cfg, s, w, step);
      }
    } else if step.Deliver? {
      LockThenFits(cfg, s, w, ClaimLocked(step.env, Lookup(s.jobs, step.env.jobId)));
    }
  }

  // ------------------------------------------------------------- preservation

  lemma PerformKeepsLocks(s: State, w: WorkerId, e: Effect)
    requires LocksProtectReads(s)
    requires e.Effect? && LocksFit(s, w, e) && WriteFits(s, w, e) && ClaimTakesLiveJobs(e.phase)
    ensures LocksProtectReads(Perform(s, w, e))
  {
  }

  lemma PerformKeepsJobs(s: State, w: WorkerId, e: Effect)
    requires LocksProtectReads(s) && JobsOk(s)
    requires e.Effect? && WriteFits(s, w, e)
    ensures JobsOk(Perform(s, w, e))
  {
  }

  lemma RunningAfterWrite(jobs: map<JobId, Job>, j: JobId, job: Job)
    ensures |RunningJobs(jobs[j := job])| <= |RunningJobs(jobs)| + One(job.status == Running)
  {
    var after := RunningJobs(jobs[j := job]);
    if job.status == Running {
      assert after == RunningJobs(jobs) + {j};
    } else {
      assert after == RunningJobs(jobs) - {j};
    }
  }

  lemma RunningAfterRemoval(jobs: map<JobId, Job>, j: JobId)
    requires j in jobs && jobs[j].status != Running
    ensures RunningJobs(jobs - {j}) == RunningJobs(jobs)
  {
  }

  /** Only the holder of the advisory lock starts a job, and its count was below the limit;
      every other count of a running transaction stays an upper bound. */
  lemma PerformKeepsBound(cfg: Config, s: State, w: WorkerId, e: Effect)
    requires LocksProtectReads(s) && BoundHolds(cfg, s)
    requires e.Effect? && WriteFits(s, w, e) && SlotFits(cfg, s, w, e)
    ensures BoundHolds(cfg, Perform(s, w, e))
  {
    var t := Perform(s, w, e);
    if e.write.Some? {
      RunningAfterWrite(s.jobs, e.job, e.write.value);
    }
    forall v | v in t.workers && t.workers[v].ClaimCounted?
      ensures |RunningJobs(t.jobs)| <= t.workers[v].running
    {
      if v != w && e.write.Some? && e.write.value.status == Running {
        assert false;  // both would hold the advisory lock
      }
    }
  }

  lemma CountAppended(notices: seq<Notice>, n: Notice, kind: Kind, j: JobId)
    ensures Count(notices + [n], kind, j) == Count(notices, kind, j) + One(n == Notice(kind, j))
  {
  }

  /** A step that completes no job. */
  lemma QuietStepKeepsNotices(s: State, w: WorkerId, e: Effect, j: JobId)
    requires LocksProtectReads(s) && JobsOk(s) && JobNotices(s, j)
    requires e.Effect? && WriteFits(s, w, e) && NoticesFit(e)
    requires e.write.Some? ==> e.write.value.status !in {Succeeded, Failed}
    ensures JobNotices(Perform(s, w, e), j)
  {
    assert s.audit + [] == s.audit && s.outbox + [] == s.outbox;
    CountAppended(s.audit, Notice(TestDenied, e.job), TestCompleted, j);
    CountAppended(s.audit, Notice(TestDenied, e.job), TestFailed, j);
  }

  /** A completion adds the one terminal notice its job did not have yet. */
  lemma CompletionKeepsNotices(s: State, w: WorkerId, e: Effect, j: JobId)
    requires LocksProtectReads(s) && JobsOk(s) && JobNotices(s, j)
    requires e.Effect? && WriteFits(s, w, e) && NoticesFit(e)
    requires e.write.Some? && e.write.value.status in {Succeeded, Failed}
    ensures JobNotices(Perform(s, w, e), j)
  {
    var notice := Notice(if e.write.value.status == Succeeded then TestCompleted else TestFailed, e.job);
    CountAppended(s.audit, notice, TestCompleted, j);
    CountAppended(s.audit, notice, TestFailed, j);
    CountAppended(s.outbox, notice, TestCompleted, j);
    CountAppended(s.outbox, notice, TestFailed, j);
  }

  lemma PerformKeepsNotices(s: State, w: WorkerId, e: Effect, j: JobId)
    requires LocksProtectReads(s) && JobsOk(s) && JobNotices(s, j)
    requires e.Effect? && WriteFits(s, w, e) && NoticesFit(e)
    ensures JobNotices(Perform(s, w, e), j)
  {
    if e.write.Some? && e.write.value.status in {Succeeded, Failed} {
      CompletionKeepsNotices(s, w, e, j);
    } else {
      QuietStepKeepsNotices(s, w, e, j);
    }
  }

  lemma WorkKeepsInv(cfg: Config, s: State, w: WorkerId, step: Step)
    requires Inv(cfg, s)
    ensures Inv(cfg, Apply(cfg, s, Work(w, step)))
  {
    var e := StepEffect(cfg, s, w, step);
    StepFits(cfg, s, w, step);
    if e.Effect? {
      PerformKeepsLocks(s, w, e);
      PerformKeepsJobs(s, w, e);
      PerformKeepsBound(cfg, s, w, e);
      forall j ensures JobNotices(Perform(s, w, e), j) {
        PerformKeepsNotices(s, w, e, j);
      }
    }
  }

  lemma RequestKeepsNotices(s: State, j: JobId, id: SourceId, key: string, k: JobId)
    requires JobsOk(s) && JobNotices(s, k)
    ensures JobNotices(ApplyRequestTest(s, j, id, key), k)
  {
    CountAppended(s.audit, Notice(TestRequested, j), TestCompleted, k);
    CountAppended(s.audit, Notice(TestRequested, j), TestFailed, k);
    CountAppended(s.outbox, Notice(TestRequested, j), TestCompleted, k);
    CountAppended(s.outbox, Notice(TestRequested, j), TestFailed, k);
  }

  lemma RequestKeepsInv(cfg: Config, s: State, j: JobId, id: SourceId, key: string)
    requires Inv(cfg, s)
    ensures Inv(cfg, ApplyRequestTest(s, j, id, key))
  {
    var t := ApplyRequestTest(s, j, id, key);
    if t.jobs != s.jobs {
      RunningAfterWrite(s.jobs, j, t.jobs[j]);
    }
    forall k ensures JobNotices(t, k) {
      RequestKeepsNotices(s, j, id, key, k);
    }
  }

  lemma PruneKeepsInv(cfg: Config, s: State, j: JobId)
    requires Inv(cfg, s)
    ensures Inv(cfg, ApplyPrune(s, j))
  {
    if ApplyPrune(s, j) != s {
      RunningAfterRemoval(s.jobs, j);
    }
    forall k ensures JobNotices(ApplyPrune(s, j), k) {
      assert JobNotices(s, k);
    }
  }

  lemma SourceChangeKeepsInv(cfg: Config, s: State, c: Change)
    requires Inv(cfg, s)
    requires !c.RequestTest? && !c.Prune?
    ensures Inv(cfg, ApplyChange(s, c))
  {
    var t := ApplyChange(s, c);
    assert t.jobs == s.jobs && t.audit == s.audit && t.outbox == s.outbox && t.issued == s.issued
           && t.workers == s.workers && t.rowLocks == s.rowLocks && t.advisory == s.advisory;
    forall k ensures JobNotices(t, k) {
      assert JobNotices(s, k);
    }
  }

  lemma ApplyKeepsInv(cfg: Config, s: State, e: Event)
    requires Inv(cfg, s)
    ensures Inv(cfg, Apply(cfg, s, e))
  {
    match e
    case Work(w, step) => WorkKeepsInv(cfg, s, w, step);
    case Outside(change) =>
      match change
      case RequestTest(j, id, key) => RequestKeepsInv(cfg, s, j, id, key);
      case Prune(j) => PruneKeepsInv(cfg, s, j);
      case _ => SourceChangeKeepsInv(cfg, s, change);
  }

  // ---------------------------------------------------------------- theorems

  /** No jobs yet; sources as they are. */
  ghost predicate Initial(s: State) {
    && s.jobs == map[] && s.rowLocks == map[] && s.advisory.None? && s.workers == map[] && s.updates == map[]
    && s.audit == [] && s.outbox == [] && s.accesses == [] && s.issued == {}
    && s.committed == set id | id in s.sources :: (id, s.sources[id])
  }

  lemma InitialSatisfiesInv(cfg: Config, s: State)
    requires Initial(s)
    ensures Inv(cfg, s)
  {
    assert RunningJobs(s.jobs) == {};
  }

  lemma {:induction false} RunKeepsInv(cfg: Config, s: State, es: seq<Event>)
    requires Inv(cfg, s)
    ensures Inv(cfg, Run(cfg, s, es))
    decreases |es|
  {
    if es != [] {
      ApplyKeepsInv(cfg, s, es[0]);
      RunKeepsInv(cfg, Apply(cfg, s, es[0]), es[1..]);
    }
  }

  /** However deliveries are repeated, reordered, delayed past their lease or killed: a job has
      exactly one terminal audit event and one terminal message iff it succeeded or failed, of
      the matching kind, and never more than one even after its row was pruned. */
  lemma OneTerminalNoticePerJob(cfg: Config, s: State, es: seq<Event>, j: JobId)
    requires Initial(s)
    ensures var t := Run(cfg, s, es);
            var completed, failed := Count(t.audit, TestCompleted, j), Count(t.audit, TestFailed, j);
            && Count(t.outbox, TestCompleted, j) == completed && Count(t.outbox, TestFailed, j) == failed
            && completed + failed <= 1
            && (j in t.jobs ==>
                  && (completed == 1 <==> t.jobs[j].status == Succeeded)
                  && (failed == 1 <==> t.jobs[j].status == Failed))
  {
    InitialSatisfiesInv(cfg, s);
    RunKeepsInv(cfg, s, es);
    assert JobNotices(Run(cfg, s, es), j);
  }

  /** The tenant never has more committed running jobs than it may. */
  lemma RunningNeverExceedsLimit(cfg: Config, s: State, es: seq<Event>)
    requires Initial(s)
    ensures |RunningJobs(Run(cfg, s, es).jobs)| <= cfg.limit
  {
    InitialSatisfiesInv(cfg, s);
    RunKeepsInv(cfg, s, es);
  }

  lemma TerminalStep(cfg: Config, s: State, e: Event, j: JobId)
    requires Inv(cfg, s) && j in s.issued
    requires j in s.jobs ==> Terminal(s.jobs[j].status)
    ensures j in Apply(cfg, s, e).issued
    ensures j in Apply(cfg, s, e).jobs ==> j in s.jobs && Apply(cfg, s, e).jobs[j] == s.jobs[j]
  {
    match e
    case Work(w, step) =>
      StepFits(cfg, s, w, step);
      TerminalPerform(s, w, StepEffect(cfg, s, w, step), j);
    case Outside(change) => TerminalChange(s, change, j);
  }

  lemma TerminalChange(s: State, c: Change, j: JobId)
    requires j in s.issued
    ensures j in ApplyChange(s, c).issued
    ensures j in ApplyChange(s, c).jobs ==> j in s.jobs && ApplyChange(s, c).jobs[j] == s.jobs[j]
  {
  }

  lemma TerminalPerform(s: State, w: WorkerId, e: Effect, j: JobId)
    requires LocksProtectReads(s) && (e.Effect? ==> WriteFits(s, w, e))
    requires j in s.jobs ==> Terminal(s.jobs[j].status)
    ensures Perform(s, w, e).issued == s.issued
    ensures j in Perform(s, w, e).jobs ==> j in s.jobs && Perform(s, w, e).jobs[j] == s.jobs[j]
  {
  }

  /** A terminal row never changes again; all that can happen to it is to be pruned, and its
      id is never used for another job. */
  lemma {:induction false} TerminalIsForever(cfg: Config, s: State, es: seq<Event>, j: JobId)
    requires Inv(cfg, s) && j in s.issued
    requires j in s.jobs ==> Terminal(s.jobs[j].status)
    ensures j in Run(cfg, s, es).jobs ==> j in s.jobs && Run(cfg, s, es).jobs[j] == s.jobs[j]
    decreases |es|
  {
    if es != [] {
      TerminalStep(cfg, s, es[0], j);
      ApplyKeepsInv(cfg, s, es[0]);
      TerminalIsForever(cfg, Apply(cfg, s, es[0]), es[1..], j);
    }
  }

  /** A delivery that finds its own job expired but no free slot still frees that job's slot:
      it commits the job as queued. Without this a limit of one would block itself. */
  lemma DeferralFreesExpiredSlot(cfg: Config, s: State, w: WorkerId)
    requires Inv(cfg, s) && w in s.workers && s.workers[w].ClaimCounted?
    requires s.workers[w].running >= cfg.limit && s.workers[w].job.value.status == Running
    ensures var t := Apply(cfg, s, Work(w, CommitClaim)); var j := s.workers[w].env.jobId;
            && t.workers[w] == Returned(Deferred)
            && t.jobs[j].status == Queued
            && |RunningJobs(t.jobs)| == |RunningJobs(s.jobs)| - 1
  {
    var p := s.workers[w];
    var t, j := Apply(cfg, s, Work(w, CommitClaim)), p.env.jobId;
    assert LocksRow(p) && HoldsAdvisory(p);
    assert StepEffect(cfg, s, w, CommitClaim) == CommitClaimEffect(cfg, p);
    assert t.jobs == s.jobs[j := Requeued(p.job.value)];
    RunningAfterRequeue(s.jobs, j);
  }

  lemma RunningAfterRequeue(jobs: map<JobId, Job>, j: JobId)
    requires j in jobs && jobs[j].status == Running
    ensures |RunningJobs(jobs[j := Requeued(jobs[j])])| == |RunningJobs(jobs)| - 1
  {
    assert RunningJobs(jobs[j := Requeued(jobs[j])]) == RunningJobs(jobs) - {j};
    assert j in RunningJobs(jobs);
  }

  // ----------------------------------------------------------------- requests

  /** A job announces itself once in each log, from the start; and jobs have their own keys. */
  predicate Announced(s: State, j: JobId) {
    Count(s.audit, TestRequested, j) == Count(s.outbox, TestRequested, j) == One(j in s.issued)
  }

  ghost predicate OwnKeys(s: State) {
    forall j, k | j in s.jobs && k in s.jobs && j != k :: s.jobs[j].key != s.jobs[k].key
  }

  lemma WorkKeepsAnnounced(s: State, w: WorkerId, e: Effect, j: JobId)
    requires e.Effect? && NoticesFit(e) && Announced(s, j)
    ensures Announced(Perform(s, w, e), j)
  {
    assert s.audit + [] == s.audit && s.outbox + [] == s.outbox;
    if e.audit != [] { CountAppended(s.audit, e.audit[0], TestRequested, j); }
    if e.outbox != [] { CountAppended(s.outbox, e.outbox[0], TestRequested, j); }
  }

  lemma WorkKeepsKeys(s: State, w: WorkerId, e: Effect)
    requires LocksProtectReads(s) && e.Effect? && WriteFits(s, w, e) && OwnKeys(s)
    ensures OwnKeys(Perform(s, w, e))
  {
  }

  lemma ChangeKeepsAnnounced(s: State, c: Change, j: JobId)
    requires Announced(s, j)
    ensures Announced(ApplyChange(s, c), j)
  {
    if c.RequestTest? {
      CountAppended(s.audit, Notice(TestRequested, c.job), TestRequested, j);
      CountAppended(s.outbox, Notice(TestRequested, c.job), TestRequested, j);
    }
  }

  lemma ChangeKeepsKeys(s: State, c: Change)
    requires OwnKeys(s)
    ensures OwnKeys(ApplyChange(s, c))
  {
  }

  lemma ApplyKeepsRequests(cfg: Config, s: State, e: Event)
    requires Inv(cfg, s) && OwnKeys(s) && forall j :: Announced(s, j)
    ensures OwnKeys(Apply(cfg, s, e)) && forall j :: Announced(Apply(cfg, s, e), j)
  {
    var t := Apply(cfg, s, e);
    match e {
      case Work(w, step) =>
        var effect := StepEffect(cfg, s, w, step);
        StepFits(cfg, s, w, step);
        if effect.Effect? {
          WorkKeepsKeys(s, w, effect);
          forall j ensures Announced(t, j) { WorkKeepsAnnounced(s, w, effect, j); }
        }
      case Outside(change) =>
        ChangeKeepsKeys(s, change);
        forall j ensures Announced(t, j) { ChangeKeepsAnnounced(s, change, j); }
    }
  }

  lemma {:induction false} RunKeepsRequests(cfg: Config, s: State, es: seq<Event>)
    requires Inv(cfg, s) && OwnKeys(s) && forall j :: Announced(s, j)
    ensures OwnKeys(Run(cfg, s, es)) && forall j :: Announced(Run(cfg, s, es), j)
    decreases |es|
  {
    if es != [] {
      ApplyKeepsRequests(cfg, s, es[0]);
      ApplyKeepsInv(cfg, s, es[0]);
      RunKeepsRequests(cfg, Apply(cfg, s, es[0]), es[1..]);
    }
  }

  /** A job, its message and its audit event exist together: after any run a job that was ever
      issued was announced exactly once in each log, any other id never; and repeating a key never
      gives a second live job. */
  lemma RequestedExactlyOnce(cfg: Config, s: State, es: seq<Event>, j: JobId)
    requires Initial(s)
    ensures var t := Run(cfg, s, es);
            && t.jobs.Keys <= t.issued
            && Count(t.audit, TestRequested, j) == Count(t.outbox, TestRequested, j) == One(j in t.issued)
            && forall k | j in t.jobs && k in t.jobs && j != k :: t.jobs[j].key != t.jobs[k].key
  {
    InitialSatisfiesInv(cfg, s);
    RunKeepsInv(cfg, s, es);
    assert forall k :: Announced(s, k);
    RunKeepsRequests(cfg, s, es);
    assert Announced(Run(cfg, s, es), j);
  }

  /** The message a request publishes. */
  function Message(j: JobId, job: Job): Envelope {
    Envelope(j, job.sourceId, job.sourceVersion, job.attempt, job.key)
  }

  /** A request is served exactly for an existing active source under a key no live job has; and then
      its own message, delivered at once, fits the job and goes on to wait for a slot. */
  lemma RequestFitsItsMessage(cfg: Config, s: State, j: JobId, id: SourceId, key: string, w: WorkerId, now: int)
    requires Inv(cfg, s) && j !in s.issued && j !in s.rowLocks && w !in s.workers
    ensures var t := ApplyRequestTest(s, j, id, key);
            && (j in t.jobs <==>
                  && id in s.sources && s.sources[id].status == Active
                  && forall k | k in s.jobs :: s.jobs[k].key != key)
            && (j !in t.jobs ==> t == s)
            && (j in t.jobs ==>
                  && t.jobs[j].sourceId == id && t.jobs[j].key == key
                  && t.workers == s.workers && t.sources == s.sources && t.jobs == s.jobs[j := t.jobs[j]])
    ensures var t := ApplyRequestTest(s, j, id, key);
            j in t.jobs ==>
              WaitsForSlot(Run(cfg, t, [Work(w, Deliver(Message(j, t.jobs[j]))), Work(w, ReadSource),
                                        Work(w, DecideClaim(now))]), w, t.jobs[j], now)
  {
    var t := ApplyRequestTest(s, j, id, key);
    if j in t.jobs {
      var env, job := Message(j, t.jobs[j]), Some(t.jobs[j]);
      var t1 := Apply(cfg, t, Work(w, Deliver(env)));
      assert t1.workers[w] == ClaimLocked(env, job) && t1.sources == t.sources;
      FittingMessageWaits(cfg, t1, w, now);
      RunThree(cfg, t, Work(w, Deliver(env)), Work(w, ReadSource), Work(w, DecideClaim(now)));
    }
  }

  predicate WaitsForSlot(t: State, w: WorkerId, job: Job, now: int) {
    w in t.workers && t.workers[w].ClaimWaiting? && t.workers[w].job == Some(job) && t.workers[w].now == now
  }

  lemma FittingMessageWaits(cfg: Config, t: State, w: WorkerId, now: int)
    requires w in t.workers && t.workers[w].ClaimLocked? && t.workers[w].job.Some?
    requires t.workers[w].job.value.status == Queued
    requires t.workers[w].env == Message(t.workers[w].env.jobId, t.workers[w].job.value)
    requires var env := t.workers[w].env;
             env.sourceId in t.sources && t.sources[env.sourceId].status == Active
             && t.sources[env.sourceId].version == env.sourceVersion
    ensures WaitsForSlot(Apply(cfg, Apply(cfg, t, Work(w, ReadSource)), Work(w, DecideClaim(now))), w,
                         t.workers[w].job.value, now)
  {
    var p, t1 := t.workers[w], Apply(cfg, t, Work(w, ReadSource));
    assert t1.workers[w] == ClaimRead(p.env, p.job, Some(t.sources[p.env.sourceId]));
  }

  /** Pruning removes a finished row that nobody has locked. */
  lemma FinishedJobsArePruned(cfg: Config, s: State, j: JobId)
    requires j in s.jobs && s.jobs[j].status in {Succeeded, Failed, Stale} && j !in s.rowLocks
    ensures Apply(cfg, s, Outside(Prune(j))) == s.(jobs := s.jobs - {j})
  {
  }

  /** A column set to the value it was read with is not written: what another write has put there since
      then stays. */
  lemma EqualColumnsAreNotWritten(s: State, u: UpdateId, id: SourceId, endpoint: Option<string>,
                                  secretName: Option<string>, row: Source)
    requires u !in s.updates && id in s.sources && s.sources[id].status == Active
    requires endpoint.Some? || secretName.Some?
    ensures var read := s.sources[id]; var t := ApplyBeginUpdate(s, u, id, read.version, endpoint, secretName);
            && u in t.updates
            && var written := Updated(row, t.updates[u]);
            && (endpoint == Some(read.content.endpoint) ==> written.content.endpoint == row.content.endpoint)
            && (secretName == Some(read.content.secretName) ==> written.content.secretName == row.content.secretName)
  {
  }

  /** Only a finished job's row is ever removed. */
  lemma LiveJobsAreKept(cfg: Config, s: State, e: Event, j: JobId)
    requires j in s.jobs && s.jobs[j].status in {Queued, Running}
    ensures j in Apply(cfg, s, e).jobs
  {
  }

  /** An update that nothing overtakes: refused without a word unless the source is active and at the
      expected version and something is to be set; otherwise it sets just that, one version up. */
  lemma UndisturbedUpdate(s: State, u: UpdateId, id: SourceId, expected: nat, endpoint: Option<string>,
                          secretName: Option<string>)
    requires u !in s.updates
    ensures var t := ApplyCommitUpdate(ApplyBeginUpdate(s, u, id, expected, endpoint, secretName), u);
            if && id in s.sources && s.sources[id].status == Active && s.sources[id].version == expected
               && (endpoint.Some? || secretName.Some?)
            then
              var before := s.sources[id].content;
              var content := Content(if endpoint.Some? then endpoint.value else before.endpoint,
                                     if secretName.Some? then secretName.value else before.secretName);
              t.sources == s.sources[id := Source(content, Active, expected + 1)]
            else t == s
  {
  }

  /** A disable that nothing overtakes. */
  lemma UndisturbedDisable(s: State, u: UpdateId, id: SourceId)
    requires u !in s.updates
    ensures var t := ApplyCommitUpdate(ApplyBeginDisable(s, u, id), u);
            if id in s.sources && s.sources[id].status == Active then
              t.sources == s.sources[id := Source(s.sources[id].content, Disabled, s.sources[id].version + 1)]
            else t == s
  {
  }

  // --------------------------------------------------- freshness of the source

  predicate PastClaim(p: Phase) {
    p.ClaimWaiting? || HoldsAdvisory(p) || p.Claimed? || p.FenceLocked? || p.FenceRead? || UsesSource(p)
  }

  predicate UsesSource(p: Phase) {
    p.Executing? || p.Executed? || p.FinishLocked? || p.FinishRead?
  }

  /** The source row was committed, active, and at the job's version when it was read. */
  predicate WasCurrent(s: State, id: SourceId, version: nat, used: Source) {
    (id, used) in s.committed && used.status == Active && used.version == version
  }

  predicate MatchesJob(s: State, env: Envelope) {
    && env.jobId in s.issued
    && (env.jobId in s.jobs ==>
          s.jobs[env.jobId].sourceId == env.sourceId && s.jobs[env.jobId].sourceVersion == env.sourceVersion)
  }

  predicate PhaseFresh(s: State, p: Phase) {
    && (PastClaim(p) ==> MatchesJob(s, p.env))
    && (UsesSource(p) ==> WasCurrent(s, p.env.sourceId, p.env.sourceVersion, p.used))
    && ((p.ClaimRead? || p.FenceRead? || p.FinishRead?) && p.src.Some? ==>
          (p.env.sourceId, p.src.value) in s.committed)
    && (p.ClaimRead? && p.job.Some? ==> p.env.jobId in s.issued)
  }

  predicate AccessFresh(s: State, a: Access) {
    && a.job in s.issued
    && (a.job in s.jobs ==> s.jobs[a.job].sourceId == a.source && s.jobs[a.job].sourceVersion == a.used.version)
    && (a.source, a.used) in s.committed && a.used.status == Active
  }

  ghost predicate Fresh(s: State) {
    && (forall id | id in s.sources :: (id, s.sources[id]) in s.committed)
    && (forall w | w in s.workers :: PhaseFresh(s, s.workers[w]))
    && (forall a | a in s.accesses :: AccessFresh(s, a))
  }

  /** Nothing that was committed is forgotten, and rows keep their identity columns. */
  ghost predicate Extends(s: State, t: State) {
    && s.issued <= t.issued && s.committed <= t.committed
    && forall j | j in t.jobs && j in s.issued ::
         j in s.jobs && t.jobs[j].sourceId == s.jobs[j].sourceId && t.jobs[j].sourceVersion == s.jobs[j].sourceVersion
  }

  lemma PerformExtends(s: State, w: WorkerId, e: Effect)
    requires LocksProtectReads(s)
    requires e.Effect? && WriteFits(s, w, e)
    ensures Extends(s, Perform(s, w, e))
  {
  }

  lemma ChangeExtends(s: State, c: Change)
    ensures Extends(s, ApplyChange(s, c))
  {
  }

  lemma FreshnessCarriesOver(s: State, t: State, p: Phase, a: Access)
    requires Extends(s, t)
    ensures PhaseFresh(s, p) ==> PhaseFresh(t, p)
    ensures AccessFresh(s, a) ==> AccessFresh(t, a)
  {
  }

  lemma StepIsFresh(cfg: Config, s: State, w: WorkerId, step: Step)
    requires Inv(cfg, s) && Fresh(s)
    ensures EffectFresh(s, StepEffect(cfg, s, w, step))
  {
    if w in s.workers {
      var p := s.workers[w];
      assert PhaseFresh(s, p);
      if Claiming(p) {
        ClaimStepIsFresh(cfg, s, w, step);
      } else {
        LaterStepIsFresh(cfg, s, w, step);
      }
    }
  }

  ghost predicate EffectFresh(s: State, e: Effect) {
    e.Effect? ==> PhaseFresh(s, e.phase) && forall a | a in e.accesses :: AccessFresh(s, a)
  }

  lemma ClaimStepIsFresh(cfg: Config, s: State, w: WorkerId, step: Step)
    requires w in s.workers && PhaseFresh(s, s.workers[w]) && Reads(s, s.workers[w]) && s.jobs.Keys <= s.issued
    requires Claiming(s.workers[w])
    requires forall id | id in s.sources :: (id, s.sources[id]) in s.committed
    ensures EffectFresh(s, PhaseEffect(cfg, s, s.workers[w], step))
  {
  }

  lemma LaterStepIsFresh(cfg: Config, s: State, w: WorkerId, step: Step)
    requires w in s.workers && PhaseFresh(s, s.workers[w]) && Reads(s, s.workers[w]) && s.jobs.Keys <= s.issued
    requires !Claiming(s.workers[w])
    requires forall id | id in s.sources :: (id, s.sources[id]) in s.committed
    ensures EffectFresh(s, PhaseEffect(cfg, s, s.workers[w], step))
  {
  }

  lemma WorkKeepsFresh(cfg: Config, s: State, w: WorkerId, step: Step)
    requires Inv(cfg, s) && Fresh(s)
    ensures Fresh(Apply(cfg, s, Work(w, step)))
  {
    var e := StepEffect(cfg, s, w, step);
    if e.Effect? {
      StepFits(cfg, s, w, step);
      PerformExtends(s, w, e);
      StepIsFresh(cfg, s, w, step);
      FreshKeptByExtension(s, Perform(s, w, e));
    }
  }

  lemma ChangeKeepsFresh(s: State, c: Change)
    requires Fresh(s)
    ensures Fresh(ApplyChange(s, c))
  {
    ChangeExtends(s, c);
    FreshKeptByExtension(s, ApplyChange(s, c));
  }

  lemma FreshKeptByExtension(s: State, t: State)
    requires Fresh(s) && Extends(s, t)
    ensures forall w | w in s.workers :: PhaseFresh(t, s.workers[w])
    ensures forall a | a in s.accesses :: AccessFresh(t, a)
    ensures forall p | PhaseFresh(s, p) :: PhaseFresh(t, p)
    ensures forall a | AccessFresh(s, a) :: AccessFresh(t, a)
  {
    forall p, a {
      FreshnessCarriesOver(s, t, p, a);
    }
  }

  lemma {:induction false} RunKeepsFresh(cfg: Config, s: State, es: seq<Event>)
    requires Inv(cfg, s) && Fresh(s)
    ensures Inv(cfg, Run(cfg, s, es)) && Fresh(Run(cfg, s, es))
    decreases |es|
  {
    if es != [] {
      ApplyKeepsInv(cfg, s, es[0]);
      match es[0] {
        case Work(w, step) => WorkKeepsFresh(cfg, s, w, step);
        case Outside(change) => ChangeKeepsFresh(s, change);
      }
      RunKeepsFresh(cfg, Apply(cfg, s, es[0]), es[1..]);
    }
  }

  /** A job turns succeeded or failed only in the final transaction of a delivery that read its
      source as active and at the job's version, and whose connector used an endpoint and a
      credential reference that the source had, active, at that same version. */
  lemma CompletionIsFenced(cfg: Config, s: State, es: seq<Event>, e: Event, j: JobId)
    requires Initial(s)
    requires var t := Run(cfg, s, es); var u := Apply(cfg, t, e);
             j in t.jobs && t.jobs[j].status !in {Succeeded, Failed}
             && j in u.jobs && u.jobs[j].status in {Succeeded, Failed}
    ensures var t := Run(cfg, s, es);
            && e.Work? && e.step.DecideFinish? && e.worker in t.workers && t.workers[e.worker].FinishRead?
            && var p := t.workers[e.worker];
            && p.env.jobId == j && p.src.Some?
            && WasCurrent(t, t.jobs[j].sourceId, t.jobs[j].sourceVersion, p.src.value)
            && WasCurrent(t, t.jobs[j].sourceId, t.jobs[j].sourceVersion, p.used)
  {
    InitialSatisfiesInv(cfg, s);
    RunKeepsFresh(cfg, s, es);
    CompletionStep(cfg, Run(cfg, s, es), e, j);
  }

  lemma CompletionStep(cfg: Config, t: State, e: Event, j: JobId)
    requires Inv(cfg, t) && Fresh(t)
    requires var u := Apply(cfg, t, e);
             j in t.jobs && t.jobs[j].status !in {Succeeded, Failed}
             && j in u.jobs && u.jobs[j].status in {Succeeded, Failed}
    ensures && e.Work? && e.step.DecideFinish? && e.worker in t.workers && t.workers[e.worker].FinishRead?
            && var p := t.workers[e.worker];
            && p.env.jobId == j && p.src.Some?
            && WasCurrent(t, t.jobs[j].sourceId, t.jobs[j].sourceVersion, p.src.value)
            && WasCurrent(t, t.jobs[j].sourceId, t.jobs[j].sourceVersion, p.used)
  {
    match e
    case Work(w, step) =>
      StepFits(cfg, t, w, step);
      assert Completes(StepEffect(cfg, t, w, step));
      OnlyTheFinishCompletes(cfg, t, w, step);
      FinishCompletesOnActive(t.workers[w], step.now);
      FinishReadIsFresh(t, w);
    case Outside(change) => ChangesNeverComplete(t, change, j);
  }

  lemma ChangesNeverComplete(s: State, c: Change, j: JobId)
    requires JobsOk(s) && j in s.jobs && j in ApplyChange(s, c).jobs
    ensures ApplyChange(s, c).jobs[j] == s.jobs[j]
  {
  }

  lemma FinishReadIsFresh(s: State, w: WorkerId)
    requires Fresh(s) && w in s.workers && s.workers[w].FinishRead? && s.workers[w].job.Some?
    requires LocksProtectReads(s)
    ensures var p := s.workers[w];
            && p.env.jobId in s.jobs
            && s.jobs[p.env.jobId].sourceId == p.env.sourceId
            && s.jobs[p.env.jobId].sourceVersion == p.env.sourceVersion
            && WasCurrent(s, p.env.sourceId, p.env.sourceVersion, p.used)
            && (p.src.Some? ==> (p.env.sourceId, p.src.value) in s.committed)
  {
    assert PhaseFresh(s, s.workers[w]);
    assert LocksRow(s.workers[w]);
  }

  predicate Completes(e: Effect) {
    e.Effect? && e.write.Some? && e.write.value.status in {Succeeded, Failed}
  }

  lemma ClaimsDoNotComplete(cfg: Config, p: Phase, now: int)
    ensures p.ClaimRead? ==> !Completes(DecideClaimEffect(p, now))
    ensures p.ClaimCounted? && p.job.Some? && !Terminal(p.job.value.status) ==> !Completes(CommitClaimEffect(cfg, p))
    ensures p.FenceRead? ==> !Completes(DecideFenceEffect(p, now))
  {
  }

  lemma FinishCompletesOnActive(p: Phase, now: int)
    requires p.FinishRead? && Completes(DecideFinishEffect(p, now))
    ensures DecideFinishEffect(p, now).job == p.env.jobId
    ensures p.src.Some? && p.src.value.status == Active && p.src.value.version == p.env.sourceVersion
  {
  }

  lemma OnlyTheFinishCompletes(cfg: Config, s: State, w: WorkerId, step: Step)
    requires LocksProtectReads(s) && Completes(StepEffect(cfg, s, w, step))
    ensures && w in s.workers && s.workers[w].FinishRead? && step.DecideFinish?
            && StepEffect(cfg, s, w, step) == DecideFinishEffect(s.workers[w], step.now)
  {
    var p := s.workers[w];
    ClaimsDoNotComplete(cfg, p, if step.DecideClaim? || step.DecideFence? then step.now else 0);
  }

  /** Every use of a credential and the network was for a source that had been read active at
      the version its job asked for. */
  lemma EveryAccessIsFenced(cfg: Config, s: State, es: seq<Event>, a: Access)
    requires Initial(s) && a in Run(cfg, s, es).accesses
    ensures AccessFresh(Run(cfg, s, es), a)
  {
    InitialSatisfiesInv(cfg, s);
    RunKeepsFresh(cfg, s, es);
  }

  // ------------------------------------------------------------------- leases

  lemma {:induction false} RunSnoc(cfg: Config, s: State, before: seq<Event>, e: Event)
    ensures (before + [e])[..|before|] == before
    ensures Run(cfg, s, before + [e]) == Apply(cfg, Run(cfg, s, before), e)
    decreases |before|
  {
    if before != [] {
      assert (before + [e])[1..] == before[1..] + [e];
      RunSnoc(cfg, Apply(cfg, s, before[0]), before[1..], e);
    } else {
      assert ([] + [e])[1..] == [];
    }
  }

  predicate Decides(cfg: Config, t: State, e: Event, w: WorkerId) {
    e.Work? && e.worker == w && e.step.DecideClaim? && Apply(cfg, t, e) != t
  }

  /** The clock reading with which delivery `w` took its claim decision in this history. */
  function DecidedAt(cfg: Config, s: State, es: seq<Event>, w: WorkerId): Option<int>
    decreases |es|
  {
    if es == [] then None
    else
      var n := |es| - 1;
      if Decides(cfg, Run(cfg, s, es[..n]), es[n], w) then Some(es[n].step.now) else DecidedAt(cfg, s, es[..n], w)
  }

  /** This step commits a claim of job `j`: its delivery owns the job from here on. */
  predicate Claims(cfg: Config, t: State, e: Event, j: JobId) {
    && e.Work? && e.worker in t.workers && t.workers[e.worker].ClaimCounted? && t.workers[e.worker].env.jobId == j
    && Apply(cfg, t, e).workers[e.worker].Claimed?
  }

  /** When the job was last claimed: the reading its claiming delivery decided with. */
  function ClaimedAt(cfg: Config, s: State, es: seq<Event>, j: JobId): Option<int>
    decreases |es|
  {
    if es == [] then None
    else
      var n := |es| - 1;
      if Claims(cfg, Run(cfg, s, es[..n]), es[n], j) then DecidedAt(cfg, s, es[..n], es[n].worker)
      else ClaimedAt(cfg, s, es[..n], j)
  }

  predicate AwaitsSlot(p: Phase) { p.ClaimWaiting? || p.ClaimCounting? || p.ClaimCounted? }

  /** A phase on the way to a slot keeps the reading of its decision. */
  predicate KeepsReading(s: State, w: WorkerId, step: Step, e: Effect) {
    e.Effect? && AwaitsSlot(e.phase) ==>
      if step.DecideClaim? then e.phase.now == step.now
      else w in s.workers && AwaitsSlot(s.workers[w]) && e.phase.now == s.workers[w].now
  }

  /** Only committing a claim makes a job running, with the lease that the claim's reading gives. */
  predicate LeaseFits(cfg: Config, s: State, w: WorkerId, step: Step, e: Effect) {
    e.Effect? ==>
      && (e.write.Some? && e.write.value.status == Running ==>
            && w in s.workers && s.workers[w].ClaimCounted? && e.job == s.workers[w].env.jobId && e.phase.Claimed?
            && e.write.value.startedAt == Some(s.workers[w].now)
            && e.write.value.leaseExpiresAt == Some(s.workers[w].now + cfg.lease))
      && (w in s.workers && s.workers[w].ClaimCounted? && e.phase.Claimed? ==>
            e.job == s.workers[w].env.jobId && e.write.Some? && e.write.value.status == Running)
  }

  lemma DecisionKeepsReading(cfg: Config, s: State, w: WorkerId, step: Step)
    ensures KeepsReading(s, w, step, StepEffect(cfg, s, w, step))
  {
  }

  lemma StepFitsLease(cfg: Config, s: State, w: WorkerId, step: Step)
    requires LocksProtectReads(s)
    ensures LeaseFits(cfg, s, w, step, StepEffect(cfg, s, w, step))
  {
    if w in s.workers {
      if Claiming(s.workers[w]) {
        ClaimStepFitsLease(cfg, s, w, step);
      } else {
        LaterStepFitsLease(cfg, s, w, step);
      }
    }
  }

  lemma ClaimStepFitsLease(cfg: Config, s: State, w: WorkerId, step: Step)
    requires w in s.workers && Claiming(s.workers[w]) && ClaimTakesLiveJobs(s.workers[w])
    ensures LeaseFits(cfg, s, w, step, PhaseEffect(cfg, s, s.workers[w], step))
  {
  }

  lemma LaterStepFitsLease(cfg: Config, s: State, w: WorkerId, step: Step)
    requires w in s.workers && !Claiming(s.workers[w])
    ensures LeaseFits(cfg, s, w, step, PhaseEffect(cfg, s, s.workers[w], step))
  {
  }

  /** A delivery on the way to a slot decided at `at`. */
  predicate ReadingIs(t: State, w: WorkerId, at: Option<int>) {
    w in t.workers && AwaitsSlot(t.workers[w]) ==> at == Some(t.workers[w].now)
  }

  /** A running job was claimed at `at`, for the lease. */
  predicate LeaseIs(cfg: Config, t: State, j: JobId, at: Option<int>) {
    j in t.jobs && t.jobs[j].status == Running ==>
      at.Some? && t.jobs[j].startedAt == at && t.jobs[j].leaseExpiresAt == Some(at.value + cfg.lease)
  }

  lemma DecidedAtSnoc(cfg: Config, s: State, before: seq<Event>, e: Event, w: WorkerId)
    ensures DecidedAt(cfg, s, before + [e], w)
         == if Decides(cfg, Run(cfg, s, before), e, w) then Some(e.step.now) else DecidedAt(cfg, s, before, w)
  {
    RunSnoc(cfg, s, before, e);
  }

  lemma ClaimedAtSnoc(cfg: Config, s: State, before: seq<Event>, e: Event, j: JobId)
    ensures ClaimedAt(cfg, s, before + [e], j)
         == if Claims(cfg, Run(cfg, s, before), e, j) then DecidedAt(cfg, s, before, e.worker)
            else ClaimedAt(cfg, s, before, j)
  {
    RunSnoc(cfg, s, before, e);
  }

  lemma ReadingAfterStep(cfg: Config, t: State, e: Event, w: WorkerId)
    requires w in Apply(cfg, t, e).workers && AwaitsSlot(Apply(cfg, t, e).workers[w])
    ensures if Decides(cfg, t, e, w) then Apply(cfg, t, e).workers[w].now == e.step.now
            else w in t.workers && AwaitsSlot(t.workers[w]) && t.workers[w].now == Apply(cfg, t, e).workers[w].now
  {
    if e.Work? {
      DecisionKeepsReading(cfg, t, e.worker, e.step);
    }
  }

  lemma ReadingStep(cfg: Config, t: State, e: Event, w: WorkerId, at: Option<int>)
    requires ReadingIs(t, w, at)
    ensures ReadingIs(Apply(cfg, t, e), w, if Decides(cfg, t, e, w) then Some(e.step.now) else at)
  {
    if w in Apply(cfg, t, e).workers && AwaitsSlot(Apply(cfg, t, e).workers[w]) {
      ReadingAfterStep(cfg, t, e, w);
    }
  }

  lemma ChangesStartNothing(t: State, c: Change, j: JobId)
    requires j in ApplyChange(t, c).jobs && ApplyChange(t, c).jobs[j].status == Running
    ensures j in t.jobs && t.jobs[j] == ApplyChange(t, c).jobs[j]
  {
  }

  /** What a delivery's step can make of a running job. */
  lemma RunningAfterStep(cfg: Config, t: State, w: WorkerId, step: Step, j: JobId)
    requires LocksProtectReads(t)
    requires var u := Apply(cfg, t, Work(w, step)); j in u.jobs && u.jobs[j].status == Running
    ensures var u := Apply(cfg, t, Work(w, step));
            if Claims(cfg, t, Work(w, step), j) then
              && u.jobs[j].startedAt == Some(t.workers[w].now)
              && u.jobs[j].leaseExpiresAt == Some(t.workers[w].now + cfg.lease)
            else j in t.jobs && t.jobs[j] == u.jobs[j]
  {
    StepFitsLease(cfg, t, w, step);
  }

  lemma RunningAfterEvent(cfg: Config, t: State, e: Event, j: JobId)
    requires LocksProtectReads(t)
    requires j in Apply(cfg, t, e).jobs && Apply(cfg, t, e).jobs[j].status == Running
    ensures var job := Apply(cfg, t, e).jobs[j];
            if Claims(cfg, t, e, j) then
              job.startedAt == Some(t.workers[e.worker].now)
              && job.leaseExpiresAt == Some(t.workers[e.worker].now + cfg.lease)
            else j in t.jobs && t.jobs[j] == job
  {
    match e
    case Work(w, step) => RunningAfterStep(cfg, t, w, step, j);
    case Outside(change) => ChangesStartNothing(t, change, j);
  }

  lemma LeaseStep(cfg: Config, t: State, e: Event, j: JobId, at: Option<int>, decided: Option<int>)
    requires LocksProtectReads(t) && LeaseIs(cfg, t, j, at) && (e.Work? ==> ReadingIs(t, e.worker, decided))
    ensures LeaseIs(cfg, Apply(cfg, t, e), j, if Claims(cfg, t, e, j) then decided else at)
  {
    if j in Apply(cfg, t, e).jobs && Apply(cfg, t, e).jobs[j].status == Running {
      RunningAfterEvent(cfg, t, e, j);
    }
  }

  lemma {:induction false} LeasesAreKnown(cfg: Config, s: State, es: seq<Event>)
    requires Initial(s)
    ensures forall w :: ReadingIs(Run(cfg, s, es), w, DecidedAt(cfg, s, es, w))
    ensures forall j :: LeaseIs(cfg, Run(cfg, s, es), j, ClaimedAt(cfg, s, es, j))
    decreases |es|
  {
    if es != [] {
      var before, e := es[..|es| - 1], es[|es| - 1];
      assert es == before + [e];
      LeasesAreKnown(cfg, s, before);
      InitialSatisfiesInv(cfg, s);
      RunKeepsInv(cfg, s, before);
      forall w ensures ReadingIs(Run(cfg, s, es), w, DecidedAt(cfg, s, es, w)) {
        HistoryGivesReading(cfg, s, before, e, w);
      }
      forall j ensures LeaseIs(cfg, Run(cfg, s, es), j, ClaimedAt(cfg, s, es, j)) {
        HistoryGivesLease(cfg, s, before, e, j);
      }
    }
  }

  lemma HistoryGivesReading(cfg: Config, s: State, before: seq<Event>, e: Event, w: WorkerId)
    requires ReadingIs(Run(cfg, s, before), w, DecidedAt(cfg, s, before, w))
    ensures ReadingIs(Run(cfg, s, before + [e]), w, DecidedAt(cfg, s, before + [e], w))
  {
    RunSnoc(cfg, s, before, e);
    DecidedAtSnoc(cfg, s, before, e, w);
    ReadingStep(cfg, Run(cfg, s, before), e, w, DecidedAt(cfg, s, before, w));
  }

  lemma HistoryGivesLease(cfg: Config, s: State, before: seq<Event>, e: Event, j: JobId)
    requires LocksProtectReads(Run(cfg, s, before))
    requires LeaseIs(cfg, Run(cfg, s, before), j, ClaimedAt(cfg, s, before, j))
    requires forall w :: ReadingIs(Run(cfg, s, before), w, DecidedAt(cfg, s, before, w))
    ensures LeaseIs(cfg, Run(cfg, s, before + [e]), j, ClaimedAt(cfg, s, before + [e], j))
  {
    var decided := if e.Work? then DecidedAt(cfg, s, before, e.worker) else None;
    RunSnoc(cfg, s, before, e);
    ClaimedAtSnoc(cfg, s, before, e, j);
    LeaseStep(cfg, Run(cfg, s, before), e, j, ClaimedAt(cfg, s, before, j), decided);
  }

  /** A delivery that has read job and source, and not decided yet. */
  predicate AboutToDecide(t: State, w: WorkerId, j: JobId) {
    w in t.workers && t.workers[w].ClaimRead? && t.workers[w].env.jobId == j
    && t.workers[w].job.Some? && t.workers[w].src.Some?
  }

  /** Nothing but the delivery's own phase and locks differ. */
  predicate LeavesNoTrace(t: State, u: State) {
    && u.jobs == t.jobs && u.sources == t.sources && u.updates == t.updates
    && u.audit == t.audit && u.outbox == t.outbox && u.accesses == t.accesses
  }

  /** What a lease is good for. After every history a running job was claimed, at some reading; until
      that reading plus the lease, every other delivery that decides on the job ends deferred and
      leaves no trace. From then on none is deferred by its decision: it waits for a slot if it fits
      the job and the source, and otherwise ends the job as stale. */
  lemma LeaseDecides(cfg: Config, s: State, es: seq<Event>, w: WorkerId, j: JobId, now: int)
    requires Initial(s) && AboutToDecide(Run(cfg, s, es), w, j)
    requires j in Run(cfg, s, es).jobs && Run(cfg, s, es).jobs[j].status == Running
    ensures ClaimedAt(cfg, s, es, j).Some?
    ensures var t := Run(cfg, s, es); var u := Apply(cfg, t, Work(w, DecideClaim(now)));
            var p, job, until := t.workers[w], t.jobs[j], ClaimedAt(cfg, s, es, j).value + cfg.lease;
            var fits := && p.env.sourceId == job.sourceId
                        && p.env.sourceVersion == job.sourceVersion == p.src.value.version
                        && p.src.value.status == Active && p.env.attempt == job.attempt && p.env.key == job.key;
            && (now < until ==> u.workers[w] == Returned(Deferred) && LeavesNoTrace(t, u))
            && (now >= until && fits ==> u.workers[w] == ClaimWaiting(p.env, Some(job), now) && LeavesNoTrace(t, u))
            && (now >= until && !fits ==>
                  && u.workers[w] == Returned(WentStale) && j in u.jobs
                  && u.jobs[j] == job.(status := Stale, startedAt := None, leaseExpiresAt := None,
                                       completedAt := Some(now)))
  {
    var t := Run(cfg, s, es);
    InitialSatisfiesInv(cfg, s);
    RunKeepsInv(cfg, s, es);
    LeasesAreKnown(cfg, s, es);
    assert LeaseIs(cfg, t, j, ClaimedAt(cfg, s, es, j));
    assert LocksRow(t.workers[w]);
    DecisionByLease(cfg, t, w, now);
  }

  lemma DecisionByLease(cfg: Config, t: State, w: WorkerId, now: int)
    requires w in t.workers && t.workers[w].ClaimRead? && t.workers[w].src.Some?
    requires t.workers[w].job.Some? && t.workers[w].job.value.status == Running
    requires t.workers[w].job.value.leaseExpiresAt.Some?
    requires t.workers[w].env.jobId in t.jobs && t.jobs[t.workers[w].env.jobId] == t.workers[w].job.value
    ensures var u := Apply(cfg, t, Work(w, DecideClaim(now)));
            var p, j := t.workers[w], t.workers[w].env.jobId; var job := p.job.value;
            var fits := && p.env.sourceId == job.sourceId
                        && p.env.sourceVersion == job.sourceVersion == p.src.value.version
                        && p.src.value.status == Active && p.env.attempt == job.attempt && p.env.key == job.key;
            && (now < job.leaseExpiresAt.value ==> u.workers[w] == Returned(Deferred) && LeavesNoTrace(t, u))
            && (now >= job.leaseExpiresAt.value && fits ==>
                  u.workers[w] == ClaimWaiting(p.env, Some(job), now) && LeavesNoTrace(t, u))
            && (now >= job.leaseExpiresAt.value && !fits ==>
                  && u.workers[w] == Returned(WentStale) && j in u.jobs
                  && u.jobs[j] == job.(status := Stale, startedAt := None, leaseExpiresAt := None,
                                       completedAt := Some(now)))
  {
    var p := t.workers[w];
    assert StepEffect(cfg, t, w, DecideClaim(now)) == DecideClaimEffect(p, now);
    assert t.audit + [] == t.audit && t.outbox + [] == t.outbox && t.accesses + [] == t.accesses;
  }

  /** A delivery that has returned does nothing any more, and one that has only read has done nothing
      yet. */
  lemma DeliveriesStartAndEndQuietly(cfg: Config, t: State, w: WorkerId, step: Step)
    ensures w in t.workers && t.workers[w].Returned? ==> Apply(cfg, t, Work(w, step)) == t
    ensures step.Deliver? || step.ReadSource? ==> LeavesNoTrace(t, Apply(cfg, t, Work(w, step)))
  {
    assert t.audit + [] == t.audit && t.outbox + [] == t.outbox && t.accesses + [] == t.accesses;
  }

  /** The job that was read still runs at this attempt, and its source is active at the job's version. */
  predicate Current(env: Envelope, job: Job, src: Option<Source>) {
    && job.status == Running && job.attempt == env.attempt
    && src.Some? && src.value.status == Active && env.sourceVersion == job.sourceVersion == src.value.version
  }

  /** Before the network is used and after it: a delivery whose job or source has moved on ends, and ends
      the job as stale if it is still this attempt that runs; it tells no log and uses nothing. */
  lemma OutdatedDeliveriesEnd(cfg: Config, t: State, w: WorkerId, now: int)
    requires w in t.workers && (t.workers[w].FenceRead? || t.workers[w].FinishRead?)
    requires t.workers[w].job.Some? && !Current(t.workers[w].env, t.workers[w].job.value, t.workers[w].src)
    ensures var p, job, j := t.workers[w], t.workers[w].job.value, t.workers[w].env.jobId;
            var u := Apply(cfg, t, Work(w, if p.FenceRead? then DecideFence(now) else DecideFinish(now)));
            && u.workers[w] == Returned(WentStale)
            && u.audit == t.audit && u.outbox == t.outbox && u.accesses == t.accesses
            && u.jobs == if job.status == Running && job.attempt == p.env.attempt
                         then t.jobs[j := job.(status := Stale, completedAt := Some(now), leaseExpiresAt := None)]
                         else t.jobs
  {
    assert t.audit + [] == t.audit && t.outbox + [] == t.outbox && t.accesses + [] == t.accesses;
  }

  /** A delivery that is still current before the network is used goes on with the source it read. */
  lemma CurrentDeliveriesGoOn(cfg: Config, t: State, w: WorkerId, now: int)
    requires w in t.workers && t.workers[w].FenceRead?
    requires t.workers[w].job.Some? && Current(t.workers[w].env, t.workers[w].job.value, t.workers[w].src)
    ensures var p, u := t.workers[w], Apply(cfg, t, Work(w, DecideFence(now)));
            u.workers[w] == Executing(p.env, p.src.value) && LeavesNoTrace(t, u)
  {
    assert t.audit + [] == t.audit && t.outbox + [] == t.outbox && t.accesses + [] == t.accesses;
  }

  /** One that is still current afterwards ends its job as the connector says, with the code and one
      notice in each log. */
  lemma CurrentResultsAreKept(cfg: Config, t: State, w: WorkerId, now: int)
    requires w in t.workers && t.workers[w].FinishRead?
    requires t.workers[w].job.Some? && Current(t.workers[w].env, t.workers[w].job.value, t.workers[w].src)
    ensures var p, u := t.workers[w], Apply(cfg, t, Work(w, DecideFinish(now)));
            var code := match p.result
                        case Passed => "CONNECTION_OK"
                        case Raised => "CONNECTION_TEST_INTERNAL_FAILURE"
                        case Broken(c) => c;
            var status := if p.result.Passed? then Succeeded else Failed;
            var notice := Notice(if p.result.Passed? then TestCompleted else TestFailed, p.env.jobId);
            && u.jobs == t.jobs[p.env.jobId := p.job.value.(status := status, code := Some(code),
                                                            completedAt := Some(now), leaseExpiresAt := None)]
            && u.audit == t.audit + [notice] && u.outbox == t.outbox + [notice] && u.accesses == t.accesses
  {
    assert t.audit + [] == t.audit && t.outbox + [] == t.outbox && t.accesses + [] == t.accesses;
  }

  lemma SlotIsCounted(cfg: Config, t: State, w: WorkerId)
    requires w in t.workers && t.workers[w].ClaimWaiting? && t.advisory.None?
    ensures var p, u := t.workers[w], Apply(cfg, Apply(cfg, t, Work(w, TakeAdvisory)), Work(w, CountRunning));
            && u.workers == t.workers[w := ClaimCounted(p.env, p.job, p.now, |RunningJobs(t.jobs)|)]
            && LeavesNoTrace(t, u)
  {
    var p, t1 := t.workers[w], Apply(cfg, t, Work(w, TakeAdvisory));
    assert StepEffect(cfg, t, w, TakeAdvisory) == Move(ClaimCounting(p.env, p.job, p.now), p.env.jobId, LockAdvisory);
    assert t1.workers == t.workers[w := ClaimCounting(p.env, p.job, p.now)];
    assert t.audit + [] == t.audit && t.outbox + [] == t.outbox && t.accesses + [] == t.accesses;
  }

  lemma CountIsCommitted(cfg: Config, t: State, w: WorkerId)
    requires w in t.workers && t.workers[w].ClaimCounted? && t.workers[w].job.Some?
    requires t.workers[w].running < cfg.limit
    ensures var p, u := t.workers[w], Apply(cfg, t, Work(w, CommitClaim));
            && u.workers == t.workers[w := Claimed(p.env)]
            && u.jobs == t.jobs[p.env.jobId := p.job.value.(status := Running, startedAt := Some(p.now),
                                                            leaseExpiresAt := Some(p.now + cfg.lease))]
            && u.audit == t.audit && u.outbox == t.outbox && u.accesses == t.accesses
  {
    assert t.audit + [] == t.audit && t.outbox + [] == t.outbox && t.accesses + [] == t.accesses;
  }

  /** The rest of a claim: with the advisory lock free and fewer running jobs than the limit, a delivery
      that waits for a slot gets the job, and holds it for the lease from its own reading. */
  lemma FreeSlotIsTaken(cfg: Config, t: State, w: WorkerId)
    requires Inv(cfg, t) && w in t.workers && t.workers[w].ClaimWaiting? && t.advisory.None?
    requires |set k | k in t.jobs && t.jobs[k].status == Running| < cfg.limit
    ensures var p := t.workers[w];
            var u := Run(cfg, t, [Work(w, TakeAdvisory), Work(w, CountRunning), Work(w, CommitClaim)]);
            && u.workers == t.workers[w := Claimed(p.env)] && p.job.Some?
            && u.jobs == t.jobs[p.env.jobId := p.job.value.(status := Running, startedAt := Some(p.now),
                                                            leaseExpiresAt := Some(p.now + cfg.lease))]
            && u.audit == t.audit && u.outbox == t.outbox && u.accesses == t.accesses
  {
    var es := [Work(w, TakeAdvisory), Work(w, CountRunning), Work(w, CommitClaim)];
    var counted := Apply(cfg, Apply(cfg, t, es[0]), es[1]);
    assert (set k | k in t.jobs && t.jobs[k].status == Running) == RunningJobs(t.jobs);
    SlotIsCounted(cfg, t, w);
    CountIsCommitted(cfg, counted, w);
    RunThree(cfg, t, es[0], es[1], es[2]);
  }

  lemma RunThree(cfg: Config, s: State, e: Event, f: Event, g: Event)
    ensures Run(cfg, s, [e, f, g]) == Apply(cfg, Apply(cfg, Apply(cfg, s, e), f), g)
  {
    RunSnoc(cfg, s, [], e);
    RunSnoc(cfg, s, [e], f);
    RunSnoc(cfg, s, [e, f], g);
    assert [] + [e] == [e] && [e] + [f] == [e, f] && [e, f] + [g] == [e, f, g];
  }

  // ------------------------------------------------- versions name one content

  type History = set<(SourceId, Source)>

  ghost predicate Seen(committed: History, id: SourceId, version: nat) {
    exists r :: (id, r) in committed && r.version == version
  }

  /** No version of the source was ever committed with two contents. */
  ghost predicate OneContentPerVersion(committed: History, id: SourceId) {
    forall a, b | (id, a) in committed && (id, b) in committed && a.version == b.version :: a == b
  }

  /** The committed rows of one source are told apart by their version and leave no gaps, the
      current row has the highest one, and pending writes have read one of them. */
  ghost predicate VersionsName(committed: History, sources: map<SourceId, Source>,
                               updates: map<UpdateId, PendingUpdate>, id: SourceId) {
    && (id in sources ==> (id, sources[id]) in committed)
    && (forall r | (id, r) in committed :: id in sources && r.version <= sources[id].version)
    && OneContentPerVersion(committed, id)
    && (forall v: nat | id in sources && Seen(committed, id, v) && v < sources[id].version ::
          Seen(committed, id, v + 1))
    && (forall u | u in updates && updates[u].source == id :: Seen(committed, id, updates[u].readVersion))
  }

  ghost predicate Named(s: State, id: SourceId) {
    VersionsName(s.committed, s.sources, s.updates, id)
  }

  /** A pending write does no harm when the row is still at the version it read, or when it would
      write exactly the row that is there. */
  predicate Harmless(s: State, u: UpdateId)
    requires u in s.updates && s.updates[u].source in s.sources
  {
    var pending := s.updates[u]; var row := s.sources[pending.source];
    row.version == pending.readVersion || Updated(row, pending) == row
  }

  predicate HarmlessTo(s: State, e: Event, id: SourceId) {
    e.Outside? && e.change.CommitUpdate? && e.change.update in s.updates && id in s.sources
    && s.updates[e.change.update].source == id ==>
      Harmless(s, e.change.update)
  }

  /** No write to source `id` overtakes another one harmfully; other sources do not matter. */
  predicate NoLostUpdate(cfg: Config, s: State, es: seq<Event>, id: SourceId)
    decreases |es|
  {
    es == [] || (HarmlessTo(s, es[0], id) && NoLostUpdate(cfg, Apply(cfg, s, es[0]), es[1..], id))
  }

  lemma SeenAfter(committed: History, id: SourceId, source: Source, v: nat)
    ensures Seen(committed + {(id, source)}, id, v) <==> Seen(committed, id, v) || v == source.version
  {
    var more := committed + {(id, source)};
    assert (id, source) in more;
    if Seen(committed, id, v) {
      var r :| (id, r) in committed && r.version == v;
      assert (id, r) in more;
    }
  }

  /** A first row, or a row with the next version. */
  lemma NextVersionKeepsNames(committed: History, sources: map<SourceId, Source>,
                              updates: map<UpdateId, PendingUpdate>, id: SourceId, source: Source)
    requires VersionsName(committed, sources, updates, id)
    requires id in sources ==> source.version == sources[id].version + 1
    ensures VersionsName(committed + {(id, source)}, sources[id := source], updates, id)
  {
    var more := committed + {(id, source)};
    forall v: nat | Seen(more, id, v) && v < source.version ensures Seen(more, id, v + 1) {
      SeenAfter(committed, id, source, v);
      SeenAfter(committed, id, source, v + 1);
    }
    forall u | u in updates && updates[u].source == id ensures Seen(more, id, updates[u].readVersion) {
      SeenAfter(committed, id, source, updates[u].readVersion);
    }
  }

  /** Rows of other sources play no part. */
  lemma OtherSourceKeepsNames(committed: History, sources: map<SourceId, Source>,
                              updates: map<UpdateId, PendingUpdate>, id: SourceId, other: SourceId, source: Source)
    requires VersionsName(committed, sources, updates, id) && other != id
    ensures VersionsName(committed + {(other, source)}, sources[other := source], updates, id)
  {
    var more := committed + {(other, source)};
    forall v: nat ensures Seen(more, id, v) <==> Seen(committed, id, v) {
      if Seen(committed, id, v) {
        var r :| (id, r) in committed && r.version == v;
        assert (id, r) in more;
      }
    }
  }

  /** Exactly when a write keeps one content to a version and the current row the newest: when it
      is harmless. `update` and `disable` compare versions only at their read, so any harmful
      write goes through. */
  lemma VersionsKeptIffHarmless(s: State, u: UpdateId)
    requires u in s.updates && s.updates[u].source in s.sources && Named(s, s.updates[u].source)
    ensures Named(ApplyCommitUpdate(s, u), s.updates[u].source) <==> Harmless(s, u)
  {
    var pending := s.updates[u];
    var id := pending.source;
    var row := s.sources[id];
    var written := Updated(row, pending);
    if row.version == pending.readVersion {
      NextVersionKeepsNames(s.committed, s.sources, s.updates - {u}, id, written);
    } else if written == row {
      assert s.committed + {(id, row)} == s.committed && s.sources[id := row] == s.sources;
    } else {
      HarmfulWriteBreaksNames(s, u);
    }
  }

  lemma HarmfulWriteBreaksNames(s: State, u: UpdateId)
    requires u in s.updates && s.updates[u].source in s.sources && Named(s, s.updates[u].source)
    requires !Harmless(s, u)
    ensures !Named(ApplyCommitUpdate(s, u), s.updates[u].source)
  {
    var t, pending := ApplyCommitUpdate(s, u), s.updates[u];
    var id, row := pending.source, s.sources[pending.source];
    var read :| (id, read) in s.committed && read.version == pending.readVersion;
    assert read.version < row.version;
    assert (id, row) in t.committed && (id, t.sources[id]) in t.committed;
  }

  /** Such a write always reuses a version number that was committed before. */
  lemma VersionReusedIffReadIsStale(s: State, u: UpdateId)
    requires u in s.updates && s.updates[u].source in s.sources && Named(s, s.updates[u].source)
    ensures var pending := s.updates[u]; var row := s.sources[pending.source];
            Seen(s.committed, pending.source, Updated(row, pending).version) <==> row.version != pending.readVersion
  {
    var pending := s.updates[u];
    if Seen(s.committed, pending.source, pending.readVersion + 1) {
      var r :| (pending.source, r) in s.committed && r.version == pending.readVersion + 1;
      assert r.version <= s.sources[pending.source].version;
    }
    var read :| (pending.source, read) in s.committed && read.version == pending.readVersion;
  }

  /** Exactly when a write leaves each version number standing for one content, whether or not the
      current row stays the newest: when the row is at the version it read, or what it writes was
      committed before. */
  lemma OneContentKeptIff(s: State, u: UpdateId)
    requires u in s.updates && s.updates[u].source in s.sources && Named(s, s.updates[u].source)
    ensures var pending := s.updates[u]; var id := pending.source; var row := s.sources[id];
            OneContentPerVersion(ApplyCommitUpdate(s, u).committed, id)
            <==> row.version == pending.readVersion || (id, Updated(row, pending)) in s.committed
  {
    var pending := s.updates[u];
    var id := pending.source;
    var written := Updated(s.sources[id], pending);
    var after := ApplyCommitUpdate(s, u).committed;
    if (id, written) in s.committed {
      assert after == s.committed;
    } else if s.sources[id].version == pending.readVersion {
      assert forall r | (id, r) in s.committed :: r.version < written.version;
    } else {
      VersionReusedIffReadIsStale(s, u);
      var r :| (id, r) in s.committed && r.version == written.version;
      assert (id, r) in after && (id, written) in after;
    }
  }

  lemma CommitUpdateKeepsNames(s: State, u: UpdateId, id: SourceId)
    requires Named(s, id) && HarmlessTo(s, Outside(CommitUpdate(u)), id)
    ensures Named(ApplyCommitUpdate(s, u), id)
  {
    if u in s.updates && s.updates[u].source in s.sources {
      var pending := s.updates[u];
      if pending.source == id {
        VersionsKeptIffHarmless(s, u);
      } else {
        OtherSourceKeepsNames(s.committed, s.sources, s.updates - {u}, id, pending.source,
                              Updated(s.sources[pending.source], pending));
      }
    }
  }

  lemma CreateKeepsNames(s: State, added: SourceId, content: Content, id: SourceId)
    requires Named(s, id)
    ensures Named(ApplyCreateSource(s, added, content), id)
  {
    if added !in s.sources {
      if added == id {
        NextVersionKeepsNames(s.committed, s.sources, s.updates, id, Source(content, Active, 1));
      } else {
        OtherSourceKeepsNames(s.committed, s.sources, s.updates, id, added, Source(content, Active, 1));
      }
    }
  }

  lemma BeginKeepsNames(s: State, u: UpdateId, pending: PendingUpdate, id: SourceId)
    requires Named(s, id) && u !in s.updates
    requires pending.source in s.sources && pending.readVersion == s.sources[pending.source].version
    ensures Named(s.(updates := s.updates[u := pending]), id)
  {
    if pending.source == id {
      assert (id, s.sources[id]) in s.committed;
    }
  }

  lemma ChangeKeepsNames(s: State, c: Change, id: SourceId)
    requires Named(s, id) && HarmlessTo(s, Outside(c), id)
    ensures Named(ApplyChange(s, c), id)
  {
    var t := ApplyChange(s, c);
    match c
    case CreateSource(added, content) => CreateKeepsNames(s, added, content, id);
    case CommitUpdate(u) => CommitUpdateKeepsNames(s, u, id);
    case BeginUpdate(u, _, _, _, _) =>
      if t != s { BeginKeepsNames(s, u, t.updates[u], id); }
    case BeginDisable(u, _) =>
      if t != s { BeginKeepsNames(s, u, t.updates[u], id); }
    case _ => assert t.committed == s.committed && t.sources == s.sources && t.updates == s.updates;
  }

  lemma ApplyKeepsNames(cfg: Config, s: State, e: Event, id: SourceId)
    requires Named(s, id) && HarmlessTo(s, e, id)
    ensures Named(Apply(cfg, s, e), id)
  {
    match e
    case Outside(change) => ChangeKeepsNames(s, change, id);
    case Work(w, step) =>
      var t := Apply(cfg, s, e);
      assert t.committed == s.committed && t.sources == s.sources && t.updates == s.updates;
  }

  lemma InitialNames(s: State, id: SourceId)
    requires Initial(s)
    ensures Named(s, id)
  {
  }

  /** While no write to a source overtakes another one harmfully, a version number of that source
      stands for one content. */
  lemma {:induction false} RunKeepsVersions(cfg: Config, s: State, es: seq<Event>, id: SourceId)
    requires Named(s, id) && NoLostUpdate(cfg, s, es, id)
    ensures Named(Run(cfg, s, es), id)
    decreases |es|
  {
    if es != [] {
      ApplyKeepsNames(cfg, s, es[0], id);
      RunKeepsVersions(cfg, Apply(cfg, s, es[0]), es[1..], id);
    }
  }

  /** When no write to a job's own source was harmful, the endpoint and the credential the finished
      job used are those of the very row its final transaction read. */
  lemma CompletionUsedTheCurrentRow(cfg: Config, s: State, es: seq<Event>, e: Event, j: JobId)
    requires Initial(s)
    requires var t := Run(cfg, s, es); var u := Apply(cfg, t, e);
             && j in t.jobs && t.jobs[j].status !in {Succeeded, Failed}
             && j in u.jobs && u.jobs[j].status in {Succeeded, Failed}
             && NoLostUpdate(cfg, s, es, t.jobs[j].sourceId)
    ensures var t := Run(cfg, s, es);
            && e.Work? && e.worker in t.workers && t.workers[e.worker].FinishRead?
            && t.workers[e.worker].src == Some(t.workers[e.worker].used)
  {
    var id := Run(cfg, s, es).jobs[j].sourceId;
    CompletionIsFenced(cfg, s, es, e, j);
    InitialNames(s, id);
    RunKeepsVersions(cfg, s, es, id);
  }

  // ----------------------------------------------------- a write that slips in

  /** The run below has one source, one job and one delivery, all numbered 0; `b` supplies the rest. */
  function At(b: State, job: Job, p: Phase, locked: bool, advisory: bool): State {
    b.(jobs := map[0 := job], workers := map[0 := p], rowLocks := if locked then map[0 := 0] else map[],
       advisory := if advisory then Some(0) else None)
  }

  lemma PerformAt(b: State, job: Job, p: Phase, locked: bool, advisory: bool, e: Effect)
    requires e.Effect? && e.job == 0 && e.audit == [] && e.outbox == [] && e.accesses == []
    ensures Perform(At(b, job, p, locked, advisory), 0, e)
         == At(b, if e.write.Some? then e.write.value else job, e.phase,
               e.locks == LockRow || (locked && e.locks != Release),
               e.locks == LockAdvisory || (advisory && e.locks != Release))
  {
    var t := Perform(At(b, job, p, locked, advisory), 0, e);
    assert t.workers == map[0 := e.phase];
    assert t.audit == b.audit && t.outbox == b.outbox && t.accesses == b.accesses;
    assert e.write.Some? ==> t.jobs == map[0 := e.write.value];
    assert e.locks == Release ==> t.rowLocks == map[];
    assert e.locks == LockRow ==> t.rowLocks == map[0 := 0];
  }

  const OLD_ROW := Source(Content("b", "k"), Active, 2)
  const NEW_ROW := Source(Content("c", "k"), Active, 2)
  const WAITING := Job(0, 2, 1, "key", Queued, None, None, None, None)
  const DELIVERY := Envelope(0, 0, 2, 1, "key")

  function Started(cfg: Config): Job {
    WAITING.(status := Running, startedAt := Some(0), leaseExpiresAt := Some(cfg.lease))
  }

  const EMPTY: State := State(map[], map[], map[], None, map[], map[], [], [], [], {}, {})

  /** The tenant's rows when two updates have read the source at version 1, the first one has
      committed, and a test was requested. */
  const PREPARED: State :=
    EMPTY.(jobs := map[0 := WAITING], sources := map[0 := OLD_ROW],
           updates := map[1 := PendingUpdate(0, 1, false, Some("c"), None)],
           audit := [Notice(TestRequested, 0)], outbox := [Notice(TestRequested, 0)],
           committed := {(0, Source(Content("a", "k"), Active, 1)), (0, OLD_ROW)}, issued := {0})

  /** ... when the connector has used the source ... */
  const USED: State := PREPARED.(accesses := [Access(0, 0, OLD_ROW)])

  /** ... and when the second update has overwritten the first one, under the same version. */
  const OVERWRITTEN: State :=
    USED.(sources := map[0 := NEW_ROW], updates := map[], committed := USED.committed + {(0, NEW_ROW)})

  ghost predicate Reaches(cfg: Config, s: State, t: State) {
    exists es :: Run(cfg, s, es) == t
  }

  lemma ReachOne(cfg: Config, s: State, e: Event)
    ensures Reaches(cfg, s, Apply(cfg, s, e))
  {
    assert [e][1..] == [];
    assert Run(cfg, s, [e]) == Apply(cfg, s, e);
  }

  lemma {:induction false} RunAppend(cfg: Config, s: State, es: seq<Event>, fs: seq<Event>)
    ensures Run(cfg, s, es + fs) == Run(cfg, Run(cfg, s, es), fs)
    decreases |es|
  {
    if es == [] {
      assert es + fs == fs;
    } else {
      assert (es + fs)[1..] == es[1..] + fs;
      RunAppend(cfg, Apply(cfg, s, es[0]), es[1..], fs);
    }
  }

  lemma ReachOn(cfg: Config, s: State, t: State, u: State)
    requires Reaches(cfg, s, t) && Reaches(cfg, t, u)
    ensures Reaches(cfg, s, u)
  {
    var es :| Run(cfg, s, es) == t;
    var fs :| Run(cfg, t, fs) == u;
    RunAppend(cfg, s, es, fs);
  }

  lemma ReachChange(cfg: Config, s: State, c: Change)
    ensures Reaches(cfg, s, ApplyChange(s, c))
  {
    ReachOne(cfg, s, Outside(c));
  }

  /** Two updates read version 1. */
  lemma ReachReaders(cfg: Config) returns (s: State)
    ensures Reaches(cfg, EMPTY, s)
    ensures s == EMPTY.(sources := map[0 := Source(Content("a", "k"), Active, 1)],
                        updates := map[0 := PendingUpdate(0, 1, false, Some("b"), None),
                                       1 := PendingUpdate(0, 1, false, Some("c"), None)],
                        committed := {(0, Source(Content("a", "k"), Active, 1))})
  {
    var c0, c1 := CreateSource(0, Content("a", "k")), BeginUpdate(0, 0, 1, Some("b"), None);
    var c2 := BeginUpdate(1, 0, 1, Some("c"), None);
    var s1 := ApplyChange(EMPTY, c0);
    var s2 := ApplyChange(s1, c1);
    s := ApplyChange(s2, c2);
    ReachChange(cfg, EMPTY, c0);
    ReachChange(cfg, s1, c1);
    ReachChange(cfg, s2, c2);
    ReachOn(cfg, EMPTY, s1, s2);
    ReachOn(cfg, EMPTY, s2, s);
  }

  lemma ReachPrepared(cfg: Config)
    ensures Reaches(cfg, EMPTY, PREPARED)
  {
    var s := ReachReaders(cfg);
    var u := ApplyChange(s, CommitUpdate(0));
    assert s.updates - {0} == map[1 := PendingUpdate(0, 1, false, Some("c"), None)];
    assert ApplyChange(u, RequestTest(0, 0, "key")) == PREPARED;
    ReachChange(cfg, s, CommitUpdate(0));
    ReachChange(cfg, u, RequestTest(0, 0, "key"));
    ReachOn(cfg, EMPTY, s, u);
    ReachOn(cfg, EMPTY, u, PREPARED);
  }

  /** What a silent step of the delivery makes of the state. */
  function After(b: State, job: Job, locked: bool, advisory: bool, e: Effect): State
    requires e.Effect?
  {
    At(b, if e.write.Some? then e.write.value else job, e.phase,
       e.locks == LockRow || (locked && e.locks != Release),
       e.locks == LockAdvisory || (advisory && e.locks != Release))
  }

  lemma StepAt(cfg: Config, b: State, job: Job, p: Phase, locked: bool, advisory: bool, step: Step, e: Effect)
    requires e.Effect? && e.job == 0 && e.audit == [] && e.outbox == [] && e.accesses == []
    requires PhaseEffect(cfg, At(b, job, p, locked, advisory), p, step) == e
    ensures Reaches(cfg, At(b, job, p, locked, advisory), After(b, job, locked, advisory, e))
  {
    PerformAt(b, job, p, locked, advisory, e);
    ReachOne(cfg, At(b, job, p, locked, advisory), Work(0, step));
  }

  lemma ReachDelivered(cfg: Config)
    ensures Reaches(cfg, PREPARED, At(PREPARED, WAITING, ClaimLocked(DELIVERY, Some(WAITING)), true, false))
  {
    var t := At(PREPARED, WAITING, ClaimLocked(DELIVERY, Some(WAITING)), true, false);
    assert Apply(cfg, PREPARED, Work(0, Deliver(DELIVERY))) == t;
    ReachOne(cfg, PREPARED, Work(0, Deliver(DELIVERY)));
  }

  lemma ReachSlot(cfg: Config)
    ensures Reaches(cfg, At(PREPARED, WAITING, ClaimLocked(DELIVERY, Some(WAITING)), true, false),
                    At(PREPARED, WAITING, ClaimWaiting(DELIVERY, Some(WAITING), 0), true, false))
  {
    var job := Some(WAITING);
    var p1, p2 := ClaimLocked(DELIVERY, job), ClaimRead(DELIVERY, job, Some(OLD_ROW));
    var e1, e2 := Move(p2, 0, KeepLocks), Move(ClaimWaiting(DELIVERY, job, 0), 0, KeepLocks);
    StepAt(cfg, PREPARED, WAITING, p1, true, false, ReadSource, e1);
    StepAt(cfg, PREPARED, WAITING, p2, true, false, DecideClaim(0), e2);
    ReachOn(cfg, At(PREPARED, WAITING, p1, true, false), At(PREPARED, WAITING, p2, true, false),
            After(PREPARED, WAITING, true, false, e2));
  }

  lemma ReachCounted(cfg: Config)
    ensures Reaches(cfg, At(PREPARED, WAITING, ClaimWaiting(DELIVERY, Some(WAITING), 0), true, false),
                    At(PREPARED, WAITING, ClaimCounted(DELIVERY, Some(WAITING), 0, 0), true, true))
  {
    var job := Some(WAITING);
    var p3, p4 := ClaimWaiting(DELIVERY, job, 0), ClaimCounting(DELIVERY, job, 0);
    var e3, e4 := Move(p4, 0, LockAdvisory), Move(ClaimCounted(DELIVERY, job, 0, 0), 0, KeepLocks);
    assert RunningJobs(map[0 := WAITING]) == {};
    StepAt(cfg, PREPARED, WAITING, p3, true, false, TakeAdvisory, e3);
    StepAt(cfg, PREPARED, WAITING, p4, true, true, CountRunning, e4);
    ReachOn(cfg, At(PREPARED, WAITING, p3, true, false), At(PREPARED, WAITING, p4, true, true),
            After(PREPARED, WAITING, true, true, e4));
  }

  lemma ReachClaimed(cfg: Config)
    requires cfg.limit >= 1
    ensures Reaches(cfg, At(PREPARED, WAITING, ClaimCounted(DELIVERY, Some(WAITING), 0, 0), true, true),
                    At(PREPARED, Started(cfg), Claimed(DELIVERY), false, false))
  {
    StepAt(cfg, PREPARED, WAITING, ClaimCounted(DELIVERY, Some(WAITING), 0, 0), true, true, CommitClaim,
           Effect(Claimed(DELIVERY), 0, Release, Some(Started(cfg)), [], [], []));
  }

  lemma ReachFence(cfg: Config, job: Job)
    ensures Reaches(cfg, At(PREPARED, job, Claimed(DELIVERY), false, false),
                    At(PREPARED, job, FenceRead(DELIVERY, Some(job), Some(OLD_ROW)), true, false))
  {
    var p0, p1 := Claimed(DELIVERY), FenceLocked(DELIVERY, Some(job));
    var e0, e1 := Move(p1, 0, LockRow), Move(FenceRead(DELIVERY, Some(job), Some(OLD_ROW)), 0, KeepLocks);
    StepAt(cfg, PREPARED, job, p0, false, false, LockAgain, e0);
    StepAt(cfg, PREPARED, job, p1, true, false, ReadSource, e1);
    ReachOn(cfg, At(PREPARED, job, p0, false, false), At(PREPARED, job, p1, true, false),
            After(PREPARED, job, true, false, e1));
  }

  lemma ReachExecuting(cfg: Config)
    ensures Reaches(cfg,
                    At(PREPARED, Started(cfg), FenceRead(DELIVERY, Some(Started(cfg)), Some(OLD_ROW)), true, false),
                    At(PREPARED, Started(cfg), Executing(DELIVERY, OLD_ROW), false, false))
  {
    var job := Started(cfg);
    StepAt(cfg, PREPARED, job, FenceRead(DELIVERY, Some(job), Some(OLD_ROW)), true, false, DecideFence(0),
           Move(Executing(DELIVERY, OLD_ROW), 0, Release));
  }

  lemma ReachUsed(cfg: Config, job: Job)
    ensures Reaches(cfg, At(PREPARED, job, Executing(DELIVERY, OLD_ROW), false, false),
                    At(USED, job, Executed(DELIVERY, OLD_ROW, Passed), false, false))
  {
    var s := At(PREPARED, job, Executing(DELIVERY, OLD_ROW), false, false);
    assert Apply(cfg, s, Work(0, Connect(Passed))) == At(USED, job, Executed(DELIVERY, OLD_ROW, Passed), false, false);
    ReachOne(cfg, s, Work(0, Connect(Passed)));
  }

  /** The second update commits while the job runs. */
  lemma ReachOverwritten(cfg: Config, job: Job, p: Phase)
    ensures Reaches(cfg, At(USED, job, p, false, false), At(OVERWRITTEN, job, p, false, false))
  {
    var s := At(USED, job, p, false, false);
    assert s.updates - {1} == map[];
    assert ApplyChange(s, CommitUpdate(1)) == At(OVERWRITTEN, job, p, false, false);
    ReachChange(cfg, s, CommitUpdate(1));
  }

  lemma ReachFinish(cfg: Config, job: Job)
    ensures Reaches(cfg, At(OVERWRITTEN, job, Executed(DELIVERY, OLD_ROW, Passed), false, false),
                    At(OVERWRITTEN, job, FinishRead(DELIVERY, OLD_ROW, Passed, Some(job), Some(NEW_ROW)), true, false))
  {
    var p0, p1 := Executed(DELIVERY, OLD_ROW, Passed), FinishLocked(DELIVERY, OLD_ROW, Passed, Some(job));
    var p2 := FinishRead(DELIVERY, OLD_ROW, Passed, Some(job), Some(NEW_ROW));
    var e0, e1 := Move(p1, 0, LockRow), Move(p2, 0, KeepLocks);
    StepAt(cfg, OVERWRITTEN, job, p0, false, false, LockAgain, e0);
    StepAt(cfg, OVERWRITTEN, job, p1, true, false, ReadSource, e1);
    ReachOn(cfg, At(OVERWRITTEN, job, p0, false, false), At(OVERWRITTEN, job, p1, true, false),
            After(OVERWRITTEN, job, true, false, e1));
  }

  lemma ReachClaimedFromStart(cfg: Config)
    requires cfg.limit >= 1
    ensures Reaches(cfg, EMPTY, At(PREPARED, Started(cfg), Claimed(DELIVERY), false, false))
  {
    var job := Some(WAITING);
    var s1 := At(PREPARED, WAITING, ClaimLocked(DELIVERY, job), true, false);
    var s2 := At(PREPARED, WAITING, ClaimWaiting(DELIVERY, job, 0), true, false);
    var s3 := At(PREPARED, WAITING, ClaimCounted(DELIVERY, job, 0, 0), true, true);
    ReachPrepared(cfg);
    ReachDelivered(cfg);
    ReachSlot(cfg);
    ReachCounted(cfg);
    ReachClaimed(cfg);
    ReachOn(cfg, EMPTY, PREPARED, s1);
    ReachOn(cfg, EMPTY, s1, s2);
    ReachOn(cfg, EMPTY, s2, s3);
    ReachOn(cfg, EMPTY, s3, At(PREPARED, Started(cfg), Claimed(DELIVERY), false, false));
  }

  /** The state before the final decision of the run. */
  function Undecided(cfg: Config): State {
    At(OVERWRITTEN, Started(cfg), FinishRead(DELIVERY, OLD_ROW, Passed, Some(Started(cfg)), Some(NEW_ROW)), true, false)
  }

  lemma ReachUndecided(cfg: Config)
    requires cfg.limit >= 1
    ensures Reaches(cfg, EMPTY, Undecided(cfg))
  {
    var job, p := Started(cfg), Executed(DELIVERY, OLD_ROW, Passed);
    var s0 := At(PREPARED, job, Claimed(DELIVERY), false, false);
    var s1 := At(PREPARED, job, FenceRead(DELIVERY, Some(job), Some(OLD_ROW)), true, false);
    var s2 := At(PREPARED, job, Executing(DELIVERY, OLD_ROW), false, false);
    var s3, s4 := At(USED, job, p, false, false), At(OVERWRITTEN, job, p, false, false);
    ReachClaimedFromStart(cfg);
    ReachFence(cfg, job);
    ReachExecuting(cfg);
    ReachUsed(cfg, job);
    ReachOverwritten(cfg, job, p);
    ReachFinish(cfg, job);
    ReachOn(cfg, EMPTY, s0, s1);
    ReachOn(cfg, EMPTY, s1, s2);
    ReachOn(cfg, EMPTY, s2, s3);
    ReachOn(cfg, EMPTY, s3, s4);
    ReachOn(cfg, EMPTY, s4, Undecided(cfg));
  }

  /** A job that ends as succeeded although the endpoint it tried is not the one its final
      transaction read: version 2 of the source stands for two contents. */
  ghost predicate SucceedsOnAnotherContent(cfg: Config, t: State) {
    var u := Apply(cfg, t, Work(0, DecideFinish(0)));
    && (0, OLD_ROW) in t.committed && (0, NEW_ROW) in t.committed
    && OLD_ROW.version == NEW_ROW.version && OLD_ROW.content != NEW_ROW.content
    && 0 in t.jobs && t.jobs[0].status == Running && 0 in u.jobs && u.jobs[0].status == Succeeded
    && 0 in t.workers && t.workers[0].FinishRead?
    && t.workers[0].used == OLD_ROW && t.workers[0].src == Some(NEW_ROW)
  }

  lemma FinalDecision(cfg: Config)
    ensures var u := Apply(cfg, Undecided(cfg), Work(0, DecideFinish(0)));
            0 in u.jobs && u.jobs[0].status == Succeeded
  {
    var t, p := Undecided(cfg), Undecided(cfg).workers[0];
    assert StepEffect(cfg, t, 0, DecideFinish(0)) == DecideFinishEffect(p, 0);
  }

  lemma UndecidedSucceeds(cfg: Config)
    ensures SucceedsOnAnotherContent(cfg, Undecided(cfg))
  {
    FinalDecision(cfg);
  }

  /** There is a run, from an empty tenant, in which a harmful write does this. */
  lemma LostUpdateSplitsAVersion(cfg: Config)
    requires cfg.limit >= 1
    ensures Initial(EMPTY)
    ensures exists es :: SucceedsOnAnotherContent(cfg, Run(cfg, EMPTY, es))
  {
    ReachUndecided(cfg);
    var es :| Run(cfg, EMPTY, es) == Undecided(cfg);
    UndecidedSucceeds(cfg);
    assert SucceedsOnAnotherContent(cfg, Run(cfg, EMPTY, es));
  }

  // ----------------------------------------------------------- the worker code

  /** One delivery as the worker runs it, transaction by transaction. */
  class ConnectionTestWorker {
    const cfg: Config
    var jobs: map<JobId, Job>
    var sources: map<SourceId, Source>
    var audit: seq<Notice>
    var outbox: seq<Notice>
    var accesses: seq<Access>

    constructor (cfg: Config, jobs: map<JobId, Job>, sources: map<SourceId, Source>)
      ensures this.cfg == cfg && this.jobs == jobs && this.sources == sources
      ensures audit == [] && outbox == [] && accesses == []
    {
      this.cfg, this.jobs, this.sources := cfg, jobs, sources;
      audit, outbox, accesses := [], [], [];
    }

    /** First transaction: `None` means the delivery now owns a running job. */
    method ClaimJob(env: Envelope, now: int) returns (reply: Option<Reply>)
      modifies this`jobs, this`audit
      ensures match ClaimVerdict(env, Lookup(old(jobs), env.jobId), Lookup(sources, env.sourceId), now)
              case Deny =>
                && reply == Some(Denied) && jobs == old(jobs)
                && audit == old(audit) + [Notice(TestDenied, env.jobId)]
              case Keep(r) => reply == Some(r) && jobs == old(jobs) && audit == old(audit)
              case Write(job, r) => reply == Some(r) && jobs == old(jobs)[env.jobId := job] && audit == old(audit)
              case _ =>
                && env.jobId in old(jobs)
                && jobs == old(jobs)[env.jobId := SlottedJob(old(jobs)[env.jobId], |RunningJobs(old(jobs))|,
                                                             cfg.limit, now, cfg.lease)]
                && reply == (if |RunningJobs(old(jobs))| >= cfg.limit then Some(Deferred) else None)
                && audit == old(audit)
      ensures reply == Some(Denied) <==> env.jobId !in old(jobs) || env.sourceId !in sources
      ensures reply != Some(Denied) ==>
                var job, source := old(jobs)[env.jobId], sources[env.sourceId];
                var running := |set k | k in old(jobs) && old(jobs)[k].status == Running|;
                if job.status in {Succeeded, Failed, Stale} then reply == Some(Already(job.status)) && jobs == old(jobs)
                else if job.status == Running && job.leaseExpiresAt.Some? && now < job.leaseExpiresAt.value then
                  reply == Some(Deferred) && jobs == old(jobs)
                else
                  var queued := if job.status == Queued then job
                                else job.(status := Queued, startedAt := None, leaseExpiresAt := None);
                  if && env.sourceId == job.sourceId && env.attempt == job.attempt && env.key == job.key
                     && env.sourceVersion == job.sourceVersion == source.version && source.status == Active
                  then
                    if running >= cfg.limit then reply == Some(Deferred) && jobs == old(jobs)[env.jobId := queued]
                    else
                      reply == None
                      && jobs == old(jobs)[env.jobId := queued.(status := Running, startedAt := Some(now),
                                                                leaseExpiresAt := Some(now + cfg.lease))]
                  else
                    reply == Some(WentStale)
                    && jobs == old(jobs)[env.jobId := queued.(status := Stale, completedAt := Some(now))]
    {
      assert RunningJobs(jobs) == set k | k in jobs && jobs[k].status == Running;
      if env.jobId !in jobs || env.sourceId !in sources {
        audit := audit + [Notice(TestDenied, env.jobId)];
        return Some(Denied);
      }
      var job, source := jobs[env.jobId], sources[env.sourceId];
      if job.status == Succeeded || job.status == Failed || job.status == Stale {
        return Some(Already(job.status));
      }
      if job.status == Running {
        if job.leaseExpiresAt.Some? && job.leaseExpiresAt.value > now {
          return Some(Deferred);
        }
        job := job.(status := Queued, startedAt := None, leaseExpiresAt := None);
      }
      if || job.sourceId != env.sourceId
         || job.sourceVersion != env.sourceVersion
         || source.version != env.sourceVersion
         || source.status != Active
         || job.attempt != env.attempt
         || job.key != env.key
      {
        job := job.(status := Stale, completedAt := Some(now));
        jobs := jobs[env.jobId := job];
        return Some(WentStale);
      }
      // the session has not flushed the requeue: the count sees committed rows
      var running := |RunningJobs(jobs)|;
      if running >= cfg.limit {
        jobs := jobs[env.jobId := job];
        return Some(Deferred);
      }
      job := job.(status := Running, startedAt := Some(now), leaseExpiresAt := Some(now + cfg.lease));
      jobs := jobs[env.jobId := job];
      return None;
    }

    /** Second transaction: re-read before any credential or network use. */
    method FenceExecution(env: Envelope, now: int) returns (used: Option<Source>)
      modifies this`jobs
      ensures match FenceVerdict(env, Lookup(old(jobs), env.jobId), Lookup(sources, env.sourceId), now)
              case Keep(_) => used == None && jobs == old(jobs)
              case Write(job, _) => used == None && jobs == old(jobs)[env.jobId := job]
              case _ => used == Lookup(sources, env.sourceId) && used.Some? && jobs == old(jobs)
      ensures used.Some? <==>
                && env.jobId in old(jobs) && env.sourceId in sources && old(jobs)[env.jobId].status == Running
                && old(jobs)[env.jobId].attempt == env.attempt && sources[env.sourceId].status == Active
                && env.sourceVersion == old(jobs)[env.jobId].sourceVersion == sources[env.sourceId].version
      ensures used.Some? ==> used.value == sources[env.sourceId] && jobs == old(jobs)
      ensures used.None? ==>
                jobs == if env.jobId in old(jobs) && old(jobs)[env.jobId].status == Running
                           && old(jobs)[env.jobId].attempt == env.attempt
                        then old(jobs)[env.jobId := old(jobs)[env.jobId].(status := Stale, completedAt := Some(now),
                                                                          leaseExpiresAt := None)]
                        else old(jobs)
    {
      if env.jobId !in jobs {
        return None;
      }
      var job := jobs[env.jobId];
      if || env.sourceId !in sources
         || job.status != Running
         || job.attempt != env.attempt
         || job.sourceVersion != env.sourceVersion
         || sources[env.sourceId].version != env.sourceVersion
         || sources[env.sourceId].status != Active
      {
        if job.status == Running && job.attempt == env.attempt {
          job := job.(status := Stale, completedAt := Some(now), leaseExpiresAt := None);
          jobs := jobs[env.jobId := job];
        }
        return None;
      }
      return Some(sources[env.sourceId]);
    }

    /** Third transaction: re-read again, then settle the job and tell both logs. */
    method SettleResult(env: Envelope, result: TestResult, now: int) returns (reply: Reply)
      modifies this`jobs, this`audit, this`outbox
      ensures match FinishVerdict(env, Lookup(old(jobs), env.jobId), Lookup(sources, env.sourceId), result, now)
              case Keep(r) => reply == r && jobs == old(jobs) && audit == old(audit) && outbox == old(outbox)
              case Write(job, r) =>
                && reply == r && jobs == old(jobs)[env.jobId := job]
                && audit == old(audit) && outbox == old(outbox)
              case Complete(job) =>
                && reply == Done(job.status) && jobs == old(jobs)[env.jobId := job]
                && var notice := Notice(if job.status == Succeeded then TestCompleted else TestFailed, env.jobId);
                   audit == old(audit) + [notice] && outbox == old(outbox) + [notice]
              case _ => false
      ensures reply.Done? <==>
                && env.jobId in old(jobs) && env.sourceId in sources && old(jobs)[env.jobId].status == Running
                && old(jobs)[env.jobId].attempt == env.attempt && sources[env.sourceId].status == Active
                && env.sourceVersion == old(jobs)[env.jobId].sourceVersion == sources[env.sourceId].version
      ensures reply.Done? ==>
                var code := match result
                            case Passed => "CONNECTION_OK"
                            case Raised => "CONNECTION_TEST_INTERNAL_FAILURE"
                            case Broken(c) => c;
                var status, kind := if result.Passed? then Succeeded else Failed,
                                    if result.Passed? then TestCompleted else TestFailed;
                var ended := old(jobs)[env.jobId].(status := status, code := Some(code), completedAt := Some(now),
                                                   leaseExpiresAt := None);
                && reply.status == status && jobs == old(jobs)[env.jobId := ended]
                && audit == old(audit) + [Notice(kind, env.jobId)] && outbox == old(outbox) + [Notice(kind, env.jobId)]
      ensures !reply.Done? ==>
                && reply == WentStale && audit == old(audit) && outbox == old(outbox)
                && jobs == if env.jobId in old(jobs) && old(jobs)[env.jobId].status == Running
                              && old(jobs)[env.jobId].attempt == env.attempt
                           then old(jobs)[env.jobId := old(jobs)[env.jobId].(status := Stale, completedAt := Some(now),
                                                                             leaseExpiresAt := None)]
                           else old(jobs)
    {
      if env.jobId !in jobs {
        return WentStale;
      }
      var job := jobs[env.jobId];
      if || env.sourceId !in sources
         || job.status != Running
         || job.attempt != env.attempt
         || job.sourceVersion != env.sourceVersion
         || sources[env.sourceId].version != env.sourceVersion
         || sources[env.sourceId].status != Active
      {
        if job.attempt == env.attempt && job.status == Running {
          job := job.(status := Stale, completedAt := Some(now), leaseExpiresAt := None);
          jobs := jobs[env.jobId := job];
        }
        return WentStale;
      }
      match result {
        case Raised => job := job.(status := Failed, code := Some("CONNECTION_TEST_INTERNAL_FAILURE"));
        case Passed => job := job.(status := Succeeded, code := Some("CONNECTION_OK"));
        case Broken(code) => job := job.(status := Failed, code := Some(code));
      }
      job := job.(completedAt := Some(now), leaseExpiresAt := None);
      jobs := jobs[env.jobId := job];
      var notice := Notice(if job.status == Succeeded then TestCompleted else TestFailed, env.jobId);
      audit, outbox := audit + [notice], outbox + [notice];
      return Done(job.status);
    }

    /** The whole delivery, undisturbed: a current queued job with a free slot ends as its
        connector says, after exactly one use of the credential; a delivery that does not get
        there uses none. */
    method Execute(env: Envelope, now: int, result: TestResult) returns (reply: Reply)
      modifies this
      ensures sources == old(sources)
      ensures reply.Done? <==>
                && env.jobId in old(jobs) && env.sourceId in sources
                && var job, source := old(jobs)[env.jobId], sources[env.sourceId];
                && job.status in {Queued, Running}
                && (job.status == Running && job.leaseExpiresAt.Some? ==> job.leaseExpiresAt.value <= now)
                && env.sourceId == job.sourceId && env.attempt == job.attempt && env.key == job.key
                && env.sourceVersion == job.sourceVersion == source.version && source.status == Active
                && |set k | k in old(jobs) && old(jobs)[k].status == Running| < cfg.limit
      ensures reply.Done? ==>
                && env.jobId in jobs
                && jobs[env.jobId].status == reply.status == (if result == Passed then Succeeded else Failed)
                && accesses == old(accesses) + [Access(env.jobId, env.sourceId, sources[env.sourceId])]
      ensures !reply.Done? ==> accesses == old(accesses) && outbox == old(outbox)
    {
      var early := ClaimJob(env, now);
      if early.Some? {
        return early.value;
      }
      var used := FenceExecution(env, now);
      if used.None? {
        return WentStale;
      }
      accesses := accesses + [Access(env.jobId, env.sourceId, used.value)];
      reply := SettleResult(env, result, now);
    }
  }
}
