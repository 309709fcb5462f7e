/** Operator-driven tenant provisioning: claim, fenced data-plane build, settle or fail.

    One `Cell` holds everything the protocol touches for one tenant: the control-plane
    row, the row lock, the database role's password, the external secret store, and the
    phase of every `provision` call ever started. `Apply` is one step of one call; an
    event whose call is not in the right phase, or whose statement has to wait for the
    row lock, changes nothing. A list of events is therefore one interleaving, and a
    statement about every list is a statement about every interleaving. */
module Provisioning {
  import opened Wrappers
  import opened Digits

  type CallId = nat
  type TenantId = nat
  type Password = string

  datatype ProvisioningState = Pending | InProgress | Ready | Failed
  datatype TenantStatus = Unprovisioned | Active
  datatype SecretRef = SecretRef(logicalName: string, version: string)

  datatype Row = Row(
    slug: string,
    status: TenantStatus,
    state: ProvisioningState,
    attempts: nat,
    startedAt: Option<int>,
    provisionedAt: Option<int>,
    failure: Option<string>,
    secret: Option<SecretRef>)

  datatype Action = TenantRegistered | TenantProvisioned | TenantProvisioningFailed
  datatype AuditEntry = AuditEntry(action: Action, attempt: nat, reason: string)

  datatype Outcome = AlreadyReady | Contended | Settled | Superseded | FailureRecorded | Crashed

  /** Where one call of `provision` is. Every phase but `Finished` carries its attempt. */
  datatype Phase =
    | Claimed(attempt: nat)
    | Fenced(attempt: nat)                       // fence passed, row locked
    | Stored(attempt: nat, password: Password)   // secret written, row still locked
    | Altered(attempt: nat, password: Password)  // role DDL run, not committed
    | Severed(attempt: nat)                      // database connection lost, process alive
    | Built(attempt: nat)                        // data plane committed, handle in hand
    | Failing(attempt: nat)                      // an exception is about to be recorded
    | Finished(outcome: Outcome)

  datatype Cell = Cell(
    staleAfter: int,
    row: Row,
    lock: Option<CallId>,
    role: Option<Password>,
    store: map<string, Password>,
    calls: map<CallId, Phase>,
    audit: seq<AuditEntry>,
    outbox: seq<Action>,
    owners: seq<CallId>,   // history: owners[k] claimed attempt k + 1
    takeovers: nat)        // history: claims that took over a stale attempt

  datatype Event =
    | Claim(call: CallId, txnNow: int, stamp: int)
    | Fence(call: CallId)
    | StoreSecret(call: CallId, password: Password)
    | AlterRole(call: CallId)
    | CommitPlane(call: CallId, seen: bool)
    | AbortPlane(call: CallId)
    | LoseConnection(call: CallId)
    | Settle(call: CallId, now: int, seen: bool)
    | SettleRaises(call: CallId)
    | RecordFailure(call: CallId, reason: string, seen: bool)
    | Crash(call: CallId)

  // ------------------------------------------------------------------ naming

  const ANALYTICAL_SECRET_NAME: string := "analytical-db-password"

  /** The logical name a password is stored under carries the attempt number. */
  function AttemptSecretName(attempt: nat): string {
    ANALYTICAL_SECRET_NAME + "-attempt-" + Render(attempt)
  }

  lemma AttemptSecretNameInjective(a: nat, b: nat)
    ensures AttemptSecretName(a) == AttemptSecretName(b) ==> a == b
  {
    var prefix := ANALYTICAL_SECRET_NAME + "-attempt-";
    assert AttemptSecretName(a)[|prefix|..] == Render(a);
    assert AttemptSecretName(b)[|prefix|..] == Render(b);
    RenderRoundTrip(a);
    RenderRoundTrip(b);
  }

  // ------------------------------------------------------------------- steps

  predicate InPhase(c: Cell, call: CallId, attempt: nat) {
    call in c.calls && !c.calls[call].Finished? && c.calls[call].attempt == attempt
  }

  predicate HoldsRow(p: Phase) {
    p.Fenced? || p.Stored? || p.Altered?
  }

  /** The WHERE clause shared by the fence, `_settle` and `_record_failure`. */
  predicate OwnsAttempt(row: Row, attempt: nat) {
    row.state == InProgress && row.attempts == attempt
  }

  predicate Claimable(row: Row, staleAfter: int, txnNow: int) {
    || row.state == Pending
    || row.state == Failed
    || (row.state == InProgress && row.startedAt.Some? && row.startedAt.value < txnNow - staleAfter)
  }

  function SetPhase(c: Cell, call: CallId, p: Phase): Cell {
    c.(calls := c.calls[call := p])
  }

  function ReleaseRow(c: Cell, call: CallId): Cell {
    if c.lock == Some(call) then c.(lock := None) else c
  }

  /** A conditional UPDATE, like the fence's SELECT FOR UPDATE, waits for the row lock only when
      the committed row matches its WHERE clause; otherwise it returns at once without a row. */
  function ApplyClaim(c: Cell, call: CallId, txnNow: int, stamp: int): Cell {
    if call in c.calls then c
    else if Claimable(c.row, c.staleAfter, txnNow) then
      if c.lock.Some? then c
      else
        SetPhase(c, call, Claimed(c.row.attempts + 1)).(
          row := c.row.(state := InProgress, attempts := c.row.attempts + 1,
                        startedAt := Some(stamp), failure := None),
          owners := c.owners + [call],
          takeovers := c.takeovers + if c.row.state == InProgress then 1 else 0)
    else SetPhase(c, call, Finished(if c.row.state == Ready then AlreadyReady else Contended))
  }

  function ApplyFence(c: Cell, call: CallId): Cell {
    if call !in c.calls || !c.calls[call].Claimed? then c
    else
      var attempt := c.calls[call].attempt;
      if !OwnsAttempt(c.row, attempt) then SetPhase(c, call, Failing(attempt))
      else if c.lock.Some? then c
      else SetPhase(c, call, Fenced(attempt)).(lock := Some(call))
  }

  /** The store is outside the database: the write happens whatever the transaction does
      later, and also when the transaction was lost while the process was still running. */
  function ApplyStoreSecret(c: Cell, call: CallId, password: Password): Cell {
    if call !in c.calls then c
    else
      var p := c.calls[call];
      if p.Fenced? then
        SetPhase(c, call, Stored(p.attempt, password)).(
          store := c.store[AttemptSecretName(p.attempt) := password])
      else if p.Severed? then
        SetPhase(c, call, Failing(p.attempt)).(
          store := c.store[AttemptSecretName(p.attempt) := password])
      else c
  }

  function ApplyAlterRole(c: Cell, call: CallId): Cell {
    if call !in c.calls || !c.calls[call].Stored? then c
    else SetPhase(c, call, Altered(c.calls[call].attempt, c.calls[call].password))
  }

  function ApplyCommitPlane(c: Cell, call: CallId, seen: bool): Cell {
    if call !in c.calls || !c.calls[call].Altered? then c
    else
      var p := c.calls[call];
      ReleaseRow(SetPhase(c, call, if seen then Built(p.attempt) else Failing(p.attempt)), call).(
        role := Some(p.password))
  }

  function ApplyAbortPlane(c: Cell, call: CallId): Cell {
    if call in c.calls && (c.calls[call].Claimed? || HoldsRow(c.calls[call]) || c.calls[call].Severed?)
    then ReleaseRow(SetPhase(c, call, Failing(c.calls[call].attempt)), call)
    else c
  }

  function ApplyLoseConnection(c: Cell, call: CallId): Cell {
    if call !in c.calls || !c.calls[call].Fenced? then c
    else ReleaseRow(SetPhase(c, call, Severed(c.calls[call].attempt)), call)
  }

  function ApplySettle(c: Cell, call: CallId, now: int, seen: bool): Cell {
    if call !in c.calls || !c.calls[call].Built? then c
    else
      var attempt := c.calls[call].attempt;
      if !OwnsAttempt(c.row, attempt) then SetPhase(c, call, Finished(Superseded))
      else if c.lock.Some? then c
      else
        SetPhase(c, call, if seen then Finished(Settled) else Failing(attempt)).(
          row := c.row.(state := Ready, status := Active, provisionedAt := Some(now), failure := None,
                        secret := Some(SecretRef(AttemptSecretName(attempt), "1"))),
          audit := c.audit + [AuditEntry(TenantProvisioned, attempt, "")],
          outbox := c.outbox + [TenantProvisioned])
  }

  function ApplySettleRaises(c: Cell, call: CallId): Cell {
    if call !in c.calls || !c.calls[call].Built? then c
    else SetPhase(c, call, Failing(c.calls[call].attempt))
  }

  function ApplyRecordFailure(c: Cell, call: CallId, reason: string, seen: bool): Cell {
    if call !in c.calls || !c.calls[call].Failing? then c
    else
      var attempt := c.calls[call].attempt;
      if !OwnsAttempt(c.row, attempt) then SetPhase(c, call, Finished(Superseded))
      else if c.lock.Some? then c
      else
        SetPhase(c, call, Finished(if seen then FailureRecorded else Crashed)).(
          row := c.row.(state := Failed, failure := Some(reason)),
          audit := c.audit + [AuditEntry(TenantProvisioningFailed, attempt, reason)],
          outbox := c.outbox + [TenantProvisioningFailed])
  }

  /** The process dies: its open transaction, if any, is rolled back. */
  function ApplyCrash(c: Cell, call: CallId): Cell {
    if call !in c.calls || c.calls[call].Finished? then c
    else ReleaseRow(SetPhase(c, call, Finished(Crashed)), call)
  }

  function Apply(c: Cell, e: Event): Cell {
    match e
    case Claim(call, txnNow, stamp) => ApplyClaim(c, call, txnNow, stamp)
    case Fence(call) => ApplyFence(c, call)
    case StoreSecret(call, password) => ApplyStoreSecret(c, call, password)
    case AlterRole(call) => ApplyAlterRole(c, call)
    case CommitPlane(call, seen) => ApplyCommitPlane(c, call, seen)
    case AbortPlane(call) => ApplyAbortPlane(c, call)
    case LoseConnection(call) => ApplyLoseConnection(c, call)
    case Settle(call, now, seen) => ApplySettle(c, call, now, seen)
    case SettleRaises(call) => ApplySettleRaises(c, call)
    case RecordFailure(call, reason, seen) => ApplyRecordFailure(c, call, reason, seen)
    case Crash(call) => ApplyCrash(c, call)
  }

  function Run(c: Cell, es: seq<Event>): Cell
    decreases |es|
  {
    if es == [] then c else Run(Apply(c, es[0]), es[1..])
  }

  // --------------------------------------------------------------- invariant

  function CountActions(audit: seq<AuditEntry>, action: Action): nat {
    if audit == [] then 0
    else CountActions(audit[..|audit| - 1], action) + if audit[|audit| - 1].action == action then 1 else 0
  }

  function CountTopics(outbox: seq<Action>, topic: Action): nat {
    if outbox == [] then 0
    else CountTopics(outbox[..|outbox| - 1], topic) + if outbox[|outbox| - 1] == topic then 1 else 0
  }

  function One(b: bool): nat { if b then 1 else 0 }

  /** The password of the login role is the one stored at the reference on the row. */
  predicate CredentialConsistent(c: Cell) {
    && c.row.secret.Some?
    && c.row.secret.value.logicalName in c.store
    && c.role == Some(c.store[c.row.secret.value.logicalName])
  }

  ghost predicate AttemptsHaveOneOwner(c: Cell) {
    && |c.owners| == c.row.attempts
    && (forall call | call in c.calls && !c.calls[call].Finished? ::
         1 <= c.calls[call].attempt <= c.row.attempts && c.owners[c.calls[call].attempt - 1] == call)
  }

  ghost predicate OwnersAreDistinct(c: Cell) {
    && (forall i | 0 <= i < |c.owners| :: c.owners[i] in c.calls)
    && forall i, j | 0 <= i < j < |c.owners| :: c.owners[i] != c.owners[j]
  }

  ghost predicate LockIsTheFence(c: Cell) {
    && (forall call | call in c.calls && HoldsRow(c.calls[call]) :: c.lock == Some(call))
    && (c.lock.Some? ==>
          && c.lock.value in c.calls
          && HoldsRow(c.calls[c.lock.value])
          && OwnsAttempt(c.row, c.calls[c.lock.value].attempt))
  }

  ghost predicate PlaneMatchesStore(c: Cell) {
    forall call | call in c.calls ::
      var p := c.calls[call];
      && (p.Stored? || p.Altered? ==>
            AttemptSecretName(p.attempt) in c.store && c.store[AttemptSecretName(p.attempt)] == p.password)
      && (p.Built? && OwnsAttempt(c.row, p.attempt) ==>
            AttemptSecretName(p.attempt) in c.store
            && c.role == Some(c.store[AttemptSecretName(p.attempt)]))
  }

  ghost predicate ReadyIsSealed(c: Cell) {
    c.row.state == Ready ==>
      && c.row.attempts > 0
      && c.row.status == Active
      && c.row.secret == Some(SecretRef(AttemptSecretName(c.row.attempts), "1"))
      && CredentialConsistent(c)
      && forall call :: InPhase(c, call, c.row.attempts) ==> c.calls[call].Failing?
  }

  /** What the two logs say of a tenant: how often it failed, and how often it was provisioned. */
  predicate LogsSay(audit: seq<AuditEntry>, outbox: seq<Action>, failures: nat, successes: nat) {
    && CountActions(audit, TenantProvisioningFailed) == CountTopics(outbox, TenantProvisioningFailed) == failures
    && CountActions(audit, TenantProvisioned) == CountTopics(outbox, TenantProvisioned) == successes
  }

  function Failures(c: Cell): nat { CountActions(c.audit, TenantProvisioningFailed) }

  ghost predicate Accounting(c: Cell) {
    && c.row.attempts == Failures(c) + c.takeovers + One(c.row.state == InProgress) + One(c.row.state == Ready)
    && LogsSay(c.audit, c.outbox, Failures(c), One(c.row.state == Ready))
    && (c.row.state == Pending <==> c.row.attempts == 0)
    && (c.row.state == InProgress ==> c.row.startedAt.Some?)
    && RowTellsTheTruth(c.row)
  }

  /** What the operator's list shows agrees with the state: a reason exactly on failed rows,
      a completion time and the active status exactly on ready ones. */
  predicate RowTellsTheTruth(row: Row) {
    && (row.failure.Some? <==> row.state == Failed)
    && (row.provisionedAt.Some? <==> row.state == Ready)
    && (row.status == Active <==> row.state == Ready)
    && (row.secret.Some? <==> row.state == Ready)
  }

  ghost predicate Fences(c: Cell) {
    && AttemptsHaveOneOwner(c)
    && LockIsTheFence(c)
    && PlaneMatchesStore(c)
    && ReadyIsSealed(c)
  }

  ghost predicate Inv(c: Cell) {
    Fences(c) && Accounting(c)
  }

  lemma CountAppended(audit: seq<AuditEntry>, a: AuditEntry, outbox: seq<Action>, t: Action, x: Action)
    ensures CountActions(audit + [a], x) == CountActions(audit, x) + One(a.action == x)
    ensures CountTopics(outbox + [t], x) == CountTopics(outbox, x) + One(t == x)
  {
    assert (audit + [a])[..|audit|] == audit;
    assert (outbox + [t])[..|outbox|] == outbox;
  }

  lemma ClaimKeepsLock(c: Cell, call: CallId, txnNow: int, stamp: int)
    requires Fences(c)
    ensures var d := ApplyClaim(c, call, txnNow, stamp); AttemptsHaveOneOwner(d) && LockIsTheFence(d)
  {
  }

  lemma ClaimKeepsPlane(c: Cell, call: CallId, txnNow: int, stamp: int)
    requires Fences(c)
    ensures var d := ApplyClaim(c, call, txnNow, stamp); PlaneMatchesStore(d) && ReadyIsSealed(d)
  {
  }

  lemma ClaimKeepsFences(c: Cell, call: CallId, txnNow: int, stamp: int)
    requires Fences(c)
    ensures Fences(ApplyClaim(c, call, txnNow, stamp))
  {
    ClaimKeepsLock(c, call, txnNow, stamp);
    ClaimKeepsPlane(c, call, txnNow, stamp);
  }

  lemma ClaimKeepsAccounting(c: Cell, call: CallId, txnNow: int, stamp: int)
    requires Accounting(c)
    ensures Accounting(ApplyClaim(c, call, txnNow, stamp))
  {
  }

  lemma NamesOfOtherCallsDiffer(c: Cell, call: CallId)
    requires AttemptsHaveOneOwner(c)
    requires call in c.calls && !c.calls[call].Finished?
    ensures forall other | other in c.calls && other != call && !c.calls[other].Finished? ::
              AttemptSecretName(c.calls[other].attempt) != AttemptSecretName(c.calls[call].attempt)
    ensures c.row.attempts != c.calls[call].attempt ==>
              AttemptSecretName(c.row.attempts) != AttemptSecretName(c.calls[call].attempt)
  {
    var mine := c.calls[call].attempt;
    AttemptSecretNameInjective(c.row.attempts, mine);
    forall other | other in c.calls && other != call && !c.calls[other].Finished?
      ensures AttemptSecretName(c.calls[other].attempt) != AttemptSecretName(mine)
    {
      AttemptSecretNameInjective(c.calls[other].attempt, mine);
    }
  }

  lemma StoreSecretKeepsFences(c: Cell, call: CallId, password: Password)
    requires Fences(c)
    ensures Fences(ApplyStoreSecret(c, call, password))
  {
    if call in c.calls && !c.calls[call].Finished? {
      StoreSecretKeepsLock(c, call, password);
      StoreSecretKeepsPlane(c, call, password);
      StoreSecretKeepsSeal(c, call, password);
    }
  }

  lemma StoreSecretKeepsLock(c: Cell, call: CallId, password: Password)
    requires Fences(c)
    ensures AttemptsHaveOneOwner(ApplyStoreSecret(c, call, password))
    ensures LockIsTheFence(ApplyStoreSecret(c, call, password))
  {
    var d := ApplyStoreSecret(c, call, password);
    assert d.row == c.row && d.lock == c.lock && d.owners == c.owners && d.calls.Keys == c.calls.Keys;
    assert forall other | other in c.calls && other != call :: d.calls[other] == c.calls[other];
    assert call in c.calls ==> HoldsRow(d.calls[call]) == HoldsRow(c.calls[call]);
  }

  lemma StoreSecretKeepsPlane(c: Cell, call: CallId, password: Password)
    requires Fences(c) && call in c.calls && !c.calls[call].Finished?
    ensures PlaneMatchesStore(ApplyStoreSecret(c, call, password))
  {
    NamesOfOtherCallsDiffer(c, call);
  }

  lemma StoreSecretKeepsSeal(c: Cell, call: CallId, password: Password)
    requires Fences(c) && call in c.calls && !c.calls[call].Finished?
    ensures ReadyIsSealed(ApplyStoreSecret(c, call, password))
  {
    AttemptSecretNameInjective(c.row.attempts, c.calls[call].attempt);
  }

  lemma FenceKeepsLock(c: Cell, call: CallId)
    requires Fences(c)
    ensures var d := ApplyFence(c, call); AttemptsHaveOneOwner(d) && LockIsTheFence(d)
  {
  }

  lemma FenceKeepsPlane(c: Cell, call: CallId)
    requires Fences(c)
    ensures var d := ApplyFence(c, call); PlaneMatchesStore(d) && ReadyIsSealed(d)
  {
  }

  lemma FenceKeepsFences(c: Cell, call: CallId)
    requires Fences(c)
    ensures Fences(ApplyFence(c, call))
  {
    FenceKeepsLock(c, call);
    FenceKeepsPlane(c, call);
  }

  lemma CommitPlaneKeepsFences(c: Cell, call: CallId, seen: bool)
    requires Fences(c)
    ensures Fences(ApplyCommitPlane(c, call, seen))
  {
  }

  lemma AlterRoleKeepsFences(c: Cell, call: CallId)
    requires Fences(c)
    ensures Fences(ApplyAlterRole(c, call))
  {
  }

  /** A call that fails, loses its connection or ends drops its row lock and nothing else. */
  lemma RetreatKeepsFences(c: Cell, call: CallId, p: Phase)
    requires Fences(c) && Retreats(c, call, p)
    ensures Fences(ReleaseRow(SetPhase(c, call, p), call))
  {
    RetreatKeepsLock(c, call, p);
    RetreatKeepsPlane(c, call, p);
  }

  predicate Retreats(c: Cell, call: CallId, p: Phase) {
    && call in c.calls && !c.calls[call].Finished?
    && (p.Finished? || p == Failing(c.calls[call].attempt)
        || (c.calls[call].Fenced? && p == Severed(c.calls[call].attempt)))
  }

  lemma RetreatKeepsLock(c: Cell, call: CallId, p: Phase)
    requires Fences(c) && Retreats(c, call, p)
    ensures var d := ReleaseRow(SetPhase(c, call, p), call); AttemptsHaveOneOwner(d) && LockIsTheFence(d)
  {
  }

  lemma RetreatKeepsPlane(c: Cell, call: CallId, p: Phase)
    requires Fences(c) && Retreats(c, call, p)
    ensures var d := ReleaseRow(SetPhase(c, call, p), call); PlaneMatchesStore(d) && ReadyIsSealed(d)
  {
  }

  lemma LogsAppended(audit: seq<AuditEntry>, outbox: seq<Action>, failures: nat, successes: nat, a: AuditEntry)
    requires LogsSay(audit, outbox, failures, successes)
    ensures LogsSay(audit + [a], outbox + [a.action], failures + One(a.action == TenantProvisioningFailed),
                    successes + One(a.action == TenantProvisioned))
  {
    CountAppended(audit, a, outbox, a.action, TenantProvisioned);
    CountAppended(audit, a, outbox, a.action, TenantProvisioningFailed);
  }

  lemma SettleKeepsAccounting(c: Cell, call: CallId, now: int, seen: bool)
    requires Accounting(c)
    ensures Accounting(ApplySettle(c, call, now, seen))
  {
    var d := ApplySettle(c, call, now, seen);
    if d.audit != c.audit {
      var a := AuditEntry(TenantProvisioned, c.calls[call].attempt, "");
      LogsAppended(c.audit, c.outbox, Failures(c), 0, a);
      assert d.audit == c.audit + [a] && d.outbox == c.outbox + [a.action];
      assert Failures(d) == Failures(c);
    }
  }

  lemma SettleKeepsLock(c: Cell, call: CallId, now: int, seen: bool)
    requires Fences(c)
    ensures var d := ApplySettle(c, call, now, seen); AttemptsHaveOneOwner(d) && LockIsTheFence(d)
  {
  }

  lemma SettleKeepsPlane(c: Cell, call: CallId, now: int, seen: bool)
    requires Fences(c)
    ensures var d := ApplySettle(c, call, now, seen); PlaneMatchesStore(d) && ReadyIsSealed(d)
  {
  }

  lemma SettleKeepsFences(c: Cell, call: CallId, now: int, seen: bool)
    requires Fences(c)
    ensures Fences(ApplySettle(c, call, now, seen))
  {
    SettleKeepsLock(c, call, now, seen);
    SettleKeepsPlane(c, call, now, seen);
  }

  lemma RecordFailureKeepsAccounting(c: Cell, call: CallId, reason: string, seen: bool)
    requires Accounting(c)
    ensures Accounting(ApplyRecordFailure(c, call, reason, seen))
  {
    var d := ApplyRecordFailure(c, call, reason, seen);
    if d.audit != c.audit {
      var a := AuditEntry(TenantProvisioningFailed, c.calls[call].attempt, reason);
      LogsAppended(c.audit, c.outbox, Failures(c), 0, a);
      assert d.audit == c.audit + [a] && d.outbox == c.outbox + [a.action];
      assert Failures(d) == Failures(c) + 1;
    }
  }

  lemma RecordFailureKeepsLock(c: Cell, call: CallId, reason: string, seen: bool)
    requires Fences(c)
    ensures var d := ApplyRecordFailure(c, call, reason, seen); AttemptsHaveOneOwner(d) && LockIsTheFence(d)
  {
  }

  lemma RecordFailureKeepsPlane(c: Cell, call: CallId, reason: string, seen: bool)
    requires Fences(c)
    ensures var d := ApplyRecordFailure(c, call, reason, seen); PlaneMatchesStore(d) && ReadyIsSealed(d)
  {
  }

  lemma RecordFailureKeepsFences(c: Cell, call: CallId, reason: string, seen: bool)
    requires Fences(c)
    ensures Fences(ApplyRecordFailure(c, call, reason, seen))
  {
    RecordFailureKeepsLock(c, call, reason, seen);
    RecordFailureKeepsPlane(c, call, reason, seen);
  }

  lemma ApplyKeepsFences(c: Cell, e: Event)
    requires Fences(c)
    ensures Fences(Apply(c, e))
  {
    match e
    case Claim(call, txnNow, stamp) => ClaimKeepsFences(c, call, txnNow, stamp);
    case Fence(call) => FenceKeepsFences(c, call);
    case StoreSecret(call, password) => StoreSecretKeepsFences(c, call, password);
    case AlterRole(call) => AlterRoleKeepsFences(c, call);
    case CommitPlane(call, seen) => CommitPlaneKeepsFences(c, call, seen);
    case Settle(call, now, seen) => SettleKeepsFences(c, call, now, seen);
    case RecordFailure(call, reason, seen) => RecordFailureKeepsFences(c, call, reason, seen);
    case _ => AbandonKeepsFences(c, e);
  }

  lemma AbandonKeepsFences(c: Cell, e: Event)
    requires Fences(c)
    requires e.AbortPlane? || e.LoseConnection? || e.SettleRaises? || e.Crash?
    ensures Fences(Apply(c, e))
  {
    if e.call in c.calls && !c.calls[e.call].Finished? {
      var p := if e.LoseConnection? then Severed(c.calls[e.call].attempt)
               else if e.Crash? then Finished(Crashed)
               else Failing(c.calls[e.call].attempt);
      if Apply(c, e) != c {
        RetreatKeepsFences(c, e.call, p);
      }
    }
  }

  predicate WritesRow(e: Event) { e.Claim? || e.Settle? || e.RecordFailure? }

  lemma OthersLeaveTheRow(c: Cell, e: Event)
    requires !WritesRow(e)
    ensures var d := Apply(c, e);
            d.row == c.row && d.audit == c.audit && d.outbox == c.outbox && d.takeovers == c.takeovers
  {
  }

  lemma ApplyKeepsAccounting(c: Cell, e: Event)
    requires Accounting(c)
    ensures Accounting(Apply(c, e))
  {
    match e
    case Claim(call, txnNow, stamp) => ClaimKeepsAccounting(c, call, txnNow, stamp);
    case Settle(call, now, seen) => SettleKeepsAccounting(c, call, now, seen);
    case RecordFailure(call, reason, seen) => RecordFailureKeepsAccounting(c, call, reason, seen);
    case _ => OthersLeaveTheRow(c, e);
  }

  lemma ApplyKeepsInv(c: Cell, e: Event)
    requires Inv(c)
    ensures Inv(Apply(c, e))
  {
    ApplyKeepsFences(c, e);
    ApplyKeepsAccounting(c, e);
  }

  // ---------------------------------------------------------------- theorems

  /** A freshly registered row. The role and the store may hold leftovers of any kind. */
  ghost predicate Registered(c: Cell) {
    && c.row.state == Pending && c.row.status == Unprovisioned
    && c.row.attempts == 0 && c.row.startedAt.None? && c.row.secret.None?
    && c.row.failure.None? && c.row.provisionedAt.None?
    && c.lock.None? && c.calls == map[] && c.owners == [] && c.takeovers == 0
    && c.audit == [AuditEntry(TenantRegistered, 0, "")] && c.outbox == [TenantRegistered]
  }

  lemma RegisteredSatisfiesInv(c: Cell)
    requires Registered(c)
    ensures Inv(c)
  {
    LogsAppended([], [], 0, 0, AuditEntry(TenantRegistered, 0, ""));
    assert [] + c.audit == c.audit && [] + c.outbox == c.outbox;
    assert Failures(c) == 0;
  }

  lemma {:induction false} RunKeepsInv(c: Cell, es: seq<Event>)
    requires Inv(c)
    ensures Inv(Run(c, es))
    decreases |es|
  {
    if es != [] {
      ApplyKeepsInv(c, es[0]);
      RunKeepsInv(Apply(c, es[0]), es[1..]);
    }
  }

  /** Whatever the operators, crashes, takeovers and lost connections were: a tenant marked
      ready is active, and its login role has exactly the password stored at the reference
      recorded on its row. */
  lemma ReadyMeansUsableCredential(c: Cell, es: seq<Event>)
    requires Registered(c)
    ensures Run(c, es).row.state == Ready ==>
              CredentialConsistent(Run(c, es)) && Run(c, es).row.status == Active
  {
    RegisteredSatisfiesInv(c);
    RunKeepsInv(c, es);
  }

  /** Every attempt is accounted for, and a tenant is provisioned at most once. */
  lemma AttemptsBalance(c: Cell, es: seq<Event>)
    requires Registered(c)
    ensures var d := Run(c, es);
            && d.row.attempts == CountActions(d.audit, TenantProvisioningFailed) + d.takeovers
                                 + One(d.row.state == InProgress) + One(d.row.state == Ready)
            && CountActions(d.audit, TenantProvisioned) == One(d.row.state == Ready)
            && CountTopics(d.outbox, TenantProvisioned) == One(d.row.state == Ready)
            && CountTopics(d.outbox, TenantProvisioningFailed)
               == CountActions(d.audit, TenantProvisioningFailed)
            && RowTellsTheTruth(d.row)
  {
    RegisteredSatisfiesInv(c);
    RunKeepsInv(c, es);
  }

  lemma ApplyKeepsOwnersDistinct(c: Cell, e: Event)
    requires OwnersAreDistinct(c)
    ensures OwnersAreDistinct(Apply(c, e)) && c.owners <= Apply(c, e).owners
  {
  }

  /** Attempt numbers are never shared: the owner list only grows, has no repetitions, and
      any call still at work on an attempt is that attempt's owner. */
  lemma {:induction false} AttemptNumbersAreOwned(c: Cell, es: seq<Event>)
    requires Inv(c) && OwnersAreDistinct(c)
    ensures c.owners <= Run(c, es).owners
    ensures AttemptsHaveOneOwner(Run(c, es)) && OwnersAreDistinct(Run(c, es))
    decreases |es|
  {
    if es != [] {
      ApplyKeepsInv(c, es[0]);
      ApplyKeepsOwnersDistinct(c, es[0]);
      AttemptNumbersAreOwned(Apply(c, es[0]), es[1..]);
    }
  }

  /** A call whose attempt is not the one in progress can still write its own secret name,
      and nothing else: not the row, not the role, not a trace of having finished. */
  lemma SupersededAttemptIsInert(c: Cell, e: Event)
    requires Inv(c)
    requires e.call in c.calls
    requires c.calls[e.call].Finished? || !OwnsAttempt(c.row, c.calls[e.call].attempt)
    ensures var d := Apply(c, e);
            && d.row == c.row && d.role == c.role && d.audit == c.audit && d.outbox == c.outbox
            && (c.calls[e.call].Finished? ==> d.store == c.store)
            && forall name | c.calls[e.call].Finished? || name != AttemptSecretName(c.calls[e.call].attempt) ::
                 && (name in d.store <==> name in c.store)
                 && (name in c.store ==> d.store[name] == c.store[name])
  {
  }

  /** Ready is final: the row, the role, the stored password and the trail never change again. */
  lemma {:induction false} ReadyIsAbsorbing(c: Cell, es: seq<Event>)
    requires Inv(c) && c.row.state == Ready
    ensures var d := Run(c, es);
            && d.row == c.row && d.role == c.role && d.audit == c.audit && d.outbox == c.outbox
            && d.row.secret.value.logicalName in d.store
            && d.store[d.row.secret.value.logicalName] == c.store[c.row.secret.value.logicalName]
    decreases |es|
  {
    if es != [] {
      ReadyStep(c, es[0]);
      ApplyKeepsInv(c, es[0]);
      ReadyIsAbsorbing(Apply(c, es[0]), es[1..]);
    }
  }

  lemma ReadyStep(c: Cell, e: Event)
    requires Inv(c) && c.row.state == Ready
    ensures var d := Apply(c, e);
            && d.row == c.row && d.role == c.role && d.audit == c.audit && d.outbox == c.outbox
            && d.row.secret.value.logicalName in d.store
            && d.store[d.row.secret.value.logicalName] == c.store[c.row.secret.value.logicalName]
  {
    if e.call in c.calls {
      SupersededAttemptIsInert(c, e);
      if !c.calls[e.call].Finished? {
        AttemptSecretNameInjective(c.calls[e.call].attempt, c.row.attempts);
      }
    }
  }

  // -------------------------------------------------------------- claim times

  /** This claim is a new call's, and it gets an attempt. */
  predicate Wins(c: Cell, e: Event) {
    e.Claim? && e.call !in c.calls && e.call in Apply(c, e).calls && Apply(c, e).calls[e.call].Claimed?
  }

  /** The time the last winning claim of a run brought along, if there was one. */
  function LastWin(c: Cell, es: seq<Event>): Option<int>
    decreases |es|
  {
    if es == [] then None
    else
      var n := |es| - 1;
      if Wins(Run(c, es[..n]), es[n]) then Some(es[n].stamp) else LastWin(c, es[..n])
  }

  lemma StartedAtStep(c: Cell, e: Event)
    ensures Apply(c, e).staleAfter == c.staleAfter
    ensures Apply(c, e).row.startedAt == if Wins(c, e) then Some(e.stamp) else c.row.startedAt
  {
  }

  lemma {:induction false} RunSnoc(c: Cell, es: seq<Event>)
    requires es != []
    ensures Run(c, es) == Apply(Run(c, es[..|es| - 1]), es[|es| - 1])
    decreases |es|
  {
    if |es| > 1 {
      RunSnoc(Apply(c, es[0]), es[1..]);
      assert es[1..][..|es| - 2] == es[..|es| - 1][1..];
    }
  }

  /** The start time on the row is the one the last winning claim brought along. */
  lemma {:induction false} StartedAtIsLastWin(c: Cell, es: seq<Event>)
    requires Registered(c)
    ensures Run(c, es).row.startedAt == LastWin(c, es) && Run(c, es).staleAfter == c.staleAfter
    decreases |es|
  {
    if es != [] {
      var n := |es| - 1;
      StartedAtIsLastWin(c, es[..n]);
      RunSnoc(c, es);
      StartedAtStep(Run(c, es[..n]), es[n]);
    }
  }

  /** After every history, a new call's claim gets an attempt exactly when the row waits for one, or
      when more than `staleAfter` has passed since the last claim that won; if the row is locked it
      gets it later. Winning takes the next attempt number and the row; losing touches nothing. */
  lemma ClaimWinsIff(c: Cell, es: seq<Event>, call: CallId, txnNow: int, stamp: int)
    requires Registered(c) && call !in Run(c, es).calls
    ensures var d := Run(c, es); var u := Apply(d, Claim(call, txnNow, stamp)); var last := LastWin(c, es);
            var due := || d.row.state == Pending || d.row.state == Failed
                       || (d.row.state == InProgress && last.Some? && last.value + c.staleAfter < txnNow);
            && (Wins(d, Claim(call, txnNow, stamp)) <==> due && d.lock.None?)
            && (if due then
                  if d.lock.Some? then u == d
                  else u.row.state == InProgress && u.row.attempts == d.row.attempts + 1
                       && u.calls[call] == Claimed(d.row.attempts + 1)
                else
                  u == d.(calls := d.calls[call := Finished(if d.row.state == Ready then AlreadyReady else Contended)]))
  {
    StartedAtIsLastWin(c, es);
  }

  lemma FreshStep(c: Cell, e: Event, stamp: int)
    requires Inv(c) && c.row.state == InProgress && c.row.startedAt == Some(stamp)
    requires e.Claim? ==> e.txnNow <= stamp + c.staleAfter
    ensures var d := Apply(c, e);
            if d.row == c.row then d.owners == c.owners && d.staleAfter == c.staleAfter
            else (e.Settle? || e.RecordFailure?) && e.call == c.owners[c.row.attempts - 1]
  {
  }

  lemma {:induction false} OnlyTheOwnerEnds(c: Cell, es: seq<Event>, stamp: int) returns (k: nat)
    requires Inv(c) && c.row.state == InProgress && c.row.startedAt == Some(stamp)
    requires forall e | e in es && e.Claim? :: e.txnNow <= stamp + c.staleAfter
    ensures k <= |es| && Run(c, es[..k]).row == c.row
    ensures k < |es| ==> (es[k].Settle? || es[k].RecordFailure?) && es[k].call == c.owners[c.row.attempts - 1]
    ensures k < |es| ==> Apply(Run(c, es[..k]), es[k]).row != c.row
    decreases |es|
  {
    k := 0;
    if es != [] {
      FreshStep(c, es[0], stamp);
      var d := Apply(c, es[0]);
      if d.row == c.row {
        ApplyKeepsInv(c, es[0]);
        k := OnlyTheOwnerEnds(d, es[1..], stamp);
        assert es[..k + 1][1..] == es[1..][..k];
        k := k + 1;
      }
    }
  }

  /** An attempt claimed at `stamp` belongs to its call until it is stale: over any run whose claims
      all come by `stamp + staleAfter`, the row stays as the claim left it until step `k`, which is
      the owner settling it or recording its failure. */
  lemma FreshAttemptEndsByItsOwner(c: Cell, call: CallId, txnNow: int, stamp: int, es: seq<Event>) returns (k: nat)
    requires Inv(c) && Wins(c, Claim(call, txnNow, stamp))
    requires forall e | e in es && e.Claim? :: e.txnNow <= stamp + c.staleAfter
    ensures var d := Apply(c, Claim(call, txnNow, stamp));
            && k <= |es| && Run(d, es[..k]).row == d.row
            && (k < |es| ==> && (es[k].Settle? || es[k].RecordFailure?) && es[k].call == call
                             && Apply(Run(d, es[..k]), es[k]).row != d.row)
  {
    var d := Apply(c, Claim(call, txnNow, stamp));
    ApplyKeepsInv(c, Claim(call, txnNow, stamp));
    k := OnlyTheOwnerEnds(d, es, stamp);
  }

  /** The events of one undisturbed call. */
  function WholeCall(call: CallId, txnNow: int, stamp: int, password: Password, now: int): seq<Event> {
    PlaneBuild(call, txnNow, stamp, password) + [Settle(call, now, true)]
  }

  function PlaneBuild(call: CallId, txnNow: int, stamp: int, password: Password): seq<Event> {
    [Claim(call, txnNow, stamp), Fence(call), StoreSecret(call, password), AlterRole(call),
     CommitPlane(call, true)]
  }

  lemma UndisturbedCallIsReady(c: Cell, call: CallId, txnNow: int, stamp: int, password: Password, now: int)
    requires Inv(c) && c.lock.None? && call !in c.calls
    requires Claimable(c.row, c.staleAfter, txnNow)
    ensures var d := Run(c, WholeCall(call, txnNow, stamp, password, now));
            && d.row.state == Ready && d.row.attempts == c.row.attempts + 1
            && d.role == Some(password) && CredentialConsistent(d)
  {
    var built := Run(c, PlaneBuild(call, txnNow, stamp, password));
    BuildReachesHandle(c, call, txnNow, stamp, password);
    RunAppend(c, PlaneBuild(call, txnNow, stamp, password), [Settle(call, now, true)]);
    assert Run(built, [Settle(call, now, true)]) == Apply(built, Settle(call, now, true));
  }

  /** The tenant is never stuck: after any history without a ready row, one new undisturbed call that
      finds the row free, and comes later than `staleAfter` after the last claim that won, makes it
      ready, with the password of that call. */
  lemma NeverStuck(c: Cell, es: seq<Event>, call: CallId, txnNow: int, stamp: int, password: Password, now: int)
    requires Registered(c)
    requires var d := Run(c, es);
             && d.row.state != Ready && d.lock.None? && call !in d.calls
             && (LastWin(c, es).Some? ==> LastWin(c, es).value + c.staleAfter < txnNow)
    ensures var d := Run(c, es); var u := Run(d, WholeCall(call, txnNow, stamp, password, now));
            && u.row.state == Ready && u.row.attempts == d.row.attempts + 1
            && u.role == Some(password) && CredentialConsistent(u)
  {
    RegisteredSatisfiesInv(c);
    RunKeepsInv(c, es);
    StartedAtIsLastWin(c, es);
    UndisturbedCallIsReady(Run(c, es), call, txnNow, stamp, password, now);
  }

  /** Hence an unready tenant can always be recovered, at any time later than `staleAfter` after the
      last claim that won: by the death of whoever holds the row, if anyone does, and one new call. */
  lemma Recoverable(c: Cell, es: seq<Event>, call: CallId, txnNow: int, password: Password) returns (fs: seq<Event>)
    requires Registered(c)
    requires Run(c, es).row.state != Ready && call !in Run(c, es).calls
    requires LastWin(c, es).Some? ==> LastWin(c, es).value + c.staleAfter < txnNow
    ensures var d := Run(c, es); var whole := WholeCall(call, txnNow, txnNow, password, txnNow);
            && fs == (if d.lock.Some? then [Crash(d.lock.value)] + whole else whole)
            && Run(d, fs).row.state == Ready
            && Run(d, fs).role == Some(password) && CredentialConsistent(Run(d, fs))
  {
    var d := Run(c, es);
    RegisteredSatisfiesInv(c);
    RunKeepsInv(c, es);
    StartedAtIsLastWin(c, es);
    var whole := WholeCall(call, txnNow, txnNow, password, txnNow);
    if d.lock.None? {
      fs := whole;
      UndisturbedCallIsReady(d, call, txnNow, txnNow, password, txnNow);
    } else {
      fs := [Crash(d.lock.value)] + whole;
      ApplyKeepsInv(d, Crash(d.lock.value));
      UndisturbedCallIsReady(Apply(d, Crash(d.lock.value)), call, txnNow, txnNow, password, txnNow);
      assert fs[1..] == whole;
    }
  }

  lemma BuildReachesHandle(c: Cell, call: CallId, txnNow: int, stamp: int, password: Password)
    requires c.lock.None? && call !in c.calls && Claimable(c.row, c.staleAfter, txnNow)
    ensures var d := Run(c, PlaneBuild(call, txnNow, stamp, password));
            && call in d.calls && d.calls[call] == Built(c.row.attempts + 1)
            && d.lock.None? && OwnsAttempt(d.row, c.row.attempts + 1)
            && d.role == Some(password)
            && AttemptSecretName(c.row.attempts + 1) in d.store
            && d.store[AttemptSecretName(c.row.attempts + 1)] == password
  {
    var es := PlaneBuild(call, txnNow, stamp, password);
    var c1 := Apply(c, es[0]);
    var c2 := Apply(c1, es[1]);
    var c3 := Apply(c2, es[2]);
    var c4 := Apply(c3, es[3]);
    UnfoldRun(c, es);
    UnfoldRun(c1, es[1..]);
    UnfoldRun(c2, es[2..]);
    UnfoldRun(c3, es[3..]);
    UnfoldRun(c4, es[4..]);
    assert c1.calls[call] == Claimed(c.row.attempts + 1);
    assert c2.calls[call] == Fenced(c.row.attempts + 1);
    assert c3.calls[call] == Stored(c.row.attempts + 1, password);
  }

  lemma {:induction false} RunAppend(c: Cell, es: seq<Event>, fs: seq<Event>)
    ensures Run(c, es + fs) == Run(Run(c, es), fs)
    decreases |es|
  {
    if es == [] {
      assert es + fs == fs;
    } else {
      assert (es + fs)[1..] == es[1..] + fs;
      RunAppend(Apply(c, es[0]), es[1..], fs);
    }
  }

  lemma UnfoldRun(c: Cell, es: seq<Event>)
    requires es != []
    ensures Run(c, es) == Run(Apply(c, es[0]), es[1..])
  {
  }

  // -------------------------------------------------------------- bad endings

  /** A call whose build or settling raises records that: the row is failed with the reason given, and
      waits for another attempt. */
  lemma RaisedCallIsRecorded(c: Cell, call: CallId, reason: string)
    requires Inv(c) && call in c.calls && OwnsAttempt(c.row, c.row.attempts)
    requires InPhase(c, call, c.row.attempts) && (c.lock.Some? ==> c.lock == Some(call))
    requires !c.calls[call].Failing?
    ensures var raise := if c.calls[call].Built? then SettleRaises(call) else AbortPlane(call);
            var d := Apply(Apply(c, raise), RecordFailure(call, reason, true));
            && d.row == c.row.(state := Failed, failure := Some(reason)) && d.lock.None?
            && d.role == c.role && d.store == c.store && d.calls == c.calls[call := Finished(FailureRecorded)]
  {
    var raise := if c.calls[call].Built? then SettleRaises(call) else AbortPlane(call);
    var d := Apply(c, raise);
    assert d.calls == c.calls[call := Failing(c.row.attempts)] && d.lock.None? && d.row == c.row;
  }

  /** A settling that committed although its call never heard of it stands: the call goes on to record
      a failure, finds the tenant ready, and changes nothing. */
  lemma UnheardSettleStands(c: Cell, call: CallId, now: int, reason: string)
    requires Inv(c) && c.lock.None? && c.row.state == InProgress
    requires call in c.calls && c.calls[call] == Built(c.row.attempts)
    ensures var d := Apply(c, Settle(call, now, false)); var u := Apply(d, RecordFailure(call, reason, true));
            && d.row.state == Ready && d.calls[call] == Failing(c.row.attempts)
            && u == d.(calls := d.calls[call := Finished(Superseded)])
  {
  }

  /** A build that committed unheard leaves the attempt in progress, to be recorded as failed; one whose
      connection is lost first gives the row free and can still write its own secret. */
  lemma UnheardBuildFails(c: Cell, call: CallId, password: Password)
    requires Inv(c) && call in c.calls && HoldsRow(c.calls[call])
    ensures c.calls[call].Altered? ==>
              var d := Apply(c, CommitPlane(call, false));
              d.calls[call] == Failing(c.row.attempts) && d.lock.None? && d.row == c.row
              && d.role == Some(c.calls[call].password)
    ensures c.calls[call].Fenced? ==>
              var d := Apply(c, LoseConnection(call)); var u := Apply(d, StoreSecret(call, password));
              && d.lock.None? && d.row == c.row && d.store == c.store
              && u.row == c.row && u.role == c.role && u.calls[call] == Failing(c.row.attempts)
              && u.store == c.store[AttemptSecretName(c.row.attempts) := password]
  {
  }

  /** A call that has ended stays as it ended. */
  lemma EndedCallsStay(c: Cell, e: Event, call: CallId)
    requires call in c.calls && c.calls[call].Finished?
    ensures call in Apply(c, e).calls && Apply(c, e).calls[call] == c.calls[call]
  {
  }

  // ------------------------------------------------------------- many tenants

  datatype WorldEvent =
    | Register(slug: string, staleAfter: int, role: Option<Password>, store: map<string, Password>)
    | Within(tenant: TenantId, event: Event)

  datatype RegisterReply = Created(id: TenantId) | Adopted(id: TenantId) | Refused

  function NewCell(slug: string, staleAfter: int, role: Option<Password>, store: map<string, Password>): (c: Cell)
    ensures Registered(c)
  {
    Cell(staleAfter, Row(slug, Unprovisioned, Pending, 0, None, None, None, None), None, role, store,
         map[], [AuditEntry(TenantRegistered, 0, "")], [TenantRegistered], [], 0)
  }

  function FindBySlug(tenants: seq<Cell>, slug: string): (r: Option<TenantId>)
    ensures r.Some? ==> r.value < |tenants| && tenants[r.value].row.slug == slug
    ensures r.None? ==> forall t | 0 <= t < |tenants| :: tenants[t].row.slug != slug
  {
    if tenants == [] then None
    else if tenants[|tenants| - 1].row.slug == slug then Some(|tenants| - 1)
    else FindBySlug(tenants[..|tenants| - 1], slug)
  }

  function ApplyWorld(tenants: seq<Cell>, e: WorldEvent): seq<Cell> {
    match e
    case Register(slug, staleAfter, role, store) =>
      if FindBySlug(tenants, slug).Some? then tenants
      else tenants + [NewCell(slug, staleAfter, role, store)]
    case Within(t, event) =>
      if t < |tenants| then tenants[t := Apply(tenants[t], event)] else tenants
  }

  function RunWorld(tenants: seq<Cell>, es: seq<WorldEvent>): seq<Cell>
    decreases |es|
  {
    if es == [] then tenants else RunWorld(ApplyWorld(tenants, es[0]), es[1..])
  }

  ghost predicate WorldInv(tenants: seq<Cell>) {
    && (forall t | 0 <= t < |tenants| :: Inv(tenants[t]))
    && forall t, u | 0 <= t < u < |tenants| :: tenants[t].row.slug != tenants[u].row.slug
  }

  lemma ApplyKeepsSlug(c: Cell, e: Event)
    ensures Apply(c, e).row.slug == c.row.slug
  {
  }

  lemma ApplyWorldKeepsInv(tenants: seq<Cell>, e: WorldEvent)
    requires WorldInv(tenants)
    ensures WorldInv(ApplyWorld(tenants, e))
  {
    match e
    case Register(slug, staleAfter, role, store) =>
      RegisteredSatisfiesInv(NewCell(slug, staleAfter, role, store));
    case Within(t, event) =>
      if t < |tenants| {
        ApplyKeepsInv(tenants[t], event);
        ApplyKeepsSlug(tenants[t], event);
      }
  }

  /** Over every history of the whole platform: slugs stay unique, and every ready tenant
      can log in with the credential its row points at. */
  lemma {:induction false} EveryReadyTenantIsUsable(tenants: seq<Cell>, es: seq<WorldEvent>)
    requires WorldInv(tenants)
    ensures WorldInv(RunWorld(tenants, es))
    ensures forall t | 0 <= t < |RunWorld(tenants, es)| ::
              RunWorld(tenants, es)[t].row.state == Ready ==> CredentialConsistent(RunWorld(tenants, es)[t])
    decreases |es|
  {
    if es != [] {
      ApplyWorldKeepsInv(tenants, es[0]);
      EveryReadyTenantIsUsable(ApplyWorld(tenants, es[0]), es[1..]);
    }
  }

  /** What a history of the platform holds for one tenant. */
  function EventsOf(es: seq<WorldEvent>, t: TenantId): seq<Event>
    decreases |es|
  {
    if es == [] then []
    else (if es[0].Within? && es[0].tenant == t then [es[0].event] else []) + EventsOf(es[1..], t)
  }

  /** Tenants do not touch each other: whatever else happens on the platform, each one goes through
      exactly its own events. */
  lemma {:induction false} TenantsRunAlone(tenants: seq<Cell>, es: seq<WorldEvent>, t: TenantId)
    requires t < |tenants|
    ensures t < |RunWorld(tenants, es)| && RunWorld(tenants, es)[t] == Run(tenants[t], EventsOf(es, t))
    decreases |es|
  {
    if es != [] {
      var rest := EventsOf(es[1..], t);
      TenantsRunAlone(ApplyWorld(tenants, es[0]), es[1..], t);
      if es[0].Within? && es[0].tenant == t {
        assert EventsOf(es, t) == [es[0].event] + rest && EventsOf(es, t)[1..] == rest;
      } else {
        assert EventsOf(es, t) == rest;
      }
    }
  }

  // --------------------------------------------------------- the workflow code

  datatype ClaimReply = Waiting | Won(attempt: nat) | IsReady | Conflict
  datatype StepReply = Blocked | Done | Rejected

  /** One tenant as the workflow and the data plane update it, statement by statement. */
  class TenantPlane {
    const staleAfter: int
    var row: Row
    var lock: Option<CallId>
    var role: Option<Password>
    var store: map<string, Password>
    var calls: map<CallId, Phase>
    var audit: seq<AuditEntry>
    var outbox: seq<Action>
    ghost var owners: seq<CallId>
    ghost var takeovers: nat

    ghost function Snapshot(): Cell
      reads this
    {
      Cell(staleAfter, row, lock, role, store, calls, audit, outbox, owners, takeovers)
    }

    constructor (slug: string, staleAfter: int, role: Option<Password>, store: map<string, Password>)
      ensures Registered(Snapshot())
      ensures Snapshot() == NewCell(slug, staleAfter, role, store)
    {
      this.staleAfter, this.role, this.store := staleAfter, role, store;
      row := Row(slug, Unprovisioned, Pending, 0, None, None, None, None);
      lock, calls := None, map[];
      audit, outbox := [AuditEntry(TenantRegistered, 0, "")], [TenantRegistered];
      owners, takeovers := [], 0;
    }

    method Claim(call: CallId, txnNow: int, stamp: int) returns (reply: ClaimReply)
      modifies this
      ensures Snapshot() == Apply(old(Snapshot()), Event.Claim(call, txnNow, stamp))
      ensures reply.Won? <==>
                && call !in old(calls) && old(lock).None?
                && (|| old(row.state) in {Pending, Failed}
                    || (old(row.state) == InProgress && old(row.startedAt).Some?
                        && old(row.startedAt).value + staleAfter < txnNow))
      ensures reply.Won? ==>
                && reply.attempt == old(row.attempts) + 1
                && row == old(row).(state := InProgress, attempts := reply.attempt, startedAt := Some(stamp),
                                    failure := None)
      ensures !reply.Won? ==> row == old(row)
      ensures reply.IsReady? <==> call !in old(calls) && old(row.state) == Ready
      ensures reply.Conflict? <==>
                && call !in old(calls) && old(row.state) == InProgress
                && !(old(row.startedAt).Some? && old(row.startedAt).value + staleAfter < txnNow)
    {
      if call in calls {
        return Waiting;
      }
      if || row.state == Pending
         || row.state == Failed
         || (row.state == InProgress && row.startedAt.Some? && row.startedAt.value < txnNow - staleAfter)
      {
        if lock.Some? {
          return Waiting;
        }
        owners, takeovers := owners + [call], takeovers + if row.state == InProgress then 1 else 0;
        row := row.(state := InProgress, attempts := row.attempts + 1, startedAt := Some(stamp), failure := None);
        calls := calls[call := Claimed(row.attempts)];
        return Won(row.attempts);
      }
      if row.state == Ready {
        calls := calls[call := Finished(AlreadyReady)];
        return IsReady;
      }
      calls := calls[call := Finished(Contended)];
      return Conflict;
    }

    method Fence(call: CallId) returns (reply: StepReply)
      modifies this
      ensures Snapshot() == Apply(old(Snapshot()), Event.Fence(call))
      ensures reply == Done <==>
                && call in old(calls) && old(calls)[call].Claimed? && old(lock).None?
                && row.state == InProgress && row.attempts == old(calls)[call].attempt
      ensures reply == Rejected <==>
                && call in old(calls) && old(calls)[call].Claimed?
                && !(row.state == InProgress && row.attempts == old(calls)[call].attempt)
      ensures lock == if reply == Done then Some(call) else old(lock)
    {
      if call !in calls || !calls[call].Claimed? {
        return Blocked;
      }
      var attempt := calls[call].attempt;
      if row.state == InProgress && row.attempts == attempt {
        if lock.Some? {
          return Blocked;
        }
        lock := Some(call);
        calls := calls[call := Fenced(attempt)];
        return Done;
      }
      calls := calls[call := Failing(attempt)];
      return Rejected;
    }

    /** Generate and store the password, run the role DDL, and commit, all under the row
        lock that `Fence` took. */
    method BuildPlane(call: CallId, password: Password) returns (reference: Option<SecretRef>)
      modifies this
      ensures Snapshot()
           == Run(old(Snapshot()), [StoreSecret(call, password), AlterRole(call), CommitPlane(call, true)])
      ensures reference.Some? <==> old(call in calls && calls[call].Fenced?)
      ensures reference.Some? ==> reference.value == SecretRef(AttemptSecretName(old(calls)[call].attempt), "1")
      ensures reference.Some? ==> role == Some(password) && reference.value.logicalName in store
                                  && store[reference.value.logicalName] == password
                                  && lock != Some(call)
    {
      ghost var before := Snapshot();
      ghost var es := [StoreSecret(call, password), AlterRole(call), CommitPlane(call, true)];
      ghost var stored := Apply(before, es[0]);
      ghost var altered := Apply(stored, es[1]);
      UnfoldRun(before, es);
      UnfoldRun(stored, es[1..]);
      UnfoldRun(altered, es[2..]);
      assert Run(before, es) == Apply(altered, es[2]);
      if call !in calls {
        return None;
      }
      var p := calls[call];
      if !(p.Fenced? || p.Stored? || p.Altered? || p.Severed?) {
        return None;
      }
      var name := AttemptSecretName(p.attempt);
      if p.Severed? {
        // the transaction is gone, the write to the store is not
        store := store[name := password];
        calls := calls[call := Failing(p.attempt)];
        return None;
      }
      if p.Fenced? {
        store := store[name := password];
        p := Stored(p.attempt, password);
        reference := Some(SecretRef(name, "1"));
      } else {
        reference := None;
      }
      role := Some(p.password);
      calls := calls[call := Built(p.attempt)];
      if lock == Some(call) {
        lock := None;
      }
    }

    method Settle(call: CallId, now: int) returns (reply: StepReply)
      modifies this
      ensures Snapshot() == Apply(old(Snapshot()), Event.Settle(call, now, true))
      ensures reply == Done <==>
                && call in old(calls) && old(calls)[call].Built? && old(lock).None?
                && old(row.state) == InProgress && old(row.attempts) == old(calls)[call].attempt
      ensures reply == Done ==>
                && row == old(row).(state := Ready, status := Active, provisionedAt := Some(now), failure := None,
                                    secret := Some(SecretRef(AttemptSecretName(old(row.attempts)), "1")))
                && audit == old(audit) + [AuditEntry(TenantProvisioned, old(row.attempts), "")]
                && outbox == old(outbox) + [TenantProvisioned]
      ensures reply != Done ==> row == old(row) && audit == old(audit) && outbox == old(outbox)
    {
      if call !in calls || !calls[call].Built? {
        return Blocked;
      }
      var attempt := calls[call].attempt;
      if row.state != InProgress || row.attempts != attempt {
        calls := calls[call := Finished(Superseded)];
        return Rejected;
      }
      if lock.Some? {
        return Blocked;
      }
      row := row.(state := Ready, status := Active, provisionedAt := Some(now), failure := None,
                  secret := Some(SecretRef(AttemptSecretName(attempt), "1")));
      audit := audit + [AuditEntry(TenantProvisioned, attempt, "")];
      outbox := outbox + [TenantProvisioned];
      calls := calls[call := Finished(Settled)];
      return Done;
    }

    method RecordFailure(call: CallId, reason: string) returns (reply: StepReply)
      modifies this
      ensures Snapshot() == Apply(old(Snapshot()), Event.RecordFailure(call, reason, true))
      ensures reply == Done <==>
                && call in old(calls) && old(calls)[call].Failing? && old(lock).None?
                && old(row.state) == InProgress && old(row.attempts) == old(calls)[call].attempt
      ensures reply == Done ==>
                && row == old(row).(state := Failed, failure := Some(reason))
                && audit == old(audit) + [AuditEntry(TenantProvisioningFailed, old(row.attempts), reason)]
                && outbox == old(outbox) + [TenantProvisioningFailed]
      ensures reply != Done ==> row == old(row) && audit == old(audit) && outbox == old(outbox)
    {
      if call !in calls || !calls[call].Failing? {
        return Blocked;
      }
      var attempt := calls[call].attempt;
      if row.state != InProgress || row.attempts != attempt {
        calls := calls[call := Finished(Superseded)];
        return Rejected;
      }
      if lock.Some? {
        return Blocked;
      }
      row := row.(state := Failed, failure := Some(reason));
      audit := audit + [AuditEntry(TenantProvisioningFailed, attempt, reason)];
      outbox := outbox + [TenantProvisioningFailed];
      calls := calls[call := Finished(FailureRecorded)];
      return Done;
    }
  }

  /** Registration: the unique slug decides between creating, adopting and refusing. */
  class TenantDirectory {
    var tenants: seq<Cell>

    method Register(slug: string, staleAfter: int, role: Option<Password>, store: map<string, Password>)
      returns (reply: RegisterReply)
      modifies this
      ensures tenants == ApplyWorld(old(tenants), WorldEvent.Register(slug, staleAfter, role, store))
      ensures reply == Refused <==> exists t | 0 <= t < |old(tenants)| ::
                old(tenants)[t].row.slug == slug && FindBySlug(old(tenants), slug) == Some(t)
                && old(tenants)[t].row.state == Ready
      ensures reply != Refused ==> reply.id < |tenants| && tenants[reply.id].row.slug == slug
                                   && tenants[reply.id].row.state != Ready
      ensures reply.Created? <==> forall t | 0 <= t < |old(tenants)| :: old(tenants)[t].row.slug != slug
      ensures reply.Created? ==>
                && reply.id == |old(tenants)| && tenants == old(tenants) + [tenants[reply.id]]
                && Registered(tenants[reply.id])
      ensures !reply.Created? ==> tenants == old(tenants)
    {
      var existing := FindBySlug(tenants, slug);
      if existing.Some? {
        return if tenants[existing.value].row.state == Ready then Refused else Adopted(existing.value);
      }
      tenants := tenants + [NewCell(slug, staleAfter, role, store)];
      return Created(|tenants| - 1);
    }
  }
}
