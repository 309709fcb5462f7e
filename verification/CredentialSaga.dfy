/** Data-source credentials across two stores that cannot share a transaction: the secret
    store is written before the row that points at it, a failed transaction is compensated by
    deleting what it wrote, and a due secret is deleted before its row is marked.

    Sources are indexed by creation; each secret name is generated once and never reused.
    `Apply` is one step; a step whose transaction is not there, or that would wait for a row
    locked by maintenance, changes nothing. The guards of the service are checked at unlocked
    reads, where a disable also takes its time stamp; the writes that follow look at nothing but
    the row's key. Putting a fresh name commutes with all steps of others, so a request's read and
    its put are one step. */
module CredentialSaga {
  import opened Wrappers

  type Name = string
  type TxnId = nat
  type SourceId = nat

  const THIRTY_DAYS: int := 30 * 24 * 60 * 60

  datatype Status = Active | Disabled

  datatype Row = Row(
    key: string,        // idempotency key, unique
    content: string,    // name, endpoint and configuration
    secret: Name,
    status: Status,
    version: nat,
    disabledAt: Option<int>,
    destroyAfter: Option<int>,
    destroyedAt: Option<int>)

  /** A request that has put a secret and not finished its database transaction. */
  datatype Request =
    | Creating(key: string, content: string, secret: Name)
    | Rotating(source: SourceId, expectedVersion: nat, secret: Name, readAt: int)
    | Compensating(secret: Name)

  /** A maintenance transaction: the due rows it has locked and those whose secret is deleted. */
  datatype Sweep = Sweep(now: int, locked: set<SourceId>, deleted: set<SourceId>)

  /** A disable that has read its source active, at version `read`, and taken the time. */
  datatype PendingDisable = PendingDisable(source: SourceId, read: nat, stamp: int)

  /** Where a generated name points from, or why it points from nowhere. */
  datatype Place = OfRow(source: SourceId) | OfRequest(txn: TxnId) | Superseded | Orphaned | Compensated

  datatype State = State(
    clock: int,
    rows: seq<Row>,
    store: set<Name>,
    requests: map<TxnId, Request>,
    disables: map<TxnId, PendingDisable>,
    sweeps: map<TxnId, Sweep>,
    destructions: multiset<SourceId>,   // audit events of destroyed credentials
    places: map<Name, Place>)           // history: what became of every name ever generated

  datatype Event =
    | PutForCreate(txn: TxnId, key: string, content: string, secret: Name)
    | PutForRotate(txn: TxnId, source: SourceId, expectedVersion: nat, secret: Name)
    | Commit(txn: TxnId)
    | Fail(txn: TxnId)
    | Compensate(txn: TxnId)
    | Die(txn: TxnId)
    | Edit(source: SourceId, read: nat, content: string)
    | BeginDisable(txn: TxnId, source: SourceId)
    | CommitDisable(txn: TxnId)
    | BeginSweep(txn: TxnId, now: int)
    | DeleteSecret(txn: TxnId, source: SourceId)
    | CommitSweep(txn: TxnId)
    | AbortSweep(txn: TxnId)
    | Tick(now: int)

  predicate Due(row: Row, now: int) {
    row.status == Disabled && row.destroyedAt.None? && row.destroyAfter.Some? && row.destroyAfter.value <= now
  }

  function DueRows(rows: seq<Row>, now: int): set<SourceId> {
    set i | 0 <= i < |rows| && Due(rows[i], now)
  }

  predicate RowLocked(s: State, source: SourceId) {
    exists t :: t in s.sweeps && source in s.sweeps[t].locked
  }

  predicate Updatable(s: State, source: SourceId, expectedVersion: nat) {
    source < |s.rows| && s.rows[source].status == Active && s.rows[source].version == expectedVersion
  }

  function ApplyPut(s: State, txn: TxnId, r: Request): State {
    if txn in s.requests || r.secret in s.places then s
    else s.(store := s.store + {r.secret}, places := s.places[r.secret := OfRequest(txn)],
            requests := s.requests[txn := r])
  }

  predicate KeyTaken(rows: seq<Row>, key: string) {
    exists i :: 0 <= i < |rows| && rows[i].key == key
  }

  function ApplyCommit(s: State, txn: TxnId): State {
    if txn !in s.requests then s
    else match s.requests[txn]
      case Creating(key, content, secret) =>
        if KeyTaken(s.rows, key) then s.(requests := s.requests[txn := Compensating(secret)])
        else
          s.(rows := s.rows + [Row(key, content, secret, Active, 1, None, None, None)],
             places := s.places[secret := OfRow(|s.rows|)],
             requests := s.requests - {txn})
      case Rotating(source, expected, secret, _) =>
        if RowLocked(s, source) || source >= |s.rows| then s
        else
          s.(rows := s.rows[source := s.rows[source].(secret := secret, version := expected + 1)],
             places := s.places[s.rows[source].secret := Superseded][secret := OfRow(source)],
             requests := s.requests - {txn})
      case Compensating(_) => s
  }

  function ApplyFail(s: State, txn: TxnId): State {
    if txn !in s.requests then s else s.(requests := s.requests[txn := Compensating(s.requests[txn].secret)])
  }

  function ApplyCompensate(s: State, txn: TxnId): State {
    if txn !in s.requests || !s.requests[txn].Compensating? then s
    else s.(store := s.store - {s.requests[txn].secret}, places := s.places[s.requests[txn].secret := Compensated],
            requests := s.requests - {txn})
  }

  function ApplyDie(s: State, txn: TxnId): State {
    if txn !in s.requests then s
    else s.(places := s.places[s.requests[txn].secret := Orphaned], requests := s.requests - {txn})
  }

  /** The write of an update without a new credential, which read the row at version `read`. */
  function ApplyEdit(s: State, source: SourceId, read: nat, content: string): State {
    if RowLocked(s, source) || source >= |s.rows| then s
    else s.(rows := s.rows[source := s.rows[source].(version := read + 1, content := content)])
  }

  function Disabling(row: Row, read: nat, now: int): Row {
    row.(status := Disabled, version := read + 1, disabledAt := Some(now),
         destroyAfter := Some(now + THIRTY_DAYS))
  }

  function ApplyBeginDisable(s: State, txn: TxnId, source: SourceId): State {
    if txn in s.disables || source >= |s.rows| || s.rows[source].status != Active then s
    else s.(disables := s.disables[txn := PendingDisable(source, s.rows[source].version, s.clock)])
  }

  /** The retention constraint lets a second disable through unless the credential was destroyed
      earlier than its own deadline. */
  predicate DisableAccepted(row: Row, stamp: int) {
    row.destroyedAt.Some? ==> row.destroyedAt.value >= stamp + THIRTY_DAYS
  }

  /** The write of a disable. Several of them may have read the source active. */
  function ApplyCommitDisable(s: State, txn: TxnId): State {
    if txn !in s.disables then s
    else
      var pending := s.disables[txn];
      if pending.source >= |s.rows| || RowLocked(s, pending.source) then s
      else if !DisableAccepted(s.rows[pending.source], pending.stamp) then s
      else
        s.(rows := s.rows[pending.source := Disabling(s.rows[pending.source], pending.read, pending.stamp)],
           disables := s.disables - {txn})
  }

  /** A sweep looks at the clock first and locks the rows due by then. */
  function ApplyBeginSweep(s: State, txn: TxnId, now: int): State {
    var due := DueRows(s.rows, now);
    if txn in s.sweeps || now > s.clock || exists i :: i in due && RowLocked(s, i) then s
    else s.(sweeps := s.sweeps[txn := Sweep(now, due, {})])
  }

  function ApplyDeleteSecret(s: State, txn: TxnId, source: SourceId): State {
    if txn !in s.sweeps || source !in s.sweeps[txn].locked || source >= |s.rows| then s
    else
      var sweep := s.sweeps[txn];
      s.(store := s.store - {s.rows[source].secret},
         sweeps := s.sweeps[txn := sweep.(deleted := sweep.deleted + {source})])
  }

  function Marked(rows: seq<Row>, done: set<SourceId>, now: int): (r: seq<Row>)
    ensures |r| == |rows|
    ensures forall i | 0 <= i < |rows| :: r[i] == if i in done then rows[i].(destroyedAt := Some(now)) else rows[i]
  {
    seq(|rows|, i requires 0 <= i < |rows| => if i in done then rows[i].(destroyedAt := Some(now)) else rows[i])
  }

  function ApplyCommitSweep(s: State, txn: TxnId): State {
    if txn !in s.sweeps || s.sweeps[txn].deleted != s.sweeps[txn].locked then s
    else
      var sweep := s.sweeps[txn];
      s.(rows := Marked(s.rows, sweep.locked, sweep.now),
         destructions := s.destructions + multiset(sweep.locked),
         sweeps := s.sweeps - {txn})
  }

  function ApplyAbortSweep(s: State, txn: TxnId): State {
    s.(sweeps := s.sweeps - {txn})
  }

  function Apply(s: State, e: Event): State {
    match e
    case PutForCreate(txn, key, content, secret) =>
      if KeyTaken(s.rows, key) then s else ApplyPut(s, txn, Creating(key, content, secret))
    case PutForRotate(txn, source, expected, secret) =>
      if Updatable(s, source, expected) then ApplyPut(s, txn, Rotating(source, expected, secret, s.clock)) else s
    case Commit(txn) => ApplyCommit(s, txn)
    case Fail(txn) => ApplyFail(s, txn)
    case Compensate(txn) => ApplyCompensate(s, txn)
    case Die(txn) => ApplyDie(s, txn)
    case Edit(source, read, content) => ApplyEdit(s, source, read, content)
    case BeginDisable(txn, source) => ApplyBeginDisable(s, txn, source)
    case CommitDisable(txn) => ApplyCommitDisable(s, txn)
    case BeginSweep(txn, now) => ApplyBeginSweep(s, txn, now)
    case DeleteSecret(txn, source) => ApplyDeleteSecret(s, txn, source)
    case CommitSweep(txn) => ApplyCommitSweep(s, txn)
    case AbortSweep(txn) => ApplyAbortSweep(s, txn)
    case Tick(now) => if now < s.clock then s else s.(clock := now)
  }

  function Run(s: State, es: seq<Event>): State
    decreases |es|
  {
    if es == [] then s else Run(Apply(s, es[0]), es[1..])
  }

  // ---------------------------------------------------------------- invariants

  /** The table's CHECK constraint on the retention columns. */
  predicate LifecycleOk(row: Row) {
    match row.status
    case Active => row.disabledAt.None? && row.destroyAfter.None? && row.destroyedAt.None?
    case Disabled =>
      && row.disabledAt.Some? && row.destroyAfter == Some(row.disabledAt.value + THIRTY_DAYS)
      && (row.destroyedAt.Some? ==> row.destroyedAt.value >= row.destroyAfter.value)
  }

  /** What holds of one row, late requests or not. An active source's secret resolves; a destruction
      comes after its deadline and is audited once. */
  predicate RowOk(s: State, i: SourceId) {
    i < |s.rows| ==>
      && LifecycleOk(s.rows[i])
      && s.rows[i].secret in s.places && s.places[s.rows[i].secret] == OfRow(i)
      && (s.rows[i].status == Active ==> s.rows[i].secret in s.store)
      && s.destructions[i] == if s.rows[i].destroyedAt.Some? then 1 else 0
  }

  predicate RequestOk(s: State, t: TxnId) {
    t in s.requests ==>
      && s.requests[t].secret in s.store
      && s.requests[t].secret in s.places && s.places[s.requests[t].secret] == OfRequest(t)
  }

  /** What holds of one name: the store keeps exactly the rotated-out names, the names of
      requests, the orphans, and the names of rows whose secret was not deleted. */
  predicate NameOk(s: State, name: Name) {
    if name in s.places then
      match s.places[name]
      case OfRow(i) => i < |s.rows| && s.rows[i].secret == name
      case OfRequest(t) => t in s.requests && s.requests[t].secret == name
      case Compensated => name !in s.store
      case Orphaned => name in s.store
      case Superseded => true
    else name !in s.store
  }

  ghost predicate SweepOk(s: State, t: TxnId) {
    t in s.sweeps ==>
      var sweep := s.sweeps[t];
      && sweep.deleted <= sweep.locked
      && (forall i | i in sweep.locked :: i < |s.rows| && Due(s.rows[i], sweep.now))
      && (forall i | i in sweep.deleted && i < |s.rows| :: s.rows[i].secret !in s.store)
  }

  ghost predicate SweepsDisjoint(s: State) {
    forall t, u | t in s.sweeps && u in s.sweeps && t != u :: s.sweeps[t].locked !! s.sweeps[u].locked
  }

  ghost predicate Inv(s: State) {
    && (forall i :: RowOk(s, i))
    && (forall i | i >= |s.rows| :: s.destructions[i] == 0)
    && (forall t :: RequestOk(s, t))
    && (forall name :: NameOk(s, name))
    && (forall t :: SweepOk(s, t))
    && SweepsDisjoint(s)
    && KeysUnique(s.rows)
  }

  ghost predicate KeysUnique(rows: seq<Row>) {
    forall i, j | 0 <= i < j < |rows| :: rows[i].key != rows[j].key
  }

  /** Sweeps stay right when the rows they locked do, and deleted secrets do not come back. */
  lemma SweepsUntouched(s: State, u: State)
    requires Inv(s) && u.sweeps == s.sweeps && |s.rows| <= |u.rows|
    requires forall i | 0 <= i < |s.rows| && RowLocked(s, i) :: u.rows[i] == s.rows[i]
    requires forall i | 0 <= i < |s.rows| && s.rows[i].secret !in s.store :: s.rows[i].secret !in u.store
    ensures forall t :: SweepOk(u, t)
    ensures SweepsDisjoint(u)
  {
    forall t ensures SweepOk(u, t) {
      assert SweepOk(s, t);
      forall i | t in s.sweeps && i in s.sweeps[t].locked ensures RowLocked(s, i) {}
    }
  }

  lemma PutKeepsInv(s: State, txn: TxnId, r: Request)
    requires Inv(s)
    ensures Inv(ApplyPut(s, txn, r))
  {
    var u := ApplyPut(s, txn, r);
    assert NameOk(s, r.secret);
    forall i: nat ensures RowOk(u, i) && (i < |s.rows| && u != s ==> s.rows[i].secret != r.secret) {
      assert RowOk(s, i);
    }
    forall t ensures RequestOk(u, t) { assert RequestOk(s, t); }
    forall name ensures NameOk(u, name) { assert NameOk(s, name); }
    SweepsUntouched(s, u);
  }

  lemma CommitCreateKeepsRows(s: State, txn: TxnId)
    requires Inv(s) && txn in s.requests && s.requests[txn].Creating?
    ensures var u := ApplyCommit(s, txn);
            && (forall i :: RowOk(u, i)) && (forall i | i >= |u.rows| :: u.destructions[i] == 0) && KeysUnique(u.rows)
  {
    var u := ApplyCommit(s, txn);
    assert RequestOk(s, txn);
    forall i ensures RowOk(u, i) { assert RowOk(s, i); }
  }

  lemma CommitCreateKeepsInv(s: State, txn: TxnId)
    requires Inv(s) && txn in s.requests && s.requests[txn].Creating?
    ensures Inv(ApplyCommit(s, txn))
  {
    var u := ApplyCommit(s, txn);
    assert RequestOk(s, txn);
    CommitCreateKeepsRows(s, txn);
    forall t ensures RequestOk(u, t) { assert RequestOk(s, t); }
    forall name ensures NameOk(u, name) { assert NameOk(s, name); }
    SweepsUntouched(s, u);
  }

  lemma CommitRotateKeepsInv(s: State, txn: TxnId)
    requires Inv(s) && txn in s.requests && s.requests[txn].Rotating?
    ensures Inv(ApplyCommit(s, txn))
  {
    var u := ApplyCommit(s, txn);
    assert RequestOk(s, txn);
    assert RowOk(s, s.requests[txn].source);
    forall i ensures RowOk(u, i) { assert RowOk(s, i); }
    forall t ensures RequestOk(u, t) { assert RequestOk(s, t); }
    forall name ensures NameOk(u, name) { assert NameOk(s, name); }
    SweepsUntouched(s, u);
  }

  lemma EndKeepsInv(s: State, e: Event)
    requires Inv(s) && (e.Fail? || e.Compensate? || e.Die?)
    ensures Inv(Apply(s, e))
  {
    var u := Apply(s, e);
    assert RequestOk(s, e.txn);
    forall i ensures RowOk(u, i) { assert RowOk(s, i); }
    forall t ensures RequestOk(u, t) { assert RequestOk(s, t); }
    forall name ensures NameOk(u, name) { assert NameOk(s, name); }
    SweepsUntouched(s, u);
  }

  lemma RowChangeKeepsInv(s: State, source: SourceId, row: Row)
    requires Inv(s) && source < |s.rows| && !RowLocked(s, source)
    requires row.key == s.rows[source].key && row.secret == s.rows[source].secret
    requires row.destroyedAt == s.rows[source].destroyedAt && LifecycleOk(row)
    requires row.status == Active ==> s.rows[source].status == Active
    ensures Inv(s.(rows := s.rows[source := row]))
  {
    var u := s.(rows := s.rows[source := row]);
    forall i ensures RowOk(u, i) { assert RowOk(s, i); }
    forall t ensures RequestOk(u, t) { assert RequestOk(s, t); }
    forall name ensures NameOk(u, name) { assert NameOk(s, name); }
    SweepsUntouched(s, u);
  }

  lemma BeginSweepKeepsInv(s: State, txn: TxnId, now: int)
    requires Inv(s)
    ensures Inv(ApplyBeginSweep(s, txn, now))
  {
    var u := ApplyBeginSweep(s, txn, now);
    forall i ensures RowOk(u, i) { assert RowOk(s, i); }
    forall t ensures RequestOk(u, t) { assert RequestOk(s, t); }
    forall name ensures NameOk(u, name) { assert NameOk(s, name); }
    forall t ensures SweepOk(u, t) { assert SweepOk(s, t); }
    forall t, v, i | t in u.sweeps && v in u.sweeps && t != v && i in u.sweeps[t].locked
      ensures i !in u.sweeps[v].locked
    {
      assert t in s.sweeps && i in s.sweeps[t].locked ==> RowLocked(s, i);
      assert v in s.sweeps && i in s.sweeps[v].locked ==> RowLocked(s, i);
    }
  }

  lemma DeleteSecretKeepsInv(s: State, txn: TxnId, source: SourceId)
    requires Inv(s)
    ensures Inv(ApplyDeleteSecret(s, txn, source))
  {
    var u := ApplyDeleteSecret(s, txn, source);
    assert RowOk(s, source) && SweepOk(s, txn);
    forall i ensures RowOk(u, i) { assert RowOk(s, i); }
    forall t ensures RequestOk(u, t) { assert RequestOk(s, t); }
    forall name ensures NameOk(u, name) { assert NameOk(s, name); }
    forall t ensures SweepOk(u, t) { assert SweepOk(s, t); }
  }

  lemma CommitSweepKeepsRow(s: State, txn: TxnId, i: SourceId)
    requires SweepOk(s, txn) && RowOk(s, i) && (i >= |s.rows| ==> s.destructions[i] == 0)
    ensures var u := ApplyCommitSweep(s, txn); RowOk(u, i) && (i >= |s.rows| ==> u.destructions[i] == 0)
  {
  }

  lemma CommitSweepKeepsRows(s: State, txn: TxnId)
    requires Inv(s)
    ensures var u := ApplyCommitSweep(s, txn);
            (forall i :: RowOk(u, i)) && forall i | i >= |u.rows| :: u.destructions[i] == 0
  {
    var u := ApplyCommitSweep(s, txn);
    forall i: SourceId ensures RowOk(u, i) && (i >= |s.rows| ==> u.destructions[i] == 0) {
      assert SweepOk(s, txn) && RowOk(s, i);
      CommitSweepKeepsRow(s, txn, i);
    }
  }

  lemma CommitSweepKeepsInv(s: State, txn: TxnId)
    requires Inv(s)
    ensures Inv(ApplyCommitSweep(s, txn))
  {
    var u := ApplyCommitSweep(s, txn);
    CommitSweepKeepsRows(s, txn);
    forall t ensures RequestOk(u, t) { assert RequestOk(s, t); }
    forall name ensures NameOk(u, name) { assert NameOk(s, name); }
    CommitSweepKeepsSweeps(s, txn);
  }

  lemma CommitSweepKeepsSweeps(s: State, txn: TxnId)
    requires Inv(s)
    ensures var u := ApplyCommitSweep(s, txn); (forall t :: SweepOk(u, t)) && SweepsDisjoint(u)
  {
    var u := ApplyCommitSweep(s, txn);
    assert SweepOk(s, txn);
    forall t ensures SweepOk(u, t) {
      assert SweepOk(s, t);
    }
  }

  lemma AbortSweepKeepsInv(s: State, txn: TxnId)
    requires Inv(s)
    ensures Inv(ApplyAbortSweep(s, txn))
  {
    var u := ApplyAbortSweep(s, txn);
    forall i ensures RowOk(u, i) { assert RowOk(s, i); }
    forall t ensures RequestOk(u, t) { assert RequestOk(s, t); }
    forall name ensures NameOk(u, name) { assert NameOk(s, name); }
    forall t ensures SweepOk(u, t) { assert SweepOk(s, t); }
  }

  lemma TickKeepsInv(s: State, now: int)
    requires Inv(s)
    ensures Inv(Apply(s, Tick(now)))
  {
    var u := Apply(s, Tick(now));
    forall i ensures RowOk(u, i) { assert RowOk(s, i); }
    forall t ensures RequestOk(u, t) { assert RequestOk(s, t); }
    forall name ensures NameOk(u, name) { assert NameOk(s, name); }
    forall t ensures SweepOk(u, t) { assert SweepOk(s, t); }
  }

  lemma EditKeepsInv(s: State, source: SourceId, read: nat, content: string)
    requires Inv(s)
    ensures Inv(ApplyEdit(s, source, read, content))
  {
    if source < |s.rows| && !RowLocked(s, source) {
      assert RowOk(s, source);
      RowChangeKeepsInv(s, source, s.rows[source].(version := read + 1, content := content));
    }
  }

  /** The invariant is not about the disables in flight. */
  lemma DisablesKeepInv(s: State, disables: map<TxnId, PendingDisable>)
    requires Inv(s)
    ensures Inv(s.(disables := disables))
  {
    var u := s.(disables := disables);
    forall i ensures RowOk(u, i) { assert RowOk(s, i); }
    forall t ensures RequestOk(u, t) { assert RequestOk(s, t); }
    forall name ensures NameOk(u, name) { assert NameOk(s, name); }
    forall t ensures SweepOk(u, t) { assert SweepOk(s, t); }
  }

  lemma DisableKeepsInv(s: State, e: Event)
    requires Inv(s) && (e.BeginDisable? || e.CommitDisable?)
    ensures Inv(Apply(s, e))
  {
    var u := Apply(s, e);
    DisablesKeepInv(s, u.disables);
    if e.CommitDisable? && u != s {
      var pending, left := s.disables[e.txn], s.(disables := u.disables);
      assert RowOk(s, pending.source);
      assert !RowLocked(left, pending.source);
      RowChangeKeepsInv(left, pending.source, Disabling(s.rows[pending.source], pending.read, pending.stamp));
    }
  }

  lemma SweepKeepsInv(s: State, e: Event)
    requires Inv(s) && (e.BeginSweep? || e.DeleteSecret? || e.CommitSweep? || e.AbortSweep?)
    ensures Inv(Apply(s, e))
  {
    match e
    case BeginSweep(txn, now) => BeginSweepKeepsInv(s, txn, now);
    case DeleteSecret(txn, source) => DeleteSecretKeepsInv(s, txn, source);
    case CommitSweep(txn) => CommitSweepKeepsInv(s, txn);
    case AbortSweep(txn) => AbortSweepKeepsInv(s, txn);
  }

  lemma ApplyKeepsInv(s: State, e: Event)
    requires Inv(s)
    ensures Inv(Apply(s, e))
  {
    match e
    case PutForCreate(txn, key, content, secret) => PutKeepsInv(s, txn, Creating(key, content, secret));
    case PutForRotate(txn, source, expected, secret) =>
      PutKeepsInv(s, txn, Rotating(source, expected, secret, s.clock));
    case Commit(txn) =>
      if txn in s.requests && s.requests[txn].Creating? { CommitCreateKeepsInv(s, txn); }
      if txn in s.requests && s.requests[txn].Rotating? { CommitRotateKeepsInv(s, txn); }
    case Edit(source, read, content) => EditKeepsInv(s, source, read, content);
    case BeginDisable(_, _) => DisableKeepsInv(s, e);
    case CommitDisable(_) => DisableKeepsInv(s, e);
    case Tick(now) => TickKeepsInv(s, now);
    case Fail(_) => EndKeepsInv(s, e);
    case Compensate(_) => EndKeepsInv(s, e);
    case Die(_) => EndKeepsInv(s, e);
    case _ => SweepKeepsInv(s, e);
  }

  const START: State := State(0, [], {}, map[], map[], map[], multiset{}, map[])

  lemma StartSatisfiesInv()
    ensures Inv(START)
  {
  }

  lemma {:induction false} RunKeepsInv(s: State, es: seq<Event>)
    requires Inv(s)
    ensures Inv(Run(s, es))
    decreases |es|
  {
    if es != [] {
      ApplyKeepsInv(s, es[0]);
      RunKeepsInv(Apply(s, es[0]), es[1..]);
    }
  }

  // ------------------------------------------------- destroyed, and still gone?

  /** This step does not commit a rotation onto source i after its credential was destroyed. */
  predicate TimelyFor(s: State, e: Event, i: SourceId) {
    e.Commit? && e.txn in s.requests && s.requests[e.txn].Rotating? && s.requests[e.txn].source == i < |s.rows| ==>
      s.rows[i].destroyedAt.None?
  }

  predicate AllTimelyFor(s: State, es: seq<Event>, i: SourceId)
    decreases |es|
  {
    es == [] || (TimelyFor(s, es[0], i) && AllTimelyFor(Apply(s, es[0]), es[1..], i))
  }

  predicate Gone(s: State, i: SourceId) {
    i < |s.rows| && s.rows[i].destroyedAt.Some? ==> s.rows[i].secret !in s.store
  }

  predicate Revived(s: State, i: SourceId) {
    i < |s.rows| && s.rows[i].destroyedAt.Some? && s.rows[i].secret in s.store
  }

  lemma TimelyStepKeepsGone(s: State, e: Event, i: SourceId)
    requires Inv(s) && Gone(s, i) && TimelyFor(s, e, i)
    ensures Gone(Apply(s, e), i)
  {
    assert RowOk(s, i);
    match e {
      case Commit(txn) => assert RequestOk(s, txn);
      case CommitSweep(txn) => assert SweepOk(s, txn);
      case PutForCreate(_, _, _, secret) => assert NameOk(s, secret);
      case PutForRotate(_, _, _, secret) => assert NameOk(s, secret);
      case _ =>
    }
  }

  lemma DestroyedIsUnlocked(s: State, i: SourceId)
    requires Inv(s) && i < |s.rows| && s.rows[i].destroyedAt.Some?
    ensures !RowLocked(s, i)
  {
    forall t | t in s.sweeps ensures i !in s.sweeps[t].locked { assert SweepOk(s, t); }
  }

  lemma LateStepRevives(s: State, e: Event, i: SourceId)
    requires Inv(s) && !TimelyFor(s, e, i)
    ensures Revived(Apply(s, e), i)
  {
    assert RequestOk(s, e.txn);
    DestroyedIsUnlocked(s, i);
  }

  lemma RevivedStep(s: State, e: Event, i: SourceId)
    requires Inv(s) && Revived(s, i)
    ensures Revived(Apply(s, e), i)
  {
    assert RowOk(s, i);
    DestroyedIsUnlocked(s, i);
    match e {
      case Commit(txn) => RevivedCommit(s, txn, i);
      case Compensate(txn) => assert RequestOk(s, txn);
      case CommitSweep(txn) => assert SweepOk(s, txn);
      case DeleteSecret(txn, source) => assert RowOk(s, source) && SweepOk(s, txn);
      case _ =>
    }
  }

  lemma RevivedCommit(s: State, txn: TxnId, i: SourceId)
    requires Inv(s) && Revived(s, i)
    ensures Revived(ApplyCommit(s, txn), i)
  {
    assert RequestOk(s, txn);
  }

  lemma {:induction false} RevivedForever(s: State, es: seq<Event>, i: SourceId)
    requires Inv(s) && Revived(s, i)
    ensures Revived(Run(s, es), i)
    decreases |es|
  {
    if es != [] {
      RevivedStep(s, es[0], i);
      ApplyKeepsInv(s, es[0]);
      RevivedForever(Apply(s, es[0]), es[1..], i);
    }
  }

  lemma {:induction false} RunDecidesGone(s: State, es: seq<Event>, i: SourceId)
    requires Inv(s) && Gone(s, i)
    ensures if AllTimelyFor(s, es, i) then Gone(Run(s, es), i) else Revived(Run(s, es), i)
    decreases |es|
  {
    if es != [] {
      var u := Apply(s, es[0]);
      ApplyKeepsInv(s, es[0]);
      if TimelyFor(s, es[0], i) {
        TimelyStepKeepsGone(s, es[0], i);
        RunDecidesGone(u, es[1..], i);
      } else {
        LateStepRevives(s, es[0], i);
        RevivedForever(u, es[1..], i);
      }
    }
  }

  // ------------------------------------------------------------ short requests

  /** This step does not commit a rotation of source i more than `r` after its read. */
  predicate RotatesWithin(s: State, e: Event, i: SourceId, r: int) {
    e.Commit? && e.txn in s.requests && s.requests[e.txn].Rotating? && s.requests[e.txn].source == i
    && Apply(s, e) != s ==>
      s.clock - s.requests[e.txn].readAt <= r
  }

  /** This step does not commit a disable of source i more than `d` after its read. */
  predicate DisablesWithin(s: State, e: Event, i: SourceId, d: int) {
    e.CommitDisable? && e.txn in s.disables && s.disables[e.txn].source == i && Apply(s, e) != s ==>
      s.clock - s.disables[e.txn].stamp <= d
  }

  predicate AllRotateWithin(s: State, es: seq<Event>, i: SourceId, r: int)
    decreases |es|
  {
    es == [] || (RotatesWithin(s, es[0], i, r) && AllRotateWithin(Apply(s, es[0]), es[1..], i, r))
  }

  predicate AllDisableWithin(s: State, es: seq<Event>, i: SourceId, d: int)
    decreases |es|
  {
    es == [] || (DisablesWithin(s, es[0], i, d) && AllDisableWithin(Apply(s, es[0]), es[1..], i, d))
  }

  /** Nothing carries a time in the future. */
  ghost predicate TimesOk(s: State) {
    && (forall i | 0 <= i < |s.rows| :: RowTimesOk(s, i))
    && (forall t | t in s.sweeps :: s.sweeps[t].now <= s.clock)
    && (forall t | t in s.requests && s.requests[t].Rotating? :: s.requests[t].readAt <= s.clock)
  }

  predicate RowTimesOk(s: State, i: nat)
    requires i < |s.rows|
  {
    s.rows[i].destroyedAt.Some? ==> s.rows[i].destroyedAt.value <= s.clock
  }

  lemma RowTimesStep(s: State, e: Event, i: nat)
    requires TimesOk(s) && i < |Apply(s, e).rows|
    ensures RowTimesOk(Apply(s, e), i)
  {
    assert i < |s.rows| ==> RowTimesOk(s, i);
  }

  lemma ApplyKeepsTimes(s: State, e: Event)
    requires TimesOk(s)
    ensures TimesOk(Apply(s, e))
  {
    var u := Apply(s, e);
    forall i | 0 <= i < |u.rows| ensures RowTimesOk(u, i) { RowTimesStep(s, e, i); }
    ReadTimesStep(s, e);
    SweepTimesStep(s, e);
  }

  lemma ReadTimesStep(s: State, e: Event)
    requires TimesOk(s)
    ensures var u := Apply(s, e);
            forall t | t in u.requests && u.requests[t].Rotating? :: u.requests[t].readAt <= u.clock
  {
  }

  lemma SweepTimesStep(s: State, e: Event)
    requires TimesOk(s)
    ensures forall t | t in Apply(s, e).sweeps :: Apply(s, e).sweeps[t].now <= Apply(s, e).clock
  {
  }

  /** While disables of source i take at most `d`, a rotation has read it at most `d` after the time
      that now stands on the row as the time of its disable. */
  predicate ReadSoon(s: State, i: SourceId, d: int, t: TxnId) {
    t in s.requests && s.requests[t].Rotating? && s.requests[t].source == i ==>
      i < |s.rows| && (s.rows[i].disabledAt.Some? ==> s.requests[t].readAt <= s.rows[i].disabledAt.value + d)
  }

  ghost predicate AllReadSoon(s: State, i: SourceId, d: int) {
    forall t :: ReadSoon(s, i, d, t)
  }

  lemma ReadSoonStep(s: State, e: Event, i: SourceId, d: int, t: TxnId)
    requires Inv(s) && TimesOk(s) && ReadSoon(s, i, d, t) && DisablesWithin(s, e, i, d)
    ensures ReadSoon(Apply(s, e), i, d, t)
  {
    assert RowOk(s, i);
  }

  lemma ReadsStaySoon(s: State, e: Event, i: SourceId, d: int)
    requires Inv(s) && TimesOk(s) && AllReadSoon(s, i, d) && DisablesWithin(s, e, i, d)
    ensures AllReadSoon(Apply(s, e), i, d)
  {
    forall t ensures ReadSoon(Apply(s, e), i, d, t) {
      assert ReadSoon(s, i, d, t);
      ReadSoonStep(s, e, i, d, t);
    }
  }

  lemma ShortStepIsTimely(s: State, e: Event, i: SourceId, r: int, d: int)
    requires Inv(s) && TimesOk(s) && AllReadSoon(s, i, d) && r + d < THIRTY_DAYS && RotatesWithin(s, e, i, r)
    ensures TimelyFor(s, e, i)
  {
    if e.Commit? && e.txn in s.requests && s.requests[e.txn].Rotating? && s.requests[e.txn].source == i < |s.rows| {
      assert RowOk(s, i) && RowTimesOk(s, i) && ReadSoon(s, i, d, e.txn);
      if s.rows[i].destroyedAt.Some? {
        DestroyedIsUnlocked(s, i);
      }
    }
  }

  lemma {:induction false} ShortRunIsTimely(s: State, es: seq<Event>, i: SourceId, r: int, d: int)
    requires Inv(s) && TimesOk(s) && AllReadSoon(s, i, d) && r + d < THIRTY_DAYS
    requires AllRotateWithin(s, es, i, r) && AllDisableWithin(s, es, i, d)
    ensures AllTimelyFor(s, es, i)
    decreases |es|
  {
    if es != [] {
      ShortStepIsTimely(s, es[0], i, r, d);
      ApplyKeepsInv(s, es[0]);
      ApplyKeepsTimes(s, es[0]);
      ReadsStaySoon(s, es[0], i, d);
      ShortRunIsTimely(Apply(s, es[0]), es[1..], i, r, d);
    }
  }

  // ---------------------------------------------------------------- theorems

  /** Across rotations, failed commits, compensations, maintenance retries, late requests and
      deaths at any point: the secret of every active source is in the store; a source marked
      destroyed was disabled at least thirty days earlier and was audited exactly once; no other
      source was. */
  lemma CredentialsFollowTheirRows(es: seq<Event>, i: SourceId)
    requires i < |Run(START, es).rows|
    ensures var s := Run(START, es); var row := s.rows[i];
            && (row.status == Active ==> row.secret in s.store)
            && (row.destroyedAt.Some? ==>
                  && row.status == Disabled && row.disabledAt.Some?
                  && row.destroyedAt.value >= row.disabledAt.value + 2592000)
            && s.destructions[i] == if row.destroyedAt.Some? then 1 else 0
  {
    StartSatisfiesInv();
    RunKeepsInv(START, es);
    assert RowOk(Run(START, es), i);
  }

  /** A source marked destroyed has its secret gone exactly when no rotation of that very source
      committed after the destruction; whatever happened to other sources. */
  lemma DestroyedIsGoneIffTimely(es: seq<Event>, i: SourceId)
    requires i < |Run(START, es).rows| && Run(START, es).rows[i].destroyedAt.Some?
    ensures Run(START, es).rows[i].secret !in Run(START, es).store <==> AllTimelyFor(START, es, i)
  {
    StartSatisfiesInv();
    RunDecidesGone(START, es, i);
  }

  /** So it is gone when rotations and disables of the source are short: a rotation's read to its
      commit and a disable's read to its commit together take less than the retention. */
  lemma ShortRequestsKeepItGone(es: seq<Event>, i: SourceId, r: int, d: int)
    requires i < |Run(START, es).rows| && Run(START, es).rows[i].destroyedAt.Some?
    requires AllRotateWithin(START, es, i, r) && AllDisableWithin(START, es, i, d) && r + d < THIRTY_DAYS
    ensures Run(START, es).rows[i].secret !in Run(START, es).store
  {
    StartSatisfiesInv();
    ShortRunIsTimely(START, es, i, r, d);
    DestroyedIsGoneIffTimely(es, i);
  }

  predicate SameMark(a: Row, b: Row) {
    a.status == b.status && a.destroyedAt == b.destroyedAt
  }

  lemma DestroyedRowStays(s: State, e: Event, i: SourceId)
    requires Inv(s) && i < |s.rows| && s.rows[i].destroyedAt.Some?
    ensures i < |Apply(s, e).rows| && SameMark(Apply(s, e).rows[i], s.rows[i])
    ensures TimelyFor(s, e, i) ==> Apply(s, e).rows[i].secret == s.rows[i].secret
  {
    assert RowOk(s, i);
    if e.CommitSweep? {
      assert SweepOk(s, e.txn);
    }
  }

  /** Destruction is final: the source stays disabled and its mark never changes. Unless a late rotation
      gets there it also keeps its reference, and a secret that is gone never comes back. */
  lemma {:induction false} DestructionIsFinal(s: State, es: seq<Event>, i: SourceId)
    requires Inv(s) && i < |s.rows| && s.rows[i].destroyedAt.Some?
    ensures i < |Run(s, es).rows| && SameMark(Run(s, es).rows[i], s.rows[i])
    ensures AllTimelyFor(s, es, i) ==>
              && Run(s, es).rows[i].secret == s.rows[i].secret
              && (s.rows[i].secret !in s.store ==> s.rows[i].secret !in Run(s, es).store)
    decreases |es|
  {
    if es != [] {
      DestroyedRowStays(s, es[0], i);
      if Gone(s, i) && TimelyFor(s, es[0], i) {
        TimelyStepKeepsGone(s, es[0], i);
      }
      ApplyKeepsInv(s, es[0]);
      DestructionIsFinal(Apply(s, es[0]), es[1..], i);
    }
  }

  lemma DisableTimeStep(s: State, e: Event, i: SourceId, d: int)
    requires Inv(s) && TimesOk(s) && i < |s.rows| && s.rows[i].destroyedAt.Some?
    requires DisablesWithin(s, e, i, d) && d < THIRTY_DAYS
    ensures i < |Apply(s, e).rows| && Apply(s, e).rows[i].disabledAt == s.rows[i].disabledAt
  {
    assert RowOk(s, i) && RowTimesOk(s, i);
    if e.CommitSweep? {
      assert SweepOk(s, e.txn);
    }
  }

  /** Nor does the time of its disable change, unless another disable took thirty days or more. */
  lemma {:induction false} DisableTimeIsFinal(s: State, es: seq<Event>, i: SourceId, d: int)
    requires Inv(s) && TimesOk(s) && i < |s.rows| && s.rows[i].destroyedAt.Some?
    requires AllDisableWithin(s, es, i, d) && d < THIRTY_DAYS
    ensures i < |Run(s, es).rows| && Run(s, es).rows[i].disabledAt == s.rows[i].disabledAt
    decreases |es|
  {
    if es != [] {
      DisableTimeStep(s, es[0], i, d);
      DestroyedRowStays(s, es[0], i);
      ApplyKeepsInv(s, es[0]);
      ApplyKeepsTimes(s, es[0]);
      DisableTimeIsFinal(Apply(s, es[0]), es[1..], i, d);
    }
  }

  lemma {:induction false} OrphansComeFromDeaths(s: State, es: seq<Event>)
    requires forall k | 0 <= k < |es| :: !es[k].Die?
    requires forall name | name in s.places :: s.places[name] != Orphaned
    ensures forall name | name in Run(s, es).places :: Run(s, es).places[name] != Orphaned
    decreases |es|
  {
    if es != [] {
      OrphansComeFromDeaths(Apply(s, es[0]), es[1..]);
    }
  }

  ghost predicate IsAccounted(es: seq<Event>, name: Name, place: Place) {
    var s := Run(START, es);
    match place
    case OfRow(i) =>
      && i < |s.rows| && s.rows[i].secret == name
      && (s.rows[i].destroyedAt.Some? ==> !AllTimelyFor(START, es, i))
    case OfRequest(t) => t in s.requests && s.requests[t].secret == name
    case Superseded => true
    case Orphaned => exists k :: 0 <= k < |es| && es[k].Die?
    case Compensated => false
  }

  /** The store holds nothing that is not accounted for: the name on exactly one row, destroyed only
      if a late rotation put it there; the name of a request still at work; a name rotated out of a
      row; or, if some request died, a name it left behind. */
  lemma StoreIsAccountedFor(es: seq<Event>, name: Name)
    requires name in Run(START, es).store
    ensures name in Run(START, es).places && IsAccounted(es, name, Run(START, es).places[name])
  {
    StartSatisfiesInv();
    RunKeepsInv(START, es);
    var s := Run(START, es);
    assert NameOk(s, name);
    if s.places[name].OfRow? && s.rows[s.places[name].source].destroyedAt.Some? {
      DestroyedIsGoneIffTimely(es, s.places[name].source);
    }
    if forall k | 0 <= k < |es| :: !es[k].Die? {
      OrphansComeFromDeaths(START, es);
    }
  }

  predicate LeftBehind(s: State, name: Name) {
    name in s.places && s.places[name] in {Superseded, Orphaned} && name in s.store
  }

  lemma SupersededStep(s: State, e: Event, name: Name)
    requires Inv(s) && LeftBehind(s, name)
    ensures LeftBehind(Apply(s, e), name)
  {
    if e.Commit? || e.Compensate? || e.Die? {
      assert RequestOk(s, e.txn);
      if e.txn in s.requests && s.requests[e.txn].Rotating? {
        assert RowOk(s, s.requests[e.txn].source);
      }
    }
    if e.DeleteSecret? {
      assert RowOk(s, e.source);
    }
  }

  /** How a secret is left behind: its request dies between the two stores, or a rotation points its
      source to another one. */
  lemma SecretsLeftBehind(s: State, txn: TxnId)
    requires Inv(s) && txn in s.requests
    ensures LeftBehind(Apply(s, Die(txn)), s.requests[txn].secret)
    ensures Apply(s, Die(txn)).rows == s.rows && Apply(s, Die(txn)).store == s.store
    ensures var r := s.requests[txn];
            r.Rotating? && r.source < |s.rows| && !RowLocked(s, r.source) && s.rows[r.source].secret in s.store ==>
              LeftBehind(Apply(s, Commit(txn)), s.rows[r.source].secret)
  {
    assert RequestOk(s, txn);
    if s.requests[txn].Rotating? {
      assert RowOk(s, s.requests[txn].source);
    }
  }

  /** Rotation leaves the previous version in place, and nothing ever deletes it, nor what a dead
      request put: destroying a source's credential covers the reference on its row only. */
  lemma {:induction false} SupersededSecretsAreKept(s: State, es: seq<Event>, name: Name)
    requires Inv(s) && LeftBehind(s, name)
    ensures LeftBehind(Run(s, es), name)
    decreases |es|
  {
    if es != [] {
      SupersededStep(s, es[0], name);
      ApplyKeepsInv(s, es[0]);
      SupersededSecretsAreKept(Apply(s, es[0]), es[1..], name);
    }
  }

  /** A create that nothing overtakes adds an active source under a free key, and its secret. */
  lemma UndisturbedCreate(s: State, txn: TxnId, key: string, content: string, secret: Name)
    requires Inv(s) && txn !in s.requests && secret !in s.places
    ensures var t := Apply(Apply(s, PutForCreate(txn, key, content, secret)), Commit(txn));
            if exists i :: 0 <= i < |s.rows| && s.rows[i].key == key then t == s
            else
              && t.rows == s.rows + [Row(key, content, secret, Active, 1, None, None, None)]
              && t.store == s.store + {secret} && t.requests == s.requests
  {
    var put := Apply(s, PutForCreate(txn, key, content, secret));
    if !KeyTaken(s.rows, key) {
      assert put.requests - {txn} == s.requests;
    }
  }

  /** A rotation that nothing overtakes points the source to the new secret, one version up, and is
      refused unless the source is active and at the expected version. */
  lemma UndisturbedRotation(s: State, txn: TxnId, source: SourceId, expected: nat, secret: Name)
    requires Inv(s) && txn !in s.requests && secret !in s.places && !RowLocked(s, source)
    ensures var t := Apply(Apply(s, PutForRotate(txn, source, expected, secret)), Commit(txn));
            if source < |s.rows| && s.rows[source].status == Active && s.rows[source].version == expected then
              && t.rows == s.rows[source := s.rows[source].(secret := secret, version := expected + 1)]
              && t.store == s.store + {secret} && t.requests == s.requests
            else t == s
  {
    var put := Apply(s, PutForRotate(txn, source, expected, secret));
    assert put.sweeps == s.sweeps && !RowLocked(put, source);
    if Updatable(s, source, expected) {
      assert put.requests - {txn} == s.requests;
    }
  }

  /** A disable that nothing overtakes sets its time, a deadline thirty days later, and one version up;
      it is refused unless the source is active. */
  lemma UndisturbedDisable(s: State, txn: TxnId, source: SourceId)
    requires Inv(s) && txn !in s.disables && !RowLocked(s, source)
    ensures var t := Apply(Apply(s, BeginDisable(txn, source)), CommitDisable(txn));
            if source < |s.rows| && s.rows[source].status == Active then
              var row := s.rows[source];
              && t.rows == s.rows[source := row.(status := Disabled, version := row.version + 1,
                                                 disabledAt := Some(s.clock), destroyAfter := Some(s.clock + 2592000))]
              && t.store == s.store && t.disables == s.disables
            else t == s
  {
    var begun := Apply(s, BeginDisable(txn, source));
    assert RowOk(s, source);
    assert !RowLocked(begun, source);
    if source < |s.rows| && s.rows[source].status == Active {
      assert begun.disables - {txn} == s.disables;
    }
  }

  /** The write of an update without a credential: the content, and the version read plus one. */
  lemma EditWrites(s: State, source: SourceId, read: nat, content: string)
    requires source < |s.rows| && !RowLocked(s, source)
    ensures Apply(s, Edit(source, read, content))
         == s.(rows := s.rows[source := s.rows[source].(content := content, version := read + 1)])
  {
  }

  /** A disable that was overtaken by another one still writes, unless the credential was destroyed
      before its own deadline, thirty days after its stamp. */
  lemma LateDisableWritesIff(s: State, txn: TxnId)
    requires txn in s.disables && s.disables[txn].source < |s.rows| && !RowLocked(s, s.disables[txn].source)
    ensures var pending := s.disables[txn]; var row := s.rows[pending.source];
            var t := Apply(s, CommitDisable(txn));
            if row.destroyedAt.None? || row.destroyedAt.value >= pending.stamp + 2592000 then
              t.rows == s.rows[pending.source := row.(status := Disabled, version := pending.read + 1,
                                                      disabledAt := Some(pending.stamp),
                                                      destroyAfter := Some(pending.stamp + 2592000))]
            else t == s
  {
  }

  /** A sweep that starts takes exactly the sources whose deadline has passed by its reading of the
      clock, and not one that is active or destroyed already. */
  lemma SweepTakesTheDue(s: State, txn: TxnId, now: int)
    requires txn !in s.sweeps && txn in Apply(s, BeginSweep(txn, now)).sweeps
    ensures now <= s.clock
    ensures Apply(s, BeginSweep(txn, now)).sweeps[txn].now == now
    ensures Apply(s, BeginSweep(txn, now)).sweeps[txn].locked
         == set i | 0 <= i < |s.rows| && s.rows[i].status == Disabled && s.rows[i].destroyedAt.None?
                    && s.rows[i].destroyAfter.Some? && s.rows[i].destroyAfter.value <= now
  {
  }

  /** A failed request leaves no trace: both stores are as before its secret was put. */
  lemma FailureIsCompensated(s: State, txn: TxnId, r: Request)
    requires Inv(s) && txn !in s.requests && r.secret !in s.places
    ensures var t := ApplyCompensate(ApplyFail(ApplyPut(s, txn, r), txn), txn);
            t.rows == s.rows && t.store == s.store && t.requests == s.requests
  {
    assert NameOk(s, r.secret);
  }

  // ------------------------------------------------------- a late rotation

  /** `es` leads from s to t, with rotations of source 0 taking at most `r` and disables at most `d`. */
  predicate Leads(s: State, es: seq<Event>, t: State, r: int, d: int) {
    Run(s, es) == t && AllRotateWithin(s, es, 0, r) && AllDisableWithin(s, es, 0, d)
  }

  predicate Within(s: State, e: Event, r: int, d: int) {
    RotatesWithin(s, e, 0, r) && DisablesWithin(s, e, 0, d)
  }

  lemma {:induction false} LeadsOn(s: State, a: seq<Event>, t: State, b: seq<Event>, u: State, r: int, d: int)
    requires Leads(s, a, t, r, d) && Leads(t, b, u, r, d)
    ensures Leads(s, a + b, u, r, d)
    decreases |a|
  {
    if a == [] {
      assert a + b == b;
    } else {
      assert (a + b)[1..] == a[1..] + b;
      LeadsOn(Apply(s, a[0]), a[1..], t, b, u, r, d);
    }
  }

  lemma LeadsTwo(s: State, e: Event, f: Event, r: int, d: int)
    requires Within(s, e, r, d) && Within(Apply(s, e), f, r, d)
    ensures Leads(s, [e, f], Apply(Apply(s, e), f), r, d)
  {
    var mid := Apply(s, e);
    assert [e, f] == [e] + [f];
    assert Leads(s, [e], mid, r, d) && Leads(mid, [f], Apply(mid, f), r, d);
    LeadsOn(s, [e], mid, [f], Apply(mid, f), r, d);
  }

  /** A source is created, a disable takes its time stamp, and `d` later a rotation reads the source
      and puts its secret, just before the disable is written. */
  function RotationWaits(key: string, first: Name, late: Name, d: int): seq<Event> {
    [PutForCreate(0, key, "", first), Commit(0)] + [BeginDisable(3, 0), Tick(d)]
    + [PutForRotate(1, 0, 1, late), CommitDisable(3)]
  }

  function DestroyDue(): seq<Event> {
    [Tick(THIRTY_DAYS), BeginSweep(2, THIRTY_DAYS)] + [DeleteSecret(2, 0), CommitSweep(2)]
  }

  function CreatedAlone(key: string, first: Name): State {
    State(0, [Row(key, "", first, Active, 1, None, None, None)], {first}, map[], map[], map[], multiset{},
          map[first := OfRow(0)])
  }

  function Waiting(key: string, first: Name, late: Name, d: int): State {
    State(d, [Row(key, "", first, Disabled, 2, Some(0), Some(THIRTY_DAYS), None)], {first, late},
          map[1 := Rotating(0, 1, late, d)], map[], map[], multiset{}, map[first := OfRow(0), late := OfRequest(1)])
  }

  lemma LeadsToWaiting(key: string, first: Name, late: Name, r: int, d: int)
    requires first != late && d >= 0
    ensures Leads(START, RotationWaits(key, first, late, d), Waiting(key, first, late, d), r, d)
  {
    var created := CreatedAlone(key, first);
    var overlapping := created.(clock := d, disables := map[3 := PendingDisable(0, 1, 0)]);
    LeadsTwo(START, PutForCreate(0, key, "", first), Commit(0), r, d);
    assert Apply(Apply(START, PutForCreate(0, key, "", first)), Commit(0)) == created;
    LeadsTwo(created, BeginDisable(3, 0), Tick(d), r, d);
    assert Apply(Apply(created, BeginDisable(3, 0)), Tick(d)) == overlapping;
    LeadsFromOverlap(key, first, late, r, d);
    LeadsOn(START, [PutForCreate(0, key, "", first), Commit(0)], created, [BeginDisable(3, 0), Tick(d)], overlapping,
            r, d);
    LeadsOn(START, [PutForCreate(0, key, "", first), Commit(0)] + [BeginDisable(3, 0), Tick(d)], overlapping,
            [PutForRotate(1, 0, 1, late), CommitDisable(3)], Waiting(key, first, late, d), r, d);
  }

  lemma LeadsFromOverlap(key: string, first: Name, late: Name, r: int, d: int)
    requires first != late && d >= 0
    ensures var overlapping := CreatedAlone(key, first).(clock := d, disables := map[3 := PendingDisable(0, 1, 0)]);
            Leads(overlapping, [PutForRotate(1, 0, 1, late), CommitDisable(3)], Waiting(key, first, late, d), r, d)
  {
    var overlapping := CreatedAlone(key, first).(clock := d, disables := map[3 := PendingDisable(0, 1, 0)]);
    LeadsTwo(overlapping, PutForRotate(1, 0, 1, late), CommitDisable(3), r, d);
    assert Apply(Apply(overlapping, PutForRotate(1, 0, 1, late)), CommitDisable(3)) == Waiting(key, first, late, d);
  }

  /** The state in which the one source is due and locked by a sweep. */
  function Sweeping(waiting: State): State {
    waiting.(clock := THIRTY_DAYS, sweeps := map[2 := Sweep(THIRTY_DAYS, {0}, {})])
  }

  function Destroyed(waiting: State): State
    requires |waiting.rows| == 1
  {
    waiting.(clock := THIRTY_DAYS, rows := [waiting.rows[0].(destroyedAt := Some(THIRTY_DAYS))],
             store := waiting.store - {waiting.rows[0].secret}, destructions := waiting.destructions + multiset{0})
  }

  lemma SweepingBegins(s: State)
    requires s.sweeps == map[] && |s.rows| == 1 && Due(s.rows[0], THIRTY_DAYS) && s.clock <= THIRTY_DAYS
    ensures Apply(Apply(s, Tick(THIRTY_DAYS)), BeginSweep(2, THIRTY_DAYS)) == Sweeping(s)
  {
    assert DueRows(s.rows, THIRTY_DAYS) == {0};
  }

  lemma SweepingEnds(s: State)
    requires s.sweeps == map[] && |s.rows| == 1
    ensures Apply(Apply(Sweeping(s), DeleteSecret(2, 0)), CommitSweep(2)) == Destroyed(s)
  {
    var deleted := ApplyDeleteSecret(Sweeping(s), 2, 0);
    assert deleted.sweeps[2] == Sweep(THIRTY_DAYS, {0}, {0}) && deleted.sweeps - {2} == map[];
    assert multiset({0 as SourceId}) == multiset{0};
  }

  lemma LeadsToDestroyed(s: State, r: int, d: int)
    requires s.sweeps == map[] && |s.rows| == 1 && Due(s.rows[0], THIRTY_DAYS) && s.clock <= THIRTY_DAYS
    ensures Leads(s, DestroyDue(), Destroyed(s), r, d)
  {
    SweepingBegins(s);
    LeadsTwo(s, Tick(THIRTY_DAYS), BeginSweep(2, THIRTY_DAYS), r, d);
    SweepingEnds(s);
    LeadsTwo(Sweeping(s), DeleteSecret(2, 0), CommitSweep(2), r, d);
    LeadsOn(s, [Tick(THIRTY_DAYS), BeginSweep(2, THIRTY_DAYS)], Sweeping(s), [DeleteSecret(2, 0), CommitSweep(2)],
            Destroyed(s), r, d);
  }

  /** A history that is not timely: a disable is stamped, written `d` later, and just before that a
      rotation reads; thirty days after the stamp the credential is destroyed, and then the rotation
      commits. It took the rest of the thirty days. */
  lemma LateRotationRevives(key: string, first: Name, late: Name, d: int)
    requires first != late && 0 <= d <= THIRTY_DAYS
    ensures var es := RotationWaits(key, first, late, d) + DestroyDue() + [Commit(1)];
            && AllRotateWithin(START, es, 0, THIRTY_DAYS - d) && AllDisableWithin(START, es, 0, d)
            && Revived(Run(START, es), 0)
  {
    var waiting, r := Waiting(key, first, late, d), THIRTY_DAYS - d;
    var before := RotationWaits(key, first, late, d) + DestroyDue();
    var destroyed := Destroyed(waiting);
    LeadsToWaiting(key, first, late, r, d);
    LeadsToDestroyed(waiting, r, d);
    LeadsOn(START, RotationWaits(key, first, late, d), waiting, DestroyDue(), destroyed, r, d);
    assert Within(destroyed, Commit(1), r, d);
    assert Leads(destroyed, [Commit(1)], Apply(destroyed, Commit(1)), r, d);
    LeadsOn(START, before, destroyed, [Commit(1)], Apply(destroyed, Commit(1)), r, d);
  }

  /** Some history with rotations of at most `r` and disables of at most `d` revives a secret. */
  ghost predicate CanRevive(r: int, d: int) {
    exists es, i :: AllRotateWithin(START, es, i, r) && AllDisableWithin(START, es, i, d) && Revived(Run(START, es), i)
  }

  lemma {:induction false} LongerBounds(s: State, es: seq<Event>, i: SourceId, r: int, d: int, r': int, d': int)
    requires AllRotateWithin(s, es, i, r) && AllDisableWithin(s, es, i, d) && r <= r' && d <= d'
    ensures AllRotateWithin(s, es, i, r') && AllDisableWithin(s, es, i, d')
    decreases |es|
  {
    if es != [] {
      LongerBounds(Apply(s, es[0]), es[1..], i, r, d, r', d');
    }
  }

  /** The retention is exactly the bound: durations of rotations and disables rule out every revival
      if and only if together they are shorter than thirty days. */
  lemma RetentionIsTheBound(r: int, d: int)
    requires r >= 0 && d >= 0
    ensures CanRevive(r, d) <==> r + d >= 2592000
  {
    if r + d >= THIRTY_DAYS {
      var used := if d <= THIRTY_DAYS then d else THIRTY_DAYS;
      var es := RotationWaits("key", "first", "late", used) + DestroyDue() + [Commit(1)];
      LateRotationRevives("key", "first", "late", used);
      LongerBounds(START, es, 0, THIRTY_DAYS - used, used, r, d);
    } else if CanRevive(r, d) {
      var es, i :| AllRotateWithin(START, es, i, r) && AllDisableWithin(START, es, i, d) && Revived(Run(START, es), i);
      ShortRequestsKeepItGone(es, i, r, d);
      assert false;
    }
  }

  // ---------------------------------------------------------- the service code

  datatype CreateReply = Created(source: SourceId) | Existing(source: SourceId) | KeyReused | Failed

  datatype UpdateReply = Updated | Unchanged | NotFound | Conflict | PreconditionFailed | UpdateFailed

  /** The source table and the secret store as the service and the maintenance job use them. */
  class DataSourceService {
    var rows: seq<Row>
    var store: set<Name>
    var destructions: multiset<SourceId>

    constructor ()
      ensures rows == [] && store == {} && destructions == multiset{}
    {
      rows, store, destructions := [], {}, multiset{};
    }

    /** Create, idempotently by key. `name` is freshly generated; `commits` tells how the
        database transaction ends. */
    method Create(key: string, content: string, name: Name, commits: bool) returns (reply: CreateReply)
      requires name !in store && KeysUnique(rows)
      modifies this`rows, this`store
      ensures KeysUnique(rows)
      ensures forall i | 0 <= i < |old(rows)| && old(rows)[i].key == key ::
                reply == if old(rows)[i].content == content then Existing(i) else KeyReused
      ensures !KeyTaken(old(rows), key) ==> reply == if commits then Created(|old(rows)|) else Failed
      ensures if reply.Created? then
                && rows == old(rows) + [Row(key, content, name, Active, 1, None, None, None)]
                && store == old(store) + {name}
              else rows == old(rows) && store == old(store)
    {
      for i := 0 to |rows|
        invariant forall k | 0 <= k < i :: rows[k].key != key
      {
        if rows[i].key == key {
          return if rows[i].content == content then Existing(i) else KeyReused;
        }
      }
      var compensations: seq<Name> := [];
      store := store + {name};
      compensations := compensations + [name];
      if commits {
        rows := rows + [Row(key, content, name, Active, 1, None, None, None)];
        return Created(|rows| - 1);
      }
      for i := 0 to |compensations|
        invariant store == (if i == 0 then old(store) + {name} else old(store)) && rows == old(rows)
      {
        store := store - {compensations[i]};
      }
      return Failed;
    }

    /** Update an active source at the expected version. A new credential goes under a fresh
        name, and the old one stays where it is. */
    method Update(source: SourceId, expected: nat, content: Option<string>, credential: Option<Name>, commits: bool)
      returns (reply: UpdateReply)
      requires credential.Some? ==> credential.value !in store
      modifies this`rows, this`store
      ensures reply == Updated <==>
                && source < |old(rows)| && old(rows)[source].status == Active && old(rows)[source].version == expected
                && (content.Some? || credential.Some?) && commits
      ensures if reply == Updated then
                && rows == old(rows)[source := old(rows)[source].(
                     version := expected + 1,
                     content := if content.Some? then content.value else old(rows)[source].content,
                     secret := if credential.Some? then credential.value else old(rows)[source].secret)]
                && store == old(store) + (if credential.Some? then {credential.value} else {})
              else rows == old(rows) && store == old(store)
      ensures reply == NotFound <==> source >= |old(rows)|
      ensures reply == Conflict <==> source < |old(rows)| && old(rows)[source].status == Disabled
      ensures reply == PreconditionFailed <==>
                source < |old(rows)| && old(rows)[source].status == Active && old(rows)[source].version != expected
    {
      if source >= |rows| {
        return NotFound;
      }
      var row := rows[source];
      if row.status != Active {
        return Conflict;
      }
      if row.version != expected {
        return PreconditionFailed;
      }
      var changed := false;
      var compensations: seq<Name> := [];
      if content.Some? {
        row := row.(content := content.value);
        changed := true;
      }
      if credential.Some? {
        store := store + {credential.value};
        compensations := [credential.value];
        row := row.(secret := credential.value);
        changed := true;
      }
      if !changed {
        return Unchanged;
      }
      row := row.(version := row.version + 1);
      if commits {
        rows := rows[source := row];
        return Updated;
      }
      for i := 0 to |compensations|
        invariant rows == old(rows)
        invariant store == if i < |compensations| then old(store) + {credential.value} else old(store)
      {
        store := store - {compensations[i]};
      }
      return UpdateFailed;
    }

    /** Disable once; the recovery deadline is thirty days later. */
    method Disable(source: SourceId, now: int) returns (changed: bool)
      modifies this`rows
      ensures changed <==> source < |old(rows)| && old(rows)[source].status == Active
      ensures rows == if changed then
                        var row := old(rows)[source];
                        old(rows)[source := row.(status := Disabled, version := row.version + 1,
                                                 disabledAt := Some(now), destroyAfter := Some(now + 2592000))]
                      else old(rows)
      ensures changed && LifecycleOk(old(rows)[source]) ==>
                && LifecycleOk(rows[source])
                && !Due(rows[source], now + THIRTY_DAYS - 1) && Due(rows[source], now + THIRTY_DAYS)
    {
      if source >= |rows| || rows[source].status == Disabled {
        return false;
      }
      var row := rows[source];
      row := row.(status := Disabled, version := row.version + 1);
      row := row.(disabledAt := Some(now), destroyAfter := Some(now + THIRTY_DAYS));
      rows := rows[source := row];
      return true;
    }

    /** Destroy the secrets of due sources, deleting each before its row is marked. When the
        commit fails the secrets are gone and the rows are still due, so a retry completes. */
    method DestroyDueCredentials(now: int, commits: bool) returns (destroyed: nat)
      modifies this
      ensures var due := DueRows(old(rows), now);
              && store == old(store) - (set i | i in due && i < |old(rows)| :: old(rows)[i].secret)
              && destroyed == |due|
              && rows == (if commits then Marked(old(rows), due, now) else old(rows))
              && destructions == (if commits then old(destructions) + multiset(due) else old(destructions))
      ensures commits ==> DueRows(rows, now) == {}
    {
      var done: set<SourceId> := {};
      for i := 0 to |rows|
        invariant rows == old(rows) && destructions == old(destructions)
        invariant done == set k | 0 <= k < i && k < |rows| && Due(rows[k], now)
        invariant store == old(store) - (set k | k in done && k < |rows| :: rows[k].secret)
      {
        if Due(rows[i], now) {
          ghost var before := done;
          store := store - {rows[i].secret};
          done := done + {i};
          assert (set k | k in done && k < |rows| :: rows[k].secret)
                 == (set k | k in before && k < |rows| :: rows[k].secret) + {rows[i].secret};
        }
      }
      assert done == DueRows(rows, now);
      destroyed := |done|;
      if commits {
        rows := Marked(rows, done, now);
        destructions := destructions + multiset(done);
      }
    }
  }
}
