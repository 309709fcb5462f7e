/** The transactional outbox and its relay: a message is written with the change it announces,
    and published later by relays that claim disjoint batches, dispatch each message, and then
    mark and audit the batch in one transaction. A relay may die anywhere, also after it has
    dispatched messages it will never mark; those are dispatched again. */
module OutboxRelay {
  import opened Wrappers

  type RowId = nat
  type JobId = nat
  type RelayId = nat

  datatype Topic = ConnectionTestRequested(job: JobId) | OtherTopic(name: string)
  datatype Message = Message(topic: Topic, published: bool, attempts: nat)

  /** An open relay transaction: the rows it has locked, and how many it has dispatched. */
  datatype Relay = Relay(batch: seq<RowId>, done: nat)

  datatype State = State(
    rows: seq<Message>,
    jobs: set<JobId>,
    relays: map<RelayId, Relay>,
    dispatched: multiset<RowId>,
    audit: seq<nat>)   // message counts of the committed relay events

  datatype Event =
    | RequestJob(job: JobId)
    | Publish(name: string)
    | Claim(relay: RelayId, batch: seq<RowId>)
    | Dispatch(relay: RelayId)
    | Commit(relay: RelayId)
    | Abort(relay: RelayId)

  predicate Locked(s: State, r: RowId) {
    exists w :: w in s.relays && r in s.relays[w].batch
  }

  predicate Distinct(ids: seq<RowId>) {
    forall i, j | 0 <= i < j < |ids| :: ids[i] != ids[j]
  }

  /** FOR UPDATE SKIP LOCKED: unpublished rows that no other relay has locked. */
  predicate Claimable(s: State, batch: seq<RowId>) {
    && Distinct(batch)
    && forall r | r in batch :: r < |s.rows| && !s.rows[r].published && !Locked(s, r)
  }

  /** The UPDATE of one message. */
  function PublishedOnce(m: Message): Message {
    m.(published := true, attempts := m.attempts + 1)
  }

  function Marked(rows: seq<Message>, batch: seq<RowId>): (marked: seq<Message>)
    ensures |marked| == |rows|
    ensures forall i | 0 <= i < |rows| ::
              marked[i] == if i in batch then PublishedOnce(rows[i]) else rows[i]
  {
    seq(|rows|, i requires 0 <= i < |rows| => if i in batch then PublishedOnce(rows[i]) else rows[i])
  }

  /** The relay event of a batch: an empty batch leaves no trace in the audit chain. */
  function Counted(size: nat): seq<nat> {
    if size == 0 then [] else [size]
  }

  /** The relay hands its next message to the broker; nothing is written yet. */
  function DispatchNext(s: State, w: RelayId): State {
    if w !in s.relays || s.relays[w].done >= |s.relays[w].batch| then s
    else
      var relay := s.relays[w];
      s.(dispatched := s.dispatched + multiset{relay.batch[relay.done]},
         relays := s.relays[w := relay.(done := relay.done + 1)])
  }

  function Apply(s: State, e: Event): State {
    match e
    case RequestJob(job) =>
      if job in s.jobs then s
      else s.(jobs := s.jobs + {job}, rows := s.rows + [Message(ConnectionTestRequested(job), false, 0)])
    case Publish(name) => s.(rows := s.rows + [Message(OtherTopic(name), false, 0)])
    case Claim(w, batch) =>
      if w in s.relays || !Claimable(s, batch) then s else s.(relays := s.relays[w := Relay(batch, 0)])
    case Dispatch(w) => DispatchNext(s, w)
    case Commit(w) =>
      if w !in s.relays || s.relays[w].done != |s.relays[w].batch| then s
      else
        var batch := s.relays[w].batch;
        s.(rows := Marked(s.rows, batch),
           audit := s.audit + Counted(|batch|),
           relays := s.relays - {w})
    case Abort(w) => s.(relays := s.relays - {w})
  }

  function Run(s: State, es: seq<Event>): State
    decreases |es|
  {
    if es == [] then s else Run(Apply(s, es[0]), es[1..])
  }

  // ---------------------------------------------------------------- invariants

  function Sum(counts: seq<nat>): nat {
    if counts == [] then 0 else Sum(counts[..|counts| - 1]) + counts[|counts| - 1]
  }

  function PublishedRows(rows: seq<Message>): set<RowId> {
    set i | 0 <= i < |rows| && rows[i].published
  }

  predicate RelayOk(s: State, w: RelayId) {
    w in s.relays ==>
      var relay := s.relays[w];
      && relay.done <= |relay.batch|
      && Distinct(relay.batch)
      && (forall r | r in relay.batch :: r < |s.rows| && !s.rows[r].published)
      && (forall i | 0 <= i < relay.done :: relay.batch[i] in s.dispatched)
  }

  ghost predicate BatchesDisjoint(s: State) {
    forall w, v, r | w in s.relays && v in s.relays && w != v && r in s.relays[w].batch :: r !in s.relays[v].batch
  }

  predicate RowOk(s: State, r: RowId) {
    r < |s.rows| ==>
      && s.rows[r].attempts == (if s.rows[r].published then 1 else 0)
      && (s.rows[r].published ==> r in s.dispatched)
  }

  ghost predicate HasMessage(s: State, job: JobId) {
    exists r :: 0 <= r < |s.rows| && s.rows[r].topic == ConnectionTestRequested(job)
  }

  ghost predicate Inv(s: State) {
    && (forall w :: RelayOk(s, w))
    && BatchesDisjoint(s)
    && (forall r :: RowOk(s, r))
    && (forall job | job in s.jobs :: HasMessage(s, job))
    && Sum(s.audit) == |PublishedRows(s.rows)|
  }

  function Members(ids: seq<RowId>): (members: set<RowId>)
    ensures forall r :: r in members <==> r in ids
    ensures Distinct(ids) ==> |members| == |ids|
    decreases |ids|
  {
    if ids == [] then {}
    else
      var last := |ids| - 1;
      assert ids == ids[..last] + [ids[last]];
      Members(ids[..last]) + {ids[last]}
  }

  lemma PublishedAfterMarking(rows: seq<Message>, batch: seq<RowId>)
    requires Distinct(batch) && forall r | r in batch :: r < |rows| && !rows[r].published
    ensures |PublishedRows(Marked(rows, batch))| == |PublishedRows(rows)| + |batch|
  {
    var before, marked, after := PublishedRows(rows), Members(batch), PublishedRows(Marked(rows, batch));
    assert after == before + marked;
    assert before * marked == {};
  }

  lemma AppendKeepsInv(s: State, m: Message, jobs: set<JobId>)
    requires Inv(s) && !m.published && m.attempts == 0
    requires forall job | job in jobs :: job in s.jobs || m.topic == ConnectionTestRequested(job)
    ensures Inv(s.(rows := s.rows + [m], jobs := jobs))
  {
    var t := s.(rows := s.rows + [m], jobs := jobs);
    assert PublishedRows(t.rows) == PublishedRows(s.rows);
    forall w ensures RelayOk(t, w) { assert RelayOk(s, w); }
    forall r ensures RowOk(t, r) { assert RowOk(s, r); }
    forall job | job in jobs ensures HasMessage(t, job) {
      if job in s.jobs {
        var r :| 0 <= r < |s.rows| && s.rows[r].topic == ConnectionTestRequested(job);
        assert t.rows[r] == s.rows[r];
      } else {
        assert t.rows[|s.rows|] == m;
      }
    }
  }

  lemma SumCounted(audit: seq<nat>, size: nat)
    ensures Sum(audit + Counted(size)) == Sum(audit) + size
  {
    if size == 0 {
      assert audit + Counted(size) == audit;
    } else {
      assert (audit + Counted(size))[..|audit|] == audit;
    }
  }

  lemma CommitBalances(s: State, w: RelayId)
    requires Inv(s)
    ensures var t := Apply(s, Commit(w)); Sum(t.audit) == |PublishedRows(t.rows)|
  {
    if w in s.relays && s.relays[w].done == |s.relays[w].batch| {
      var batch := s.relays[w].batch;
      assert RelayOk(s, w);
      PublishedAfterMarking(s.rows, batch);
      SumCounted(s.audit, |batch|);
    }
  }

  lemma CommitKeepsInv(s: State, w: RelayId)
    requires Inv(s)
    ensures Inv(Apply(s, Commit(w)))
  {
    var t := Apply(s, Commit(w));
    CommitBalances(s, w);
    assert RelayOk(s, w);
    forall v ensures RelayOk(t, v) { assert RelayOk(s, v); }
    forall r ensures RowOk(t, r) { assert RowOk(s, r); }
    forall job | job in t.jobs ensures HasMessage(t, job) {
      var r :| 0 <= r < |s.rows| && s.rows[r].topic == ConnectionTestRequested(job);
      assert t.rows[r].topic == s.rows[r].topic;
    }
  }

  lemma RelayStepKeepsInv(s: State, e: Event)
    requires Inv(s) && (e.Claim? || e.Dispatch? || e.Abort?)
    ensures Inv(Apply(s, e))
  {
    var t := Apply(s, e);
    forall w ensures RelayOk(t, w) { assert RelayOk(s, w); }
    forall r ensures RowOk(t, r) { assert RowOk(s, r); }
    forall job | job in t.jobs ensures HasMessage(t, job) { assert HasMessage(s, job); }
    forall w, v, r | w in t.relays && v in t.relays && w != v && r in t.relays[w].batch
      ensures r !in t.relays[v].batch
    {
      assert w in s.relays && r in s.relays[w].batch ==> Locked(s, r);
      assert v in s.relays && r in s.relays[v].batch ==> Locked(s, r);
    }
  }

  lemma ApplyKeepsInv(s: State, e: Event)
    requires Inv(s)
    ensures Inv(Apply(s, e))
  {
    match e
    case RequestJob(job) =>
      if job !in s.jobs {
        AppendKeepsInv(s, Message(ConnectionTestRequested(job), false, 0), s.jobs + {job});
      }
    case Publish(name) => AppendKeepsInv(s, Message(OtherTopic(name), false, 0), s.jobs);
    case Commit(w) => CommitKeepsInv(s, w);
    case _ => RelayStepKeepsInv(s, e);
  }

  // ---------------------------------------------------------------- theorems

  const START: State := State([], {}, map[], multiset{}, [])

  lemma {:induction false} RunKeepsInv(s: State, es: seq<Event>)
    requires Inv(s)
    ensures Inv(Run(s, es))
    decreases |es|
  {
    if es != [] {
      ApplyKeepsInv(s, es[0]);
      RunKeepsInv(Apply(s, es[0]), es[1..]);
    }
  }

  /** No requested job is lost: its message has been dispatched, or is still there to be. */
  lemma NoJobIsLost(es: seq<Event>, job: JobId)
    requires job in Run(START, es).jobs
    ensures var s := Run(START, es);
            exists r :: 0 <= r < |s.rows| && s.rows[r].topic == ConnectionTestRequested(job)
                        && (r in s.dispatched || !s.rows[r].published)
  {
    RunKeepsInv(START, es);
    var s := Run(START, es);
    var r :| 0 <= r < |s.rows| && s.rows[r].topic == ConnectionTestRequested(job);
    assert RowOk(s, r);
  }

  /** The books balance: a row counts one attempt exactly when it is published, and the relay
      events audited so far add up to the published rows. */
  lemma RelayAccountingBalances(es: seq<Event>)
    ensures var s := Run(START, es);
            && (forall r | 0 <= r < |s.rows| ::
                  && (s.rows[r].attempts == 1 <==> s.rows[r].published)
                  && (s.rows[r].attempts == 0 <==> !s.rows[r].published)
                  && (s.rows[r].published ==> r in s.dispatched))
            && Sum(s.audit) == |PublishedRows(s.rows)|
  {
    RunKeepsInv(START, es);
    var s := Run(START, es);
    forall r | 0 <= r < |s.rows|
      ensures s.rows[r].attempts == (if s.rows[r].published then 1 else 0)
      ensures s.rows[r].published ==> r in s.dispatched
    {
      assert RowOk(s, r);
    }
  }

  /** Two relays never hold the same message at the same time. */
  lemma BatchesAreDisjoint(es: seq<Event>, w: RelayId, v: RelayId)
    requires w in Run(START, es).relays && v in Run(START, es).relays && w != v
    ensures forall r | r in Run(START, es).relays[w].batch :: r !in Run(START, es).relays[v].batch
  {
    RunKeepsInv(START, es);
  }

  // ------------------------------------------------------------ the relay code

  /** SKIP LOCKED: indices of the first `limit` rows at or after `from` that are unpublished and not
      locked by another relay. */
  function Pending(rows: seq<Message>, locked: set<RowId>, from: nat, limit: nat): (ids: seq<RowId>)
    ensures |ids| <= limit
    decreases |rows| - from
  {
    if from >= |rows| || limit == 0 then []
    else if rows[from].published || from in locked then Pending(rows, locked, from + 1, limit)
    else [from] + Pending(rows, locked, from + 1, limit - 1)
  }

  predicate Free(rows: seq<Message>, locked: set<RowId>, r: RowId) {
    r < |rows| && !rows[r].published && r !in locked
  }

  lemma {:induction false} PendingIsFree(rows: seq<Message>, locked: set<RowId>, from: nat, limit: nat)
    ensures forall r | r in Pending(rows, locked, from, limit) :: from <= r && Free(rows, locked, r)
    ensures Distinct(Pending(rows, locked, from, limit))
    decreases |rows| - from
  {
    if from < |rows| && limit > 0 {
      if rows[from].published || from in locked {
        PendingIsFree(rows, locked, from + 1, limit);
      } else {
        PendingIsFree(rows, locked, from + 1, limit - 1);
        var rest := Pending(rows, locked, from + 1, limit - 1);
        assert forall j | 0 <= j < |rest| :: rest[j] in rest;
      }
    }
  }

  lemma {:induction false} PendingIsComplete(rows: seq<Message>, locked: set<RowId>, from: nat, limit: nat, r: RowId)
    requires from <= r && Free(rows, locked, r) && |Pending(rows, locked, from, limit)| < limit
    ensures r in Pending(rows, locked, from, limit)
    decreases |rows| - from
  {
    if rows[from].published || from in locked {
      PendingIsComplete(rows, locked, from + 1, limit, r);
    } else if r != from {
      PendingIsComplete(rows, locked, from + 1, limit - 1, r);
    }
  }

  /** A batch holds distinct messages that are free to claim, and leaves none out unless it is full. */
  lemma PendingIsClaimable(rows: seq<Message>, locked: set<RowId>, limit: nat)
    ensures var ids := Pending(rows, locked, 0, limit);
            && Distinct(ids)
            && (forall r | r in ids :: Free(rows, locked, r))
            && (|ids| < limit ==> forall r | Free(rows, locked, r) :: r in ids)
  {
    PendingIsFree(rows, locked, 0, limit);
    if |Pending(rows, locked, 0, limit)| < limit {
      forall r | Free(rows, locked, r) ensures r in Pending(rows, locked, 0, limit) {
        PendingIsComplete(rows, locked, 0, limit, r);
      }
    }
  }

  /** Row numbers are in the order of creation: the messages of a batch come oldest first, and any free
      message that is left out is younger than all of them. */
  lemma PendingIsOldestFirst(rows: seq<Message>, locked: set<RowId>, limit: nat)
    ensures var ids := Pending(rows, locked, 0, limit);
            && (forall i, j | 0 <= i < j < |ids| :: ids[i] < ids[j])
            && forall k, r: RowId | 0 <= k < |ids| && r < |rows| && !rows[r].published && r !in locked && r !in ids ::
                 ids[k] < r
  {
    PendingAscends(rows, locked, 0, limit);
    var ids := Pending(rows, locked, 0, limit);
    forall k, r: RowId | 0 <= k < |ids| && r < |rows| && !rows[r].published && r !in locked && r !in ids
      ensures ids[k] < r
    {
      PendingTakesOlder(rows, locked, 0, limit, r);
    }
  }

  predicate AscendsFrom(ids: seq<RowId>, low: nat) {
    && (forall i | 0 <= i < |ids| :: low <= ids[i])
    && forall i, j | 0 <= i < j < |ids| :: ids[i] < ids[j]
  }

  lemma {:induction false} PendingAscends(rows: seq<Message>, locked: set<RowId>, from: nat, limit: nat)
    ensures AscendsFrom(Pending(rows, locked, from, limit), from)
    decreases |rows| - from
  {
    if from < |rows| && limit > 0 {
      if rows[from].published || from in locked {
        PendingAscends(rows, locked, from + 1, limit);
      } else {
        PendingAscends(rows, locked, from + 1, limit - 1);
      }
    }
  }

  lemma {:induction false} PendingTakesOlder(rows: seq<Message>, locked: set<RowId>, from: nat, limit: nat, r: RowId)
    requires from <= r && Free(rows, locked, r) && r !in Pending(rows, locked, from, limit)
    ensures var ids := Pending(rows, locked, from, limit); forall k | 0 <= k < |ids| :: ids[k] < r
    decreases |rows| - from
  {
    if limit > 0 {
      if rows[from].published || from in locked {
        PendingTakesOlder(rows, locked, from + 1, limit, r);
      } else {
        var rest := Pending(rows, locked, from + 1, limit - 1);
        assert Pending(rows, locked, from, limit) == [from] + rest;
        assert r != from && r !in rest;
        PendingTakesOlder(rows, locked, from + 1, limit - 1, r);
      }
    }
  }

  /** One tenant's messages, those other relays have locked, what has been dispatched for it, and
      its relay events. */
  datatype Outbox = Outbox(rows: seq<Message>, locked: set<RowId>, dispatched: seq<RowId>, audit: seq<nat>)

  function Batch(box: Outbox, batchSize: nat): seq<RowId> {
    Pending(box.rows, box.locked, 0, batchSize)
  }

  /** A committed batch: every claimed message is dispatched, published and counted once. */
  function Relayed(box: Outbox, batchSize: nat): Outbox {
    var batch := Batch(box, batchSize);
    box.(rows := Marked(box.rows, batch), dispatched := box.dispatched + batch,
         audit := box.audit + Counted(|batch|))
  }

  /** A batch whose dispatch raised at position `at`: only what left before that remains. */
  function RolledBack(box: Outbox, batchSize: nat, at: nat): Outbox
    requires at <= |Batch(box, batchSize)|
  {
    box.(dispatched := box.dispatched + Batch(box, batchSize)[..at])
  }

  /** Dispatching raises at the given position, and the batch is long enough to get there. */
  predicate Raises(box: Outbox, batchSize: nat, fault: Option<nat>) {
    fault.Some? && fault.value < |Batch(box, batchSize)|
  }

  function AfterBatch(box: Outbox, batchSize: nat, fault: Option<nat>): Outbox {
    if Raises(box, batchSize, fault) then RolledBack(box, batchSize, fault.value) else Relayed(box, batchSize)
  }

  predicate HasPending(box: Outbox) {
    exists r :: 0 <= r < |box.rows| && !box.rows[r].published
  }

  // ------------------------------------ the relay code follows the protocol

  function Dispatches(w: RelayId, count: nat): (events: seq<Event>)
    decreases count
  {
    if count == 0 then [] else [Dispatch(w)] + Dispatches(w, count - 1)
  }

  /** The state after relay w has dispatched `count` times. */
  function Dispatched(s: State, w: RelayId, count: nat): State
    decreases count
  {
    if count == 0 then s else Dispatched(DispatchNext(s, w), w, count - 1)
  }

  lemma {:induction false} DispatchedBatch(s: State, w: RelayId, count: nat)
    requires w in s.relays && s.relays[w].done + count <= |s.relays[w].batch|
    ensures var t, relay := Dispatched(s, w, count), s.relays[w];
            && t.rows == s.rows && t.jobs == s.jobs && t.audit == s.audit
            && w in t.relays && t.relays[w] == relay.(done := relay.done + count)
            && t.dispatched == s.dispatched + multiset(relay.batch[relay.done..relay.done + count])
    decreases count
  {
    var relay := s.relays[w];
    if count == 0 {
      assert relay.batch[relay.done..relay.done + 0] == [];
    } else {
      var u := DispatchNext(s, w);
      assert u.relays[w] == relay.(done := relay.done + 1);
      BagHead(relay.batch, relay.done, relay.done + count);
      DispatchedBatch(u, w, count - 1);
    }
  }

  lemma {:induction false} DispatchedSparesOthers(s: State, w: RelayId, count: nat)
    ensures var t := Dispatched(s, w, count);
            t.relays.Keys == s.relays.Keys && forall v | v in s.relays && v != w :: t.relays[v] == s.relays[v]
    decreases count
  {
    if count > 0 {
      DispatchedSparesOthers(DispatchNext(s, w), w, count - 1);
    }
  }

  lemma BagHead(ids: seq<RowId>, low: nat, high: nat)
    requires low < high <= |ids|
    ensures multiset(ids[low..high]) == multiset{ids[low]} + multiset(ids[low + 1..high])
  {
    assert ids[low..high] == [ids[low]] + ids[low + 1..high];
  }

  lemma {:induction false} DispatchRun(s: State, w: RelayId, count: nat, rest: seq<Event>)
    ensures Run(s, Dispatches(w, count) + rest) == Run(Dispatched(s, w, count), rest)
    decreases count
  {
    if count == 0 {
      assert Dispatches(w, count) + rest == rest;
    } else {
      DispatchesHead(s, w, count, rest);
      DispatchRun(DispatchNext(s, w), w, count - 1, rest);
    }
  }

  lemma DispatchesHead(s: State, w: RelayId, count: nat, rest: seq<Event>)
    requires count > 0
    ensures Run(s, Dispatches(w, count) + rest) == Run(DispatchNext(s, w), Dispatches(w, count - 1) + rest)
  {
    var later := Dispatches(w, count - 1) + rest;
    assert Dispatches(w, count) + rest == [Dispatch(w)] + later;
    RunHead(s, Dispatch(w), later);
  }

  lemma RunHead(s: State, e: Event, rest: seq<Event>)
    ensures Run(s, [e] + rest) == Run(Apply(s, e), rest)
  {
    assert ([e] + rest)[1..] == rest;
  }

  /** The rows that open relays have locked. */
  function LockedRows(s: State): set<RowId> {
    set r | 0 <= r < |s.rows| && Locked(s, r)
  }

  /** What a relay that comes to this state claims. */
  function NextBatch(s: State, batchSize: nat): seq<RowId> {
    Pending(s.rows, LockedRows(s), 0, batchSize)
  }

  lemma ClaimPending(s: State, w: RelayId, batchSize: nat)
    requires w !in s.relays
    ensures Apply(s, Claim(w, NextBatch(s, batchSize)))
         == s.(relays := s.relays[w := Relay(NextBatch(s, batchSize), 0)])
  {
    PendingIsClaimable(s.rows, LockedRows(s), batchSize);
    assert Claimable(s, NextBatch(s, batchSize));
  }

  /** The whole life of one relay: it claims, dispatches some or all of its batch, and ends. */
  function Life(w: RelayId, batch: seq<RowId>, count: nat, last: Event): seq<Event> {
    [Claim(w, batch)] + (Dispatches(w, count) + [last])
  }

  lemma RunLife(s: State, w: RelayId, batch: seq<RowId>, count: nat, last: Event, claimed: State)
    requires Apply(s, Claim(w, batch)) == claimed
    ensures Run(s, Life(w, batch, count, last)) == Apply(Dispatched(claimed, w, count), last)
  {
    RunHead(s, Claim(w, batch), Dispatches(w, count) + [last]);
    DispatchRun(claimed, w, count, [last]);
    RunLast(Dispatched(claimed, w, count), last);
  }

  lemma RunLast(s: State, last: Event)
    ensures Run(s, [last]) == Apply(s, last)
  {
    assert [last] == [last] + [];
    RunHead(s, last, []);
  }

  /** The tables of a state are those of an outbox. */
  predicate Holds(s: State, box: Outbox) {
    && s.rows == box.rows && s.audit == box.audit && s.dispatched == multiset(box.dispatched)
    && LockedRows(s) == box.locked
  }

  /** Both outcomes leave the table as the outbox has it, and every other relay as it was. */
  predicate Leaves(s: State, t: State, box: Outbox) {
    && t.rows == box.rows && t.audit == box.audit && t.dispatched == multiset(box.dispatched)
    && t.relays == s.relays && t.jobs == s.jobs
  }

  lemma ReleaseRelay(relays: map<RelayId, Relay>, others: map<RelayId, Relay>, w: RelayId)
    requires w !in others && relays.Keys == others.Keys + {w}
    requires forall v | v in others :: relays[v] == others[v]
    ensures relays - {w} == others
  {
  }

  /** The batch has been claimed and its first messages dispatched; other relays are as they were. */
  predicate Sent(s: State, d: State, box: Outbox, w: RelayId, batch: seq<RowId>, count: nat) {
    && count <= |batch|
    && w in d.relays && d.relays[w] == Relay(batch, count) && d.relays - {w} == s.relays
    && d.rows == box.rows && d.audit == box.audit && d.jobs == s.jobs
    && d.dispatched == multiset(box.dispatched) + multiset(batch[..count])
  }

  lemma ClaimedAndSent(s: State, box: Outbox, w: RelayId, batch: seq<RowId>, count: nat)
    requires w !in s.relays && Holds(s, box) && count <= |batch|
    ensures Sent(s, Dispatched(s.(relays := s.relays[w := Relay(batch, 0)]), w, count), box, w, batch, count)
  {
    var claimed := s.(relays := s.relays[w := Relay(batch, 0)]);
    DispatchedBatch(claimed, w, count);
    DispatchedSparesOthers(claimed, w, count);
    assert batch[0..0 + count] == batch[..count];
    ReleaseRelay(Dispatched(claimed, w, count).relays, s.relays, w);
  }

  /** A batch transaction that commits is a run of the protocol, and so is ... */
  lemma CommittedBatchFollowsProtocol(s: State, box: Outbox, w: RelayId, batchSize: nat)
    requires w !in s.relays && Holds(s, box)
    ensures var batch := Batch(box, batchSize);
            Leaves(s, Run(s, Life(w, batch, |batch|, Commit(w))), Relayed(box, batchSize))
  {
    var batch := Batch(box, batchSize);
    var claimed := s.(relays := s.relays[w := Relay(batch, 0)]);
    ClaimPending(s, w, batchSize);
    RunLife(s, w, batch, |batch|, Commit(w), claimed);
    ClaimedAndSent(s, box, w, batch, |batch|);
    CommitLeaves(s, Dispatched(claimed, w, |batch|), box, w, batchSize);
  }

  lemma CommitLeaves(s: State, d: State, box: Outbox, w: RelayId, batchSize: nat)
    requires Sent(s, d, box, w, Batch(box, batchSize), |Batch(box, batchSize)|)
    ensures Leaves(s, Apply(d, Commit(w)), Relayed(box, batchSize))
  {
    var batch := Batch(box, batchSize);
    assert batch[..|batch|] == batch;
  }

  /** ... one whose dispatch raised at position `at`. Every theorem about runs holds of both,
      whatever other relays have open. */
  lemma RolledBackBatchFollowsProtocol(s: State, box: Outbox, w: RelayId, batchSize: nat, at: nat)
    requires w !in s.relays && Holds(s, box) && at <= |Batch(box, batchSize)|
    ensures Leaves(s, Run(s, Life(w, Batch(box, batchSize), at, Abort(w))), RolledBack(box, batchSize, at))
  {
    var batch := Batch(box, batchSize);
    var claimed := s.(relays := s.relays[w := Relay(batch, 0)]);
    ClaimPending(s, w, batchSize);
    RunLife(s, w, batch, at, Abort(w), claimed);
    ClaimedAndSent(s, box, w, batch, at);
    AbortLeaves(s, Dispatched(claimed, w, at), box, w, batchSize, at);
  }

  lemma AbortLeaves(s: State, d: State, box: Outbox, w: RelayId, batchSize: nat, at: nat)
    requires at <= |Batch(box, batchSize)| && Sent(s, d, box, w, Batch(box, batchSize), at)
    ensures Leaves(s, Apply(d, Abort(w)), RolledBack(box, batchSize, at))
  {
  }

  /** Tenants are numbered in the order of their identifiers. */
  type TenantId = nat

  /** The first `limit` tenants, in order, that have unpublished messages. */
  function PendingTenants(boxes: seq<Outbox>, from: TenantId, limit: nat): (tenants: seq<TenantId>)
    ensures forall k | 0 <= k < |tenants| :: from <= tenants[k] < |boxes|
    decreases |boxes| - from
  {
    if from >= |boxes| || limit == 0 then []
    else if HasPending(boxes[from]) then [from] + PendingTenants(boxes, from + 1, limit - 1)
    else PendingTenants(boxes, from + 1, limit)
  }

  lemma {:induction false} PendingTenantsSound(boxes: seq<Outbox>, from: TenantId, limit: nat)
    ensures var tenants := PendingTenants(boxes, from, limit);
            && Distinct(tenants) && |tenants| <= limit
            && forall k | 0 <= k < |tenants| :: HasPending(boxes[tenants[k]])
    decreases |boxes| - from
  {
    if from < |boxes| && limit > 0 {
      if HasPending(boxes[from]) {
        PendingTenantsSound(boxes, from + 1, limit - 1);
      } else {
        PendingTenantsSound(boxes, from + 1, limit);
      }
    }
  }

  lemma {:induction false} PendingTenantsComplete(boxes: seq<Outbox>, from: TenantId, limit: nat, t: TenantId)
    requires from <= t < |boxes| && HasPending(boxes[t]) && |PendingTenants(boxes, from, limit)| < limit
    ensures t in PendingTenants(boxes, from, limit)
    decreases |boxes| - from
  {
    if !HasPending(boxes[from]) {
      PendingTenantsComplete(boxes, from + 1, limit, t);
    } else if t != from {
      PendingTenantsComplete(boxes, from + 1, limit - 1, t);
    }
  }

  /** The function in the database brings the limit into the range 1 to 1000 first. */
  function InRange(limit: int): nat {
    if limit < 1 then 1 else if limit > 1000 then 1000 else limit
  }

  function PendingTenantList(boxes: seq<Outbox>, limit: int): (tenants: seq<TenantId>)
    ensures forall k | 0 <= k < |tenants| :: tenants[k] < |boxes|
  {
    PendingTenants(boxes, 0, InRange(limit))
  }

  /** Whatever limit is asked for: nobody is listed twice or without cause, the list has at most
      the limit in force, and a shorter one leaves nobody out. */
  lemma PendingTenantListComplete(boxes: seq<Outbox>, limit: int)
    ensures var tenants := PendingTenantList(boxes, limit);
            var most := if limit < 1 then 1 else if limit > 1000 then 1000 else limit;
            && Distinct(tenants) && |tenants| <= most
            && (forall k | 0 <= k < |tenants| :: HasPending(boxes[tenants[k]]))
            && (|tenants| < most ==> forall t | 0 <= t < |boxes| && HasPending(boxes[t]) :: t in tenants)
  {
    PendingTenantsSound(boxes, 0, InRange(limit));
    if |PendingTenantList(boxes, limit)| < InRange(limit) {
      forall t | 0 <= t < |boxes| && HasPending(boxes[t]) ensures t in PendingTenantList(boxes, limit) {
        PendingTenantsComplete(boxes, 0, InRange(limit), t);
      }
    }
  }

  function PendingBelow(boxes: seq<Outbox>, from: TenantId, t: TenantId): set<TenantId> {
    set u | from <= u < t && u < |boxes| && HasPending(boxes[u])
  }

  lemma PendingBelowStep(boxes: seq<Outbox>, from: TenantId, t: TenantId)
    requires from < t && from < |boxes|
    ensures |PendingBelow(boxes, from, t)|
         == |PendingBelow(boxes, from + 1, t)| + if HasPending(boxes[from]) then 1 else 0
  {
    var rest := PendingBelow(boxes, from + 1, t);
    if HasPending(boxes[from]) {
      assert PendingBelow(boxes, from, t) == rest + {from};
    } else {
      assert PendingBelow(boxes, from, t) == rest;
    }
  }

  lemma {:induction false} ListedIff(boxes: seq<Outbox>, from: TenantId, limit: nat, t: TenantId)
    requires from <= t
    ensures t in PendingTenants(boxes, from, limit)
       <==> t < |boxes| && HasPending(boxes[t]) && |PendingBelow(boxes, from, t)| < limit
    decreases |boxes| - from
  {
    if from < |boxes| {
      if t == from {
        assert PendingBelow(boxes, from, t) == {};
        assert t !in PendingTenants(boxes, from + 1, limit);
      } else {
        PendingBelowStep(boxes, from, t);
        if !HasPending(boxes[from]) {
          ListedIff(boxes, from + 1, limit, t);
        } else if limit > 0 {
          ListedIff(boxes, from + 1, limit - 1, t);
        }
      }
    }
  }

  /** Who is on a pass: the tenants with an unpublished message, as long as fewer than a hundred such
      tenants come before them. */
  lemma FirstHundredAreServed(boxes: seq<Outbox>, t: TenantId)
    ensures t in PendingTenantList(boxes, TENANTS_PER_PASS) <==>
              && t < |boxes| && (exists r :: 0 <= r < |boxes[t].rows| && !boxes[t].rows[r].published)
              && |set u | 0 <= u < t && HasPending(boxes[u])| < 100
  {
    ListedIff(boxes, 0, 100, t);
    if t < |boxes| {
      assert PendingBelow(boxes, 0, t) == set u | 0 <= u < t && HasPending(boxes[u]);
    }
  }

  /** How many messages the next batches of the given tenants hold together. */
  function BatchTotal(boxes: seq<Outbox>, tenants: seq<TenantId>, batchSize: nat): nat
    requires forall k | 0 <= k < |tenants| :: tenants[k] < |boxes|
    decreases |tenants|
  {
    if tenants == [] then 0
    else
      var last := tenants[|tenants| - 1];
      BatchTotal(boxes, tenants[..|tenants| - 1], batchSize) + |Batch(boxes[last], batchSize)|
  }

  /** Exactly the given tenants have had a batch relayed; everyone else is untouched. */
  predicate Served(before: seq<Outbox>, after: seq<Outbox>, tenants: seq<TenantId>, batchSize: nat) {
    && |after| == |before|
    && forall t | 0 <= t < |before| ::
         after[t] == if t in tenants then Relayed(before[t], batchSize) else before[t]
  }

  /** The fault that meets the k-th tenant of a pass. */
  function FaultAt(k: nat, failsAt: nat, brokerFails: nat): Option<nat> {
    if k == failsAt then Some(brokerFails) else None
  }

  /** Either every tenant on the list is served and the total is what was published, or the
      pass ends at `failsAt`: the tenants before it are served, its own batch is rolled back, and
      nobody else is touched. */
  predicate PassOutcome(before: seq<Outbox>, after: seq<Outbox>, batchSize: nat, failsAt: nat, brokerFails: nat,
                        total: Option<nat>)
  {
    var tenants := PendingTenantList(before, TENANTS_PER_PASS);
    if failsAt < |tenants| && Raises(before[tenants[failsAt]], batchSize, Some(brokerFails)) then
      var t := tenants[failsAt];
      && total == None
      && |after| == |before|
      && after[t] == RolledBack(before[t], batchSize, brokerFails)
      && Served(before, after[t := before[t]], tenants[..failsAt], batchSize)
    else
      && total == Some(BatchTotal(before, tenants, batchSize))
      && Served(before, after, tenants, batchSize)
  }

  lemma ServedStep(before: seq<Outbox>, after: seq<Outbox>, tenants: seq<TenantId>, k: nat, batchSize: nat)
    requires k < |tenants| && Distinct(tenants) && forall j | 0 <= j < |tenants| :: tenants[j] < |before|
    requires Served(before, after, tenants[..k], batchSize)
    ensures var t := tenants[k];
            && after[t] == before[t]
            && after[t := before[t]] == after
            && Served(before, after[t := Relayed(before[t], batchSize)], tenants[..k + 1], batchSize)
            && BatchTotal(before, tenants[..k + 1], batchSize)
                 == BatchTotal(before, tenants[..k], batchSize) + |Batch(before[t], batchSize)|
  {
    assert tenants[..k + 1] == tenants[..k] + [tenants[k]];
    assert tenants[..k + 1][..k] == tenants[..k];
    assert tenants[k] !in tenants[..k];
  }

  /** Where a pass stands after the first k tenants. */
  predicate Halfway(before: seq<Outbox>, now: seq<Outbox>, tenants: seq<TenantId>, k: nat,
                    batchSize: nat, failsAt: nat, brokerFails: nat, count: nat)
  {
    && tenants == PendingTenantList(before, TENANTS_PER_PASS)
    && k <= |tenants|
    && Served(before, now, tenants[..k], batchSize)
    && count == BatchTotal(before, tenants[..k], batchSize)
    && (failsAt < k ==> !Raises(before[tenants[failsAt]], batchSize, Some(brokerFails)))
  }

  lemma HalfwayStep(before: seq<Outbox>, now: seq<Outbox>, tenants: seq<TenantId>, k: nat,
                    batchSize: nat, failsAt: nat, brokerFails: nat, count: nat)
    requires Halfway(before, now, tenants, k, batchSize, failsAt, brokerFails, count) && k < |tenants|
    ensures var t := tenants[k];
            && t < |now| && now[t] == before[t]
            && var fault := FaultAt(k, failsAt, brokerFails);
               var after := now[t := AfterBatch(before[t], batchSize, fault)];
               if Raises(before[t], batchSize, fault) then
                 PassOutcome(before, after, batchSize, failsAt, brokerFails, None)
               else
                 Halfway(before, after, tenants, k + 1, batchSize, failsAt, brokerFails,
                         count + |Batch(before[t], batchSize)|)
  {
    PendingTenantListComplete(before, TENANTS_PER_PASS);
    ServedStep(before, now, tenants, k, batchSize);
    var t := tenants[k];
    if Raises(before[t], batchSize, FaultAt(k, failsAt, brokerFails)) {
      var after := now[t := RolledBack(before[t], batchSize, brokerFails)];
      assert after[t := before[t]] == now;
    }
  }

  lemma HalfwayEnd(before: seq<Outbox>, now: seq<Outbox>, tenants: seq<TenantId>,
                   batchSize: nat, failsAt: nat, brokerFails: nat, count: nat)
    requires Halfway(before, now, tenants, |tenants|, batchSize, failsAt, brokerFails, count)
    ensures PassOutcome(before, now, batchSize, failsAt, brokerFails, Some(count))
  {
    assert tenants[..|tenants|] == tenants;
  }

  const TENANTS_PER_PASS := 100

  lemma BatchInTable(box: Outbox, batchSize: nat)
    ensures var batch := Batch(box, batchSize);
            InTable(box.rows, batch) && Distinct(batch) && batch[..|batch|] == batch
  {
    var batch := Batch(box, batchSize);
    PendingIsClaimable(box.rows, box.locked, batchSize);
    forall k | 0 <= k < |batch| ensures batch[k] < |box.rows| { assert batch[k] in batch; }
    assert batch[..|batch|] == batch;
  }

  predicate InTable(rows: seq<Message>, batch: seq<RowId>) {
    forall k | 0 <= k < |batch| :: batch[k] < |rows|
  }

  /** The open transaction after the first i messages of the batch. */
  function UpTo(box: Outbox, batch: seq<RowId>, i: nat): (open: Outbox)
    requires i <= |batch| && InTable(box.rows, batch)
    ensures |open.rows| == |box.rows| && open.audit == box.audit && open.locked == box.locked
    decreases i
  {
    if i == 0 then box
    else
      var open, row := UpTo(box, batch, i - 1), batch[i - 1];
      open.(dispatched := open.dispatched + [row], rows := open.rows[row := PublishedOnce(open.rows[row])])
  }

  lemma MarkedStep(rows: seq<Message>, batch: seq<RowId>, i: nat)
    requires i < |batch| && InTable(rows, batch) && Distinct(batch)
    ensures var row, before := batch[i], Marked(rows, batch[..i]);
            Marked(rows, batch[..i + 1]) == before[row := PublishedOnce(before[row])]
  {
    var row, earlier := batch[i], batch[..i];
    assert batch[..i + 1] == earlier + [row];
    assert row !in earlier;
    forall r ensures r in earlier + [row] <==> r in earlier || r == row {}
  }

  lemma {:induction false} UpToMarks(box: Outbox, batch: seq<RowId>, i: nat)
    requires i <= |batch| && InTable(box.rows, batch) && Distinct(batch)
    ensures UpTo(box, batch, i).rows == Marked(box.rows, batch[..i])
    decreases i
  {
    if i == 0 {
      assert Marked(box.rows, []) == box.rows;
    } else {
      var open, row := UpTo(box, batch, i - 1), batch[i - 1];
      assert UpTo(box, batch, i).rows == open.rows[row := PublishedOnce(open.rows[row])];
      UpToMarks(box, batch, i - 1);
      MarkedStep(box.rows, batch, i - 1);
    }
  }

  lemma {:induction false} UpToDispatches(box: Outbox, batch: seq<RowId>, i: nat)
    requires i <= |batch| && InTable(box.rows, batch)
    ensures UpTo(box, batch, i).dispatched == box.dispatched + batch[..i]
    decreases i
  {
    if i > 0 {
      UpToDispatches(box, batch, i - 1);
      assert batch[..i] == batch[..i - 1] + [batch[i - 1]];
    }
  }

  /** The transaction of one batch. `fault` is the position at which dispatching raises, if
      it does: everything is rolled back and only the dispatches remain. */
  method RelayBatch(box: Outbox, batchSize: nat, fault: Option<nat>)
    returns (after: Outbox, published: seq<RowId>, ok: bool)
    ensures ok == !Raises(box, batchSize, fault) && after == AfterBatch(box, batchSize, fault)
    ensures published == if ok then Batch(box, batchSize) else []
  {
    var batch := Batch(box, batchSize);
    BatchInTable(box, batchSize);
    var open := box;
    published := [];
    for i := 0 to |batch|
      invariant published == batch[..i] && open == UpTo(box, batch, i)
      invariant fault.Some? ==> i <= fault.value
    {
      if fault == Some(i) {
        UpToDispatches(box, batch, i);
        return box.(dispatched := open.dispatched), [], false;
      }
      var row := batch[i];
      open := open.(dispatched := open.dispatched + [row],
                    rows := open.rows[row := PublishedOnce(open.rows[row])]);
      published := published + [row];
    }
    UpToMarks(box, batch, |batch|);
    UpToDispatches(box, batch, |batch|);
    after := open.(audit := open.audit + Counted(|published|));
    ok := true;
  }

  class OutboxTable {
    var boxes: seq<Outbox>

    constructor (boxes: seq<Outbox>)
      ensures this.boxes == boxes
    {
      this.boxes := boxes;
    }

    /** One batch for one tenant; only that tenant's messages and chain change. */
    method RelayTenantBatch(t: TenantId, batchSize: nat, fault: Option<nat>)
      returns (published: seq<RowId>, ok: bool)
      requires t < |boxes|
      modifies this
      ensures ok == !Raises(old(boxes[t]), batchSize, fault)
      ensures boxes == old(boxes)[t := AfterBatch(old(boxes[t]), batchSize, fault)]
      ensures published == if ok then Batch(old(boxes[t]), batchSize) else []
    {
      var after;
      after, published, ok := RelayBatch(boxes[t], batchSize, fault);
      boxes := boxes[t := after];
    }

    /** One pass over the tenants with pending work: each gets its own batch and transaction. A
        dispatch that raises ends the pass; what earlier tenants committed stays. */
    method RelayOnce(batchSize: nat, failsAt: nat, brokerFails: nat) returns (total: Option<nat>)
      modifies this
      ensures PassOutcome(old(boxes), boxes, batchSize, failsAt, brokerFails, total)
    {
      var tenants := PendingTenantList(boxes, TENANTS_PER_PASS);
      var count: nat := 0;
      ghost var before := boxes;
      for k := 0 to |tenants|
        invariant Halfway(before, boxes, tenants, k, batchSize, failsAt, brokerFails, count)
      {
        var t, fault := tenants[k], FaultAt(k, failsAt, brokerFails);
        ghost var now := boxes;
        HalfwayStep(before, now, tenants, k, batchSize, failsAt, brokerFails, count);
        assert t < |now| && now[t] == before[t];
        var published, ok := RelayTenantBatch(t, batchSize, fault);
        assert boxes == now[t := AfterBatch(before[t], batchSize, fault)];
        assert ok == !Raises(before[t], batchSize, fault);
        if !ok {
          return None;
        }
        count := count + |published|;
      }
      HalfwayEnd(before, boxes, tenants, batchSize, failsAt, brokerFails, count);
      return Some(count);
    }
  }
}
