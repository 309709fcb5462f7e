/** The per-tenant audit hash chain and its checkpoint.

    SHA-256 (section 6.2 of FIPS 180-4) is kept abstract and collision free: `Digest` is a
    constructor, so equal digests have equal predecessors and equal fields, and no digest is
    the genesis value. `Other` stands for any text in a hash column that is neither. */
module AuditChain {
  import opened Wrappers

  type Tenant = nat
  type TxnId = nat

  /** Every hashed column except the chain position; times are normalised instants. */
  datatype Content = Content(
    occurredAt: int,
    actorType: string,
    actorUserId: Option<string>,
    action: string,
    resourceType: string,
    resourceId: Option<string>,
    outcome: string,
    traceId: string,
    requestId: string,
    detail: string)

  datatype Fields = Fields(tenant: Tenant, number: int, content: Content)
  datatype Hash = Genesis | Digest(prev: Hash, fields: Fields) | Other(text: string)
  datatype Event = Event(fields: Fields, prevHash: Hash, hash: Hash)
  datatype Head = Head(lastSeq: int, lastHash: Hash, offboarded: bool)

  /** The committed rows of one tenant, ordered by sequence number, and its checkpoint. */
  datatype Log = Log(events: seq<Event>, head: Option<Head>)

  datatype Status = Intact | Empty | Offboarded | Mutated | Gap | Truncated | Erased | CheckpointMissing
  datatype Verification = Verification(status: Status, atSeq: Option<int>, missing: int)

  function ComputeHash(prevHash: Hash, fields: Fields): Hash {
    Digest(prevHash, fields)
  }

  // ------------------------------------------------------------ verification

  /** The first defect met when walking the chain, if any. */
  function Walk(events: seq<Event>, expectedPrev: Hash, expectedSeq: int): Option<Verification>
    decreases |events|
  {
    if events == [] then None
    else
      var e := events[0];
      if e.fields.number != expectedSeq then Some(Verification(Gap, Some(e.fields.number), 0))
      else if e.prevHash != expectedPrev then Some(Verification(Mutated, Some(e.fields.number), 0))
      else if ComputeHash(e.prevHash, e.fields) != e.hash then Some(Verification(Mutated, Some(e.fields.number), 0))
      else Walk(events[1..], e.hash, expectedSeq + 1)
  }

  function Verify(log: Log): Verification {
    var events := log.events;
    if log.head.None? then
      if events == [] then Verification(Empty, None, 0)
      else Verification(CheckpointMissing, Some(events[0].fields.number), 0)
    else
      var head := log.head.value;
      if events == [] then Verification(if head.offboarded then Offboarded else Erased, None, head.lastSeq)
      else if Walk(events, Genesis, 1).Some? then Walk(events, Genesis, 1).value
      else
        var last := events[|events| - 1];
        if last.fields.number < head.lastSeq then
          Verification(Truncated, Some(last.fields.number), head.lastSeq - last.fields.number)
        else if last.fields.number > head.lastSeq || last.hash != head.lastHash then
          Verification(CheckpointMissing, Some(last.fields.number), 0)
        else Verification(Intact, Some(last.fields.number), 0)
  }

  predicate Linked(events: seq<Event>, i: nat, prev: Hash, first: int)
    requires i < |events|
  {
    && events[i].fields.number == first + i
    && events[i].prevHash == (if i == 0 then prev else events[i - 1].hash)
    && events[i].hash == Digest(events[i].prevHash, events[i].fields)
  }

  /** Consecutive numbers from `first`, each row hashed over its fields and its predecessor. */
  predicate Chained(events: seq<Event>, prev: Hash, first: int) {
    forall i | 0 <= i < |events| :: Linked(events, i, prev, first)
  }

  lemma ChainedCons(events: seq<Event>, prev: Hash, first: int)
    requires events != []
    ensures Chained(events, prev, first)
            <==> Linked(events, 0, prev, first) && Chained(events[1..], events[0].hash, first + 1)
  {
    var rest := events[1..];
    if Linked(events, 0, prev, first) && Chained(rest, events[0].hash, first + 1) {
      forall i | 0 <= i < |events| ensures Linked(events, i, prev, first) {
        assert i > 0 ==> Linked(rest, i - 1, events[0].hash, first + 1);
      }
    }
    if Chained(events, prev, first) {
      var next := first + 1;
      forall i | 0 <= i < |rest| ensures Linked(rest, i, events[0].hash, next) {
        assert Linked(events, i + 1, prev, first);
      }
    }
  }

  lemma ChainedSnoc(events: seq<Event>, e: Event, prev: Hash, first: int)
    ensures Chained(events + [e], prev, first)
            <==> Chained(events, prev, first) && Linked(events + [e], |events|, prev, first)
  {
    forall i | 0 <= i < |events| ensures Linked(events + [e], i, prev, first) <==> Linked(events, i, prev, first) {
    }
  }

  lemma {:induction false} WalkFindsNothingIffChained(events: seq<Event>, prev: Hash, first: int)
    ensures Walk(events, prev, first).None? <==> Chained(events, prev, first)
    decreases |events|
  {
    if events != [] {
      ChainedCons(events, prev, first);
      WalkFindsNothingIffChained(events[1..], events[0].hash, first + 1);
    }
  }

  /** What `INTACT` means: a chain from genesis whose last row is the checkpoint. */
  predicate MatchesHead(events: seq<Event>, head: Head) {
    && events != []
    && Chained(events, Genesis, 1)
    && head.lastSeq == |events|
    && head.lastHash == events[|events| - 1].hash
  }

  lemma IntactIffMatchesHead(log: Log)
    ensures Verify(log).status == Intact <==> log.head.Some? && MatchesHead(log.events, log.head.value)
  {
    WalkFindsNothingIffChained(log.events, Genesis, 1);
    if log.events != [] && Walk(log.events, Genesis, 1).None? {
      assert Linked(log.events, |log.events| - 1, Genesis, 1);
    }
    WalkNeverIntact(log.events, Genesis, 1);
  }

  lemma {:induction false} WalkNeverIntact(events: seq<Event>, prev: Hash, first: int)
    ensures Walk(events, prev, first).Some? ==> Walk(events, prev, first).value.status in {Gap, Mutated}
    decreases |events|
  {
    if events != [] {
      WalkNeverIntact(events[1..], events[0].hash, first + 1);
    }
  }

  lemma {:induction false} LastHashDeterminesChain(a: seq<Event>, b: seq<Event>)
    requires Chained(a, Genesis, 1) && Chained(b, Genesis, 1)
    requires |a| == |b|
    requires a != [] ==> a[|a| - 1].hash == b[|b| - 1].hash
    ensures a == b
    decreases |a|
  {
    if a != [] {
      var n := |a| - 1;
      assert a == a[..n] + [a[n]] && b == b[..n] + [b[n]];
      ChainedSnoc(a[..n], a[n], Genesis, 1);
      ChainedSnoc(b[..n], b[n], Genesis, 1);
      assert a[n] == b[n];
      LastHashDeterminesChain(a[..n], b[..n]);
    }
  }

  /** The checkpoint alone determines the whole chain, in every hashed field: two lists of rows
      that both verify against it are the same list. */
  lemma CheckpointDeterminesChain(head: Head, a: seq<Event>, b: seq<Event>)
    requires Verify(Log(a, Some(head))).status == Intact
    requires Verify(Log(b, Some(head))).status == Intact
    ensures a == b
  {
    IntactIffMatchesHead(Log(a, Some(head)));
    IntactIffMatchesHead(Log(b, Some(head)));
    LastHashDeterminesChain(a, b);
  }

  // ------------------------------------------------- reading and rewriting rows

  /** What the unique constraint on tenant and number says about the table of all tenants. */
  predicate UniqueNumbers(table: seq<Event>) {
    forall i, j | 0 <= i < j < |table| && table[i].fields.tenant == table[j].fields.tenant ::
      table[i].fields.number != table[j].fields.number
  }

  predicate Ascending(rows: seq<Event>) {
    forall i, j | 0 <= i < j < |rows| :: rows[i].fields.number < rows[j].fields.number
  }

  function InsertByNumber(rows: seq<Event>, e: Event): seq<Event>
    decreases |rows|
  {
    if rows == [] || e.fields.number <= rows[0].fields.number then [e] + rows
    else [rows[0]] + InsertByNumber(rows[1..], e)
  }

  /** What `verify_chain` reads of the table: this tenant's rows, ordered by number. */
  function Read(table: seq<Event>, tenant: Tenant): seq<Event>
    decreases |table|
  {
    if table == [] then []
    else
      var rest := Read(table[1..], tenant);
      if table[0].fields.tenant == tenant then InsertByNumber(rest, table[0]) else rest
  }

  lemma {:induction false} InsertKeepsAscending(rows: seq<Event>, e: Event)
    requires Ascending(rows) && forall r | r in rows :: r.fields.number != e.fields.number
    ensures Ascending(InsertByNumber(rows, e))
    ensures forall r :: r in InsertByNumber(rows, e) <==> r == e || r in rows
    decreases |rows|
  {
    if rows != [] && rows[0].fields.number < e.fields.number {
      var tail := InsertByNumber(rows[1..], e);
      InsertKeepsAscending(rows[1..], e);
      assert rows == [rows[0]] + rows[1..];
      forall j | 0 <= j < |tail| ensures rows[0].fields.number < tail[j].fields.number {
        assert tail[j] in tail;
      }
    }
  }

  /** Exactly the tenant's rows are read, each once and in strictly ascending order. */
  lemma {:induction false} ReadSelectsAndSorts(table: seq<Event>, tenant: Tenant)
    requires UniqueNumbers(table)
    ensures Ascending(Read(table, tenant))
    ensures forall e :: e in Read(table, tenant) <==> e in table && e.fields.tenant == tenant
    decreases |table|
  {
    if table != [] {
      ReadSelectsAndSorts(table[1..], tenant);
      assert table == [table[0]] + table[1..];
      if table[0].fields.tenant == tenant {
        forall r | r in Read(table[1..], tenant) ensures r.fields.number != table[0].fields.number {
          var j :| 0 < j < |table| && table[j] == r;
        }
        InsertKeepsAscending(Read(table[1..], tenant), table[0]);
      }
    }
  }

  lemma {:induction false} AscendingIsUnique(a: seq<Event>, b: seq<Event>)
    requires Ascending(a) && Ascending(b) && forall e :: e in a <==> e in b
    ensures a == b
    decreases |a|
  {
    assert b != [] ==> b[0] in b;
    if a != [] {
      assert a[0] in a;
      assert a[0] == b[0];
      forall e ensures e in a[1..] <==> e in b[1..] {
        assert e in a[1..] ==> e in a && e.fields.number > a[0].fields.number;
        assert e in b[1..] ==> e in b && e.fields.number > b[0].fields.number;
      }
      AscendingIsUnique(a[1..], b[1..]);
    }
  }

  /** The list without its row at `i`. */
  function Without(events: seq<Event>, i: nat): seq<Event>
    requires i < |events|
  {
    events[..i] + events[i + 1..]
  }

  /** The row stored at `p` is the one read at `i`, and the table accepts `forged` in its place. */
  predicate Replaces(table: seq<Event>, tenant: Tenant, p: nat, i: nat, forged: Event) {
    && p < |table| && UniqueNumbers(table) && UniqueNumbers(table[p := forged])
    && i < |Read(table, tenant)| && table[p] == Read(table, tenant)[i]
  }

  lemma ReadIs(table: seq<Event>, tenant: Tenant, rows: seq<Event>)
    requires UniqueNumbers(table) && Ascending(rows)
    requires forall e :: e in rows <==> e in table && e.fields.tenant == tenant
    ensures Read(table, tenant) == rows
  {
    ReadSelectsAndSorts(table, tenant);
    AscendingIsUnique(Read(table, tenant), rows);
  }

  /** After the replacement the table holds the other rows of the tenant, and the new row. */
  lemma RestIsStored(table: seq<Event>, tenant: Tenant, p: nat, i: nat, forged: Event)
    requires Replaces(table, tenant, p, i, forged)
    ensures forall e :: e in table[p := forged] && e.fields.tenant == tenant
              <==> e in Without(Read(table, tenant), i) || (e == forged && forged.fields.tenant == tenant)
  {
    var rows, tampered := Read(table, tenant), table[p := forged];
    ReadSelectsAndSorts(table, tenant);
    assert rows[i] in rows;
    forall e | e in tampered && e.fields.tenant == tenant && e != forged ensures e in Without(rows, i) {
      var q :| 0 <= q < |table| && tampered[q] == e;
      assert q != p && table[q] == e && e.fields.number != table[p].fields.number;
      var k :| 0 <= k < |rows| && rows[k] == e;
      assert k < i ==> Without(rows, i)[k] == e;
      assert k > i ==> Without(rows, i)[k - 1] == e;
    }
    forall e | e in Without(rows, i) ensures e in tampered && e.fields.tenant == tenant {
      assert e in rows && e.fields.number != rows[i].fields.number;
      var q :| 0 <= q < |table| && table[q] == e;
      assert tampered[q] == e;
    }
    assert tampered[p] == forged;
  }

  lemma NumbersOf(events: seq<Event>, i: nat)
    requires Chained(events, Genesis, 1) && i < |events|
    ensures Ascending(events) && Ascending(Without(events, i))
    ensures forall e | e in events :: 1 <= e.fields.number <= |events|
  {
    forall k | 0 <= k < |events| ensures events[k].fields.number == k + 1 {
      assert Linked(events, k, Genesis, 1);
    }
  }

  /** No number between 1 and `n` is free but the replaced row's own. */
  lemma KeepsItsNumber(table: seq<Event>, tenant: Tenant, p: nat, i: nat, forged: Event)
    requires Replaces(table, tenant, p, i, forged) && Chained(Read(table, tenant), Genesis, 1)
    requires forged.fields.tenant == tenant && 1 <= forged.fields.number <= |Read(table, tenant)|
    ensures forged.fields.number == i + 1
  {
    var rows, k := Read(table, tenant), forged.fields.number - 1;
    ReadSelectsAndSorts(table, tenant);
    assert Linked(rows, k, Genesis, 1) && Linked(rows, i, Genesis, 1) && rows[k] in rows;
    var q :| 0 <= q < |table| && table[q] == rows[k];
    assert q != p ==> table[p := forged][q] == rows[k];
    assert table[p := forged][p] == forged;
  }

  /** The row was given to another tenant. */
  lemma ReadWithout(table: seq<Event>, tenant: Tenant, p: nat, i: nat, forged: Event)
    requires Replaces(table, tenant, p, i, forged) && Chained(Read(table, tenant), Genesis, 1)
    requires forged.fields.tenant != tenant
    ensures Read(table[p := forged], tenant) == Without(Read(table, tenant), i)
  {
    RestIsStored(table, tenant, p, i, forged);
    NumbersOf(Read(table, tenant), i);
    ReadIs(table[p := forged], tenant, Without(Read(table, tenant), i));
  }

  /** The list with a row moved to the end where its number puts it. */
  function Renumbered(rows: seq<Event>, i: nat, forged: Event): seq<Event>
    requires i < |rows|
  {
    if forged.fields.number < 1 then [forged] + Without(rows, i) else Without(rows, i) + [forged]
  }

  lemma ReadRenumbered(table: seq<Event>, tenant: Tenant, p: nat, i: nat, forged: Event)
    requires Replaces(table, tenant, p, i, forged) && Chained(Read(table, tenant), Genesis, 1)
    requires forged.fields.tenant == tenant
    requires !(1 <= forged.fields.number <= |Read(table, tenant)|)
    ensures Read(table[p := forged], tenant) == Renumbered(Read(table, tenant), i, forged)
  {
    var rows := Read(table, tenant);
    RestIsStored(table, tenant, p, i, forged);
    NumbersOf(rows, i);
    RenumberedIsAscending(rows, i, forged);
    ReadIs(table[p := forged], tenant, Renumbered(rows, i, forged));
  }

  lemma RenumberedIsAscending(rows: seq<Event>, i: nat, forged: Event)
    requires i < |rows| && Ascending(Without(rows, i)) && !(1 <= forged.fields.number <= |rows|)
    requires forall e | e in rows :: 1 <= e.fields.number <= |rows|
    ensures Ascending(Renumbered(rows, i, forged))
    ensures forall e :: e in Renumbered(rows, i, forged) <==> e == forged || e in Without(rows, i)
  {
    var rest := Without(rows, i);
    forall k | 0 <= k < |rest| ensures 1 <= rest[k].fields.number <= |rows| {
      assert rest[k] in rows;
    }
  }

  lemma ReadInPlace(table: seq<Event>, tenant: Tenant, p: nat, i: nat, forged: Event)
    requires Replaces(table, tenant, p, i, forged) && Chained(Read(table, tenant), Genesis, 1)
    requires forged.fields.tenant == tenant && 1 <= forged.fields.number <= |Read(table, tenant)|
    ensures forged.fields.number == i + 1
    ensures Read(table[p := forged], tenant) == Read(table, tenant)[i := forged]
  {
    var rows := Read(table, tenant);
    KeepsItsNumber(table, tenant, p, i, forged);
    RestIsStored(table, tenant, p, i, forged);
    NumbersOf(rows, i);
    assert Linked(rows, i, Genesis, 1);
    assert rows[i := forged] == rows[..i] + [forged] + rows[i + 1..];
    ReadIs(table[p := forged], tenant, rows[i := forged]);
  }

  /** One row deleted. */
  lemma RowGone(log: Log, i: nat)
    requires Verify(log).status == Intact && i < |log.events|
    ensures var n := |log.events|;
            Verify(Log(Without(log.events, i), log.head)) ==
              if n == 1 then Verification(if log.head.value.offboarded then Offboarded else Erased, None, 1)
              else if i + 1 == n then Verification(Truncated, Some(n - 1), 1)
              else Verification(Gap, Some(i + 2), 0)
  {
    IntactIffMatchesHead(log);
    var rest := Without(log.events, i);
    SamePrefix(log.events, rest, i);
    if i + 1 == |log.events| {
      ChainedVerdict(Log(rest, log.head));
    } else {
      assert Linked(log.events, i + 1, Genesis, 1);
      WalkStopsAt(rest, Genesis, 1, i);
    }
  }

  /** One row given a number below or above all others. */
  lemma RowRenumbered(log: Log, i: nat, forged: Event)
    requires Verify(log).status == Intact && i < |log.events|
    requires !(1 <= forged.fields.number <= |log.events|)
    ensures var last := i + 1 == |log.events|;
            Verify(Log(Renumbered(log.events, i, forged), log.head)) ==
              Verification(Gap, Some(if forged.fields.number < 1 || last then forged.fields.number else i + 2), 0)
  {
    IntactIffMatchesHead(log);
    var rows := Renumbered(log.events, i, forged);
    if forged.fields.number >= 1 {
      SamePrefix(log.events, rows, i);
      if i + 1 < |log.events| {
        assert Linked(log.events, i + 1, Genesis, 1);
      }
      WalkStopsAt(rows, Genesis, 1, i);
    }
  }

  lemma SamePrefix(events: seq<Event>, rows: seq<Event>, i: nat)
    requires Chained(events, Genesis, 1) && i <= |events| && i <= |rows| && rows[..i] == events[..i]
    ensures forall k | 0 <= k < i :: Linked(rows, k, Genesis, 1)
  {
    forall k | 0 <= k < i ensures Linked(rows, k, Genesis, 1) {
      assert Linked(events, k, Genesis, 1);
      assert rows[..i][k] == rows[k] && events[..i][k] == events[k];
      assert k > 0 ==> rows[..i][k - 1] == rows[k - 1] && events[..i][k - 1] == events[k - 1];
    }
  }

  /** One row replaced under its own number. */
  lemma ReplacementInPlace(log: Log, i: nat, forged: Event)
    requires Verify(log).status == Intact && i < |log.events| && forged != log.events[i]
    requires forged.fields.number == i + 1
    ensures var n, rows := |log.events|, log.events[i := forged];
            Verify(Log(rows, log.head)) ==
              if !Linked(rows, i, Genesis, 1) then Verification(Mutated, Some(i + 1), 0)
              else if i + 1 == n then Verification(CheckpointMissing, Some(n), 0)
              else Verification(Mutated, Some(i + 2), 0)
  {
    IntactIffMatchesHead(log);
    var rows := log.events[i := forged];
    SamePrefix(log.events, rows, i);
    if !Linked(rows, i, Genesis, 1) {
      WalkStopsAt(rows, Genesis, 1, i);
    } else {
      ForgedHashDiffers(log.events, i, forged);
      if i + 1 < |rows| {
        assert Linked(log.events, i + 1, Genesis, 1);
        WalkStopsAt(rows, Genesis, 1, i + 1);
      } else {
        ChainedVerdict(Log(rows, log.head));
      }
    }
  }

  /** A row that fits where another one was, and is not that row, has another hash. */
  lemma ForgedHashDiffers(events: seq<Event>, i: nat, forged: Event)
    requires Chained(events, Genesis, 1) && i < |events| && forged != events[i]
    requires Linked(events[i := forged], i, Genesis, 1)
    ensures forged.hash != events[i].hash
  {
    assert Linked(events, i, Genesis, 1);
  }

  /** Replacing one stored row of an intact chain by any other row, with or without recomputed
      hashes, is always caught, and where. A row given to another tenant is a deletion, a new
      number is a gap; under its own number the row is reported itself when it does not fit there,
      else the row behind it, whose predecessor hash no longer matches, or the checkpoint. The
      unique constraint keeps any other number from being used. */
  lemma ReplacementIsLocated(table: seq<Event>, tenant: Tenant, head: Head, p: nat, i: nat, forged: Event)
    requires Replaces(table, tenant, p, i, forged) && forged != table[p]
    requires Verify(Log(Read(table, tenant), Some(head))).status == Intact
    ensures var rows := Read(table, tenant); var n, number := |rows|, forged.fields.number;
            Verify(Log(Read(table[p := forged], tenant), Some(head))) ==
              if forged.fields.tenant != tenant then
                if n == 1 then Verification(if head.offboarded then Offboarded else Erased, None, 1)
                else if i + 1 == n then Verification(Truncated, Some(n - 1), 1)
                else Verification(Gap, Some(i + 2), 0)
              else if number < 1 then Verification(Gap, Some(number), 0)
              else if number > n then Verification(Gap, Some(if i + 1 == n then number else i + 2), 0)
              else if !Linked(rows[i := forged], i, Genesis, 1) then Verification(Mutated, Some(i + 1), 0)
              else if i + 1 == n then Verification(CheckpointMissing, Some(n), 0)
              else Verification(Mutated, Some(i + 2), 0)
  {
    var log := Log(Read(table, tenant), Some(head));
    var number := forged.fields.number;
    IntactIffMatchesHead(log);
    if forged.fields.tenant != tenant {
      ReadWithout(table, tenant, p, i, forged);
      RowGone(log, i);
    } else if number < 1 || number > |log.events| {
      ReadRenumbered(table, tenant, p, i, forged);
      RowRenumbered(log, i, forged);
    } else {
      ReadInPlace(table, tenant, p, i, forged);
      ReplacementInPlace(log, i, forged);
    }
  }

  /** In particular, rewriting the content and leaving the hashes alone is located at that row. */
  lemma MutationIsLocated(log: Log, i: nat, content: Content)
    requires Verify(log).status == Intact && i < |log.events| && content != log.events[i].fields.content
    ensures var e := log.events[i];
            var forged := Log(log.events[i := e.(fields := e.fields.(content := content))], log.head);
            Verify(forged) == Verification(Mutated, Some(i + 1), 0)
  {
    IntactIffMatchesHead(log);
    assert Linked(log.events, i, Genesis, 1);
    var e := log.events[i];
    ReplacementInPlace(log, i, e.(fields := e.fields.(content := content)));
  }

  /** The walk reports the first row that does not fit. */
  lemma {:induction false} WalkStopsAt(rows: seq<Event>, prev: Hash, first: int, i: nat)
    requires i < |rows| && !Linked(rows, i, prev, first)
    requires forall k | 0 <= k < i :: Linked(rows, k, prev, first)
    ensures Walk(rows, prev, first) ==
              Some(if rows[i].fields.number != first + i then Verification(Gap, Some(rows[i].fields.number), 0)
                   else Verification(Mutated, Some(first + i), 0))
    decreases i
  {
    if i > 0 {
      assert Linked(rows, 0, prev, first);
      var rest, next := rows[1..], first + 1;
      forall k | 0 <= k < i - 1 ensures Linked(rest, k, rows[0].hash, next) {
        assert Linked(rows, k + 1, prev, first);
      }
      WalkStopsAt(rest, rows[0].hash, next, i - 1);
    }
  }

  /** Without a checkpoint nothing is vouched for: an empty table is EMPTY, and any row at all means
      that the checkpoint is missing. With one, a chain free of defects that does not end in it is
      truncated or does not match it. */
  lemma CheckpointDecides(log: Log)
    ensures log.head.None? ==>
              Verify(log) == if log.events == [] then Verification(Empty, None, 0)
                             else Verification(CheckpointMissing, Some(log.events[0].fields.number), 0)
    ensures log.head.Some? && log.events == [] ==>
              Verify(log) == Verification(if log.head.value.offboarded then Offboarded else Erased, None,
                                          log.head.value.lastSeq)
    ensures log.head.Some? && log.events != [] && Chained(log.events, Genesis, 1) ==>
              var n, head := |log.events|, log.head.value;
              && (head.lastSeq > n <==> Verify(log) == Verification(Truncated, Some(n), head.lastSeq - n))
              && (head.lastSeq < n || (head.lastSeq == n && head.lastHash != log.events[n - 1].hash)
                  <==> Verify(log) == Verification(CheckpointMissing, Some(n), 0))
  {
    if log.head.Some? && Chained(log.events, Genesis, 1) {
      ChainedVerdict(log);
    }
  }

  /** Offboarding leaves a mark that tells a sanctioned erasure from any other. */
  lemma OffboardingIsTold(log: Log, tenant: Tenant)
    requires log.head.Some?
    ensures var marked := ApplyChange(log, tenant, Offboard);
            && Verify(Log([], marked.head)) == Verification(Offboarded, None, log.head.value.lastSeq)
            && marked.events == log.events
            && (log.events != [] ==> Verify(marked) == Verify(log))
  {
  }

  // ----------------------------------------------------------------- deletion

  function Remaining(events: seq<Event>, gone: set<int>): seq<Event>
    decreases |events|
  {
    if events == [] then []
    else (if events[0].fields.number in gone then [] else [events[0]]) + Remaining(events[1..], gone)
  }

  /** The lowest surviving number at or above `from`. */
  ghost predicate FirstSurvivor(gone: set<int>, from: int, n: int, s: int) {
    from <= s <= n && s !in gone && forall k | from <= k < s :: k in gone
  }

  lemma {:induction false} RemainingHead(events: seq<Event>, prev: Hash, first: int, gone: set<int>)
    requires Chained(events, prev, first)
    ensures Remaining(events, gone) == [] ==> forall k | first <= k < first + |events| :: k in gone
    ensures Remaining(events, gone) != [] ==>
              FirstSurvivor(gone, first, first + |events| - 1, Remaining(events, gone)[0].fields.number)
    decreases |events|
  {
    if events != [] {
      ChainedCons(events, prev, first);
      RemainingHead(events[1..], events[0].hash, first + 1, gone);
    }
  }

  /** Walking what survives: the rows before the smallest deleted number pass, then the first
      survivor after it shows up as a gap, or the list just ends. */
  lemma {:induction false} WalkSurvivors(events: seq<Event>, prev: Hash, first: int, last: int,
                                         gone: set<int>, low: int)
    requires Chained(events, prev, first) && last == first + |events| - 1
    requires first <= low < first + |events| && low in gone && forall k | k in gone :: low <= k
    ensures var left := Remaining(events, gone);
            && ((forall k | low <= k <= last :: k in gone) ==>
                  left == events[..low - first] && Walk(left, prev, first).None?)
            && forall s | FirstSurvivor(gone, low, last, s) ::
                 left != [] && Walk(left, prev, first) == Some(Verification(Gap, Some(s), 0))
    decreases |events|
  {
    if first == low {
      WalkFromTheCut(events, prev, first, last, gone);
    } else {
      ChainedCons(events, prev, first);
      WalkSurvivors(events[1..], events[0].hash, first + 1, last, gone, low);
      WalkKeepsFirst(events, prev, first, gone, low);
    }
  }

  /** The first row itself is gone. */
  lemma WalkFromTheCut(events: seq<Event>, prev: Hash, first: int, last: int, gone: set<int>)
    requires Chained(events, prev, first) && last == first + |events| - 1 && events != [] && first in gone
    ensures var left := Remaining(events, gone);
            && ((forall k | first <= k <= last :: k in gone) ==> left == [])
            && forall s | FirstSurvivor(gone, first, last, s) ::
                 left != [] && Walk(left, prev, first) == Some(Verification(Gap, Some(s), 0))
  {
    ChainedCons(events, prev, first);
    var rest := events[1..];
    RemainingHead(rest, events[0].hash, first + 1, gone);
    assert Remaining(events, gone) == Remaining(rest, gone);
    forall s | FirstSurvivor(gone, first, last, s)
      ensures Remaining(rest, gone) != [] && Remaining(rest, gone)[0].fields.number == s != first
    {
      assert s != first && s !in gone;
    }
  }

  /** The first row survives, so the walk goes on behind it. */
  lemma WalkKeepsFirst(events: seq<Event>, prev: Hash, first: int, gone: set<int>, low: int)
    requires Chained(events, prev, first) && first < low < first + |events|
    requires forall k | k in gone :: low <= k
    ensures var rest, left := events[1..], Remaining(events, gone);
            && left == [events[0]] + Remaining(rest, gone)
            && Walk(left, prev, first) == Walk(Remaining(rest, gone), events[0].hash, first + 1)
            && [events[0]] + rest[..low - first - 1] == events[..low - first]
  {
    ChainedCons(events, prev, first);
    var rest := events[1..];
    assert ([events[0]] + Remaining(rest, gone))[1..] == Remaining(rest, gone);
  }

  /** Deleting any rows of an intact chain is classified exactly. With `low` the smallest deleted
      number: if nothing survives above it the answer is ERASED or OFFBOARDED (nothing survives at all) or
      TRUNCATED with the exact number of missing rows; otherwise it is GAP at the first survivor
      above it. */
  lemma DeletionIsClassified(log: Log, gone: set<int>, low: int)
    requires Verify(log).status == Intact
    requires low in gone && (forall k | k in gone :: low <= k) && 1 <= low <= |log.events|
    ensures var n := |log.events|; var v := Verify(Log(Remaining(log.events, gone), log.head));
            && ((forall k | low <= k <= n :: k in gone) ==>
                  v == if low == 1 then Verification(if log.head.value.offboarded then Offboarded else Erased, None, n)
                       else Verification(Truncated, Some(low - 1), n - low + 1))
            && (forall s | FirstSurvivor(gone, low, n, s) :: v == Verification(Gap, Some(s), 0))
  {
    IntactIffMatchesHead(log);
    WalkSurvivors(log.events, Genesis, 1, |log.events|, gone, low);
    if low > 1 {
      assert Linked(log.events, low - 2, Genesis, 1);
    }
  }

  /** One of the two cases always applies. */
  lemma {:induction false} SurvivorOrNone(gone: set<int>, from: int, n: int) returns (s: int)
    requires from <= n + 1
    ensures (forall k | from <= k <= n :: k in gone) || FirstSurvivor(gone, from, n, s)
    decreases n + 1 - from
  {
    if from <= n && from in gone {
      s := SurvivorOrNone(gone, from + 1, n);
    } else {
      s := from;
    }
  }

  // ------------------------------------------------------------------- append

  /** The trigger: the checkpoint advances only to a strictly larger number. */
  function Advance(head: Option<Head>, e: Event): Option<Head> {
    if head.None? then Some(Head(e.fields.number, e.hash, false))
    else if head.value.lastSeq < e.fields.number then
      Some(head.value.(lastSeq := e.fields.number, lastHash := e.hash))
    else head
  }

  /** The row `record` builds on top of the rows it sees. */
  function NextEvent(events: seq<Event>, tenant: Tenant, content: Content): Event {
    var number := if events == [] then 1 else events[|events| - 1].fields.number + 1;
    var prev := if events == [] then Genesis else events[|events| - 1].hash;
    var fields := Fields(tenant, number, content);
    Event(fields, prev, ComputeHash(prev, fields))
  }

  function Record(log: Log, tenant: Tenant, content: Content): Log {
    var e := NextEvent(log.events, tenant, content);
    Log(log.events + [e], Advance(log.head, e))
  }

  function RecordAll(log: Log, tenant: Tenant, contents: seq<Content>): Log
    decreases |contents|
  {
    if contents == [] then log
    else Record(RecordAll(log, tenant, contents[..|contents| - 1]), tenant, contents[|contents| - 1])
  }

  lemma {:induction false} RecordAllExtends(log: Log, tenant: Tenant, contents: seq<Content>)
    requires Chained(log.events, Genesis, 1)
    ensures var grown := RecordAll(log, tenant, contents);
            && Chained(grown.events, Genesis, 1)
            && log.events <= grown.events
            && |grown.events| == |log.events| + |contents|
    decreases |contents|
  {
    if contents != [] {
      var before := RecordAll(log, tenant, contents[..|contents| - 1]);
      RecordAllExtends(log, tenant, contents[..|contents| - 1]);
      NextEventChains(before.events, tenant, contents[|contents| - 1]);
    }
  }

  /** After a checkpoint at `n`, appending to a shorter chain leaves the checkpoint alone up to
      `n` and carries it along afterwards. */
  lemma {:induction false} HeadAfterRecords(log: Log, tenant: Tenant, contents: seq<Content>)
    requires Chained(log.events, Genesis, 1) && log.head.Some? && |log.events| <= log.head.value.lastSeq
    ensures var grown := RecordAll(log, tenant, contents);
            grown.head ==
              if |grown.events| <= log.head.value.lastSeq then log.head
              else Some(log.head.value.(lastSeq := |grown.events|, lastHash := grown.events[|grown.events| - 1].hash))
    decreases |contents|
  {
    RecordAllExtends(log, tenant, contents);
    if contents != [] {
      RecordAllExtends(log, tenant, contents[..|contents| - 1]);
      HeadAfterRecords(log, tenant, contents[..|contents| - 1]);
      NextEventChains(RecordAll(log, tenant, contents[..|contents| - 1]).events, tenant, contents[|contents| - 1]);
    }
  }

  /** The answer for a chain without defects depends on where it ends and on the checkpoint. */
  lemma ChainedVerdict(log: Log)
    requires Chained(log.events, Genesis, 1) && log.head.Some?
    ensures var size, head := |log.events|, log.head.value;
            Verify(log) ==
              if size == 0 then Verification(if head.offboarded then Offboarded else Erased, None, head.lastSeq)
              else if size < head.lastSeq then Verification(Truncated, Some(size), head.lastSeq - size)
              else if size > head.lastSeq || log.events[size - 1].hash != head.lastHash then
                Verification(CheckpointMissing, Some(size), 0)
              else Verification(Intact, Some(size), 0)
  {
    WalkFindsNothingIffChained(log.events, Genesis, 1);
    if log.events != [] {
      assert Linked(log.events, |log.events| - 1, Genesis, 1);
    }
  }

  lemma RegrownChain(log: Log, k: nat, tenant: Tenant, contents: seq<Content>)
    requires log.head.Some? && MatchesHead(log.events, log.head.value) && k < |log.events|
    ensures var n := |log.events|; var size := k + |contents|;
            var regrown := RecordAll(Log(log.events[..k], log.head), tenant, contents);
            && Chained(regrown.events, Genesis, 1) && |regrown.events| == size
            && regrown.head == if size <= n then log.head
                               else Some(log.head.value.(lastSeq := size, lastHash := regrown.events[size - 1].hash))
  {
    var cut := Log(log.events[..k], log.head);
    assert log.events == log.events[..k] + log.events[k..];
    ChainedPrefix(log.events[..k], log.events[k..]);
    RecordAllExtends(cut, tenant, contents);
    HeadAfterRecords(cut, tenant, contents);
  }

  /** Exactly when a truncated chain that grows again is still caught. Cut an intact chain of `n`
      rows down to `k` and record `m` more: below `n` rows the loss is reported with its size, at
      exactly `n` rows only the identical rows pass, and beyond `n` rows the newer checkpoint
      vouches for the new chain. */
  lemma RegrownChainVerdict(log: Log, k: nat, tenant: Tenant, contents: seq<Content>)
    requires Verify(log).status == Intact && k < |log.events|
    ensures var n := |log.events|; var size := k + |contents|;
            var regrown := RecordAll(Log(log.events[..k], log.head), tenant, contents);
            Verify(regrown) ==
              if size == 0 then Verification(if log.head.value.offboarded then Offboarded else Erased, None, n)
              else if size < n then Verification(Truncated, Some(size), n - size)
              else if size == n && regrown.events != log.events then Verification(CheckpointMissing, Some(n), 0)
              else Verification(Intact, Some(size), 0)
  {
    IntactIffMatchesHead(log);
    RegrownChain(log, k, tenant, contents);
    var regrown := RecordAll(Log(log.events[..k], log.head), tenant, contents);
    ChainedVerdict(regrown);
    if |regrown.events| == |log.events| && regrown.events[|regrown.events| - 1].hash == log.head.value.lastHash {
      LastHashDeterminesChain(regrown.events, log.events);
    }
  }

  // ----------------------------------------------- appends, deletions, offboard

  datatype Change = Append(content: Content) | Delete(gone: set<int>) | Offboard

  function ApplyChange(log: Log, tenant: Tenant, c: Change): Log {
    match c
    case Append(content) => Record(log, tenant, content)
    case Delete(gone) => Log(Remaining(log.events, gone), log.head)
    case Offboard => if log.head.None? then log else log.(head := Some(log.head.value.(offboarded := true)))
  }

  function RunChanges(log: Log, tenant: Tenant, cs: seq<Change>): Log
    decreases |cs|
  {
    if cs == [] then log else RunChanges(ApplyChange(log, tenant, cs[0]), tenant, cs[1..])
  }

  function Max(a: int, b: int): int { if a < b then b else a }

  /** The highest number ever inserted along a run. */
  function HighestInserted(log: Log, tenant: Tenant, cs: seq<Change>): int
    decreases |cs|
  {
    if cs == [] then 0
    else
      var rest := HighestInserted(ApplyChange(log, tenant, cs[0]), tenant, cs[1..]);
      if cs[0].Append? then Max(NextEvent(log.events, tenant, cs[0].content).fields.number, rest) else rest
  }

  function HeadSeq(log: Log): int { if log.head.None? then 0 else log.head.value.lastSeq }

  ghost predicate Numbered(log: Log) {
    HeadSeq(log) >= 0 && forall e | e in log.events :: e.fields.number >= 1
  }

  lemma {:induction false} RemainingIsSubset(events: seq<Event>, gone: set<int>)
    ensures forall e | e in Remaining(events, gone) :: e in events
    decreases |events|
  {
    if events != [] {
      RemainingIsSubset(events[1..], gone);
    }
  }

  lemma ChangeKeepsNumbered(log: Log, tenant: Tenant, c: Change)
    requires Numbered(log)
    ensures Numbered(ApplyChange(log, tenant, c))
    ensures HeadSeq(ApplyChange(log, tenant, c))
            == if c.Append? then Max(HeadSeq(log), NextEvent(log.events, tenant, c.content).fields.number)
               else HeadSeq(log)
  {
    if c.Delete? {
      RemainingIsSubset(log.events, c.gone);
    } else if c.Append? {
      assert NextEvent(log.events, tenant, c.content).fields.number >= 1;
    }
  }

  /** Whatever is recorded and deleted, the checkpoint is the highest number ever inserted, so
      INTACT leaves no room for a missing row: exactly that many rows survive. */
  lemma {:induction false} CheckpointIsHighWaterMark(log: Log, tenant: Tenant, cs: seq<Change>)
    requires Numbered(log)
    ensures HeadSeq(RunChanges(log, tenant, cs)) == Max(HeadSeq(log), HighestInserted(log, tenant, cs))
    ensures Verify(RunChanges(log, tenant, cs)).status == Intact ==>
              |RunChanges(log, tenant, cs).events| == HeadSeq(RunChanges(log, tenant, cs))
    decreases |cs|
  {
    IntactIffMatchesHead(RunChanges(log, tenant, cs));
    if cs != [] {
      ChangeKeepsNumbered(log, tenant, cs[0]);
      CheckpointIsHighWaterMark(ApplyChange(log, tenant, cs[0]), tenant, cs[1..]);
    }
  }

  // ------------------------------------------------------ concurrent recorders

  /** All tenants' logs, the advisory locks, and the rows each open transaction has inserted. */
  datatype World = World(
    logs: map<Tenant, Log>,
    locks: map<int, TxnId>,
    pending: map<TxnId, map<Tenant, seq<Event>>>)

  datatype Action =
    | Lock(txn: TxnId, tenant: Tenant)
    | Insert(txn: TxnId, tenant: Tenant, content: Content)
    | Commit(txn: TxnId)
    | Rollback(txn: TxnId)

  /** Different tenants may share a key; that only makes them wait for each other. */
  function LockKey(tenant: Tenant): int { tenant % 0x8000_0000 }

  function LogOf(w: World, tenant: Tenant): Log {
    if tenant in w.logs then w.logs[tenant] else Log([], None)
  }

  function PendingOf(w: World, txn: TxnId, tenant: Tenant): seq<Event> {
    if txn in w.pending && tenant in w.pending[txn] then w.pending[txn][tenant] else []
  }

  function AdvanceAll(head: Option<Head>, rows: seq<Event>): Option<Head>
    decreases |rows|
  {
    if rows == [] then head else AdvanceAll(Advance(head, rows[0]), rows[1..])
  }

  function EndTransaction(w: World, txn: TxnId): World {
    w.(locks := map k | k in w.locks && w.locks[k] != txn :: w.locks[k], pending := w.pending - {txn})
  }

  function ApplyAction(w: World, a: Action): World {
    match a
    case Lock(txn, tenant) =>
      if LockKey(tenant) in w.locks then w else w.(locks := w.locks[LockKey(tenant) := txn])
    case Insert(txn, tenant, content) =>
      if LockKey(tenant) !in w.locks || w.locks[LockKey(tenant)] != txn then w
      else
        var mine := PendingOf(w, txn, tenant);
        var e := NextEvent(LogOf(w, tenant).events + mine, tenant, content);
        var rows := if txn in w.pending then w.pending[txn] else map[];
        w.(pending := w.pending[txn := rows[tenant := mine + [e]]])
    case Commit(txn) =>
      if txn !in w.pending then EndTransaction(w, txn)
      else
        EndTransaction(w, txn).(logs := map t | t in w.logs.Keys + w.pending[txn].Keys ::
          Log(LogOf(w, t).events + PendingOf(w, txn, t), AdvanceAll(LogOf(w, t).head, PendingOf(w, txn, t))))
    case Rollback(txn) => EndTransaction(w, txn)
  }

  function RunActions(w: World, acts: seq<Action>): World
    decreases |acts|
  {
    if acts == [] then w else RunActions(ApplyAction(w, acts[0]), acts[1..])
  }

  ghost predicate Healthy(log: Log) {
    if log.events == [] then log.head.None? else log.head.Some? && MatchesHead(log.events, log.head.value)
  }

  /** Committed logs are healthy; rows inserted by an open transaction continue the committed
      log of their tenant, whose lock that transaction holds. */
  ghost predicate WorldInv(w: World) {
    && (forall t :: Healthy(LogOf(w, t)))
    && forall txn, t | PendingOf(w, txn, t) != [] ::
         && LockKey(t) in w.locks && w.locks[LockKey(t)] == txn
         && Chained(LogOf(w, t).events + PendingOf(w, txn, t), Genesis, 1)
  }

  lemma NextEventChains(events: seq<Event>, tenant: Tenant, content: Content)
    requires Chained(events, Genesis, 1)
    ensures Chained(events + [NextEvent(events, tenant, content)], Genesis, 1)
    ensures NextEvent(events, tenant, content).fields.number == |events| + 1
  {
    if events != [] {
      assert Linked(events, |events| - 1, Genesis, 1);
    }
    ChainedSnoc(events, NextEvent(events, tenant, content), Genesis, 1);
  }

  lemma {:induction false} HeadFollowsChain(events: seq<Event>, head: Option<Head>, rows: seq<Event>)
    requires Healthy(Log(events, head)) && Chained(events + rows, Genesis, 1)
    ensures Healthy(Log(events + rows, AdvanceAll(head, rows)))
    decreases |rows|
  {
    if rows == [] {
      assert events + rows == events;
    } else {
      var e := rows[0];
      assert events + rows == (events + [e]) + rows[1..];
      ChainedPrefix(events + [e], rows[1..]);
      assert Linked(events + [e], |events|, Genesis, 1);
      HeadFollowsChain(events + [e], Advance(head, e), rows[1..]);
    }
  }

  lemma ChainedPrefix(a: seq<Event>, b: seq<Event>)
    requires Chained(a + b, Genesis, 1)
    ensures Chained(a, Genesis, 1)
  {
    forall i | 0 <= i < |a| ensures Linked(a, i, Genesis, 1) {
      assert Linked(a + b, i, Genesis, 1);
    }
  }

  lemma CommitKeepsInv(w: World, txn: TxnId)
    requires WorldInv(w)
    ensures WorldInv(ApplyAction(w, Commit(txn)))
  {
    var v := ApplyAction(w, Commit(txn));
    forall t ensures Healthy(LogOf(v, t)) && LogOf(v, t).events == LogOf(w, t).events + PendingOf(w, txn, t) {
      if PendingOf(w, txn, t) == [] {
        assert LogOf(w, t).events + [] == LogOf(w, t).events;
      } else {
        HeadFollowsChain(LogOf(w, t).events, LogOf(w, t).head, PendingOf(w, txn, t));
      }
    }
    forall other, t | PendingOf(v, other, t) != []
      ensures LogOf(v, t).events == LogOf(w, t).events && PendingOf(w, other, t) == PendingOf(v, other, t)
    {
      assert other != txn && PendingOf(w, other, t) == PendingOf(v, other, t);
      assert w.locks[LockKey(t)] == other;  // so nothing of txn's is pending here
      assert LogOf(w, t).events + [] == LogOf(w, t).events;
    }
  }

  lemma InsertKeepsInv(w: World, txn: TxnId, tenant: Tenant, content: Content)
    requires WorldInv(w)
    ensures WorldInv(ApplyAction(w, Insert(txn, tenant, content)))
  {
    var v := ApplyAction(w, Insert(txn, tenant, content));
    var mine, events := PendingOf(w, txn, tenant), LogOf(w, tenant).events + PendingOf(w, txn, tenant);
    var e := NextEvent(events, tenant, content);
    assert Healthy(LogOf(w, tenant));
    if mine == [] {
      assert events == LogOf(w, tenant).events;
    }
    NextEventChains(events, tenant, content);
    assert events + [e] == LogOf(w, tenant).events + (mine + [e]);
    forall t ensures Healthy(LogOf(v, t)) {
      assert LogOf(v, t) == LogOf(w, t) && Healthy(LogOf(w, t));
    }
    forall other, t | PendingOf(v, other, t) != []
      ensures LockKey(t) in v.locks && v.locks[LockKey(t)] == other
      ensures Chained(LogOf(v, t).events + PendingOf(v, other, t), Genesis, 1)
    {
      assert (other == txn && t == tenant) || PendingOf(v, other, t) == PendingOf(w, other, t);
    }
  }

  lemma LockingKeepsInv(w: World, a: Action)
    requires WorldInv(w) && (a.Lock? || a.Rollback?)
    ensures WorldInv(ApplyAction(w, a))
  {
    var v := ApplyAction(w, a);
    forall t ensures Healthy(LogOf(v, t)) {
      assert LogOf(v, t) == LogOf(w, t) && Healthy(LogOf(w, t));
    }
    forall txn, t | PendingOf(v, txn, t) != []
      ensures LockKey(t) in v.locks && v.locks[LockKey(t)] == txn
      ensures Chained(LogOf(v, t).events + PendingOf(v, txn, t), Genesis, 1)
    {
      assert PendingOf(v, txn, t) == PendingOf(w, txn, t) && (a.Rollback? ==> txn != a.txn);
    }
  }

  lemma ActionKeepsInv(w: World, a: Action)
    requires WorldInv(w)
    ensures WorldInv(ApplyAction(w, a))
  {
    match a
    case Insert(txn, tenant, content) => InsertKeepsInv(w, txn, tenant, content);
    case Commit(txn) => CommitKeepsInv(w, txn);
    case _ => LockingKeepsInv(w, a);
  }

  /** However transactions of all tenants interleave, commit and roll back, every tenant's chain
      has no fork and no hole (its numbers are 1 to n), its checkpoint is its last row, and it
      verifies as INTACT, or EMPTY exactly when nothing was committed. */
  lemma {:induction false} ConcurrentRecordsStayIntact(w: World, acts: seq<Action>, t: Tenant)
    requires WorldInv(w)
    ensures var log := LogOf(RunActions(w, acts), t);
            && Chained(log.events, Genesis, 1)
            && Verify(log).status == (if log.events == [] then Empty else Intact)
            && HeadSeq(log) == |log.events|
    decreases |acts|
  {
    if acts == [] {
      assert Healthy(LogOf(w, t));
      IntactIffMatchesHead(LogOf(w, t));
    } else {
      ActionKeepsInv(w, acts[0]);
      ConcurrentRecordsStayIntact(ApplyAction(w, acts[0]), acts[1..], t);
    }
  }

  // ------------------------------------------------------- what was recorded

  /** The platform's history told without numbers, hashes and checkpoints: what each open transaction
      has recorded, and what was committed, in this order. */
  datatype Note = Note(tenant: Tenant, content: Content)
  datatype Journal = Journal(open: map<TxnId, seq<Note>>, done: seq<Note>)

  predicate HoldsLock(w: World, txn: TxnId, tenant: Tenant) {
    LockKey(tenant) in w.locks && w.locks[LockKey(tenant)] == txn
  }

  function OpenNotes(j: Journal, txn: TxnId): seq<Note> {
    if txn in j.open then j.open[txn] else []
  }

  function Told(j: Journal, w: World, a: Action): Journal {
    match a
    case Lock(_, _) => j
    case Insert(txn, tenant, content) =>
      if HoldsLock(w, txn, tenant) then j.(open := j.open[txn := OpenNotes(j, txn) + [Note(tenant, content)]]) else j
    case Commit(txn) => Journal(j.open - {txn}, j.done + OpenNotes(j, txn))
    case Rollback(txn) => j.(open := j.open - {txn})
  }

  function Tell(j: Journal, w: World, acts: seq<Action>): Journal
    decreases |acts|
  {
    if acts == [] then j else Tell(Told(j, w, acts[0]), ApplyAction(w, acts[0]), acts[1..])
  }

  /** The contents a list of notes has for one tenant. */
  function ContentsFor(notes: seq<Note>, tenant: Tenant): seq<Content>
    decreases |notes|
  {
    if notes == [] then []
    else
      var n := |notes| - 1;
      ContentsFor(notes[..n], tenant) + if notes[n].tenant == tenant then [notes[n].content] else []
  }

  function ContentsOf(events: seq<Event>): (cs: seq<Content>)
    ensures |cs| == |events| && forall i | 0 <= i < |events| :: cs[i] == events[i].fields.content
  {
    seq(|events|, i requires 0 <= i < |events| => events[i].fields.content)
  }

  predicate OfTenant(events: seq<Event>, tenant: Tenant) {
    forall e | e in events :: e.fields.tenant == tenant
  }

  /** The tables hold what the journal tells of one tenant. */
  ghost predicate Agrees(w: World, j: Journal, t: Tenant) {
    && ContentsOf(LogOf(w, t).events) == ContentsFor(j.done, t) && OfTenant(LogOf(w, t).events, t)
    && forall txn :: AgreesOpen(w, j, txn, t)
  }

  predicate AgreesOpen(w: World, j: Journal, txn: TxnId, t: Tenant) {
    ContentsOf(PendingOf(w, txn, t)) == ContentsFor(OpenNotes(j, txn), t) && OfTenant(PendingOf(w, txn, t), t)
  }

  lemma {:induction false} ContentsForConcat(a: seq<Note>, b: seq<Note>, t: Tenant)
    ensures ContentsFor(a + b, t) == ContentsFor(a, t) + ContentsFor(b, t)
    decreases |b|
  {
    if b == [] {
      assert a + b == a;
    } else {
      var n := |b| - 1;
      assert (a + b)[..|a + b| - 1] == a + b[..n];
      ContentsForConcat(a, b[..n], t);
    }
  }

  /** An insert by the holder of the lock appends one row for its tenant to the rows of its
      transaction. */
  lemma InsertedRows(w: World, txn: TxnId, tenant: Tenant, content: Content, t: Tenant)
    requires HoldsLock(w, txn, tenant)
    ensures var mine, rows := PendingOf(w, txn, t), PendingOf(ApplyAction(w, Insert(txn, tenant, content)), txn, t);
            if tenant != t then rows == mine
            else exists e :: rows == mine + [e] && e.fields.tenant == t && e.fields.content == content
  {
    var mine := PendingOf(w, txn, t);
    if tenant == t {
      var e := NextEvent(LogOf(w, t).events + mine, t, content);
      assert PendingOf(ApplyAction(w, Insert(txn, tenant, content)), txn, t) == mine + [e];
    }
  }

  lemma OneNote(tenant: Tenant, content: Content, t: Tenant)
    ensures ContentsFor([Note(tenant, content)], t) == if tenant == t then [content] else []
  {
    assert [Note(tenant, content)][..0] == [];
  }

  lemma ContentsAppended(mine: seq<Event>, e: Event, t: Tenant)
    requires OfTenant(mine, t) && e.fields.tenant == t
    ensures OfTenant(mine + [e], t) && ContentsOf(mine + [e]) == ContentsOf(mine) + [e.fields.content]
  {
  }

  lemma InsertAgreesOpen(w: World, j: Journal, txn: TxnId, tenant: Tenant, content: Content, t: Tenant)
    requires AgreesOpen(w, j, txn, t) && HoldsLock(w, txn, tenant)
    ensures AgreesOpen(ApplyAction(w, Insert(txn, tenant, content)), Told(j, w, Insert(txn, tenant, content)), txn, t)
  {
    var mine, rows := PendingOf(w, txn, t), PendingOf(ApplyAction(w, Insert(txn, tenant, content)), txn, t);
    InsertedRows(w, txn, tenant, content, t);
    OneNote(tenant, content, t);
    ContentsForConcat(OpenNotes(j, txn), [Note(tenant, content)], t);
    if tenant == t {
      var e :| rows == mine + [e] && e.fields.tenant == t && e.fields.content == content;
      ContentsAppended(mine, e, t);
    } else {
      assert ContentsFor(OpenNotes(j, txn), t) + [] == ContentsFor(OpenNotes(j, txn), t);
    }
  }

  lemma InsertAgrees(w: World, j: Journal, txn: TxnId, tenant: Tenant, content: Content, t: Tenant)
    requires Agrees(w, j, t)
    ensures Agrees(ApplyAction(w, Insert(txn, tenant, content)), Told(j, w, Insert(txn, tenant, content)), t)
  {
    var a := Insert(txn, tenant, content);
    var v, k := ApplyAction(w, a), Told(j, w, a);
    assert LogOf(v, t) == LogOf(w, t);
    forall other ensures AgreesOpen(v, k, other, t) {
      assert AgreesOpen(w, j, other, t);
      if HoldsLock(w, txn, tenant) {
        if other == txn {
          InsertAgreesOpen(w, j, txn, tenant, content, t);
        } else {
          assert PendingOf(v, other, t) == PendingOf(w, other, t) && OpenNotes(k, other) == OpenNotes(j, other);
        }
      }
    }
  }

  lemma ContentsJoined(a: seq<Event>, b: seq<Event>, t: Tenant)
    requires OfTenant(a, t) && OfTenant(b, t)
    ensures OfTenant(a + b, t) && ContentsOf(a + b) == ContentsOf(a) + ContentsOf(b)
  {
  }

  lemma CommittedRows(w: World, txn: TxnId, t: Tenant)
    ensures LogOf(ApplyAction(w, Commit(txn)), t).events == LogOf(w, t).events + PendingOf(w, txn, t)
  {
    if PendingOf(w, txn, t) == [] {
      assert LogOf(w, t).events + [] == LogOf(w, t).events;
    }
  }

  lemma EndAgreesOpen(w: World, j: Journal, a: Action, other: TxnId, t: Tenant)
    requires AgreesOpen(w, j, other, t) && (a.Commit? || a.Rollback?)
    ensures AgreesOpen(ApplyAction(w, a), Told(j, w, a), other, t)
  {
  }

  lemma CommitAgrees(w: World, j: Journal, txn: TxnId, t: Tenant)
    requires Agrees(w, j, t)
    ensures Agrees(ApplyAction(w, Commit(txn)), Told(j, w, Commit(txn)), t)
  {
    assert AgreesOpen(w, j, txn, t);
    CommittedRows(w, txn, t);
    ContentsForConcat(j.done, OpenNotes(j, txn), t);
    ContentsJoined(LogOf(w, t).events, PendingOf(w, txn, t), t);
    forall other ensures AgreesOpen(ApplyAction(w, Commit(txn)), Told(j, w, Commit(txn)), other, t) {
      assert AgreesOpen(w, j, other, t);
      EndAgreesOpen(w, j, Commit(txn), other, t);
    }
  }

  lemma ToldAgrees(w: World, j: Journal, a: Action, t: Tenant)
    requires Agrees(w, j, t)
    ensures Agrees(ApplyAction(w, a), Told(j, w, a), t)
  {
    match a
    case Insert(txn, tenant, content) => InsertAgrees(w, j, txn, tenant, content, t);
    case Commit(txn) => CommitAgrees(w, j, txn, t);
    case _ =>
      var v, k := ApplyAction(w, a), Told(j, w, a);
      assert LogOf(v, t) == LogOf(w, t);
      forall other ensures AgreesOpen(v, k, other, t) { assert AgreesOpen(w, j, other, t); }
  }

  lemma {:induction false} TellAgrees(w: World, j: Journal, acts: seq<Action>, t: Tenant)
    requires Agrees(w, j, t)
    ensures Agrees(RunActions(w, acts), Tell(j, w, acts), t)
    decreases |acts|
  {
    if acts != [] {
      ToldAgrees(w, j, acts[0], t);
      TellAgrees(ApplyAction(w, acts[0]), Told(j, w, acts[0]), acts[1..], t);
    }
  }

  const EMPTY_WORLD: World := World(map[], map[], map[])

  /** From an empty database, however transactions interleave: the rows of a tenant are numbered 1 to
      n and carry, in the order of the commits, exactly the contents that its committed transactions
      recorded, unaltered. */
  lemma RowsAreWhatWasRecorded(acts: seq<Action>, t: Tenant)
    ensures var rows := LogOf(RunActions(EMPTY_WORLD, acts), t).events;
            var told := ContentsFor(Tell(Journal(map[], []), EMPTY_WORLD, acts).done, t);
            && |rows| == |told|
            && forall i | 0 <= i < |rows| :: rows[i].fields == Fields(t, i + 1, told[i])
  {
    var rows := LogOf(RunActions(EMPTY_WORLD, acts), t).events;
    assert Agrees(EMPTY_WORLD, Journal(map[], []), t);
    TellAgrees(EMPTY_WORLD, Journal(map[], []), acts, t);
    EmptyWorld();
    ConcurrentRecordsStayIntact(EMPTY_WORLD, acts, t);
    forall i | 0 <= i < |rows|
      ensures rows[i].fields.number == i + 1 && rows[i].fields.tenant == t
    {
      assert Linked(rows, i, Genesis, 1) && rows[i] in rows;
    }
  }

  /** Where every history starts. */
  lemma EmptyWorld()
    ensures WorldInv(EMPTY_WORLD)
  {
  }

  /** A transaction that ends gives back its locks and no others. */
  lemma LocksEndWithTheirTransaction(w: World, a: Action, tenant: Tenant)
    requires a.Commit? || a.Rollback?
    ensures !HoldsLock(ApplyAction(w, a), a.txn, tenant)
    ensures forall other | other != a.txn ::
              HoldsLock(ApplyAction(w, a), other, tenant) <==> HoldsLock(w, other, tenant)
  {
  }

  /** A recorder waits for its chain exactly while a chain with the same key, the tenant's id modulo two
      to the thirty-first, is locked. */
  lemma LockTakenIff(w: World, txn: TxnId, tenant: Tenant)
    requires forall key | key in w.locks :: w.locks[key] != txn
    ensures HoldsLock(ApplyAction(w, Lock(txn, tenant)), txn, tenant) <==> tenant % 2147483648 !in w.locks
  {
  }

  /** A transaction changes only the chains it wrote to, rows and checkpoint, only when it commits,
      and only by appending. */
  lemma ChainsAreIndependent(w: World, a: Action, t: Tenant)
    ensures LogOf(w, t).events <= LogOf(ApplyAction(w, a), t).events
    ensures !(a.Commit? && PendingOf(w, a.txn, t) != []) ==> LogOf(ApplyAction(w, a), t) == LogOf(w, t)
  {
    if a.Commit? && PendingOf(w, a.txn, t) == [] {
      assert LogOf(w, t).events + [] == LogOf(w, t).events;
    }
  }

  // ------------------------------------------------------------ the audit code

  /** One tenant's audit table and checkpoint as the code updates them. */
  class AuditLog {
    const tenant: Tenant
    var events: seq<Event>
    var head: Option<Head>

    ghost function Contents(): Log
      reads this
    {
      Log(events, head)
    }

    constructor (tenant: Tenant)
      ensures this.tenant == tenant && Contents() == Log([], None)
    {
      this.tenant := tenant;
      events, head := [], None;
    }

    /** The insert trigger. */
    method AdvanceHead(e: Event)
      modifies this`head
      ensures head == Advance(old(head), e)
      ensures head.Some? && head.value.lastSeq >= e.fields.number
      ensures old(head).Some? ==> head.value.lastSeq >= old(head).value.lastSeq
                                  && head.value.offboarded == old(head).value.offboarded
    {
      if head.None? {
        head := Some(Head(e.fields.number, e.hash, false));
      } else if head.value.lastSeq < e.fields.number {
        head := Some(head.value.(lastSeq := e.fields.number, lastHash := e.hash));
      }
    }

    method RecordEvent(content: Content) returns (e: Event)
      modifies this
      ensures Contents() == Record(old(Contents()), tenant, content)
      ensures events == old(events) + [e]
      ensures e.fields.tenant == tenant && e.fields.content == content
      ensures e.fields.number == (if old(events) == [] then 1 else old(events)[|old(events)| - 1].fields.number + 1)
      ensures e.prevHash == (if old(events) == [] then Genesis else old(events)[|old(events)| - 1].hash)
      ensures e.hash == Digest(e.prevHash, e.fields)
      ensures Healthy(old(Contents())) ==> Healthy(Contents()) && Verify(Contents()).status == Intact
    {
      var seqNo, prevHash := 1, Genesis;
      if events != [] {
        seqNo := events[|events| - 1].fields.number + 1;
        prevHash := events[|events| - 1].hash;
      }
      var fields := Fields(tenant, seqNo, content);
      e := Event(fields, prevHash, ComputeHash(prevHash, fields));
      ghost var before := events;
      events := events + [e];
      AdvanceHead(e);
      IntactIffMatchesHead(Contents());
      if Healthy(Log(before, old(head))) {
        NextEventChains(before, tenant, content);
      }
    }

    /** Walks the table with the hash and the number expected next, then compares the last row
        with the checkpoint. */
    method VerifyChain() returns (v: Verification)
      ensures v == Verify(Contents())
      ensures v.status == Intact <==> head.Some? && MatchesHead(events, head.value)
    {
      IntactIffMatchesHead(Contents());
      if head.None? {
        if events == [] {
          return Verification(Empty, None, 0);
        }
        return Verification(CheckpointMissing, Some(events[0].fields.number), 0);
      }
      if head.value.offboarded && events == [] {
        return Verification(Offboarded, None, head.value.lastSeq);
      }
      if events == [] {
        return Verification(Erased, None, head.value.lastSeq);
      }
      var expectedPrev, expectedSeq := Genesis, 1;
      for i := 0 to |events|
        invariant Walk(events, Genesis, 1) == Walk(events[i..], expectedPrev, expectedSeq)
      {
        var e := events[i];
        assert events[i..][0] == e && events[i..][1..] == events[i + 1..];
        if e.fields.number != expectedSeq {
          return Verification(Gap, Some(e.fields.number), 0);
        }
        if e.prevHash != expectedPrev {
          return Verification(Mutated, Some(e.fields.number), 0);
        }
        if ComputeHash(e.prevHash, e.fields) != e.hash {
          return Verification(Mutated, Some(e.fields.number), 0);
        }
        expectedPrev := e.hash;
        expectedSeq := expectedSeq + 1;
      }
      var last := events[|events| - 1];
      if last.fields.number < head.value.lastSeq {
        return Verification(Truncated, Some(last.fields.number), head.value.lastSeq - last.fields.number);
      }
      if last.fields.number > head.value.lastSeq || last.hash != head.value.lastHash {
        return Verification(CheckpointMissing, Some(last.fields.number), 0);
      }
      return Verification(Intact, Some(last.fields.number), 0);
    }
  }
}
