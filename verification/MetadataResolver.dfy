/** The dependency resolver of the demo seed: it sweeps the pending items again and again, and
    stores an item once the items it refers to are stored, so that the foreign keys hold at every
    flush. */
module MetadataResolver {

  /** One metadata item; "" is a reference left out, and `body` stands for everything else. */
  datatype Item = Item(kind: string, code: string, parent: string, related: string, body: nat)

  datatype Outcome =
    | Emitted(order: seq<Item>)
    | Unresolved(stuck: seq<Item>)
    | Rejected(item: Item)

  function Identity(item: Item): string {
    item.kind + ":" + item.code
  }

  function Identities(items: seq<Item>): set<string> {
    set i | 0 <= i < |items| :: Identity(items[i])
  }

  function Members(items: seq<Item>): set<Item> {
    set item | item in items
  }

  predicate Ready(item: Item, stored: set<string>) {
    && (item.parent != "" ==> item.parent in stored)
    && (item.related != "" ==> item.related in stored)
  }

  /** Every item comes after the items it refers to. */
  predicate DependenciesFirst(order: seq<Item>) {
    forall i | 0 <= i < |order| :: Ready(order[i], Identities(order[..i]))
  }

  /** A storable order of the metadata: each item exactly once, dependencies first. */
  predicate IsOrdering(order: seq<Item>, metadata: seq<Item>) {
    multiset(order) == multiset(metadata) && DependenciesFirst(order)
  }

  /** A group of items that keep each other out: each refers to something that nobody outside the
      group supplies (a missing item, itself, or a cycle). */
  ghost predicate Blocked(group: set<Item>, metadata: seq<Item>) {
    && group != {}
    && (forall item | item in group :: item in metadata)
    && (forall item | item in group ::
          Waits(item, item.parent, group, metadata) || Waits(item, item.related, group, metadata))
  }

  ghost predicate ContainsBlocked(group: set<Item>, metadata: seq<Item>) {
    forall blocked | Blocked(blocked, metadata) :: blocked <= group
  }

  predicate Waits(item: Item, dependency: string, group: set<Item>, metadata: seq<Item>) {
    dependency != "" && forall m | m in metadata && Identity(m) == dependency :: m in group
  }

  predicate DistinctIdentities(items: seq<Item>) {
    forall i, j | 0 <= i < j < |items| :: Identity(items[i]) != Identity(items[j])
  }

  /** The store refuses an item whose metric expression does not validate, and an identity it
      already holds. */
  predicate Storable(items: seq<Item>, refused: set<Item>) {
    DistinctIdentities(items) && forall item | item in items :: item !in refused
  }

  // ------------------------------------------------------------- existence

  lemma {:induction false} FirstMember(order: seq<Item>, group: set<Item>) returns (k: nat)
    requires exists i :: 0 <= i < |order| && order[i] in group
    ensures k < |order| && order[k] in group && forall j | 0 <= j < k :: order[j] !in group
    decreases |order|
  {
    var n := |order| - 1;
    if i :| 0 <= i < n && order[i] in group {
      assert order[..n][i] in group;
      k := FirstMember(order[..n], group);
      assert forall j | 0 <= j < k :: order[j] == order[..n][j];
    } else {
      k := n;
    }
  }

  /** No sequence of stores gets a blocked item in: the first one in would have to come before
      something it waits for. */
  lemma BlockedStaysOut(group: set<Item>, metadata: seq<Item>, order: seq<Item>)
    requires Blocked(group, metadata) && DependenciesFirst(order)
    requires forall item | item in order :: item in metadata
    ensures forall k | 0 <= k < |order| :: order[k] !in group
  {
    if exists k :: 0 <= k < |order| && order[k] in group {
      var k := FirstMember(order, group);
      FirstMemberIsNotReady(group, metadata, order, k);
    }
  }

  lemma FirstMemberIsNotReady(group: set<Item>, metadata: seq<Item>, order: seq<Item>, k: nat)
    requires Blocked(group, metadata) && k < |order| && order[k] in group
    requires forall j | 0 <= j < k :: order[j] !in group && order[j] in metadata
    ensures !Ready(order[k], Identities(order[..k]))
  {
    var first := order[k];
    var dependency := if Waits(first, first.parent, group, metadata) then first.parent else first.related;
    assert forall i | 0 <= i < k :: Identity(order[i]) != dependency;
  }

  lemma BlockedMeansNoOrdering(group: set<Item>, metadata: seq<Item>, order: seq<Item>)
    requires Blocked(group, metadata)
    ensures !IsOrdering(order, metadata)
  {
    if multiset(order) == multiset(metadata) {
      forall item | item in order ensures item in metadata { assert item in multiset(metadata); }
      var member :| member in group;
      assert member in multiset(metadata);
      assert member in order;
      if DependenciesFirst(order) {
        BlockedStaysOut(group, metadata, order);
      }
    }
  }

  /** What cannot be stored after `order` is blocked. */
  lemma StuckIsBlocked(order: seq<Item>, pending: seq<Item>, metadata: seq<Item>)
    requires multiset(order) + multiset(pending) == multiset(metadata) && pending != []
    requires forall item | item in pending :: !Ready(item, Identities(order))
    ensures Blocked(Members(pending), metadata)
  {
    var group := Members(pending);
    assert pending[0] in group;
    forall item | item in group
      ensures item in metadata
      ensures Waits(item, item.parent, group, metadata) || Waits(item, item.related, group, metadata)
    {
      assert item in multiset(pending);
      assert item in multiset(metadata);
      var dependency := if item.parent != "" && item.parent !in Identities(order) then item.parent else item.related;
      MissingIsPending(order, pending, metadata, dependency);
    }
  }

  /** ... and contains every blocked group, whatever order the items were stored in. */
  lemma StuckIsLargest(order: seq<Item>, pending: seq<Item>, metadata: seq<Item>)
    requires multiset(order) + multiset(pending) == multiset(metadata) && DependenciesFirst(order)
    ensures ContainsBlocked(Members(pending), metadata)
  {
    forall group | Blocked(group, metadata) ensures group <= Members(pending) {
      forall item | item in order ensures item in metadata { assert item in multiset(metadata); }
      BlockedStaysOut(group, metadata, order);
      forall item | item in group ensures item in pending {
        assert item in multiset(metadata) && item !in order;
        assert item in multiset(pending);
      }
    }
  }

  /** So what is left unresolved does not depend on the order of the sweeps. */
  lemma StuckIsUnique(order: seq<Item>, pending: seq<Item>, order2: seq<Item>, pending2: seq<Item>, metadata: seq<Item>)
    requires multiset(order) + multiset(pending) == multiset(metadata) && DependenciesFirst(order)
    requires multiset(order2) + multiset(pending2) == multiset(metadata) && DependenciesFirst(order2)
    requires forall item | item in pending :: !Ready(item, Identities(order))
    requires forall item | item in pending2 :: !Ready(item, Identities(order2))
    ensures Members(pending) == Members(pending2)
  {
    StuckContains(order, pending, order2, pending2, metadata);
    StuckContains(order2, pending2, order, pending, metadata);
  }

  lemma StuckContains(order: seq<Item>, pending: seq<Item>, order2: seq<Item>, pending2: seq<Item>, metadata: seq<Item>)
    requires multiset(order) + multiset(pending) == multiset(metadata) && DependenciesFirst(order)
    requires multiset(order2) + multiset(pending2) == multiset(metadata)
    requires forall item | item in pending2 :: !Ready(item, Identities(order2))
    ensures Members(pending2) <= Members(pending)
  {
    if pending2 != [] {
      StuckIsBlocked(order2, pending2, metadata);
      StuckIsLargest(order, pending, metadata);
    }
  }

  lemma MissingIsPending(order: seq<Item>, pending: seq<Item>, metadata: seq<Item>, dependency: string)
    requires multiset(order) + multiset(pending) == multiset(metadata)
    requires dependency !in Identities(order)
    ensures forall m | m in metadata && Identity(m) == dependency :: m in pending
  {
    forall m | m in metadata && Identity(m) == dependency ensures m in pending {
      assert m in multiset(metadata);
      assert m in multiset(pending);
    }
  }

  lemma {:induction false} OrderedOrBlocked(order: seq<Item>, pending: seq<Item>, metadata: seq<Item>)
    requires multiset(order) + multiset(pending) == multiset(metadata) && DependenciesFirst(order)
    ensures (exists o :: IsOrdering(o, metadata)) || (exists g :: Blocked(g, metadata))
    decreases |pending|
  {
    if pending == [] {
      assert multiset(pending) == multiset{};
      assert IsOrdering(order, metadata);
    } else if i :| 0 <= i < |pending| && Ready(pending[i], Identities(order)) {
      EmitOne(order, pending, i);
      OrderedOrBlocked(order + [pending[i]], pending[..i] + pending[i + 1..], metadata);
    } else {
      StuckIsBlocked(order, pending, metadata);
    }
  }

  lemma EmitOne(order: seq<Item>, pending: seq<Item>, i: nat)
    requires i < |pending| && DependenciesFirst(order) && Ready(pending[i], Identities(order))
    ensures DependenciesFirst(order + [pending[i]])
    ensures Identities(order + [pending[i]]) == Identities(order) + {Identity(pending[i])}
    ensures multiset(order + [pending[i]]) + multiset(pending[..i] + pending[i + 1..])
         == multiset(order) + multiset(pending)
  {
    var longer := order + [pending[i]];
    forall k | 0 <= k < |longer| ensures Ready(longer[k], Identities(longer[..k])) {
      if k < |order| {
        assert longer[..k] == order[..k];
      } else {
        assert longer[..k] == order;
      }
    }
    IdentitiesOfOneMore(order, pending[i]);
    assert pending == pending[..i] + ([pending[i]] + pending[i + 1..]);
  }

  lemma IdentitiesOfOneMore(order: seq<Item>, item: Item)
    ensures Identities(order + [item]) == Identities(order) + {Identity(item)}
  {
    var longer := order + [item];
    forall d | d in Identities(order) + {Identity(item)} ensures d in Identities(longer) {
      if d in Identities(order) {
        var i :| 0 <= i < |order| && Identity(order[i]) == d;
        assert Identity(longer[i]) == d;
      } else {
        assert Identity(longer[|order|]) == d;
      }
    }
  }

  /** What a storable order is, in terms of the texts: all items, and whatever an item refers to as
      parent or related is the "kind:code" of an earlier one. */
  lemma OrderingMeans(order: seq<Item>, metadata: seq<Item>)
    ensures IsOrdering(order, metadata) <==>
              && multiset(order) == multiset(metadata)
              && forall i | 0 <= i < |order| ::
                   Supplied(order, i, order[i].parent) && Supplied(order, i, order[i].related)
  {
    forall i | 0 <= i < |order|
      ensures Ready(order[i], Identities(order[..i])) <==>
                Supplied(order, i, order[i].parent) && Supplied(order, i, order[i].related)
    {
      SuppliedIff(order, i, order[i].parent);
      SuppliedIff(order, i, order[i].related);
    }
  }

  ghost predicate Supplied(order: seq<Item>, i: nat, dependency: string)
    requires i <= |order|
  {
    dependency == "" || exists j :: 0 <= j < i && order[j].kind + ":" + order[j].code == dependency
  }

  lemma SuppliedIff(order: seq<Item>, i: nat, dependency: string)
    requires i <= |order|
    ensures Supplied(order, i, dependency) <==> dependency == "" || dependency in Identities(order[..i])
  {
    if dependency in Identities(order[..i]) {
      var j :| 0 <= j < |order[..i]| && Identity(order[..i][j]) == dependency;
      assert order[j].kind + ":" + order[j].code == dependency;
    }
    if j :| 0 <= j < i && order[j].kind + ":" + order[j].code == dependency {
      assert Identity(order[..i][j]) == dependency;
    }
  }

  /** The metadata can be stored in some order exactly when no group of items blocks itself. */
  lemma OrderableIffNothingBlocked(metadata: seq<Item>)
    ensures (exists order :: IsOrdering(order, metadata)) <==> !(exists group :: Blocked(group, metadata))
  {
    OrderedOrBlocked([], metadata, metadata);
    if order, group :| IsOrdering(order, metadata) && Blocked(group, metadata) {
      BlockedMeansNoOrdering(group, metadata, order);
    }
  }

  // ------------------------------------------------------------- the resolver

  /** Position of the first item equal to the given one. */
  function FirstEqual(items: seq<Item>, item: Item): (i: nat)
    requires item in items
    ensures i < |items| && items[i] == item && item !in items[..i]
  {
    if items[0] == item then 0 else 1 + FirstEqual(items[1..], item)
  }

  /** list.remove: drops the first item equal to the given one. */
  function Without(items: seq<Item>, item: Item): (rest: seq<Item>)
    requires item in items
    ensures |rest| == |items| - 1
  {
    var i := FirstEqual(items, item);
    items[..i] + items[i + 1..]
  }

  /** Where the sweep stands: `order` stored, `pending` left, together the metadata. */
  predicate Midway(order: seq<Item>, pending: seq<Item>, stored: set<string>, metadata: seq<Item>, refused: set<Item>) {
    && multiset(order) + multiset(pending) == multiset(metadata)
    && DependenciesFirst(order)
    && stored == Identities(order)
    && Storable(order, refused)
  }

  /** One more item stored. */
  lemma StoreOne(order: seq<Item>, pending: seq<Item>, stored: set<string>, metadata: seq<Item>, refused: set<Item>,
                 item: Item)
    requires Midway(order, pending, stored, metadata, refused)
    requires item in pending && Ready(item, stored) && Identity(item) !in stored && item !in refused
    ensures Midway(order + [item], Without(pending, item), stored + {Identity(item)}, metadata, refused)
  {
    EmitOne(order, pending, FirstEqual(pending, item));
    var longer := order + [item];
    forall i, j | 0 <= i < j < |longer| ensures Identity(longer[i]) != Identity(longer[j]) {
      assert i < |order| && order[i] == longer[i];
      assert Identity(order[i]) in stored;
    }
  }

  /** The store refused this item: it is one of the metadata's, and either its expression does not
      validate or the metadata names its identity twice. */
  predicate Refusal(item: Item, metadata: seq<Item>, refused: set<Item>) {
    item in metadata && (item in refused || !DistinctIdentities(metadata))
  }

  /** Items stored so far, without a refusal, after which this item is due and the store refuses it. */
  ghost predicate RefusedAfter(order: seq<Item>, item: Item, metadata: seq<Item>, refused: set<Item>) {
    && multiset(order) + multiset{item} <= multiset(metadata)
    && DependenciesFirst(order) && Storable(order, refused)
    && Ready(item, Identities(order)) && (item in refused || Identity(item) in Identities(order))
  }

  ghost predicate RefusedWhenDue(item: Item, metadata: seq<Item>, refused: set<Item>) {
    exists order :: RefusedAfter(order, item, metadata, refused)
  }

  /** Where a sweep over a copy of the pending items stands after i of them. */
  predicate Sweeping(sweep: seq<Item>, i: nat, pending: seq<Item>, stored: set<string>, progressed: bool) {
    && i <= |sweep| && multiset(sweep[i..]) <= multiset(pending)
    && |pending| <= |sweep| && (progressed <==> |pending| < |sweep|)
    && (!progressed ==> pending == sweep && forall k | 0 <= k < i :: !Ready(sweep[k], stored))
  }

  lemma SweepSkips(sweep: seq<Item>, i: nat, pending: seq<Item>, stored: set<string>, progressed: bool)
    requires Sweeping(sweep, i, pending, stored, progressed) && i < |sweep| && !Ready(sweep[i], stored)
    ensures Sweeping(sweep, i + 1, pending, stored, progressed)
  {
    NextOfSweep(sweep, i, pending);
  }

  lemma SweepStores(sweep: seq<Item>, i: nat, pending: seq<Item>, stored: set<string>, progressed: bool)
    requires Sweeping(sweep, i, pending, stored, progressed) && i < |sweep| && sweep[i] in pending
    ensures Sweeping(sweep, i + 1, Without(pending, sweep[i]), stored + {Identity(sweep[i])}, true)
  {
    NextOfSweep(sweep, i, pending);
  }

  method Resolve(metadata: seq<Item>, refused: set<Item>) returns (outcome: Outcome)
    ensures outcome.Emitted? ==> IsOrdering(outcome.order, metadata) && Storable(outcome.order, refused)
    ensures outcome.Unresolved? ==> Blocked(Members(outcome.stuck), metadata)
    ensures outcome.Unresolved? ==> ContainsBlocked(Members(outcome.stuck), metadata)
    ensures outcome.Rejected? ==> Refusal(outcome.item, metadata, refused)
    ensures outcome.Rejected? ==> RefusedWhenDue(outcome.item, metadata, refused)
  {
    var order, pending, stored := [], metadata, {};
    while pending != []
      invariant Midway(order, pending, stored, metadata, refused)
      decreases |pending|
    {
      var progressed, sweep := false, pending;
      for i := 0 to |sweep|
        invariant Midway(order, pending, stored, metadata, refused)
        invariant Sweeping(sweep, i, pending, stored, progressed)
      {
        var item := sweep[i];
        NextOfSweep(sweep, i, pending);
        if Ready(item, stored) {
          if Identity(item) in stored || item in refused {
            RefusedItem(order, pending, stored, metadata, refused, item);
            DueItemRefused(order, pending, stored, metadata, refused, item);
            return Rejected(item);
          }
          StoreOne(order, pending, stored, metadata, refused, item);
          SweepStores(sweep, i, pending, stored, progressed);
          order, stored := order + [item], stored + {Identity(item)};
          pending := Without(pending, item);
          progressed := true;
        } else {
          SweepSkips(sweep, i, pending, stored, progressed);
        }
      }
      if !progressed {
        StuckIsBlocked(order, pending, metadata);
        StuckIsLargest(order, pending, metadata);
        return Unresolved(pending);
      }
    }
    assert multiset(pending) == multiset{};
    return Emitted(order);
  }

  lemma NextOfSweep(sweep: seq<Item>, i: nat, pending: seq<Item>)
    requires i < |sweep| && multiset(sweep[i..]) <= multiset(pending)
    ensures sweep[i] in pending
    ensures multiset(sweep[i + 1..]) <= multiset(pending)
    ensures multiset(sweep[i + 1..]) <= multiset(Without(pending, sweep[i]))
  {
    assert sweep[i..] == [sweep[i]] + sweep[i + 1..];
    assert sweep[i] in multiset(pending);
    var k := FirstEqual(pending, sweep[i]);
    assert pending == pending[..k] + ([sweep[i]] + pending[k + 1..]);
  }

  lemma DueItemRefused(order: seq<Item>, pending: seq<Item>, stored: set<string>, metadata: seq<Item>,
                       refused: set<Item>, item: Item)
    requires Midway(order, pending, stored, metadata, refused) && Ready(item, stored)
    requires item in pending && (Identity(item) in stored || item in refused)
    ensures RefusedWhenDue(item, metadata, refused)
  {
    assert item in multiset(pending);
    assert RefusedAfter(order, item, metadata, refused);
  }

  lemma RefusedItem(order: seq<Item>, pending: seq<Item>, stored: set<string>, metadata: seq<Item>, refused: set<Item>,
                    item: Item)
    requires Midway(order, pending, stored, metadata, refused)
    requires item in pending && (Identity(item) in stored || item in refused)
    ensures Refusal(item, metadata, refused)
  {
    assert item in multiset(metadata);
    if item !in refused && DistinctIdentities(metadata) {
      var i :| 0 <= i < |order| && Identity(order[i]) == Identity(item);
      assert order[i] in multiset(metadata);
      var a :| 0 <= a < |metadata| && metadata[a] == order[i];
      var b :| 0 <= b < |metadata| && metadata[b] == item;
      assert a == b;
      assert multiset(metadata)[item] >= 2;
      TwiceInSeq(metadata, item);
      assert false;
    }
  }

  lemma {:induction false} TwiceInSeq(items: seq<Item>, item: Item)
    requires multiset(items)[item] >= 2
    ensures !DistinctIdentities(items)
    decreases |items|
  {
    var i := FirstEqual(items, item);
    var rest := items[i + 1..];
    assert items == items[..i] + [item] + rest;
    assert item in multiset(rest);
    var j :| 0 <= j < |rest| && rest[j] == item;
    assert items[i + 1 + j] == item;
  }
}
