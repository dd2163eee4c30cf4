/** What the two kube-proxy change trackers share (pkg/proxy/endpoints.go, pkg/proxy/service.go): per-object deltas
    that accumulate, cancel out, and are applied to one table in an arbitrary order.

    `O` is the kind of object watched and `V` what the table holds per service port. */
module ChangeTracking {
  import opened Options

  datatype NamespacedName = NamespacedName(namespace: string, name: string)

  datatype ServicePortName = ServicePortName(owner: NamespacedName, port: string)

  type Table<V> = map<ServicePortName, V>

  /** A delta of one object; None is Go's nil map, which reads like an empty one but is not deeply equal to it. */
  datatype Change<V> = Change(previous: Option<Table<V>>, current: Option<Table<V>>)

  type Items<V> = map<NamespacedName, Change<V>>

  function Contents<V>(t: Option<Table<V>>): Table<V> {
    if t.Some? then t.value else map[]
  }

  /** Tracker.Update on the translated pair: only the first `previous` of a delta counts. */
  function Record<V(==)>(items: Items<V>, name: NamespacedName, previous: Option<Table<V>>, current: Option<Table<V>>)
    : Items<V>
  {
    var change := Change(if name in items then items[name].previous else previous, current);
    if change.previous == change.current then items - {name} else items[name := change]
  }

  /** The part of Update that works on the pending changes: `before` counts only for an object that has none. */
  method RecordChange<V(==)>(items: Items<V>, name: NamespacedName, before: Option<Table<V>>, after: Option<Table<V>>)
    returns (items': Items<V>)
    ensures items' == Record(items, name, before, after)
  {
    items' := items;
    if name !in items' { items' := items'[name := Change(before, None)]; }
    items' := items'[name := items'[name].(current := after)];
    if items'[name].previous == items'[name].current { items' := items' - {name}; }
  }

  /** Endpoints order: unmerge the previous entries, then merge the current ones. */
  function Replace<V>(table: Table<V>, change: Change<V>): Table<V> {
    (table - Contents(change.previous).Keys) + Contents(change.current)
  }

  /** Service order: merge the current entries, filter them out of the previous ones, unmerge what is left. */
  function MergeFilterUnmerge<V>(table: Table<V>, change: Change<V>): Table<V> {
    (table + Contents(change.current)) - (Contents(change.previous) - Contents(change.current).Keys).Keys
  }

  lemma OrdersAgree<V>(table: Table<V>, change: Change<V>)
    ensures MergeFilterUnmerge(table, change) == Replace(table, change)
  {
  }

  // ------------------------------------------------------------------ applying all deltas

  /** Every delta only touches ports of the object it is filed under. */
  ghost predicate Owned<V>(items: Items<V>) {
    forall n, k :: n in items && (k in Contents(items[n].previous) || k in Contents(items[n].current)) ==> k.owner == n
  }

  ghost predicate Ordering<V>(items: Items<V>, order: seq<NamespacedName>) {
    Visits(order, items.Keys)
  }

  function ApplyInOrder<V>(table: Table<V>, items: Items<V>, order: seq<NamespacedName>): Table<V>
    requires forall n :: n in order ==> n in items
  {
    if order == [] then table
    else
      var last := |order| - 1;
      Replace(ApplyInOrder(table, items, order[..last]), items[order[last]])
  }

  lemma ApplyInOrderOneMore<V>(table: Table<V>, items: Items<V>, order: seq<NamespacedName>, n: NamespacedName)
    requires n in items && forall n :: n in order ==> n in items
    ensures ApplyInOrder(table, items, order + [n]) == Replace(ApplyInOrder(table, items, order), items[n])
  {
    assert (order + [n])[..|order|] == order;
  }

  /** The order names exactly the objects of `done`, each once. */
  ghost predicate Visits(order: seq<NamespacedName>, done: set<NamespacedName>) {
    && (forall i, j :: 0 <= i < j < |order| ==> order[i] != order[j])
    && (forall n :: n in order <==> n in done)
  }

  /** One more of those that are left. */
  lemma VisitsOneMore(order: seq<NamespacedName>, all: set<NamespacedName>, left: set<NamespacedName>,
                      n: NamespacedName)
    requires left <= all && n in left && Visits(order, all - left)
    ensures Visits(order + [n], all - (left - {n})) && n !in order
  {
    assert all - (left - {n}) == (all - left) + {n};
  }

  /** The table with the deltas of the objects in `done` applied, each once, in no particular order. */
  ghost predicate Applied<V>(before: Table<V>, items: Items<V>, done: set<NamespacedName>, after: Table<V>)
    requires done <= items.Keys
  {
    forall k: ServicePortName ::
      if k.owner !in done then
        (k in after <==> k in before) && (k in after ==> after[k] == before[k])
      else if k in Contents(items[k.owner].current) then
        k in after && after[k] == Contents(items[k.owner].current)[k]
      else if k in Contents(items[k.owner].previous) then
        k !in after
      else
        (k in after <==> k in before) && (k in after ==> after[k] == before[k])
  }

  lemma ApplyOne<V>(before: Table<V>, items: Items<V>, done: set<NamespacedName>, after: Table<V>, n: NamespacedName)
    requires Owned(items) && done <= items.Keys && n in items && n !in done && Applied(before, items, done, after)
    ensures Applied(before, items, done + {n}, Replace(after, items[n]))
  {
  }

  lemma {:induction false} AnyOrderApplies<V>(table: Table<V>, items: Items<V>, order: seq<NamespacedName>)
    requires Owned(items) && (forall n :: n in order ==> n in items)
    requires forall i, j :: 0 <= i < j < |order| ==> order[i] != order[j]
    ensures Applied(table, items, (set n | n in order), ApplyInOrder(table, items, order))
  {
    if order != [] {
      var last := |order| - 1;
      AnyOrderApplies(table, items, order[..last]);
      assert order == order[..last] + [order[last]];
      ApplyOne(table, items, (set n | n in order[..last]), ApplyInOrder(table, items, order[..last]), order[last]);
      assert (set n | n in order) == (set n | n in order[..last]) + {order[last]};
    }
  }

  lemma AppliedUnique<V>(before: Table<V>, items: Items<V>, done: set<NamespacedName>, one: Table<V>, two: Table<V>)
    requires done <= items.Keys && Applied(before, items, done, one) && Applied(before, items, done, two)
    ensures one == two
  {
    assert forall k :: k in one <==> k in two;
  }

  /** The table after an apply does not depend on the order in which Go ranges over the pending changes. */
  lemma OrderIrrelevant<V>(table: Table<V>, items: Items<V>, one: seq<NamespacedName>, two: seq<NamespacedName>)
    requires Owned(items) && Ordering(items, one) && Ordering(items, two)
    ensures ApplyInOrder(table, items, one) == ApplyInOrder(table, items, two)
  {
    AnyOrderApplies(table, items, one);
    AnyOrderApplies(table, items, two);
    assert (set n | n in one) == items.Keys == (set n | n in two);
    AppliedUnique(table, items, items.Keys, ApplyInOrder(table, items, one), ApplyInOrder(table, items, two));
  }

  // ------------------------------------------------------------------ runs of events and applies

  /** The watched objects as last delivered, the pending deltas, and the table kept incrementally. */
  datatype World<O, V> = World(objects: map<NamespacedName, O>, items: Items<V>, table: Table<V>)

  /** A delivered event carries the object's new state (None: deleted); its `previous` is the state delivered last. */
  datatype Event<O> = Deliver(name: NamespacedName, current: Option<O>) | Apply(order: seq<NamespacedName>)

  function Find<O>(objects: map<NamespacedName, O>, name: NamespacedName): Option<O> {
    if name in objects then Some(objects[name]) else None
  }

  function Translated<O, V>(translate: O -> Option<Table<V>>, o: Option<O>): Option<Table<V>> {
    if o.Some? then translate(o.value) else None
  }

  /** The translation of an object only yields ports of that object. */
  ghost predicate OwnPorts<O(!new), V>(translate: O -> Option<Table<V>>, nameOf: O -> NamespacedName) {
    forall o, k :: k in Contents(translate(o)) ==> k.owner == nameOf(o)
  }

  ghost predicate Possible<O, V>(nameOf: O -> NamespacedName, w: World<O, V>, e: Event<O>) {
    match e
    case Deliver(name, current) => current.Some? ==> nameOf(current.value) == name
    case Apply(order) => Ordering(w.items, order)
  }

  ghost function Next<O(!new), V>(translate: O -> Option<Table<V>>, nameOf: O -> NamespacedName, w: World<O, V>,
                                  e: Event<O>)
    : World<O, V>
    requires Possible(nameOf, w, e)
  {
    match e
    case Deliver(name, current) =>
      var previous := Find(w.objects, name);
      if previous.None? && current.None? then w
      else
        w.(objects := if current.Some? then w.objects[name := current.value] else w.objects - {name},
           items := Record(w.items, name, Translated(translate, previous), Translated(translate, current)))
    case Apply(order) => w.(items := map[], table := ApplyInOrder(w.table, w.items, order))
  }

  /** What the table must hold for an object: its state when the pending delta began, or its state now. */
  function Base<O, V>(translate: O -> Option<Table<V>>, w: World<O, V>, name: NamespacedName): Table<V> {
    Contents(if name in w.items then w.items[name].previous else Translated(translate, Find(w.objects, name)))
  }

  ghost predicate Agrees<O, V>(translate: O -> Option<Table<V>>, w: World<O, V>) {
    forall k: ServicePortName :: (k in w.table <==> k in Base(translate, w, k.owner)) &&
                (k in w.table ==> w.table[k] == Base(translate, w, k.owner)[k])
  }

  ghost predicate Inv<O(!new), V>(translate: O -> Option<Table<V>>, nameOf: O -> NamespacedName, w: World<O, V>) {
    && (forall n :: n in w.objects ==> nameOf(w.objects[n]) == n)
    && (forall n :: n in w.items ==> w.items[n].current == Translated(translate, Find(w.objects, n)))
    && Owned(w.items)
    && Agrees(translate, w)
  }

  /** Recording an event never changes what the table must hold. */
  lemma DeliverKeepsBase<O(!new), V>(translate: O -> Option<Table<V>>, nameOf: O -> NamespacedName, w: World<O, V>,
                                     e: Event<O>, n: NamespacedName)
    requires Inv(translate, nameOf, w) && e.Deliver? && Possible(nameOf, w, e)
    ensures Base(translate, Next(translate, nameOf, w, e), n) == Base(translate, w, n)
  {
  }

  lemma DeliverKeeps<O(!new), V>(translate: O -> Option<Table<V>>, nameOf: O -> NamespacedName, w: World<O, V>,
                                 e: Event<O>)
    requires OwnPorts(translate, nameOf) && Inv(translate, nameOf, w) && e.Deliver? && Possible(nameOf, w, e)
    ensures Inv(translate, nameOf, Next(translate, nameOf, w, e))
  {
    var w' := Next(translate, nameOf, w, e);
    assert Owned(w'.items);
    forall k: ServicePortName
      ensures (k in w'.table <==> k in Base(translate, w', k.owner)) &&
              (k in w'.table ==> w'.table[k] == Base(translate, w', k.owner)[k])
    {
      DeliverKeepsBase(translate, nameOf, w, e, k.owner);
    }
  }

  lemma ApplyKeeps<O(!new), V>(translate: O -> Option<Table<V>>, nameOf: O -> NamespacedName, w: World<O, V>,
                               e: Event<O>)
    requires OwnPorts(translate, nameOf) && Inv(translate, nameOf, w) && e.Apply? && Possible(nameOf, w, e)
    ensures Inv(translate, nameOf, Next(translate, nameOf, w, e))
  {
    AnyOrderApplies(w.table, w.items, e.order);
    assert (set n | n in e.order) == w.items.Keys;
  }

  lemma StepKeeps<O(!new), V>(translate: O -> Option<Table<V>>, nameOf: O -> NamespacedName, w: World<O, V>,
                              e: Event<O>)
    requires OwnPorts(translate, nameOf) && Inv(translate, nameOf, w) && Possible(nameOf, w, e)
    ensures Inv(translate, nameOf, Next(translate, nameOf, w, e))
  {
    match e
    case Deliver(_, _) => DeliverKeeps(translate, nameOf, w, e);
    case Apply(_) => ApplyKeeps(translate, nameOf, w, e);
  }

  ghost predicate IsRun<O(!new), V>(translate: O -> Option<Table<V>>, nameOf: O -> NamespacedName,
                                    worlds: seq<World<O, V>>, events: seq<Event<O>>)
  {
    && |worlds| == |events| + 1
    && worlds[0] == World(map[], map[], map[])
    && forall i :: 0 <= i < |events| ==>
         Possible(nameOf, worlds[i], events[i]) && worlds[i + 1] == Next(translate, nameOf, worlds[i], events[i])
  }

  lemma RunGrows<O(!new), V>(translate: O -> Option<Table<V>>, nameOf: O -> NamespacedName,
                             worlds: seq<World<O, V>>, events: seq<Event<O>>, e: Event<O>)
    requires IsRun(translate, nameOf, worlds, events) && Possible(nameOf, worlds[|events|], e)
    ensures IsRun(translate, nameOf, worlds + [Next(translate, nameOf, worlds[|events|], e)], events + [e])
  {
    var worlds', events' := worlds + [Next(translate, nameOf, worlds[|events|], e)], events + [e];
    forall i | 0 <= i < |events'|
      ensures Possible(nameOf, worlds'[i], events'[i]) &&
              worlds'[i + 1] == Next(translate, nameOf, worlds'[i], events'[i])
    {
      if i < |events| {
        assert worlds'[i] == worlds[i] && worlds'[i + 1] == worlds[i + 1] && events'[i] == events[i];
      }
    }
  }

  lemma {:induction false} RunKeeps<O(!new), V>(translate: O -> Option<Table<V>>, nameOf: O -> NamespacedName,
                                                worlds: seq<World<O, V>>, events: seq<Event<O>>, n: nat)
    requires OwnPorts(translate, nameOf) && IsRun(translate, nameOf, worlds, events) && n < |worlds|
    ensures Inv(translate, nameOf, worlds[n])
  {
    if n > 0 {
      RunKeeps(translate, nameOf, worlds, events, n - 1);
      StepKeeps(translate, nameOf, worlds[n - 1], events[n - 1]);
    }
  }

  /** The table a rebuild from scratch would give: the union of the translations of all current objects. */
  ghost predicate IsUnion<O, V>(translate: O -> Option<Table<V>>, objects: map<NamespacedName, O>, table: Table<V>) {
    && (forall n, k :: n in objects && k in Contents(translate(objects[n])) ==>
          k in table && table[k] == Contents(translate(objects[n]))[k])
    && (forall k :: k in table ==> exists n :: n in objects && k in Contents(translate(objects[n])))
  }

  /** After any chain of events and applies that ends in an apply, the incremental table is the rebuilt one, however
      the pending changes were ordered and however many of them cancelled out. */
  lemma {:induction false} IncrementalIsRebuilt<O(!new), V>(
      translate: O -> Option<Table<V>>, nameOf: O -> NamespacedName, worlds: seq<World<O, V>>, events: seq<Event<O>>)
    requires OwnPorts(translate, nameOf) && IsRun(translate, nameOf, worlds, events)
    requires |events| > 0 && events[|events| - 1].Apply?
    ensures IsUnion(translate, worlds[|events|].objects, worlds[|events|].table)
    ensures worlds[|events|].items == map[]
  {
    RunKeeps(translate, nameOf, worlds, events, |events|);
    var w := worlds[|events|];
    assert w == Next(translate, nameOf, worlds[|events| - 1], events[|events| - 1]);
    forall k | k in w.table ensures exists n :: n in w.objects && k in Contents(translate(w.objects[n])) {
      assert k in Base(translate, w, k.owner);
    }
    forall n, k | n in w.objects && k in Contents(translate(w.objects[n]))
      ensures k in w.table && w.table[k] == Contents(translate(w.objects[n]))[k]
    {
      assert k.owner == n;
      assert k in Base(translate, w, k.owner);
    }
  }

  /** Before an apply, the previous side of every pending change is what the table holds for that object. */
  lemma {:induction false} PendingStartsAtTable<O(!new), V>(
      translate: O -> Option<Table<V>>, nameOf: O -> NamespacedName, worlds: seq<World<O, V>>, events: seq<Event<O>>,
      i: nat)
    requires OwnPorts(translate, nameOf) && IsRun(translate, nameOf, worlds, events) && i < |events| && events[i].Apply?
    ensures var w, after := worlds[i], worlds[i + 1].table;
            && Applied(w.table, w.items, w.items.Keys, after)
            && Owned(w.items)
            && forall k: ServicePortName :: k.owner in w.items ==>
                 && (k in w.table <==> k in Contents(w.items[k.owner].previous))
                 && (k in w.table ==> w.table[k] == Contents(w.items[k.owner].previous)[k])
  {
    RunKeeps(translate, nameOf, worlds, events, i);
    AnyOrderApplies(worlds[i].table, worlds[i].items, events[i].order);
    assert (set n | n in events[i].order) == worlds[i].items.Keys;
  }

  // ------------------------------------------------------------------ what is pending

  /** Something is pending for the object exactly if its translation differs between the two worlds, and it is that
      difference. */
  ghost predicate Differs<O, V>(translate: O -> Option<Table<V>>, since: World<O, V>, now: World<O, V>,
                                name: NamespacedName)
  {
    var before := Translated(translate, Find(since.objects, name));
    var after := Translated(translate, Find(now.objects, name));
    && (name in now.items <==> before != after)
    && (name in now.items ==> now.items[name] == Change(before, after))
  }

  lemma DeliverDiffers<O(!new), V>(translate: O -> Option<Table<V>>, nameOf: O -> NamespacedName, since: World<O, V>,
                                   w: World<O, V>, e: Event<O>, name: NamespacedName)
    requires Possible(nameOf, w, e) && e.Deliver? && Differs(translate, since, w, name)
    ensures Differs(translate, since, Next(translate, nameOf, w, e), name)
  {
  }

  /** In every run, something is pending for an object if and only if its translation now is another than at the last
      apply, or than nothing if there was none. */
  lemma {:induction false} PendingIffChanged<O(!new), V>(
      translate: O -> Option<Table<V>>, nameOf: O -> NamespacedName, worlds: seq<World<O, V>>, events: seq<Event<O>>,
      last: nat, n: nat, name: NamespacedName)
    requires IsRun(translate, nameOf, worlds, events) && last <= n < |worlds|
    requires last == 0 || events[last - 1].Apply?
    requires forall i :: last <= i < n ==> events[i].Deliver?
    ensures Differs(translate, worlds[last], worlds[n], name)
  {
    if last < n {
      PendingIffChanged(translate, nameOf, worlds, events, last, n - 1, name);
      DeliverDiffers(translate, nameOf, worlds[last], worlds[n - 1], events[n - 1], name);
    }
  }
}
