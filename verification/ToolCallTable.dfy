/** Rebuilding tool calls from streamed fragments (src/llm/src/api/sse/chat.rs:80-90, 278-330,
    360-413).  Six coupled structures decide which call a fragment belongs to. */
module ToolCallTable {
  import opened Basics
  import opened Transcript

  datatype FunctionDelta = FunctionDelta(name: Option<string>, arguments: Option<string>)

  datatype ToolDelta = ToolDelta(index: Option<nat>, id: Option<string>, func: Option<FunctionDelta>)

  datatype Slot = Slot(id: Option<string>, name: Option<string>, arguments: string)

  const EMPTY_SLOT: Slot := Slot(None, None, [])

  datatype Table = Table(
    slots: map<nat, Slot>, order: seq<nat>, seen: set<nat>,
    byId: map<string, nat>, next: nat, last: Option<nat>)

  function EmptyTable(next: nat): Table {
    Table(map[], [], {}, map[], next, None)
  }

  // ---------------------------------------------------------------------------
  // One fragment

  /** The least index from `n` on that is not taken. */
  function FreshIndex(taken: set<nat>, n: nat): (r: nat)
    ensures n <= r && r !in taken
    decreases |taken|
  {
    if n !in taken then n
    else
      var r := FreshIndex(taken - {n}, n + 1);
      assert r in taken ==> r in taken - {n};
      r
  }

  lemma {:induction false} FreshIndexIsLeast(taken: set<nat>, n: nat, k: nat)
    requires n <= k < FreshIndex(taken, n)
    ensures k in taken
    decreases |taken|
  {
    if n < k {
      FreshIndexIsLeast(taken - {n}, n + 1, k);
    }
  }

  /** The index a fragment names: through a known id, by itself, or by following the last one. */
  function NamedIndex(t: Table, d: ToolDelta): Option<nat> {
    if d.id.Some? && d.id.value in t.byId then Some(t.byId[d.id.value])
    else if d.index.None? && d.id.None? then t.last
    else d.index
  }

  function Route(t: Table, d: ToolDelta): nat {
    if NamedIndex(t, d).Some? then NamedIndex(t, d).value
    else FreshIndex(t.slots.Keys, t.next)
  }

  function NameOf(d: ToolDelta): Option<string> {
    if d.func.Some? && d.func.value.name.Some? && d.func.value.name.value != []
    then d.func.value.name else None
  }

  function ArgumentsOf(d: ToolDelta): string {
    if d.func.Some? && d.func.value.arguments.Some? then d.func.value.arguments.value else []
  }

  function OrElse<T>(first: Option<T>, second: Option<T>): Option<T> {
    if first.Some? then first else second
  }

  function Fill(slot: Slot, d: ToolDelta): Slot {
    Slot(OrElse(slot.id, d.id), OrElse(slot.name, NameOf(d)), slot.arguments + ArgumentsOf(d))
  }

  function SlotAt(t: Table, k: nat): Slot {
    if k in t.slots then t.slots[k] else EMPTY_SLOT
  }

  function Add(t: Table, d: ToolDelta): Table {
    var k := Route(t, d);
    Table(
      t.slots[k := Fill(SlotAt(t, k), d)],
      if k in t.seen then t.order else t.order + [k],
      t.seen + {k},
      if d.id.Some? && d.id.value !in t.byId then t.byId[d.id.value := k] else t.byId,
      if NamedIndex(t, d).Some? then t.next else k + 1,
      Some(k))
  }

  /** Slots, order and seen set hold the same indexes, without repeats, and whatever the id
      index and the last index point at is a live slot. */
  ghost predicate Consistent(t: Table) {
    && NoRepeats(t.order)
    && (forall k :: k in t.order <==> k in t.slots)
    && t.seen == t.slots.Keys
    && (forall id :: id in t.byId ==> t.byId[id] in t.slots)
    && (t.last.Some? ==> t.last.value in t.slots)
  }

  lemma AddKeepsConsistent(t: Table, d: ToolDelta)
    requires Consistent(t)
    ensures Consistent(Add(t, d))
  {
  }

  // ---------------------------------------------------------------------------
  // A batch of fragments, grouped by where they went

  function AddAll(t: Table, ds: seq<ToolDelta>): Table {
    if ds == [] then t else Add(AddAll(t, ds[..|ds| - 1]), ds[|ds| - 1])
  }

  function Routes(t: Table, ds: seq<ToolDelta>): (r: seq<nat>)
    ensures |r| == |ds|
  {
    if ds == [] then []
    else
      var n := |ds| - 1;
      Routes(t, ds[..n]) + [Route(AddAll(t, ds[..n]), ds[n])]
  }

  /** The fragments that went to slot `k`, in order. */
  function Routed(ds: seq<ToolDelta>, routes: seq<nat>, k: nat): seq<ToolDelta>
    requires |routes| == |ds|
  {
    if ds == [] then []
    else
      var n := |ds| - 1;
      Routed(ds[..n], routes[..n], k) + if routes[n] == k then [ds[n]] else []
  }

  /** The distinct members of a sequence in the order of their first appearance. */
  function FirstSeen(routes: seq<nat>): seq<nat> {
    if routes == [] then []
    else
      var n := |routes| - 1;
      FirstSeen(routes[..n]) + if routes[n] in routes[..n] then [] else [routes[n]]
  }

  function FirstSome(options: seq<Option<string>>): Option<string> {
    if options == [] then None
    else OrElse(FirstSome(options[..|options| - 1]), options[|options| - 1])
  }

  function Ids(ds: seq<ToolDelta>): seq<Option<string>> {
    seq(|ds|, i requires 0 <= i < |ds| => ds[i].id)
  }

  function Names(ds: seq<ToolDelta>): seq<Option<string>> {
    seq(|ds|, i requires 0 <= i < |ds| => NameOf(ds[i]))
  }

  function Arguments(ds: seq<ToolDelta>): seq<string> {
    seq(|ds|, i requires 0 <= i < |ds| => ArgumentsOf(ds[i]))
  }

  /** A call put together: its first id, its first name, all its argument fragments. */
  function Assembled(ds: seq<ToolDelta>): Slot {
    Slot(FirstSome(Ids(ds)), FirstSome(Names(ds)), Flatten(Arguments(ds)))
  }

  lemma AssembledSnoc(ds: seq<ToolDelta>, d: ToolDelta)
    ensures Assembled(ds + [d]) == Fill(Assembled(ds), d)
  {
    assert Ids(ds + [d]) == Ids(ds) + [d.id];
    assert Names(ds + [d]) == Names(ds) + [NameOf(d)];
    assert Arguments(ds + [d]) == Arguments(ds) + [ArgumentsOf(d)];
    FirstSomeSnoc(Ids(ds), d.id);
    FirstSomeSnoc(Names(ds), NameOf(d));
    FlattenPush(Arguments(ds), ArgumentsOf(d));
  }

  lemma FirstSomeSnoc(options: seq<Option<string>>, o: Option<string>)
    ensures FirstSome(options + [o]) == OrElse(FirstSome(options), o)
  {
    assert (options + [o])[..|options|] == options;
  }

  lemma {:induction false} BatchConsistent(next: nat, ds: seq<ToolDelta>)
    ensures Consistent(AddAll(EmptyTable(next), ds))
  {
    if ds != [] {
      BatchConsistent(next, ds[..|ds| - 1]);
      AddKeepsConsistent(AddAll(EmptyTable(next), ds[..|ds| - 1]), ds[|ds| - 1]);
    }
  }

  /** The order list is the order in which slots were first used. */
  lemma {:induction false} BatchOrder(next: nat, ds: seq<ToolDelta>)
    ensures var t, routes := AddAll(EmptyTable(next), ds), Routes(EmptyTable(next), ds);
            && t.order == FirstSeen(routes)
            && (forall k :: k in t.seen <==> k in routes)
            && (forall k :: k in t.slots <==> k in routes)
  {
    hide Route, Fill;
    if ds != [] {
      var n := |ds| - 1;
      var e := EmptyTable(next);
      BatchOrder(next, ds[..n]);
      assert Routes(e, ds)[..n] == Routes(e, ds[..n]);
    }
  }

  /** Grouping: a slot holds exactly the fragments routed to it. */
  lemma {:induction false} BatchSlot(next: nat, ds: seq<ToolDelta>, k: nat)
    ensures SlotAt(AddAll(EmptyTable(next), ds), k) == Assembled(Routed(ds, Routes(EmptyTable(next), ds), k))
  {
    hide Route, Fill, Assembled;
    var e := EmptyTable(next);
    if ds == [] {
      NothingAssembled();
    } else {
      var n := |ds| - 1;
      var routes, all := Routes(e, ds[..n]), Routes(e, ds);
      BatchSlot(next, ds[..n], k);
      assert all[..n] == routes;
      var before := Routed(ds[..n], routes, k);
      AssembledSnoc(before, ds[n]);
      assert before + [] == before;
    }
  }

  lemma NothingAssembled()
    ensures Assembled([]) == EMPTY_SLOT
  {
  }

  // ---------------------------------------------------------------------------
  // The routing rule, stated on the history alone

  /** Where a fragment goes after `ds` went to `routes`: with the first fragment that had its
      id, else where it says, else (no id) after the last one, else to an unused slot. */
  ghost predicate RoutedByHistory(ds: seq<ToolDelta>, routes: seq<nat>, d: ToolDelta, k: nat)
    requires |routes| == |ds|
  {
    if d.id.Some? && (exists i :: 0 <= i < |ds| && ds[i].id == d.id) then
      exists i :: 0 <= i < |ds| && ds[i].id == d.id && routes[i] == k
                  && forall j :: 0 <= j < i ==> ds[j].id != d.id
    else if d.index.Some? then k == d.index.value
    else if d.id.None? && ds != [] then k == routes[|ds| - 1]
    else k !in routes
  }

  ghost predicate FirstWithId(ds: seq<ToolDelta>, routes: seq<nat>, id: string, i: int, k: nat)
    requires |routes| == |ds|
  {
    0 <= i < |ds| && ds[i].id == Some(id) && routes[i] == k && forall j :: 0 <= j < i ==> ds[j].id != Some(id)
  }

  /** The id index records where the first fragment with an id went. */
  ghost predicate RemembersId(byId: map<string, nat>, ds: seq<ToolDelta>, routes: seq<nat>, id: string)
    requires |routes| == |ds|
  {
    if id in byId then exists i :: FirstWithId(ds, routes, id, i, byId[id])
    else forall i :: 0 <= i < |ds| ==> ds[i].id != Some(id)
  }

  lemma {:induction false} BatchRemembersId(next: nat, ds: seq<ToolDelta>, id: string)
    ensures var t, routes := AddAll(EmptyTable(next), ds), Routes(EmptyTable(next), ds);
            RemembersId(t.byId, ds, routes, id)
  {
    hide Route, Fill;
    if ds != [] {
      var n := |ds| - 1;
      var e := EmptyTable(next);
      var before, after := AddAll(e, ds[..n]), AddAll(e, ds);
      var routes, all := Routes(e, ds[..n]), Routes(e, ds);
      BatchRemembersId(next, ds[..n], id);
      assert all[..n] == routes;
      assert all[n] == Route(before, ds[n]);
      var newId := ds[n].id.Some? && ds[n].id.value !in before.byId;
      assert after.byId == if newId then before.byId[ds[n].id.value := all[n]] else before.byId;
      RemembersOneMore(before.byId, after.byId, ds, all, id);
    }
  }

  lemma RemembersOneMore(before: map<string, nat>, after: map<string, nat>, ds: seq<ToolDelta>, all: seq<nat>,
                         id: string)
    requires ds != [] && |all| == |ds|
    requires RemembersId(before, ds[..|ds| - 1], all[..|ds| - 1], id)
    requires var d := ds[|ds| - 1];
             after == if d.id.Some? && d.id.value !in before then before[d.id.value := all[|ds| - 1]] else before
    ensures RemembersId(after, ds, all, id)
  {
    var n := |ds| - 1;
    assert forall j :: 0 <= j < n ==> ds[j] == ds[..n][j];
    if id in before {
      var i :| FirstWithId(ds[..n], all[..n], id, i, before[id]);
      assert FirstWithId(ds, all, id, i, after[id]);
    } else if ds[n].id == Some(id) {
      assert FirstWithId(ds, all, id, n, after[id]);
    }
  }

  /** The next fragment of a batch is routed by the history rule; in particular an unseen id
      without an index always finds an unused slot. */
  lemma {:induction false} RouteFollowsHistory(next: nat, ds: seq<ToolDelta>, d: ToolDelta)
    ensures var t, routes := AddAll(EmptyTable(next), ds), Routes(EmptyTable(next), ds);
            RoutedByHistory(ds, routes, d, Route(t, d))
  {
    var t, routes := AddAll(EmptyTable(next), ds), Routes(EmptyTable(next), ds);
    BatchOrder(next, ds);
    if d.id.Some? {
      BatchRemembersId(next, ds, d.id.value);
      if d.id.value in t.byId {
        var i :| FirstWithId(ds, routes, d.id.value, i, t.byId[d.id.value]);
        assert ds[i].id == d.id;
      }
    }
  }

  /** A fragment that names no slot: it has no index, and either an id not seen before or no id and
      no fragment before it. */
  predicate IsNew(ds: seq<ToolDelta>, d: ToolDelta) {
    d.index.None? && if d.id.Some? then forall i :: 0 <= i < |ds| ==> ds[i].id != d.id else ds == []
  }

  lemma LastIsThere(next: nat, ds: seq<ToolDelta>)
    ensures AddAll(EmptyTable(next), ds).last.None? <==> ds == []
  {
    hide Route, Fill;
  }

  lemma NewIff(next: nat, ds: seq<ToolDelta>, d: ToolDelta)
    ensures NamedIndex(AddAll(EmptyTable(next), ds), d).None? <==> IsNew(ds, d)
  {
    hide AddAll, Routes;
    LastIsThere(next, ds);
    if d.id.Some? {
      BatchRemembersId(next, ds, d.id.value);
      if d.id.value in AddAll(EmptyTable(next), ds).byId {
        var i :| FirstWithId(ds, Routes(EmptyTable(next), ds), d.id.value, i,
                             AddAll(EmptyTable(next), ds).byId[d.id.value]);
        assert ds[i].id == d.id;
      }
    }
  }

  /** The indexes at the places of new fragments grow, between these bounds. */
  predicate NewGrow(ds: seq<ToolDelta>, routes: seq<nat>, next: nat, after: nat)
    requires |routes| == |ds|
  {
    && next <= after
    && (forall i :: 0 <= i < |ds| && IsNew(ds[..i], ds[i]) ==> next <= routes[i] < after)
    && (forall i, j :: 0 <= i < j < |ds| && IsNew(ds[..i], ds[i]) && IsNew(ds[..j], ds[j]) ==> routes[i] < routes[j])
  }

  lemma NewGrowMore(ds: seq<ToolDelta>, routes: seq<nat>, next: nat, after: nat, d: ToolDelta, k: nat, last: nat)
    requires |routes| == |ds| && NewGrow(ds, routes, next, after)
    requires if IsNew(ds, d) then after <= k < last else last == after
    ensures NewGrow(ds + [d], routes + [k], next, last)
  {
    hide IsNew;
    var all, places := ds + [d], routes + [k];
    assert forall i :: 0 <= i < |ds| ==> all[..i] == ds[..i] && all[i] == ds[i] && places[i] == routes[i];
    assert all[..|ds|] == ds && all[|ds|] == d && places[|ds|] == k;
  }

  lemma NextMoves(t: Table, d: ToolDelta)
    ensures if NamedIndex(t, d).None? then t.next <= Route(t, d) < Add(t, d).next else Add(t, d).next == t.next
  {
    hide Fill;
  }

  /** The indexes made up for new fragments grow, also over what comes behind: none is used twice,
      not even by another batch of the same stream. */
  lemma {:induction false} NewIndexesGrow(next: nat, ds: seq<ToolDelta>)
    ensures NewGrow(ds, Routes(EmptyTable(next), ds), next, AddAll(EmptyTable(next), ds).next)
  {
    if ds != [] {
      hide IsNew, NamedIndex, Add, Route, NewGrow;
      var n := |ds| - 1;
      var front, d := ds[..n], ds[n];
      NewIndexesGrow(next, front);
      NewIff(next, front, d);
      var t := AddAll(EmptyTable(next), front);
      NextMoves(t, d);
      NewGrowMore(front, Routes(EmptyTable(next), front), next, t.next, d, Route(t, d), Add(t, d).next);
      assert front + [d] == ds;
    }
  }

  // ---------------------------------------------------------------------------
  // Reporting the calls

  /** A finished call becomes an item unless it never got a name. */
  function CallItem(k: nat, slot: Slot): seq<TranscriptItem> {
    if slot.name.None? then []
    else
      var callId := if slot.id.Some? then slot.id.value else "tool-call-" + Numeral(k);
      [ToolCall(None, callId, slot.name.value, JsonArguments(slot.arguments))]
  }

  function CallItems(slots: map<nat, Slot>, order: seq<nat>): seq<TranscriptItem> {
    if order == [] then []
    else
      var n := |order| - 1;
      CallItems(slots, order[..n]) + if order[n] in slots then CallItem(order[n], slots[order[n]]) else []
  }

  /** Read off the fragments of a call: its first id, its first name that is not empty, and its
      arguments joined. */
  function IdIn(ds: seq<ToolDelta>): Option<string> {
    if ds == [] then None else if ds[0].id.Some? then ds[0].id else IdIn(ds[1..])
  }

  predicate HasName(d: ToolDelta) {
    d.func.Some? && d.func.value.name.Some? && d.func.value.name.value != ""
  }

  function NameIn(ds: seq<ToolDelta>): Option<string> {
    if ds == [] then None else if HasName(ds[0]) then ds[0].func.value.name else NameIn(ds[1..])
  }

  function ArgumentsIn(ds: seq<ToolDelta>): string {
    if ds == [] then ""
    else
      (match ds[0].func
       case Some(FunctionDelta(_, Some(text))) => text
       case _ => "") + ArgumentsIn(ds[1..])
  }

  lemma {:induction false} ReadSnoc(ds: seq<ToolDelta>, d: ToolDelta)
    ensures IdIn(ds + [d]) == (if IdIn(ds).Some? then IdIn(ds) else d.id)
    ensures NameIn(ds + [d])
         == if NameIn(ds).Some? then NameIn(ds) else if HasName(d) then d.func.value.name else None
  {
    var all := ds + [d];
    if ds == [] {
      assert all == [d] && [d][1..] == [];
    } else {
      hide HasName;
      assert all[0] == ds[0] && all[1..] == ds[1..] + [d];
      ReadSnoc(ds[1..], d);
    }
  }

  lemma ArgumentsFirst(ds: seq<ToolDelta>)
    requires ds != []
    ensures ArgumentsIn(ds) == ArgumentsIn([ds[0]]) + ArgumentsIn(ds[1..])
  {
    assert [ds[0]][1..] == [] && ArgumentsIn([]) == "";
  }

  lemma {:induction false} ArgumentsSnoc(ds: seq<ToolDelta>, d: ToolDelta)
    ensures ArgumentsIn(ds + [d]) == ArgumentsIn(ds) + ArgumentsIn([d])
  {
    var all := ds + [d];
    if ds == [] {
      assert all == [d];
    } else {
      assert all[0] == ds[0] && all[1..] == ds[1..] + [d];
      ArgumentsFirst(all);
      ArgumentsFirst(ds);
      hide ArgumentsIn;
      ArgumentsSnoc(ds[1..], d);
      Associative(ArgumentsIn([ds[0]]), ArgumentsIn(ds[1..]), ArgumentsIn([d]));
    }
  }

  lemma OneFragment(d: ToolDelta)
    ensures ArgumentsIn([d]) == ArgumentsOf(d) && NameOf(d) == (if HasName(d) then d.func.value.name else None)
  {
    assert [d][1..] == [];
  }

  lemma {:induction false} SlotIsRead(ds: seq<ToolDelta>)
    ensures Assembled(ds) == Slot(IdIn(ds), NameIn(ds), ArgumentsIn(ds))
  {
    hide Assembled;
    if ds == [] {
      NothingAssembled();
    } else {
      var n := |ds| - 1;
      SlotIsRead(ds[..n]);
      AssembledSnoc(ds[..n], ds[n]);
      assert ds[..n] + [ds[n]] == ds;
      ReadSnoc(ds[..n], ds[n]);
      ArgumentsSnoc(ds[..n], ds[n]);
      OneFragment(ds[n]);
    }
  }

  /** The call that these fragments of slot `k` make up, if it ever got a name. */
  function CallIn(k: nat, ds: seq<ToolDelta>): seq<TranscriptItem> {
    if NameIn(ds).None? then []
    else
      [ToolCall(None, if IdIn(ds).Some? then IdIn(ds).value else "tool-call-" + Numeral(k), NameIn(ds).value,
                JsonArguments(ArgumentsIn(ds)))]
  }

  /** The calls of these slots, in order. */
  function CallsIn(order: seq<nat>, ds: seq<ToolDelta>, routes: seq<nat>): seq<TranscriptItem>
    requires |routes| == |ds|
    decreases order
  {
    if order == [] then [] else CallIn(order[0], Routed(ds, routes, order[0])) + CallsIn(order[1..], ds, routes)
  }

  lemma {:induction false} CallsInSnoc(order: seq<nat>, k: nat, ds: seq<ToolDelta>, routes: seq<nat>)
    requires |routes| == |ds|
    ensures CallsIn(order + [k], ds, routes) == CallsIn(order, ds, routes) + CallIn(k, Routed(ds, routes, k))
    decreases order
  {
    hide CallIn, Routed;
    if order == [] {
      assert order + [k] == [k] && [k][1..] == [];
    } else {
      var all := order + [k];
      assert all[0] == order[0] && all[1..] == order[1..] + [k];
      CallsInSnoc(order[1..], k, ds, routes);
      Associative(CallIn(order[0], Routed(ds, routes, order[0])), CallsIn(order[1..], ds, routes),
                  CallIn(k, Routed(ds, routes, k)));
    }
  }

  lemma SlotCall(next: nat, ds: seq<ToolDelta>, k: nat)
    ensures var t, routes := AddAll(EmptyTable(next), ds), Routes(EmptyTable(next), ds);
            && (k in t.slots <==> k in routes)
            && (k in t.slots ==> CallItem(k, t.slots[k]) == CallIn(k, Routed(ds, routes, k)))
  {
    hide AddAll, Routes, Routed, Assembled;
    BatchOrder(next, ds);
    BatchSlot(next, ds, k);
    SlotIsRead(Routed(ds, Routes(EmptyTable(next), ds), k));
  }

  lemma {:induction false} OrderedCalls(next: nat, ds: seq<ToolDelta>, order: seq<nat>)
    requires forall i :: 0 <= i < |order| ==> order[i] in Routes(EmptyTable(next), ds)
    ensures CallItems(AddAll(EmptyTable(next), ds).slots, order) == CallsIn(order, ds, Routes(EmptyTable(next), ds))
  {
    hide AddAll, Routes, Routed, CallItem, CallIn;
    if order != [] {
      var n := |order| - 1;
      OrderedCalls(next, ds, order[..n]);
      SlotCall(next, ds, order[n]);
      CallsInSnoc(order[..n], order[n], ds, Routes(EmptyTable(next), ds));
      assert order[..n] + [order[n]] == order;
    }
  }

  /** The calls reported for a batch: for each slot in the order of first use, what its fragments
      make up. */
  lemma CallsAreRead(next: nat, ds: seq<ToolDelta>)
    ensures var t, routes := AddAll(EmptyTable(next), ds), Routes(EmptyTable(next), ds);
            CallItems(t.slots, t.order) == CallsIn(FirstSeen(routes), ds, routes)
  {
    hide AddAll, Routes, CallItems, CallsIn, FirstSeen;
    var routes := Routes(EmptyTable(next), ds);
    BatchOrder(next, ds);
    FirstsAreThere(routes);
    OrderedCalls(next, ds, FirstSeen(routes));
  }

  lemma {:induction false} FirstsAreThere(routes: seq<nat>)
    ensures forall i :: 0 <= i < |FirstSeen(routes)| ==> FirstSeen(routes)[i] in routes
  {
    if routes != [] {
      FirstsAreThere(routes[..|routes| - 1]);
    }
  }

  lemma CallItemsStep(slots: map<nat, Slot>, order: seq<nat>, i: nat)
    requires i < |order| && order[i] in slots
    ensures CallItems(slots, order[..i + 1]) == CallItems(slots, order[..i]) + CallItem(order[i], slots[order[i]])
  {
    assert order[..i + 1][..i] == order[..i];
  }

  function Firsts(order: seq<nat>, i: nat): set<nat>
    requires i <= |order|
  {
    set j | 0 <= j < i :: order[j]
  }

  predicate NoRepeats(order: seq<nat>) {
    forall i, j :: 0 <= i < j < |order| ==> order[i] != order[j]
  }

  lemma FirstsStep(order: seq<nat>, i: nat)
    requires i < |order| && NoRepeats(order)
    ensures Firsts(order, i + 1) == Firsts(order, i) + {order[i]}
    ensures order[i] !in Firsts(order, i)
  {
  }

  lemma DrainStep(slots: map<nat, Slot>, order: seq<nat>, i: nat)
    requires i < |order| && NoRepeats(order)
    ensures order[i] !in Firsts(order, i)
    ensures (slots - Firsts(order, i)) - {order[i]} == slots - Firsts(order, i + 1)
    ensures slots.Keys - Firsts(order, i) - {order[i]} == slots.Keys - Firsts(order, i + 1)
  {
    hide Firsts, NoRepeats;
    FirstsStep(order, i);
  }

  lemma FirstsOfAll(order: seq<nat>)
    ensures forall k :: k in order ==> k in Firsts(order, |order|)
  {
  }

  class ToolCalls {
    var toolCalls: map<nat, Slot>
    var order: seq<nat>
    var seen: set<nat>
    var indexById: map<string, nat>
    var nextIndex: nat
    var lastIndex: Option<nat>

    function Contents(): Table
      reads this
    {
      Table(toolCalls, order, seen, indexById, nextIndex, lastIndex)
    }

    constructor ()
      ensures Contents() == EmptyTable(0)
    {
      toolCalls, order, seen, indexById, nextIndex, lastIndex := map[], [], {}, map[], 0, None;
    }

    /** One entry of `delta.tool_calls`. */
    method Accept(d: ToolDelta)
      modifies this
      ensures Contents() == Add(old(Contents()), d)
    {
      hide FreshIndex, Fill;
      ghost var before := Contents();
      var index := d.index;
      if d.id.Some? && d.id.value in indexById {
        index := Some(indexById[d.id.value]);
      }
      if index.None? && d.id.None? {
        index := lastIndex;
      }
      var k;
      if index.Some? {
        k := index.value;
      } else {
        k := TakeFreshIndex();
      }
      assert k == Route(before, d);
      if k !in seen {
        seen := seen + {k};
        order := order + [k];
      }
      if d.id.Some? && d.id.value !in indexById {
        indexById := indexById[d.id.value := k];
      }
      var slot := FillSlot(if k in toolCalls then toolCalls[k] else EMPTY_SLOT, d);
      toolCalls := toolCalls[k := slot];
      lastIndex := Some(k);
      assert seen == before.seen + {k};
    }

    /** What a fragment adds to its slot. */
    static method FillSlot(start: Slot, d: ToolDelta) returns (slot: Slot)
      ensures slot == Fill(start, d)
    {
      slot := start;
      if d.id.Some? {
        slot := slot.(id := OrElse(slot.id, d.id));
      }
      if d.func.Some? {
        var func := d.func.value;
        if func.name.Some? && func.name.value != [] {
          slot := slot.(name := OrElse(slot.name, func.name));
        }
        if func.arguments.Some? {
          slot := slot.(arguments := slot.arguments + func.arguments.value);
        }
      }
      assert start.arguments + [] == start.arguments;
    }

    /** Scans for an index without a slot; the scan ends because there are finitely many slots. */
    method TakeFreshIndex() returns (k: nat)
      modifies this`nextIndex
      ensures k == FreshIndex(toolCalls.Keys, old(nextIndex))
      ensures nextIndex == k + 1
    {
      ghost var start := nextIndex;
      ghost var free := FreshIndex(toolCalls.Keys, start);
      while nextIndex in toolCalls
        invariant start <= nextIndex <= free
        decreases free - nextIndex
      {
        nextIndex := nextIndex + 1;
      }
      if nextIndex < free {
        FreshIndexIsLeast(toolCalls.Keys, start, nextIndex);
      }
      k := nextIndex;
      nextIndex := nextIndex + 1;
    }

    /** Reports all named calls in first-seen order and forgets every call. */
    method Drain() returns (items: seq<TranscriptItem>)
      requires Consistent(Contents())
      modifies this
      ensures items == CallItems(old(toolCalls), old(order))
      ensures Contents() == EmptyTable(old(nextIndex))
    {
      hide NoRepeats;
      items := [];
      ghost var slots, all := toolCalls, order;
      for i := 0 to |order|
        invariant order == all && nextIndex == old(nextIndex)
        invariant items == CallItems(slots, all[..i])
        invariant toolCalls == slots - Firsts(all, i)
        invariant seen == slots.Keys - Firsts(all, i)
      {
        hide CallItems, Firsts, CallItem;
        var index := order[i];
        CallItemsStep(slots, all, i);
        DrainStep(slots, all, i);
        items := items + CallItem(index, toolCalls[index]);
        toolCalls := toolCalls - {index};
        seen := seen - {index};
      }
      assert all[..|all|] == all;
      FirstsOfAll(all);
      assert toolCalls == map[];
      order := [];
      indexById, lastIndex := map[], None;
    }

    /** What a `stop` does to the calls: all are dropped, only the next index survives. */
    method Clear()
      modifies this
      ensures Contents() == EmptyTable(old(nextIndex))
    {
      toolCalls, order, seen, indexById, lastIndex := map[], [], {}, map[], None;
    }
  }
}
