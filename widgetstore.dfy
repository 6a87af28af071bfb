/**
 * The dashboard's widget store: the widget list, the grid layout, and the
 * copy of both kept in browser storage under one key.
 *
 * Each store action is a method on `Store` that replaces `widgets` or
 * `layout` by a value given by a specification function, and appends the
 * storage operation it performs to `writes`. Widget ids and creation times,
 * which the source draws from `crypto.randomUUID` and `Date.now`, are
 * parameters.
 */
module WidgetStore {
  import opened Wrappers
  import opened Seqs

  // ---------------------------------------------------------------- types

  /** The three widget types the dashboard can render. */
  const KnownTypes: set<string> := {"finance-card", "line-chart", "table"}

  /** The alias table of `normalizeWidgetType`: older or shorter names mapped to their canonical type. */
  const TypeAliases: map<string, string> :=
    map["card" := "finance-card", "finance-card" := "finance-card",
        "chart" := "line-chart", "line" := "line-chart", "line-chart" := "line-chart",
        "table" := "table", "stock-table" := "table"]

  /**
   * The canonical type of a widget type name, or `None` where the source
   * answers 'unknown'. Only the alias table's own entries are consulted
   * (see `NormalizeAsWritten` for the lookup as the source writes it).
   */
  function NormalizeWidgetType(t: string): (r: Option<string>)
    ensures r.Some? <==> t in TypeAliases
    ensures r.Some? ==> r.value in KnownTypes
    ensures t in KnownTypes ==> r == Some(t)
  {
    if t in KnownTypes then Some(t)
    else if t in TypeAliases then Some(TypeAliases[t])
    else None
  }

  predicate IsKnownType(t: string) {
    NormalizeWidgetType(t).Some?
  }

  /** Every alias and every canonical name, and nothing else, normalises to a known type. */
  lemma NormalizeWidgetTypeTable()
    ensures NormalizeWidgetType("card") == Some("finance-card")
    ensures NormalizeWidgetType("chart") == Some("line-chart")
    ensures NormalizeWidgetType("line") == Some("line-chart")
    ensures NormalizeWidgetType("stock-table") == Some("table")
    ensures NormalizeWidgetType("unknown") == None
    ensures NormalizeWidgetType("Card") == None
    ensures NormalizeWidgetType("") == None
  {
  }

  /** Normalising twice is normalising once: a canonical type maps to itself. */
  lemma NormalizeIdempotent(t: string)
    requires IsKnownType(t)
    ensures NormalizeWidgetType(NormalizeWidgetType(t).value) == NormalizeWidgetType(t)
  {
  }

  /** What a plain-object lookup `map[type]` yields in JavaScript. */
  datatype Lookup = OwnEntry(canonical: string) | PrototypeMember(key: string) | Missing

  /** The names every plain object inherits from `Object.prototype`; each one reads as a truthy value. */
  const ObjectPrototypeKeys: set<string> :=
    {"constructor", "hasOwnProperty", "isPrototypeOf", "propertyIsEnumerable",
     "toString", "toLocaleString", "valueOf", "__proto__",
     "__defineGetter__", "__defineSetter__", "__lookupGetter__", "__lookupSetter__"}

  /**
   * `normalizeWidgetType` as written: `map[type] || 'unknown'` also finds the
   * members a plain object inherits, and since they are truthy they are
   * returned instead of 'unknown'.
   */
  function NormalizeAsWritten(t: string): (r: Lookup)
    ensures r.OwnEntry? <==> t in TypeAliases
    ensures r.PrototypeMember? <==> t in ObjectPrototypeKeys
  {
    if t in KnownTypes then OwnEntry(t)
    else if t in TypeAliases then OwnEntry(TypeAliases[t])
    else if t in ObjectPrototypeKeys then PrototypeMember(t)
    else Missing
  }

  /** A widget of type "constructor" gets past the 'unknown' guard as written, but not in the model. */
  lemma PrototypeKeyPassesGuard()
    ensures !NormalizeAsWritten("constructor").Missing?
    ensures NormalizeWidgetType("constructor") == None
  {
  }

  /** Away from the inherited names the written lookup and the model agree. */
  lemma AsWrittenAgreesElsewhere(t: string)
    requires t !in ObjectPrototypeKeys
    ensures NormalizeAsWritten(t).Missing? <==> NormalizeWidgetType(t).None?
    ensures NormalizeAsWritten(t).OwnEntry? ==> NormalizeWidgetType(t) == Some(NormalizeAsWritten(t).canonical)
  {
  }

  /** A stored widget. `wtype` is a string: storage can hold any type name. */
  datatype Widget = Widget(
    id: string,
    wtype: string,
    symbol: string,
    name: string,
    refreshInterval: int,
    createdAt: int,
    provider: Option<string>,
    selectedFields: Option<seq<string>>)

  /** What `addWidget` receives: a widget without `id` and `createdAt`. */
  datatype NewWidget = NewWidget(
    wtype: string,
    symbol: string,
    name: string,
    refreshInterval: int,
    provider: Option<string>,
    selectedFields: Option<seq<string>>)

  /** A `Partial<Widget>`: `None` is a key the update object does not have. */
  datatype WidgetPatch = WidgetPatch(
    id: Option<string>,
    wtype: Option<string>,
    symbol: Option<string>,
    name: Option<string>,
    refreshInterval: Option<int>,
    createdAt: Option<int>,
    provider: Option<string>,
    selectedFields: Option<seq<string>>)

  const EmptyPatch := WidgetPatch(None, None, None, None, None, None, None, None)

  datatype Layout = Layout(columns: int, gap: int)
  datatype LayoutPatch = LayoutPatch(columns: Option<int>, gap: Option<int>)

  const DefaultLayout := Layout(3, 4)

  /** The JSON document written under the storage key. */
  datatype Snapshot = Snapshot(widgets: seq<Widget>, layout: Layout)

  /** One call on browser storage. */
  datatype StorageOp = Write(snapshot: Snapshot) | Remove

  /**
   * What `hydrate` finds under the storage key: nothing (or an empty string),
   * text that fails `JSON.parse` or makes the filter throw, or a document whose
   * `widgets` is an array or not (`None`) and whose `layout` is truthy or not.
   */
  datatype Stored = Absent | Corrupt | Document(widgets: Option<seq<Widget>>, layout: Option<Layout>)

  predicate AllKnown(ws: seq<Widget>) {
    forall i :: 0 <= i < |ws| ==> IsKnownType(ws[i].wtype)
  }

  // ---------------------------------------------------------------- widget list functions

  /** The widget `addWidget` builds: the supplied fields, the normalised type, the fresh id and time. */
  function Created(w: NewWidget, id: string, now: int): (r: Widget)
    requires IsKnownType(w.wtype)
    ensures r.wtype in KnownTypes && r.id == id && r.createdAt == now
    ensures NormalizeWidgetType(r.wtype) == NormalizeWidgetType(w.wtype)
    ensures r.symbol == w.symbol && r.name == w.name && r.refreshInterval == w.refreshInterval
    ensures r.provider == w.provider && r.selectedFields == w.selectedFields
  {
    Widget(id, NormalizeWidgetType(w.wtype).value, w.symbol, w.name, w.refreshInterval, now, w.provider, w.selectedFields)
  }

  function Removed(ws: seq<Widget>, id: string): (r: seq<Widget>)
    ensures forall i :: 0 <= i < |r| ==> r[i].id != id
    ensures forall i :: 0 <= i < |ws| && ws[i].id != id ==> ws[i] in r
    ensures forall i :: 0 <= i < |r| ==> r[i] in ws
    ensures forall i :: 0 <= i < |ws| ==> multiset(r)[ws[i]] == if ws[i].id != id then multiset(ws)[ws[i]] else 0
  {
    Filter(ws, (w: Widget) => w.id != id)
  }

  /** `removeWidget` keeps the other widgets in their original order, and removing an absent id changes nothing. */
  lemma RemovedKeepsOrder(ws: seq<Widget>, id: string)
    ensures IsSubsequence(Removed(ws, id), ws)
    ensures (forall i :: 0 <= i < |ws| ==> ws[i].id != id) ==> Removed(ws, id) == ws
  {
    FilterIsSubsequence(ws, (w: Widget) => w.id != id);
    if forall i :: 0 <= i < |ws| ==> ws[i].id != id {
      FilterAll(ws, (w: Widget) => w.id != id);
    }
  }

  /** `{ ...w, ...updates }`. */
  function ApplyPatch(w: Widget, p: WidgetPatch): Widget {
    Widget(p.id.GetOr(w.id), p.wtype.GetOr(w.wtype), p.symbol.GetOr(w.symbol), p.name.GetOr(w.name),
           p.refreshInterval.GetOr(w.refreshInterval), p.createdAt.GetOr(w.createdAt),
           if p.provider.Some? then p.provider else w.provider,
           if p.selectedFields.Some? then p.selectedFields else w.selectedFields)
  }

  /** `{ ...p, ...q }`: the later update wins on the keys both have. */
  function ThenPatch(p: WidgetPatch, q: WidgetPatch): WidgetPatch {
    WidgetPatch(
      if q.id.Some? then q.id else p.id,
      if q.wtype.Some? then q.wtype else p.wtype,
      if q.symbol.Some? then q.symbol else p.symbol,
      if q.name.Some? then q.name else p.name,
      if q.refreshInterval.Some? then q.refreshInterval else p.refreshInterval,
      if q.createdAt.Some? then q.createdAt else p.createdAt,
      if q.provider.Some? then q.provider else p.provider,
      if q.selectedFields.Some? then q.selectedFields else p.selectedFields)
  }

  /**
   * Spreading keeps every key the update leaves out, an empty update is the
   * identity, repeating an update changes nothing, and two updates in a row
   * are one merged update.
   */
  lemma ApplyPatchLaws(w: Widget, p: WidgetPatch, q: WidgetPatch)
    ensures ApplyPatch(w, EmptyPatch) == w
    ensures ApplyPatch(ApplyPatch(w, p), p) == ApplyPatch(w, p)
    ensures ApplyPatch(ApplyPatch(w, p), q) == ApplyPatch(w, ThenPatch(p, q))
    ensures p.name.None? ==> ApplyPatch(w, p).name == w.name
    ensures p.id.None? ==> ApplyPatch(w, p).id == w.id
    ensures p.wtype.None? ==> ApplyPatch(w, p).wtype == w.wtype
  {
  }

  function Updated(ws: seq<Widget>, id: string, p: WidgetPatch): (r: seq<Widget>)
    ensures |r| == |ws|
    ensures forall i :: 0 <= i < |ws| ==> r[i] == if ws[i].id == id then ApplyPatch(ws[i], p) else ws[i]
  {
    seq(|ws|, i requires 0 <= i < |ws| => if ws[i].id == id then ApplyPatch(ws[i], p) else ws[i])
  }

  /**
   * `updateWidget` with an id nobody has changes nothing; one that does not
   * set `id` keeps every id in place; one that sets no type, or a known type,
   * keeps every widget's type known.
   */
  lemma UpdatedFacts(ws: seq<Widget>, id: string, p: WidgetPatch)
    ensures (forall i :: 0 <= i < |ws| ==> ws[i].id != id) ==> Updated(ws, id, p) == ws
    ensures p.id.None? ==> forall i :: 0 <= i < |ws| ==> Updated(ws, id, p)[i].id == ws[i].id
    ensures AllKnown(ws) && (p.wtype.None? || IsKnownType(p.wtype.value)) ==> AllKnown(Updated(ws, id, p))
  {
    var r := Updated(ws, id, p);
    if forall i :: 0 <= i < |ws| ==> ws[i].id != id {
      assert forall i :: 0 <= i < |ws| ==> r[i] == ws[i];
    }
  }

  function Renamed(ws: seq<Widget>, id: string, name: string): (r: seq<Widget>)
    ensures |r| == |ws|
    ensures forall i :: 0 <= i < |ws| ==> r[i] == if ws[i].id == id then ws[i].(name := name) else ws[i]
  {
    seq(|ws|, i requires 0 <= i < |ws| => if ws[i].id == id then ws[i].(name := name) else ws[i])
  }

  /** `renameWidget` is `updateWidget` with an update that sets only `name`. */
  lemma RenameIsNameUpdate(ws: seq<Widget>, id: string, name: string)
    ensures Renamed(ws, id, name) == Updated(ws, id, EmptyPatch.(name := Some(name)))
    ensures AllKnown(ws) ==> AllKnown(Renamed(ws, id, name))
  {
    var r := Renamed(ws, id, name);
    var u := Updated(ws, id, EmptyPatch.(name := Some(name)));
    assert forall i :: 0 <= i < |ws| ==> r[i] == u[i];
  }

  /** `findIndex((w) => w.id === id)`. */
  function IndexOfId(ws: seq<Widget>, id: string): (r: int)
    ensures -1 <= r < |ws|
    ensures r == -1 <==> forall i :: 0 <= i < |ws| ==> ws[i].id != id
    ensures r >= 0 ==> ws[r].id == id && forall i :: 0 <= i < r ==> ws[i].id != id
  {
    if ws == [] then -1
    else if ws[0].id == id then 0
    else
      var k := IndexOfId(ws[1..], id);
      if k == -1 then -1 else k + 1
  }

  // ---------------------------------------------------------------- the splice move

  /** `splice(from, 1)` followed by `splice(to, 0, moved)` on a copy of `s`. */
  function Move<T>(s: seq<T>, from: nat, to: nat): (r: seq<T>)
    requires from < |s| && to < |s|
    ensures |r| == |s| && r[to] == s[from]
  {
    var rest := s[..from] + s[from + 1..];
    rest[..to] + [s[from]] + rest[to..]
  }

  /** The index of `s` whose element `Move(s, from, to)` holds at position `k`. */
  function MovedFrom(from: nat, to: nat, k: nat): nat {
    if k == to then from
    else if from < to && from <= k < to then k + 1
    else if to < from && to < k <= from then k - 1
    else k
  }

  lemma MoveAt<T>(s: seq<T>, from: nat, to: nat, k: nat)
    requires from < |s| && to < |s| && k < |s|
    ensures MovedFrom(from, to, k) < |s|
    ensures Move(s, from, to)[k] == s[MovedFrom(from, to, k)]
  {
    var rest := s[..from] + s[from + 1..];
    assert forall j :: 0 <= j < |rest| ==> rest[j] == if j < from then s[j] else s[j + 1];
    var r := Move(s, from, to);
    assert r == rest[..to] + [s[from]] + rest[to..];
    if k < to {
      assert r[k] == rest[k];
    } else if k > to {
      assert r[k] == rest[k - 1];
    }
  }

  /** Two sequences that agree with `s` through `MovedFrom` are the same move. */
  lemma MoveExt<T>(s: seq<T>, from: nat, to: nat, t: seq<T>)
    requires from < |s| && to < |s| && |t| == |s|
    requires forall k :: 0 <= k < |s| ==> MovedFrom(from, to, k) < |s| && t[k] == s[MovedFrom(from, to, k)]
    ensures t == Move(s, from, to)
  {
    forall k | 0 <= k < |s|
      ensures t[k] == Move(s, from, to)[k]
    {
      MoveAt(s, from, to, k);
    }
  }

  /** The reorder is a permutation: the same widgets, each as often as before. */
  lemma MovePermutes<T>(s: seq<T>, from: nat, to: nat)
    requires from < |s| && to < |s|
    ensures multiset(Move(s, from, to)) == multiset(s)
  {
    var rest := s[..from] + s[from + 1..];
    assert s == s[..from] + [s[from]] + s[from + 1..];
    assert rest == rest[..to] + rest[to..];
    calc {
      multiset(Move(s, from, to));
      multiset(rest[..to]) + multiset([s[from]]) + multiset(rest[to..]);
      multiset(rest) + multiset([s[from]]);
      multiset(s[..from]) + multiset(s[from + 1..]) + multiset([s[from]]);
      multiset(s);
    }
  }

  /** Dragging the widget back to where it came from restores the original order. */
  lemma MoveUndo<T>(s: seq<T>, from: nat, to: nat)
    requires from < |s| && to < |s|
    ensures Move(Move(s, from, to), to, from) == s
  {
    var m := Move(s, from, to);
    forall k | 0 <= k < |s|
      ensures s[k] == m[MovedFrom(to, from, k)]
    {
      MoveAt(m, to, from, k);
      MoveAt(s, from, to, MovedFrom(to, from, k));
    }
    MoveExt(m, to, from, s);
  }

  /** The in-place splice on the array copy: shift the elements between the two indices by one, then drop the moved one in. */
  method MoveInPlace<T>(a: array<T>, from: nat, to: nat)
    requires from < a.Length && to < a.Length
    modifies a
    ensures a[..] == Move(old(a[..]), from, to)
  {
    ghost var s := a[..];
    var moved := a[from];
    if from < to {
      var i := from;
      while i < to
        invariant from <= i <= to && |s| == a.Length
        invariant forall k :: from <= k < i ==> a[k] == s[k + 1]
        invariant forall k :: 0 <= k < a.Length && !(from <= k < i) ==> a[k] == s[k]
      {
        a[i] := a[i + 1];
        i := i + 1;
      }
    } else {
      var i := from;
      while i > to
        invariant to <= i <= from && |s| == a.Length
        invariant forall k :: i < k <= from ==> a[k] == s[k - 1]
        invariant forall k :: 0 <= k < a.Length && !(i < k <= from) ==> a[k] == s[k]
      {
        a[i] := a[i - 1];
        i := i - 1;
      }
    }
    a[to] := moved;
    assert forall k :: 0 <= k < |s| ==> MovedFrom(from, to, k) < |s| && a[..][k] == s[MovedFrom(from, to, k)];
    MoveExt(s, from, to, a[..]);
  }

  /** The array copy `[...state.widgets]` with the move applied, read back as a sequence. */
  method MovedCopy<T>(ws: seq<T>, from: nat, to: nat) returns (r: seq<T>)
    requires from < |ws| && to < |ws|
    ensures r == Move(ws, from, to)
  {
    if ws == [] {
      return [];
    }
    var copy := new T[|ws|](i requires 0 <= i < |ws| => ws[i]);
    assert copy[..] == ws;
    MoveInPlace(copy, from, to);
    r := copy[..];
  }

  // ---------------------------------------------------------------- layout and hydration

  /** `{ ...state.layout, ...layout }`. */
  function MergeLayout(l: Layout, p: LayoutPatch): Layout {
    Layout(p.columns.GetOr(l.columns), p.gap.GetOr(l.gap))
  }

  /** A field the update leaves out keeps its value; merging the same update twice, or an empty one, changes nothing more. */
  lemma MergeLayoutLaws(l: Layout, p: LayoutPatch)
    ensures p.columns.None? ==> MergeLayout(l, p).columns == l.columns
    ensures p.gap.None? ==> MergeLayout(l, p).gap == l.gap
    ensures MergeLayout(MergeLayout(l, p), p) == MergeLayout(l, p)
    ensures MergeLayout(l, LayoutPatch(None, None)) == l
  {
  }

  /** The widgets `hydrate` keeps from a stored `widgets` value: a non-array gives none, an array loses its unknown types. */
  function Hydrated(stored: Option<seq<Widget>>): (r: seq<Widget>)
    ensures AllKnown(r)
    ensures stored.Some? ==> forall i :: 0 <= i < |stored.value| && IsKnownType(stored.value[i].wtype) ==> stored.value[i] in r
    ensures stored.Some? ==> forall i :: 0 <= i < |stored.value| ==>
      multiset(r)[stored.value[i]] == if IsKnownType(stored.value[i].wtype) then multiset(stored.value)[stored.value[i]] else 0
    ensures stored.None? ==> r == []
  {
    if stored.None? then [] else Filter(stored.value, (w: Widget) => IsKnownType(w.wtype))
  }

  /** Hydrating what the store itself wrote restores it: the stored widgets already have known types. */
  lemma HydrateRoundTrip(snap: Snapshot)
    requires AllKnown(snap.widgets)
    ensures Hydrated(Some(snap.widgets)) == snap.widgets
  {
    FilterAll(snap.widgets, (w: Widget) => IsKnownType(w.wtype));
  }

  /** Hydration keeps the surviving widgets in their stored order, with their stored type names. */
  lemma HydratedKeepsOrder(ws: seq<Widget>)
    ensures IsSubsequence(Hydrated(Some(ws)), ws)
  {
    FilterIsSubsequence(ws, (w: Widget) => IsKnownType(w.wtype));
  }

  /** `reorderWidgets` acts only for two different ids that are both present. */
  predicate ReorderApplies(ws: seq<Widget>, sourceId: string, targetId: string) {
    sourceId != targetId && IndexOfId(ws, sourceId) >= 0 && IndexOfId(ws, targetId) >= 0
  }

  /** The widget list after `reorderWidgets`: the first widget with the source id moves to the first target id's index. */
  function Reordered(ws: seq<Widget>, sourceId: string, targetId: string): (r: seq<Widget>)
    ensures multiset(r) == multiset(ws) && |r| == |ws|
    ensures !ReorderApplies(ws, sourceId, targetId) ==> r == ws
    ensures ReorderApplies(ws, sourceId, targetId) ==> r[IndexOfId(ws, targetId)] == ws[IndexOfId(ws, sourceId)]
  {
    if !ReorderApplies(ws, sourceId, targetId) then ws
    else
      var from := IndexOfId(ws, sourceId);
      var to := IndexOfId(ws, targetId);
      MovePermutes(ws, from, to);
      Move(ws, from, to)
  }

  /** Dragging back undoes a reorder: the moved widget sits at the target index, so moving it back restores the list. */
  lemma ReorderUndo(ws: seq<Widget>, sourceId: string, targetId: string)
    requires ReorderApplies(ws, sourceId, targetId)
    ensures Move(Reordered(ws, sourceId, targetId), IndexOfId(ws, targetId), IndexOfId(ws, sourceId)) == ws
  {
    MoveUndo(ws, IndexOfId(ws, sourceId), IndexOfId(ws, targetId));
  }

  // ---------------------------------------------------------------- the store

  class Store {
    var widgets: seq<Widget>
    var layout: Layout
    var isHydrated: bool
    /** Every call the store has made on browser storage, oldest first. */
    var writes: seq<StorageOp>

    /** The last storage call wrote the current widgets and layout. */
    predicate Persisted()
      reads this
    {
      |writes| > 0 && writes[|writes| - 1] == Write(Snapshot(widgets, layout))
    }

    /** `DEFAULT_STATE`. */
    constructor ()
      ensures widgets == [] && layout == DefaultLayout && !isHydrated && writes == []
    {
      widgets := [];
      layout := DefaultLayout;
      isHydrated := false;
      writes := [];
    }

    /** `persistState(widgets, layout)`. */
    method Persist()
      modifies this`writes
      ensures writes == old(writes) + [Write(Snapshot(widgets, layout))]
      ensures Persisted()
    {
      writes := writes + [Write(Snapshot(widgets, layout))];
    }

    method AddWidget(w: NewWidget, id: string, now: int)
      modifies this
      ensures !IsKnownType(w.wtype) ==> unchanged(this)
      ensures IsKnownType(w.wtype) ==>
        widgets == old(widgets) + [Created(w, id, now)] && writes == old(writes) + [Write(Snapshot(widgets, layout))]
      ensures layout == old(layout) && isHydrated == old(isHydrated)
      ensures AllKnown(old(widgets)) ==> AllKnown(widgets)
    {
      if NormalizeWidgetType(w.wtype).None? {
        return;
      }
      widgets := widgets + [Created(w, id, now)];
      Persist();
    }

    method RemoveWidget(id: string)
      modifies this
      ensures widgets == Removed(old(widgets), id) && layout == old(layout) && isHydrated == old(isHydrated)
      ensures writes == old(writes) + [Write(Snapshot(widgets, layout))]
      ensures AllKnown(old(widgets)) ==> AllKnown(widgets)
    {
      widgets := Removed(widgets, id);
      Persist();
    }

    method UpdateWidget(id: string, p: WidgetPatch)
      modifies this
      ensures widgets == Updated(old(widgets), id, p) && layout == old(layout) && isHydrated == old(isHydrated)
      ensures writes == old(writes) + [Write(Snapshot(widgets, layout))]
    {
      widgets := Updated(widgets, id, p);
      Persist();
    }

    method RenameWidget(id: string, name: string)
      modifies this
      ensures widgets == Renamed(old(widgets), id, name) && layout == old(layout) && isHydrated == old(isHydrated)
      ensures writes == old(writes) + [Write(Snapshot(widgets, layout))]
    {
      widgets := Renamed(widgets, id, name);
      Persist();
    }

    /**
     * `reorderWidgets(sourceId, targetId)`: a no-op, persisting nothing, when
     * the ids are equal or either is missing; otherwise the widget at the
     * source index moves to the target index.
     */
    method ReorderWidgets(sourceId: string, targetId: string)
      modifies this
      ensures !ReorderApplies(old(widgets), sourceId, targetId) ==> unchanged(this)
      ensures ReorderApplies(old(widgets), sourceId, targetId) ==>
        widgets == Reordered(old(widgets), sourceId, targetId) && writes == old(writes) + [Write(Snapshot(widgets, layout))]
      ensures layout == old(layout) && isHydrated == old(isHydrated)
    {
      if sourceId == targetId {
        return;
      }
      var sourceIndex := IndexOfId(widgets, sourceId);
      var targetIndex := IndexOfId(widgets, targetId);
      if sourceIndex == -1 || targetIndex == -1 {
        return;
      }
      widgets := MovedCopy(widgets, sourceIndex, targetIndex);
      Persist();
    }

    method UpdateLayout(p: LayoutPatch)
      modifies this
      ensures layout == MergeLayout(old(layout), p) && widgets == old(widgets) && isHydrated == old(isHydrated)
      ensures writes == old(writes) + [Write(Snapshot(widgets, layout))]
    {
      layout := MergeLayout(layout, p);
      Persist();
    }

    /**
     * `hydrate()`: a readable document replaces the widgets (unknown types
     * dropped) and the layout (the default when none is stored); anything
     * else only marks the store hydrated. Nothing is written back.
     */
    method Hydrate(stored: Stored)
      modifies this
      ensures isHydrated && writes == old(writes)
      ensures stored.Document? ==> widgets == Hydrated(stored.widgets) && layout == stored.layout.GetOr(DefaultLayout)
      ensures !stored.Document? ==> widgets == old(widgets) && layout == old(layout)
      ensures stored.Document? || AllKnown(old(widgets)) ==> AllKnown(widgets)
    {
      match stored {
        case Document(ws, l) =>
          widgets := Hydrated(ws);
          layout := l.GetOr(DefaultLayout);
        case _ =>
      }
      isHydrated := true;
    }

    /** `clearAll()`: remove the stored copy and return to the default state, hydrated. */
    method ClearAll()
      modifies this
      ensures writes == old(writes) + [Remove]
      ensures widgets == [] && layout == DefaultLayout && isHydrated
    {
      writes := writes + [Remove];
      widgets := [];
      layout := DefaultLayout;
      isHydrated := true;
    }
  }

  /**
   * A page reload: a fresh store hydrated from the document the old store
   * last wrote comes back with the same widgets and layout.
   */
  method Reload(s: Store) returns (t: Store)
    requires s.Persisted() && AllKnown(s.widgets)
    ensures fresh(t) && t.isHydrated
    ensures t.widgets == s.widgets && t.layout == s.layout
  {
    var snap := s.writes[|s.writes| - 1].snapshot;
    t := new Store();
    t.Hydrate(Document(Some(snap.widgets), Some(snap.layout)));
    HydrateRoundTrip(snap);
  }
}
