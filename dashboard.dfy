/** The widget record of the dashboard and the types it is built from. */
module Widgets {
  import opened Wrappers
  import opened JsonValue

  datatype DisplayMode = Card | Table | Chart
  datatype ConnectionType = Http | WebSocket
  datatype ConnectionStatus = Connecting | Connected | Disconnected | Error

  /** A property that may be missing, `null`, or hold a value. */
  datatype Nullable<T> = Missing | Null | Present(value: T)

  /** A field the user picked: its path, label and optional sample value and type. */
  datatype WidgetField = WidgetField(path: string, fieldLabel: string, value: Option<Json>, typeTag: Option<string>)

  /**
   * A widget. The last three properties (`data`, `isLoading`, `error`)
   * are run-time state that is not persisted.
   */
  datatype Widget = Widget(
    id: string,
    name: string,
    apiUrl: string,
    refreshInterval: real,
    displayMode: DisplayMode,
    selectedFields: seq<WidgetField>,
    connectionType: ConnectionType,
    socketUrl: Option<string>,
    connectionStatus: Option<ConnectionStatus>,
    isPinned: Option<bool>,
    lastUpdated: Option<string>,
    data: Option<Json>,
    isLoading: Option<bool>,
    error: Nullable<string>)

  /** `!!w.isPinned`. */
  predicate IsPinned(w: Widget) {
    w.isPinned == Some(true)
  }
}

/**
 * The dashboard store: the ordered widget list with its actions, and the
 * persisted form of the list. `generateId` is replaced by fresh ids passed
 * in; the storage slot is the `saved` field.
 */
module DashboardStore {
  import opened Wrappers
  import opened JsonValue
  import opened Widgets

  /** The persisted form of a widget: every property except `data`, `isLoading` and `error`. */
  datatype PersistedWidget = PersistedWidget(
    id: string,
    name: string,
    apiUrl: string,
    refreshInterval: real,
    displayMode: DisplayMode,
    selectedFields: seq<WidgetField>,
    connectionType: ConnectionType,
    socketUrl: Option<string>,
    connectionStatus: Option<ConnectionStatus>,
    isPinned: Option<bool>,
    lastUpdated: Option<string>)

  /** The destructuring `({ data, isLoading, error, ...rest }) => rest`. */
  function Persist(w: Widget): PersistedWidget {
    PersistedWidget(w.id, w.name, w.apiUrl, w.refreshInterval, w.displayMode, w.selectedFields,
                    w.connectionType, w.socketUrl, w.connectionStatus, w.isPinned, w.lastUpdated)
  }

  /** A widget read back from storage: the run-time properties are missing. */
  function Restore(p: PersistedWidget): Widget {
    Widget(p.id, p.name, p.apiUrl, p.refreshInterval, p.displayMode, p.selectedFields,
           p.connectionType, p.socketUrl, p.connectionStatus, p.isPinned, p.lastUpdated, None, None, Missing)
  }

  /** `w` with its run-time properties cleared. */
  function WithoutRuntimeState(w: Widget): Widget {
    w.(data := None, isLoading := None, error := Missing)
  }

  /**
   * Two widgets persist alike exactly when they differ at most in `data`,
   * `isLoading` and `error`; in particular `lastUpdated` and
   * `connectionStatus` are kept.
   */
  lemma PersistDropsExactlyRuntimeState(w1: Widget, w2: Widget)
    ensures Persist(w1) == Persist(w2) <==> WithoutRuntimeState(w1) == WithoutRuntimeState(w2)
  {
  }

  /** Reading a persisted widget back and saving it again gives the same record. */
  lemma PersistRestore(p: PersistedWidget)
    ensures Persist(Restore(p)) == p
  {
  }

  /** Saving a widget and reading it back gives the widget without its run-time state. */
  lemma RestorePersist(w: Widget)
    ensures Restore(Persist(w)) == WithoutRuntimeState(w)
  {
  }

  function PersistAll(ws: seq<Widget>): (r: seq<PersistedWidget>)
    ensures |r| == |ws|
    ensures forall i :: 0 <= i < |ws| ==> r[i] == Persist(ws[i])
  {
    if ws == [] then [] else [Persist(ws[0])] + PersistAll(ws[1..])
  }

  function RestoreAll(ps: seq<PersistedWidget>): (r: seq<Widget>)
    ensures |r| == |ps|
    ensures forall i :: 0 <= i < |ps| ==> r[i] == Restore(ps[i])
  {
    if ps == [] then [] else [Restore(ps[0])] + RestoreAll(ps[1..])
  }

  /** A list survives a save and a reload up to its run-time state. */
  lemma {:induction false} ReloadKeepsConfiguration(ws: seq<Widget>)
    ensures PersistAll(RestoreAll(PersistAll(ws))) == PersistAll(ws)
    ensures |RestoreAll(PersistAll(ws))| == |ws|
    ensures forall i :: 0 <= i < |ws| ==> RestoreAll(PersistAll(ws))[i] == WithoutRuntimeState(ws[i])
  {
    var back := RestoreAll(PersistAll(ws));
    forall i | 0 <= i < |ws|
      ensures back[i] == WithoutRuntimeState(ws[i])
    {
      RestorePersist(ws[i]);
    }
    assert PersistAll(back) == PersistAll(ws) by {
      forall i | 0 <= i < |ws|
        ensures PersistAll(back)[i] == PersistAll(ws)[i]
      {
        PersistRestore(Persist(ws[i]));
      }
    }
  }

  // ---------------------------------------------------------------------------
  // Searching the list

  /** `ws.findIndex(p)`: the first index satisfying `p`, or -1. */
  function IndexWhere(ws: seq<Widget>, p: Widget -> bool): (r: int)
    ensures -1 <= r < |ws|
    ensures r == -1 <==> forall k :: 0 <= k < |ws| ==> !p(ws[k])
    ensures r >= 0 ==> p(ws[r]) && forall k :: 0 <= k < r ==> !p(ws[k])
  {
    if ws == [] then -1
    else if p(ws[0]) then 0
    else
      var r := IndexWhere(ws[1..], p);
      assert forall k :: 1 <= k < |ws| ==> ws[k] == ws[1..][k - 1];
      if r == -1 then -1 else r + 1
  }

  /** `findIndex`, as the loop it runs. */
  method FindIndex(ws: seq<Widget>, p: Widget -> bool) returns (i: int)
    ensures i == IndexWhere(ws, p)
  {
    var k := 0;
    while k < |ws|
      invariant 0 <= k <= |ws|
      invariant forall j :: 0 <= j < k ==> !p(ws[j])
    {
      if p(ws[k]) {
        return k;
      }
      k := k + 1;
    }
    return -1;
  }

  /** The test `w => w.id === id`. */
  function HasId(id: string): Widget -> bool {
    (w: Widget) => w.id == id
  }

  /** The test `w => !w.isPinned`. */
  predicate IsUnpinned(w: Widget) {
    !IsPinned(w)
  }

  function Ids(ws: seq<Widget>): (r: seq<string>)
    ensures |r| == |ws|
    ensures forall i :: 0 <= i < |ws| ==> r[i] == ws[i].id
  {
    seq(|ws|, i requires 0 <= i < |ws| => ws[i].id)
  }

  predicate UniqueIds(ws: seq<Widget>) {
    forall i, j :: 0 <= i < j < |ws| ==> ws[i].id != ws[j].id
  }

  // ---------------------------------------------------------------------------
  // Whole-list transformations

  /** `ws.filter(w => w.id !== id)`. */
  function WithoutId(ws: seq<Widget>, id: string): (r: seq<Widget>)
    ensures forall w :: w in r <==> w in ws && w.id != id
    ensures |r| <= |ws|
  {
    if ws == [] then []
    else if ws[0].id == id then WithoutId(ws[1..], id)
    else [ws[0]] + WithoutId(ws[1..], id)
  }

  /** Removal works piecewise, so the widgets that stay keep their relative order. */
  lemma {:induction false} WithoutIdAppend(a: seq<Widget>, b: seq<Widget>, id: string)
    ensures WithoutId(a + b, id) == WithoutId(a, id) + WithoutId(b, id)
  {
    if a != [] {
      assert (a + b)[1..] == a[1..] + b;
      WithoutIdAppend(a[1..], b, id);
    } else {
      assert a + b == b;
    }
  }

  /** Removing an id that is not present changes nothing. */
  lemma {:induction false} WithoutAbsentId(ws: seq<Widget>, id: string)
    requires forall i :: 0 <= i < |ws| ==> ws[i].id != id
    ensures WithoutId(ws, id) == ws
  {
    if ws != [] {
      WithoutAbsentId(ws[1..], id);
    }
  }

  /** `ws.map(w => w.id === id ? f(w) : w)`: only the widgets with the id change. */
  function MapWhereId(ws: seq<Widget>, id: string, f: Widget -> Widget): (r: seq<Widget>)
    ensures |r| == |ws|
    ensures forall i :: 0 <= i < |ws| ==> r[i] == if ws[i].id == id then f(ws[i]) else ws[i]
  {
    if ws == [] then [] else [if ws[0].id == id then f(ws[0]) else ws[0]] + MapWhereId(ws[1..], id, f)
  }

  /** The properties present in an `updateWidget` patch (`Partial<Widget>`). */
  datatype WidgetPatch = WidgetPatch(
    id: Option<string>,
    name: Option<string>,
    apiUrl: Option<string>,
    refreshInterval: Option<real>,
    displayMode: Option<DisplayMode>,
    selectedFields: Option<seq<WidgetField>>,
    connectionType: Option<ConnectionType>,
    socketUrl: Option<Option<string>>,
    connectionStatus: Option<Option<ConnectionStatus>>,
    isPinned: Option<Option<bool>>,
    lastUpdated: Option<Option<string>>,
    data: Option<Option<Json>>,
    isLoading: Option<Option<bool>>,
    error: Option<Nullable<string>>)

  function Pick<T>(patched: Option<T>, current: T): T {
    if patched.Some? then patched.value else current
  }

  /** `{ ...w, ...updates }`: every property the patch holds replaces the widget's. */
  function Patched(w: Widget, u: WidgetPatch): (r: Widget)
    ensures (u.id.Some? ==> r.id == u.id.value) && (u.id.None? ==> r.id == w.id)
    ensures (u.name.Some? ==> r.name == u.name.value) && (u.name.None? ==> r.name == w.name)
    ensures (u.apiUrl.Some? ==> r.apiUrl == u.apiUrl.value) && (u.apiUrl.None? ==> r.apiUrl == w.apiUrl)
    ensures (u.refreshInterval.Some? ==> r.refreshInterval == u.refreshInterval.value) && (u.refreshInterval.None? ==> r.refreshInterval == w.refreshInterval)
    ensures (u.displayMode.Some? ==> r.displayMode == u.displayMode.value) && (u.displayMode.None? ==> r.displayMode == w.displayMode)
    ensures (u.selectedFields.Some? ==> r.selectedFields == u.selectedFields.value) && (u.selectedFields.None? ==> r.selectedFields == w.selectedFields)
    ensures (u.connectionType.Some? ==> r.connectionType == u.connectionType.value) && (u.connectionType.None? ==> r.connectionType == w.connectionType)
    ensures (u.socketUrl.Some? ==> r.socketUrl == u.socketUrl.value) && (u.socketUrl.None? ==> r.socketUrl == w.socketUrl)
    ensures (u.connectionStatus.Some? ==> r.connectionStatus == u.connectionStatus.value) && (u.connectionStatus.None? ==> r.connectionStatus == w.connectionStatus)
    ensures (u.isPinned.Some? ==> r.isPinned == u.isPinned.value) && (u.isPinned.None? ==> r.isPinned == w.isPinned)
    ensures (u.lastUpdated.Some? ==> r.lastUpdated == u.lastUpdated.value) && (u.lastUpdated.None? ==> r.lastUpdated == w.lastUpdated)
    ensures (u.data.Some? ==> r.data == u.data.value) && (u.data.None? ==> r.data == w.data)
    ensures (u.isLoading.Some? ==> r.isLoading == u.isLoading.value) && (u.isLoading.None? ==> r.isLoading == w.isLoading)
    ensures (u.error.Some? ==> r.error == u.error.value) && (u.error.None? ==> r.error == w.error)
  {
    Widget(Pick(u.id, w.id), Pick(u.name, w.name), Pick(u.apiUrl, w.apiUrl),
           Pick(u.refreshInterval, w.refreshInterval), Pick(u.displayMode, w.displayMode),
           Pick(u.selectedFields, w.selectedFields), Pick(u.connectionType, w.connectionType),
           Pick(u.socketUrl, w.socketUrl), Pick(u.connectionStatus, w.connectionStatus),
           Pick(u.isPinned, w.isPinned), Pick(u.lastUpdated, w.lastUpdated), Pick(u.data, w.data),
           Pick(u.isLoading, w.isLoading), Pick(u.error, w.error))
  }

  /** The empty patch changes nothing, and a patch applied twice is applied once. */
  lemma PatchLaws(w: Widget, u: WidgetPatch)
    ensures Patched(w, WidgetPatch(None, None, None, None, None, None, None, None, None, None, None, None, None, None)) == w
    ensures Patched(Patched(w, u), u) == Patched(w, u)
  {
  }

  function WithData(w: Widget, data: Json, lastUpdated: string): Widget {
    w.(data := Some(data), lastUpdated := Some(lastUpdated), isLoading := Some(false), error := Null)
  }

  function WithLoading(w: Widget, isLoading: bool): Widget {
    w.(isLoading := Some(isLoading))
  }

  function WithError(w: Widget, error: Nullable<string>): Widget {
    w.(error := error, isLoading := Some(false))
  }

  /** The widgets with the given id marked as updated with data; the others unchanged. */
  lemma UpdateWidgetDataEffect(ws: seq<Widget>, id: string, data: Json, lastUpdated: string, i: nat)
    requires i < |ws|
    ensures var r := MapWhereId(ws, id, w => WithData(w, data, lastUpdated));
      && |r| == |ws|
      && (ws[i].id == id ==> r[i].data == Some(data) && r[i].isLoading == Some(false) && r[i].error == Null
                             && Persist(r[i]) == Persist(ws[i].(lastUpdated := Some(lastUpdated))))
      && (ws[i].id != id ==> r[i] == ws[i])
  {
  }

  /** Recording an error stops loading and keeps the data; widgets with other ids are unchanged. */
  lemma SetWidgetErrorEffect(ws: seq<Widget>, id: string, error: Nullable<string>, i: nat)
    requires i < |ws|
    ensures var r := MapWhereId(ws, id, w => WithError(w, error));
      && |r| == |ws|
      && (ws[i].id == id ==> r[i].error == error && r[i].isLoading == Some(false) && r[i].data == ws[i].data)
      && (ws[i].id != id ==> r[i] == ws[i])
  {
  }

  /** `s.splice(i, 1)`: the sequence without its element at `i`. */
  function RemoveAt<T>(s: seq<T>, i: nat): (r: seq<T>)
    requires i < |s|
    ensures |r| == |s| - 1
    ensures forall k :: 0 <= k < |r| ==> r[k] == if k < i then s[k] else s[k + 1]
  {
    s[..i] + s[i + 1..]
  }

  /** `s.splice(at, 0, x)`: the sequence with `x` inserted before index `at`. */
  function InsertAt<T>(s: seq<T>, at: nat, x: T): (r: seq<T>)
    requires at <= |s|
    ensures |r| == |s| + 1 && r[at] == x
    ensures forall k :: 0 <= k < |r| && k != at ==> r[k] == if k < at then s[k] else s[k - 1]
  {
    s[..at] + [x] + s[at..]
  }

  lemma RemoveAtMultiset<T>(s: seq<T>, i: nat)
    requires i < |s|
    ensures multiset(s) == multiset(RemoveAt(s, i)) + multiset{s[i]}
  {
    assert s == s[..i] + [s[i]] + s[i + 1..];
  }

  lemma InsertAtMultiset<T>(s: seq<T>, at: nat, x: T)
    requires at <= |s|
    ensures multiset(InsertAt(s, at, x)) == multiset(s) + multiset{x}
  {
    assert s == s[..at] + s[at..];
  }

  /** Taking out the inserted element gives the sequence back. */
  lemma RemoveInserted<T>(s: seq<T>, at: nat, x: T)
    requires at <= |s|
    ensures RemoveAt(InsertAt(s, at, x), at) == s
  {
  }

  lemma IdsRemoveAt(s: seq<Widget>, i: nat)
    requires i < |s|
    ensures Ids(RemoveAt(s, i)) == RemoveAt(Ids(s), i)
  {
    var l, r := Ids(RemoveAt(s, i)), RemoveAt(Ids(s), i);
    forall k | 0 <= k < |l|
      ensures l[k] == r[k]
    {
    }
  }

  lemma IdsInsertAt(s: seq<Widget>, at: nat, x: Widget)
    requires at <= |s|
    ensures Ids(InsertAt(s, at, x)) == InsertAt(Ids(s), at, x.id)
  {
    var l, r := Ids(InsertAt(s, at, x)), InsertAt(Ids(s), at, x.id);
    forall k | 0 <= k < |l|
      ensures l[k] == r[k]
    {
    }
  }

  /** `findIndex(w => !w.isPinned)`, or the end of the list when every widget is pinned. */
  function UnpinSlot(ws: seq<Widget>): (at: nat)
    ensures at <= |ws|
    ensures forall k :: 0 <= k < at ==> IsPinned(ws[k])
    ensures at < |ws| ==> !IsPinned(ws[at])
  {
    var k := IndexWhere(ws, IsUnpinned);
    if k == -1 then |ws| else k
  }

  /** The list after `togglePin(id)`. */
  function TogglePinned(ws: seq<Widget>, id: string): (r: seq<Widget>)
    ensures IndexWhere(ws, HasId(id)) == -1 ==> r == ws
    ensures |r| == |ws|
  {
    var i := IndexWhere(ws, HasId(id));
    if i == -1 then ws
    else
      var w := ws[i];
      var rest := RemoveAt(ws, i);
      if !IsPinned(w) then InsertAt(rest, 0, w.(isPinned := Some(true)))
      else InsertAt(rest, UnpinSlot(rest), w.(isPinned := Some(false)))
  }

  /** The pinned widgets form a prefix of the list. */
  predicate PinnedFirst(ws: seq<Widget>) {
    forall i, j :: 0 <= i < j < |ws| && IsPinned(ws[j]) ==> IsPinned(ws[i])
  }

  /** Pinning moves the widget, now pinned, to the front; the others keep their order behind it. */
  lemma TogglePinnedPins(ws: seq<Widget>, id: string)
    requires IndexWhere(ws, HasId(id)) != -1 && !IsPinned(ws[IndexWhere(ws, HasId(id))])
    ensures var i := IndexWhere(ws, HasId(id));
      var r := TogglePinned(ws, id);
      r[0] == ws[i].(isPinned := Some(true)) && r[1..] == RemoveAt(ws, i)
  {
  }

  /**
   * Unpinning reinserts the widget, now unpinned, just after the pinned
   * widgets at the front of the others (at their end if all are pinned).
   */
  lemma TogglePinnedUnpins(ws: seq<Widget>, id: string)
    requires IndexWhere(ws, HasId(id)) != -1 && IsPinned(ws[IndexWhere(ws, HasId(id))])
    ensures var i := IndexWhere(ws, HasId(id));
      var r := TogglePinned(ws, id);
      var at := UnpinSlot(RemoveAt(ws, i));
      && r[at] == ws[i].(isPinned := Some(false))
      && RemoveAt(r, at) == RemoveAt(ws, i)
      && (forall k :: 0 <= k < at ==> IsPinned(r[k]))
      && (at + 1 < |r| ==> !IsPinned(r[at + 1]))
  {
    var i := IndexWhere(ws, HasId(id));
    var rest := RemoveAt(ws, i);
    RemoveInserted(rest, UnpinSlot(rest), ws[i].(isPinned := Some(false)));
  }

  /** The toggled widget, with its pin flag flipped, at the slot the toggle puts it. */
  lemma TogglePinnedSplice(ws: seq<Widget>, id: string)
    requires IndexWhere(ws, HasId(id)) != -1
    ensures var i := IndexWhere(ws, HasId(id));
      var w := ws[i];
      var rest := RemoveAt(ws, i);
      TogglePinned(ws, id) == InsertAt(rest, if !IsPinned(w) then 0 else UnpinSlot(rest), w.(isPinned := Some(!IsPinned(w))))
  {
  }

  /** Toggling keeps every widget: only the toggled widget's flag changes. */
  lemma TogglePinnedPermutes(ws: seq<Widget>, id: string)
    requires IndexWhere(ws, HasId(id)) != -1
    ensures var w := ws[IndexWhere(ws, HasId(id))];
      multiset(TogglePinned(ws, id)) == multiset(ws) - multiset{w} + multiset{w.(isPinned := Some(!IsPinned(w)))}
  {
    var i := IndexWhere(ws, HasId(id));
    var w := ws[i];
    var rest := RemoveAt(ws, i);
    TogglePinnedSplice(ws, id);
    RemoveAtMultiset(ws, i);
    InsertAtMultiset(rest, if !IsPinned(w) then 0 else UnpinSlot(rest), w.(isPinned := Some(!IsPinned(w))));
  }

  /** Toggling keeps every id, each as often as before. */
  lemma TogglePinnedKeepsIds(ws: seq<Widget>, id: string)
    ensures multiset(Ids(TogglePinned(ws, id))) == multiset(Ids(ws))
  {
    var i := IndexWhere(ws, HasId(id));
    if i != -1 {
      var w := ws[i];
      var rest := RemoveAt(ws, i);
      var w' := w.(isPinned := Some(!IsPinned(w)));
      var at := if !IsPinned(w) then 0 else UnpinSlot(rest);
      TogglePinnedSplice(ws, id);
      IdsRemoveAt(ws, i);
      IdsInsertAt(rest, at, w');
      RemoveAtMultiset(Ids(ws), i);
      InsertAtMultiset(Ids(rest), at, w'.id);
    }
  }

  /** In a list whose pinned widgets come first, every widget from the first unpinned one on is unpinned. */
  lemma UnpinnedFromSlot(ws: seq<Widget>)
    requires PinnedFirst(ws)
    ensures forall j :: UnpinSlot(ws) <= j < |ws| ==> !IsPinned(ws[j])
  {
  }

  /** If the pinned widgets formed a prefix before a toggle, they still do after it. */
  lemma TogglePinnedKeepsPinnedFirst(ws: seq<Widget>, id: string)
    requires PinnedFirst(ws)
    ensures PinnedFirst(TogglePinned(ws, id))
  {
    var i := IndexWhere(ws, HasId(id));
    if i != -1 {
      var w := ws[i];
      var rest := RemoveAt(ws, i);
      RemovePreservesPinnedFirst(ws, i);
      if IsPinned(w) {
        UnpinKeepsPinnedFirst(rest, w.(isPinned := Some(false)));
      } else {
        PinKeepsPinnedFirst(rest, w.(isPinned := Some(true)));
      }
    }
  }

  /** A pinned widget put at the front keeps the pinned widgets first. */
  lemma PinKeepsPinnedFirst(rest: seq<Widget>, w: Widget)
    requires PinnedFirst(rest) && IsPinned(w)
    ensures PinnedFirst(InsertAt(rest, 0, w))
  {
    var r := InsertAt(rest, 0, w);
    forall a, b | 0 <= a < b < |r| && IsPinned(r[b])
      ensures IsPinned(r[a])
    {
      if a > 0 {
        assert r[a] == rest[a - 1] && r[b] == rest[b - 1];
      }
    }
  }

  /** An unpinned widget put at the first unpinned slot keeps the pinned widgets first. */
  lemma UnpinKeepsPinnedFirst(rest: seq<Widget>, w: Widget)
    requires PinnedFirst(rest) && !IsPinned(w)
    ensures PinnedFirst(InsertAt(rest, UnpinSlot(rest), w))
  {
    var at := UnpinSlot(rest);
    var r := InsertAt(rest, at, w);
    UnpinnedFromSlot(rest);
    forall k | at <= k < |r|
      ensures !IsPinned(r[k])
    {
      if k > at {
        assert r[k] == rest[k - 1];
      }
    }
    forall a, b | 0 <= a < b < |r| && IsPinned(r[b])
      ensures IsPinned(r[a])
    {
      assert b < at;
      assert r[a] == rest[a];
    }
  }

  lemma RemovePreservesPinnedFirst(ws: seq<Widget>, i: nat)
    requires i < |ws| && PinnedFirst(ws)
    ensures PinnedFirst(RemoveAt(ws, i))
  {
    var rest := RemoveAt(ws, i);
    forall a, b | 0 <= a < b < |rest| && IsPinned(rest[b])
      ensures IsPinned(rest[a])
    {
      var a' := if a < i then a else a + 1;
      var b' := if b < i then b else b + 1;
      assert rest[a] == ws[a'] && rest[b] == ws[b'];
    }
  }

  /**
   * `reorderWidgets`: the list unchanged when either id is missing;
   * otherwise the widget at the first index is taken out and put back at the
   * second.
   */
  function Reordered(ws: seq<Widget>, activeId: string, overId: string): (r: seq<Widget>)
    ensures IndexWhere(ws, HasId(activeId)) == -1 || IndexWhere(ws, HasId(overId)) == -1 ==> r == ws
    ensures |r| == |ws|
  {
    var oldIndex := IndexWhere(ws, HasId(activeId));
    var newIndex := IndexWhere(ws, HasId(overId));
    if oldIndex == -1 || newIndex == -1 then ws
    else InsertAt(RemoveAt(ws, oldIndex), newIndex, ws[oldIndex])
  }

  /** The moved widget lands at the target index, the others keep their order, and no widget is lost or made. */
  lemma ReorderedMoves(ws: seq<Widget>, activeId: string, overId: string)
    requires IndexWhere(ws, HasId(activeId)) != -1 && IndexWhere(ws, HasId(overId)) != -1
    ensures var oldIndex := IndexWhere(ws, HasId(activeId));
      var newIndex := IndexWhere(ws, HasId(overId));
      var r := Reordered(ws, activeId, overId);
      && r[newIndex] == ws[oldIndex]
      && RemoveAt(r, newIndex) == RemoveAt(ws, oldIndex)
      && multiset(r) == multiset(ws)
  {
    var oldIndex := IndexWhere(ws, HasId(activeId));
    var newIndex := IndexWhere(ws, HasId(overId));
    var rest := RemoveAt(ws, oldIndex);
    RemoveInserted(rest, newIndex, ws[oldIndex]);
    RemoveAtMultiset(ws, oldIndex);
    InsertAtMultiset(rest, newIndex, ws[oldIndex]);
  }

  datatype TemplateMode = Replace | Merge

  /** The template's widgets, each with its fresh id. */
  function WithIds(configs: seq<Widget>, ids: seq<string>): (r: seq<Widget>)
    requires |ids| == |configs|
    ensures |r| == |configs|
    ensures forall i :: 0 <= i < |configs| ==> r[i] == configs[i].(id := ids[i])
  {
    if configs == [] then [] else [configs[0].(id := ids[0])] + WithIds(configs[1..], ids[1..])
  }

  /** `loadTemplate`: the fresh widgets alone, or appended after the current ones. */
  function LoadedTemplate(ws: seq<Widget>, configs: seq<Widget>, ids: seq<string>, mode: TemplateMode): (r: seq<Widget>)
    requires |ids| == |configs|
    ensures |r| == (if mode == Replace then 0 else |ws|) + |configs|
    ensures mode == Replace ==> Ids(r) == ids
    ensures mode == Merge ==> r[..|ws|] == ws && Ids(r[|ws|..]) == ids
    ensures var off := if mode == Replace then 0 else |ws|;
      forall i :: 0 <= i < |configs| ==> r[off + i] == configs[i].(id := ids[i])
  {
    var added := WithIds(configs, ids);
    assert Ids(added) == ids;
    if mode == Replace then added
    else
      assert (ws + added)[|ws|..] == added;
      ws + added
  }

  /** Appending a widget whose id is not yet used keeps the ids unique. */
  lemma AddKeepsIdsUnique(ws: seq<Widget>, config: Widget, freshId: string)
    requires UniqueIds(ws) && freshId !in Ids(ws)
    ensures UniqueIds(ws + [config.(id := freshId)])
  {
    var r := ws + [config.(id := freshId)];
    forall i, j | 0 <= i < j < |r|
      ensures r[i].id != r[j].id
    {
      if j == |ws| {
        assert Ids(ws)[i] == ws[i].id;
      }
    }
  }

  /** Unique ids stay unique when the list is permuted. */
  lemma {:induction false} SameIdsKeepUnique(a: seq<Widget>, b: seq<Widget>)
    requires UniqueIds(a) && multiset(Ids(b)) == multiset(Ids(a))
    ensures UniqueIds(b)
  {
    forall i, j | 0 <= i < j < |b|
      ensures b[i].id != b[j].id
    {
      if b[i].id == b[j].id {
        var id := b[i].id;
        assert Ids(b) == Ids(b)[..j] + Ids(b)[j..];
        assert id in multiset(Ids(b)[..j]) by { assert Ids(b)[..j][i] == id; }
        assert id in multiset(Ids(b)[j..]) by { assert Ids(b)[j..][0] == id; }
        assert multiset(Ids(b))[id] >= 2;
        UniqueCountsOne(a, id);
        assert false;
      }
    }
  }

  lemma {:induction false} UniqueCountsOne(a: seq<Widget>, id: string)
    requires UniqueIds(a)
    ensures multiset(Ids(a))[id] <= 1
  {
    if a != [] {
      assert UniqueIds(a[1..]);
      UniqueCountsOne(a[1..], id);
      assert Ids(a) == [a[0].id] + Ids(a[1..]);
      if a[0].id == id {
        assert id !in Ids(a[1..]);
        assert multiset(Ids(a[1..]))[id] == 0;
      }
    }
  }

  // ---------------------------------------------------------------------------
  // The store

  /** The dashboard state: the widget list, the hydration flag, and the storage slot. */
  class Store {
    var widgets: seq<Widget>
    var isHydrated: bool
    var saved: Option<seq<PersistedWidget>>

    constructor (slot: Option<seq<PersistedWidget>>)
      ensures widgets == [] && !isHydrated && saved == slot
    {
      widgets := [];
      isHydrated := false;
      saved := slot;
    }

    /** `saveToStorage`: persists the list without the run-time properties. */
    method SaveToStorage()
      modifies this
      ensures saved == Some(PersistAll(widgets))
      ensures widgets == old(widgets) && isHydrated == old(isHydrated)
    {
      saved := Some(PersistAll(widgets));
    }

    /** `hydrate`: the stored list, read back without run-time state, if the slot holds one. */
    method Hydrate()
      modifies this
      ensures widgets == if old(saved).Some? then RestoreAll(old(saved).value) else old(widgets)
      ensures isHydrated && saved == old(saved)
    {
      if saved.Some? {
        widgets := RestoreAll(saved.value);
      }
      isHydrated := true;
    }

    /** `addWidget`: appends the widget under a fresh id, then persists. */
    method AddWidget(config: Widget, freshId: string)
      modifies this
      ensures widgets == old(widgets) + [config.(id := freshId)]
      ensures saved == Some(PersistAll(widgets)) && isHydrated == old(isHydrated)
    {
      var newWidget := config.(id := freshId);
      widgets := widgets + [newWidget];
      SaveToStorage();
    }

    method RemoveWidget(id: string)
      modifies this
      ensures widgets == WithoutId(old(widgets), id)
      ensures saved == Some(PersistAll(widgets)) && isHydrated == old(isHydrated)
    {
      widgets := WithoutId(widgets, id);
      SaveToStorage();
    }

    method UpdateWidget(id: string, updates: WidgetPatch)
      modifies this
      ensures widgets == MapWhereId(old(widgets), id, w => Patched(w, updates))
      ensures saved == Some(PersistAll(widgets)) && isHydrated == old(isHydrated)
    {
      widgets := MapWhereId(widgets, id, w => Patched(w, updates));
      SaveToStorage();
    }

    /** `togglePin`, with the splices of the source; the list is persisted even when the id is unknown. */
    method TogglePin(id: string)
      modifies this
      ensures widgets == TogglePinned(old(widgets), id)
      ensures saved == Some(PersistAll(widgets)) && isHydrated == old(isHydrated)
    {
      var widgetIndex := FindIndex(widgets, HasId(id));
      if widgetIndex != -1 {
        var widget := widgets[widgetIndex];
        var newWidgets := widgets;
        var isPinning := !IsPinned(widget);
        newWidgets := RemoveAt(newWidgets, widgetIndex);
        if isPinning {
          newWidgets := InsertAt(newWidgets, 0, widget.(isPinned := Some(true)));
        } else {
          var lastPinnedIndex := FindIndex(newWidgets, IsUnpinned);
          var insertIndex := if lastPinnedIndex == -1 then |newWidgets| else lastPinnedIndex;
          newWidgets := InsertAt(newWidgets, insertIndex, widget.(isPinned := Some(false)));
        }
        widgets := newWidgets;
      }
      SaveToStorage();
    }

    /** `updateWidgetData`: not persisted. */
    method UpdateWidgetData(id: string, data: Json, lastUpdated: string)
      modifies this
      ensures widgets == MapWhereId(old(widgets), id, w => WithData(w, data, lastUpdated))
      ensures saved == old(saved) && isHydrated == old(isHydrated)
    {
      widgets := MapWhereId(widgets, id, w => WithData(w, data, lastUpdated));
    }

    /** `setWidgetLoading`: not persisted. */
    method SetWidgetLoading(id: string, isLoading: bool)
      modifies this
      ensures widgets == MapWhereId(old(widgets), id, w => WithLoading(w, isLoading))
      ensures saved == old(saved) && isHydrated == old(isHydrated)
    {
      widgets := MapWhereId(widgets, id, w => WithLoading(w, isLoading));
    }

    /** `setWidgetError`: not persisted. */
    method SetWidgetError(id: string, error: Nullable<string>)
      modifies this
      ensures widgets == MapWhereId(old(widgets), id, w => WithError(w, error))
      ensures saved == old(saved) && isHydrated == old(isHydrated)
    {
      widgets := MapWhereId(widgets, id, w => WithError(w, error));
    }

    /** `loadTemplate`, with one fresh id per template widget. */
    method LoadTemplate(configs: seq<Widget>, freshIds: seq<string>, mode: TemplateMode)
      requires |freshIds| == |configs|
      modifies this
      ensures widgets == LoadedTemplate(old(widgets), configs, freshIds, mode)
      ensures saved == Some(PersistAll(widgets)) && isHydrated == old(isHydrated)
    {
      var newWidgets := WithIds(configs, freshIds);
      if mode == Replace {
        widgets := newWidgets;
      } else {
        widgets := widgets + newWidgets;
      }
      SaveToStorage();
    }

    /** `reorderWidgets`, with the two splices of the source. */
    method ReorderWidgets(activeId: string, overId: string)
      modifies this
      ensures widgets == Reordered(old(widgets), activeId, overId)
      ensures saved == Some(PersistAll(widgets)) && isHydrated == old(isHydrated)
    {
      var oldIndex := FindIndex(widgets, HasId(activeId));
      var newIndex := FindIndex(widgets, HasId(overId));
      if oldIndex != -1 && newIndex != -1 {
        var newWidgets := widgets;
        var movedWidget := newWidgets[oldIndex];
        newWidgets := RemoveAt(newWidgets, oldIndex);
        newWidgets := InsertAt(newWidgets, newIndex, movedWidget);
        widgets := newWidgets;
      }
      SaveToStorage();
    }

    method ClearDashboard()
      modifies this
      ensures widgets == [] && saved == Some([]) && isHydrated == old(isHydrated)
    {
      widgets := [];
      SaveToStorage();
    }
  }
}
