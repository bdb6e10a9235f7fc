/**
 * The window manager: one per browser window. It joins the shared registry
 * with `init`, republishes its own record with `update` when its shape or
 * metadata changed, follows the other windows' writes through `storage`
 * events and removes its record on `beforeunload`. The browser events are
 * the methods `OnStorage` and `OnBeforeUnload`; the window's shape, which
 * the source samples from `window.screenLeft` and friends, is a parameter.
 */
module WindowManagement {
  import opened Options
  import opened Metadata
  import opened Registry
  import opened Storage

  /** A handle for a callback function supplied by the page. */
  type Callback = nat

  /** What a window manager does that can be seen from outside it, in order. */
  datatype Event =
    | ShapeChangeCalled(callback: Callback)
    | WinChangeCalled(callback: Callback)
    | CountWritten(count: nat)
    | WindowsWritten(windows: seq<Record>)

  /** Calling an optional shape-change callback: nothing happens when none is set. */
  function ShapeChangeCall(callback: Option<Callback>): seq<Event> {
    if callback.Some? then [ShapeChangeCalled(callback.value)] else []
  }

  /** Calling an optional windows-change callback: nothing happens when none is set. */
  function WinChangeCall(callback: Option<Callback>): seq<Event> {
    if callback.Some? then [WinChangeCalled(callback.value)] else []
  }

  /**
   * The change test of `update`: one of the four shape fields differs from
   * the cached record, or metadata was passed and its JSON text differs from
   * that of the cached metadata (an absent cached value never matches).
   */
  predicate ShouldPublish(cached: Record, shape: Shape, meta: Option<MetaData>) {
    || shape.x != cached.shape.x
    || shape.y != cached.shape.y
    || shape.w != cached.shape.w
    || shape.h != cached.shape.h
    || (meta.Some? && meta != cached.metaData)
  }

  /**
   * Calling `update` again with the shape and metadata it has just published
   * fails the change test; and had the registry been republished anyway it
   * would not change.
   */
  lemma UpdateIsIdempotent(cached: Record, windows: seq<Record>, shape: Shape, meta: Option<MetaData>)
    ensures !ShouldPublish(cached.(shape := shape, metaData := meta), shape, meta)
    ensures Republished(Republished(windows, cached.id, shape, meta), cached.id, shape, meta)
         == Republished(windows, cached.id, shape, meta)
  {
    RepublishIdempotent(windows, cached.id, shape, meta);
  }

  /** `{...cached, ...m}`: spreading an absent cached value copies nothing. */
  function MergedMetaData(cached: Option<MetaData>, m: MetaData): MetaData {
    Overlay(if cached.Some? then cached.value else Empty, m)
  }

  class WindowManager {
    /** The shared store (`localStorage`). */
    const store: Store
    var windows: seq<Record>
    var count: nat
    var id: nat
    var winData: Record
    var shapeChangeCallback: Option<Callback>
    var winChangeCallback: Option<Callback>
    /** `init` has run, so `windows`, `count`, `id` and `winData` are defined. */
    var joined: bool
    /** Everything this manager has done that can be seen from outside, oldest first. */
    var events: seq<Event>

    /** Once joined, the cached own record carries the own id, which is the counter value `init` stored. */
    ghost predicate Valid()
      reads this
    {
      joined ==> winData.id == id && count == id && id >= 1
    }

    /** A manager that has not joined yet, with no callbacks set. */
    constructor (store: Store)
      ensures this.store == store && Valid() && !joined
      ensures windows == [] && events == []
      ensures shapeChangeCallback == None && winChangeCallback == None
    {
      this.store := store;
      windows, count, id := [], 0, 0;
      winData := Record(0, Shape(0, 0, 0, 0), None);
      shapeChangeCallback, winChangeCallback := None, None;
      joined := false;
      events := [];
    }

    /**
     * The membership test run on a `storage` event: true when the lengths
     * differ, otherwise true exactly when some position holds different ids.
     */
    static method DidWindowsChange(pWins: seq<Record>, nWins: seq<Record>) returns (changed: bool)
      ensures changed <==> WindowsChanged(pWins, nWins)
      ensures |pWins| != |nWins| ==> changed
      ensures |pWins| == |nWins| ==> (changed <==> exists i :: 0 <= i < |pWins| && pWins[i].id != nWins[i].id)
    {
      if |pWins| != |nWins| {
        return true;
      }
      var c := false;
      for i := 0 to |pWins|
        invariant c <==> exists j :: 0 <= j < i && pWins[j].id != nWins[j].id
      {
        if pWins[i].id != nWins[i].id {
          c := true;
        }
      }
      if c {
        var j :| 0 <= j < |pWins| && pWins[j].id != nWins[j].id;
        assert Ids(pWins)[j] != Ids(nWins)[j];
      } else {
        assert Ids(pWins) == Ids(nWins);
      }
      return c;
    }

    /** The index of the last cached record carrying `windowId`, or -1. */
    method GetWindowIndexFromId(windowId: nat) returns (index: int)
      requires joined
      ensures index == LastIndexOf(windows, windowId)
    {
      index := -1;
      for i := 0 to |windows|
        invariant index == LastIndexOf(windows[..i], windowId)
      {
        assert windows[..i + 1][..i] == windows[..i];
        if windows[i].id == windowId {
          index := i;
        }
      }
      assert windows[..|windows|] == windows;
    }

    /** Writes the cached registry to the store's `windows` key. */
    method UpdateWindowsLocalStorage()
      requires joined
      modifies store, this`events
      ensures store.State() == old(store.State()).(windows := Some(windows))
      ensures events == old(events) + [WindowsWritten(windows)]
    {
      store.windows := Some(windows);
      events := events + [WindowsWritten(windows)];
    }

    /**
     * Joins the registry: takes the stored counter plus one as the own id,
     * stores it back, and appends the own record to the stored registry.
     */
    method Init(shape: Shape, metaData: Option<MetaData>)
      requires Valid()
      modifies this, store
      ensures Valid() && joined
      ensures id == StoredCount(old(store.State())) + 1
      ensures winData == Record(id, shape, metaData)
      ensures windows == StoredWindows(old(store.State())) + [winData]
      ensures store.State() == Joined(old(store.State()), shape, metaData)
      ensures store.State() == StoreState(Some(windows), Some(id))
      ensures events == old(events) + [CountWritten(id), WindowsWritten(windows)]
      ensures shapeChangeCallback == old(shapeChangeCallback) && winChangeCallback == old(winChangeCallback)
    {
      windows := StoredWindows(store.State());
      count := StoredCount(store.State());
      count := count + 1;
      id := count;
      winData := Record(id, shape, metaData);
      windows := windows + [winData];
      store.count := Some(count);
      events := events + [CountWritten(count)];
      joined := true;
      UpdateWindowsLocalStorage();
    }

    /**
     * The state `update(shape, meta)` leaves behind, given the state before
     * it. When the change test fails nothing changes. Otherwise the cached
     * record takes the new shape and the metadata argument (absent if none
     * was passed), the registry entry with the own id takes the same, the
     * shape-change callback runs, and then the registry is written.
     */
    ghost predicate Published(windows0: seq<Record>, winData0: Record, events0: seq<Event>,
                              store0: StoreState, shape: Shape, meta: Option<MetaData>)
      reads this, store
    {
      if ShouldPublish(winData0, shape, meta) then
        && winData == winData0.(shape := shape, metaData := meta)
        && windows == Republished(windows0, id, shape, meta)
        && events == events0 + ShapeChangeCall(shapeChangeCallback) + [WindowsWritten(windows)]
        && store.State() == store0.(windows := Some(windows))
      else
        && winData == winData0
        && windows == windows0
        && events == events0
        && store.State() == store0
    }

    /** Republishes the own record if the shape or the supplied metadata changed. */
    method Update(shape: Shape, metaData: Option<MetaData>)
      requires Valid() && joined
      modifies this, store
      ensures Valid() && joined && id == old(id)
      ensures shapeChangeCallback == old(shapeChangeCallback) && winChangeCallback == old(winChangeCallback)
      ensures Published(old(windows), old(winData), old(events), old(store.State()), shape, metaData)
    {
      var curMetaData := metaData;
      if ShouldPublish(winData, shape, curMetaData) {
        winData := winData.(shape := shape, metaData := metaData);
        var index := GetWindowIndexFromId(id);
        // `this.#windows[index]` is a record exactly when the index is not -1
        if index >= 0 {
          windows := windows[index := windows[index].(shape := shape, metaData := curMetaData)];
        }
        if shapeChangeCallback.Some? {
          events := events + [ShapeChangeCalled(shapeChangeCallback.value)];
        }
        UpdateWindowsLocalStorage();
      }
    }

    /**
     * Merges `metaData` over the cached metadata and republishes. When every
     * field of `metaData` is already cached with the same value and the
     * shape is unchanged, nothing is written and no callback runs.
     */
    method SetThisWindowMetaData(shape: Shape, metaData: MetaData)
      requires Valid() && joined
      modifies this, store
      ensures Valid() && joined && id == old(id)
      ensures shapeChangeCallback == old(shapeChangeCallback) && winChangeCallback == old(winChangeCallback)
      ensures Published(old(windows), old(winData), old(events), old(store.State()), shape,
                        Some(MergedMetaData(old(winData).metaData, metaData)))
      ensures shape == old(winData).shape && old(winData).metaData.Some? && Absorbed(old(winData).metaData.value, metaData) ==>
        events == old(events) && store.State() == old(store.State()) && windows == old(windows) && winData == old(winData)
    {
      var merged := MergedMetaData(winData.metaData, metaData);
      if winData.metaData.Some? {
        SpreadIsIdentityIff(winData.metaData.value, metaData);
      }
      Update(shape, Some(merged));
    }

    method SetWinShapeChangeCallback(callback: Option<Callback>)
      modifies this`shapeChangeCallback
      ensures shapeChangeCallback == callback
    {
      shapeChangeCallback := callback;
    }

    method SetWinChangeCallback(callback: Option<Callback>)
      modifies this`winChangeCallback
      ensures winChangeCallback == callback
    {
      winChangeCallback := callback;
    }

    /** The cached registry; `None` (undefined) before `init`. */
    method GetWindows() returns (ws: Option<seq<Record>>)
      ensures joined ==> ws == Some(windows)
      ensures !joined ==> ws == None
    {
      ws := if joined then Some(windows) else None;
    }

    /** The cached own record, which carries the own id; `None` (undefined) before `init`. */
    method GetThisWindowData() returns (r: Option<Record>)
      requires Valid()
      ensures joined ==> r == Some(winData) && r.value.id == id
      ensures !joined ==> r == None
    {
      r := if joined then Some(winData) else None;
    }

    /**
     * A `storage` event from another window. Only the `windows` key matters:
     * the cached registry becomes the new one, and the windows-change
     * callback runs when the ids differ position by position.
     */
    method OnStorage(key: string, newWindows: seq<Record>)
      requires Valid() && (key == "windows" ==> joined)
      modifies this`windows, this`events
      ensures Valid()
      ensures key != "windows" ==> windows == old(windows) && events == old(events)
      ensures key == "windows" ==> windows == newWindows
      ensures key == "windows" ==>
        events == old(events) + (if WindowsChanged(old(windows), newWindows) then WinChangeCall(winChangeCallback) else [])
    {
      if key == "windows" {
        var winChange := DidWindowsChange(windows, newWindows);
        windows := newWindows;
        if winChange {
          if winChangeCallback.Some? {
            events := events + [WinChangeCalled(winChangeCallback.value)];
          }
        }
      }
    }

    /**
     * The `beforeunload` event: removes the element at the index of the own
     * id from the cached registry (the last element when the id is missing)
     * and writes the registry.
     */
    method OnBeforeUnload()
      requires Valid() && joined
      modifies this`windows, this`events, store
      ensures Valid()
      ensures windows == Unloaded(old(windows), id)
      ensures store.State() == old(store.State()).(windows := Some(windows))
      ensures events == old(events) + [WindowsWritten(windows)]
    {
      var index := GetWindowIndexFromId(id);
      windows := SpliceOne(windows, index);
      UpdateWindowsLocalStorage();
    }
  }
}
