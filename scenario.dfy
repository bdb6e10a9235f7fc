/**
 * Two pong windows sharing one store, driven by hand in the order the game
 * page makes its calls. Every page load first clears the store and, a moment
 * later, sets up its window manager: both callbacks, then `init` with
 * `{start: false}`. Each `storage` event for the `windows` key is delivered
 * explicitly, carrying what the other window wrote; the events for other
 * keys, which the handler ignores, are not delivered.
 *
 * `TwoWindows` covers two windows whose page loads both clear the store
 * before either joins. `LateSecondWindow` covers a second window opened after
 * the first has joined: its clear wipes the first window's join, so both
 * windows take the id 1.
 */
module Scenario {
  import opened Options
  import opened Metadata
  import opened Registry
  import opened Storage
  import opened WindowManagement

  const StartFalse: MetaData := Object(["start"], map["start" := "false"])
  const StartTrue: MetaData := Object(["start"], map["start" := "true"])

  lemma StartGameMerge()
    ensures MergedMetaData(Some(StartFalse), StartTrue) == StartTrue
  {
    assert Overlay(StartFalse, StartTrue).keys == ["start"];
  }

  lemma RepublishFirst(a: Record, b: Record, shape: Shape, meta: Option<MetaData>)
    requires a.id == 1 && b.id == 2
    ensures Republished([a, b], 1, shape, meta) == [Record(1, shape, meta), b]
  {
    assert Ids([a, b]) == [1, 2];
  }

  lemma UnloadSecond(a: Record, b: Record)
    requires a.id == 1 && b.id == 2
    ensures Unloaded([a, b], 2) == [a]
  {
    assert Ids([a, b]) == [1, 2];
  }

  lemma SameIds(a: Record, a': Record, b: Record)
    requires a.id == a'.id
    ensures !WindowsChanged([a, b], [a', b])
  {
    assert Ids([a, b]) == Ids([a', b]);
  }

  lemma SameSingleId(a: Record, b: Record)
    requires a.id == b.id
    ensures !WindowsChanged([a], [b])
  {
    assert Ids([a]) == Ids([b]);
  }

  /**
   * The page's `setupWindowManager`: a new manager on `store` gets its
   * shape-change callback, then its windows-change callback, and joins with
   * `{start: false}`.
   */
  method SetupWindowManager(store: Store, shapeCallback: Callback, winCallback: Callback, shape: Shape)
    returns (w: WindowManager)
    modifies store
    ensures fresh(w) && w.store == store && w.Valid() && w.joined
    ensures w.id == StoredCount(old(store.State())) + 1
    ensures w.winData == Record(w.id, shape, Some(StartFalse))
    ensures w.windows == StoredWindows(old(store.State())) + [w.winData]
    ensures store.State() == StoreState(Some(w.windows), Some(w.id))
    ensures w.shapeChangeCallback == Some(shapeCallback) && w.winChangeCallback == Some(winCallback)
    ensures w.events == [CountWritten(w.id), WindowsWritten(w.windows)]
  {
    w := new WindowManager(store);
    w.SetWinShapeChangeCallback(Some(shapeCallback));
    w.SetWinChangeCallback(Some(winCallback));
    w.Init(shape, Some(StartFalse));
  }

  /**
   * Both pages load, and each clears the store, before either window manager
   * joins; then the first window joins and the second. The first window's
   * callbacks are the handles 3 (shape) and 1 (windows), the second's 4 and 2.
   */
  method OpenTwo(store: Store, shape1: Shape, shape2: Shape) returns (w1: WindowManager, w2: WindowManager)
    modifies store
    ensures fresh(w1) && fresh(w2) && w1 != w2
    ensures w1.store == store && w2.store == store
    ensures w1.Valid() && w1.joined && w2.Valid() && w2.joined
    ensures w1.id == 1 && w2.id == 2
    ensures w1.winData == Record(1, shape1, Some(StartFalse)) && w2.winData == Record(2, shape2, Some(StartFalse))
    ensures w1.windows == [w1.winData] && w2.windows == [w1.winData, w2.winData]
    ensures store.windows == Some(w2.windows)
    ensures w1.shapeChangeCallback == Some(3) && w1.winChangeCallback == Some(1)
    ensures w2.shapeChangeCallback == Some(4) && w2.winChangeCallback == Some(2)
  {
    store.Clear();
    store.Clear();
    w1 := SetupWindowManager(store, 3, 1, shape1);
    w2 := SetupWindowManager(store, 4, 2, shape2);
  }

  /**
   * After both windows joined: the first window learns of the second, then
   * starts the game; its shape-change callback runs before the write. The
   * second window receives that write: the same ids, so no membership
   * callback, but the new metadata is in its view.
   */
  method StartGame(store: Store, w1: WindowManager, w2: WindowManager, r1: Record, r2: Record)
    requires w1 != w2 && w1.store == store && w2.store == store
    requires w1.Valid() && w1.joined && w2.Valid() && w2.joined
    requires w1.id == 1 && w2.id == 2 && r2.id == 2
    requires w1.winData == r1 && r1.id == 1 && r1.metaData == Some(StartFalse)
    requires w1.windows == [r1] && w2.windows == [r1, r2] && store.windows == Some([r1, r2])
    requires w1.shapeChangeCallback == Some(3) && w1.winChangeCallback == Some(1)
    modifies w1, w2, store
    ensures w1.Valid() && w1.joined && w2.Valid() && w2.joined && w1.id == 1 && w2.id == 2
    ensures w1.winChangeCallback == Some(1)
    ensures w1.windows == [r1.(metaData := Some(StartTrue)), r2] && w2.windows == w1.windows
    ensures store.windows == Some(w1.windows)
    ensures w1.events == old(w1.events) + [WinChangeCalled(1), ShapeChangeCalled(3), WindowsWritten(w1.windows)]
    ensures w2.events == old(w2.events)
  {
    // The second window's join reaches the first: one more member.
    w1.OnStorage("windows", store.windows.value);

    // The first window starts the game; the merge replaces `start`.
    StartGameMerge();
    RepublishFirst(r1, r2, r1.shape, Some(StartTrue));
    var r1' := r1.(metaData := Some(StartTrue));
    w1.SetThisWindowMetaData(r1.shape, StartTrue);
    assert store.windows == Some([r1', r2]);

    // That write reaches the second window.
    SameIds(r1, r1', r2);
    w2.OnStorage("windows", store.windows.value);
  }

  /**
   * Two windows open as in `OpenTwo`, the first starts the game as in
   * `StartGame`, and then the second window closes; the first window sees
   * it gone.
   */
  method TwoWindows(shape1: Shape, shape2: Shape)
    returns (view1: seq<Record>, events1: seq<Event>, view2: seq<Record>, events2: seq<Event>)
    ensures view1 == [Record(1, shape1, Some(StartTrue))]
    ensures view2 == view1
    ensures events1 == [WinChangeCalled(1), ShapeChangeCalled(3),
                        WindowsWritten([Record(1, shape1, Some(StartTrue)), Record(2, shape2, Some(StartFalse))]),
                        WinChangeCalled(1)]
    ensures events2 == [WindowsWritten(view2)]
  {
    var store := new Store();
    var w1, w2 := OpenTwo(store, shape1, shape2);
    var r1, r2 := w1.winData, w2.winData;
    var mark1, mark2 := |w1.events|, |w2.events|;
    StartGame(store, w1, w2, r1, r2);
    var r1' := Record(1, shape1, Some(StartTrue));

    // The second window closes.
    UnloadSecond(r1', r2);
    w2.OnBeforeUnload();
    view2 := w2.windows;

    // Its removal reaches the first window: one member fewer.
    w1.OnStorage("windows", store.windows.value);
    view1 := w1.windows;
    events1 := w1.events[mark1..];
    events2 := w2.events[mark2..];
  }

  /**
   * The second page loads after the first window has joined. Its clear wipes
   * the counter and the registry, so the second window takes the id 1 again
   * and publishes a registry holding only itself. The first window receives
   * that registry, sees the same id sequence and gets no membership callback.
   */
  method LateSecondWindow(shape1: Shape, shape2: Shape)
    returns (id1: nat, id2: nat, view1: seq<Record>, events1: seq<Event>)
    ensures id1 == 1 && id2 == 1
    ensures view1 == [Record(1, shape2, Some(StartFalse))]
    ensures events1 == []
  {
    var store := new Store();
    store.Clear();
    var w1 := SetupWindowManager(store, 3, 1, shape1);
    var mark1 := |w1.events|;
    store.Clear();
    var w2 := SetupWindowManager(store, 4, 2, shape2);
    SameSingleId(w1.winData, w2.winData);
    w1.OnStorage("windows", store.windows.value);
    id1, id2 := w1.id, w2.id;
    view1 := w1.windows;
    events1 := w1.events[mark1..];
  }
}
