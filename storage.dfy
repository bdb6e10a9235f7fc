/**
 * The shared store (the browser's localStorage as the window manager uses
 * it): a `windows` key holding the registry and a `count` key holding the
 * last id handed out. Either key may be absent.
 */
module Storage {
  import opened Options
  import opened Metadata
  import opened Registry

  datatype StoreState = StoreState(windows: Option<seq<Record>>, count: Option<nat>)

  /** The store after `localStorage.clear()`: both keys absent. */
  const Cleared := StoreState(None, None)

  /** The stored registry; an absent key reads as the empty list. */
  function StoredWindows(s: StoreState): seq<Record> {
    if s.windows.Some? then s.windows.value else []
  }

  /** The stored counter; an absent key reads as 0. */
  function StoredCount(s: StoreState): nat {
    if s.count.Some? then s.count.value else 0
  }

  /** The store after one window joined with `init`: the counter advanced and the new record appended. */
  function Joined(s: StoreState, shape: Shape, meta: Option<MetaData>): StoreState {
    var id := StoredCount(s) + 1;
    StoreState(Some(StoredWindows(s) + [Record(id, shape, meta)]), Some(id))
  }

  /** A window about to join: the shape it will sample and the metadata it passes to `init`. */
  datatype Joiner = Joiner(shape: Shape, metaData: Option<MetaData>)

  /** The store after the windows `peers` joined one after the other, none of them interleaved. */
  function JoinAll(s: StoreState, peers: seq<Joiner>): StoreState
    decreases |peers|
  {
    if peers == [] then s else JoinAll(Joined(s, peers[0].shape, peers[0].metaData), peers[1..])
  }

  /** The ids `lo`, `lo + 1`, ..., `lo + n - 1`. */
  function IdRange(lo: nat, n: nat): seq<nat> {
    seq(n, i requires 0 <= i < n => lo + i)
  }

  /** Every stored id is unique and was handed out by the counter. */
  predicate Consistent(s: StoreState) {
    var ws := StoredWindows(s);
    UniqueIds(ws) && forall i :: 0 <= i < |ws| ==> 1 <= ws[i].id <= StoredCount(s)
  }

  /**
   * A join hands out the id one above the stored counter, stores that id as
   * the new counter and appends exactly one record; on a consistent store
   * the new id is one no stored record has, and the store stays consistent.
   */
  lemma JoinAppendsFreshRecord(s: StoreState, shape: Shape, meta: Option<MetaData>)
    ensures var id := StoredCount(s) + 1;
      && StoredCount(Joined(s, shape, meta)) == id
      && StoredWindows(Joined(s, shape, meta)) == StoredWindows(s) + [Record(id, shape, meta)]
    ensures Consistent(s) ==> StoredCount(s) + 1 !in Ids(StoredWindows(s))
    ensures Consistent(s) ==> Consistent(Joined(s, shape, meta))
  {
  }

  /**
   * Windows joining one after the other get the consecutive ids above the
   * stored counter, in joining order, and keep a consistent store consistent.
   */
  lemma {:induction false} SequentialJoins(s: StoreState, peers: seq<Joiner>)
    ensures StoredCount(JoinAll(s, peers)) == StoredCount(s) + |peers|
    ensures Ids(StoredWindows(JoinAll(s, peers))) == Ids(StoredWindows(s)) + IdRange(StoredCount(s) + 1, |peers|)
    ensures Consistent(s) ==> Consistent(JoinAll(s, peers))
    decreases |peers|
  {
    if peers != [] {
      var p := peers[0];
      var s' := Joined(s, p.shape, p.metaData);
      JoinAppendsFreshRecord(s, p.shape, p.metaData);
      SequentialJoins(s', peers[1..]);
      var c := StoredCount(s);
      IdsAppend(StoredWindows(s), [Record(c + 1, p.shape, p.metaData)]);
      assert IdRange(c + 1, |peers|) == [c + 1] + IdRange(c + 2, |peers| - 1);
    }
  }

  /**
   * Starting from a cleared store, n windows joining one after the other
   * leave n records whose ids are 1, ..., n, all distinct.
   */
  lemma JoinsFromClearedStore(peers: seq<Joiner>)
    ensures |StoredWindows(JoinAll(Cleared, peers))| == |peers|
    ensures Ids(StoredWindows(JoinAll(Cleared, peers))) == IdRange(1, |peers|)
    ensures UniqueIds(StoredWindows(JoinAll(Cleared, peers)))
  {
    SequentialJoins(Cleared, peers);
  }

  /** The shared store object, written by every window manager that holds it. */
  class Store {
    var windows: Option<seq<Record>>
    var count: Option<nat>

    /** A store with neither key set. */
    constructor ()
      ensures State() == Cleared
    {
      windows, count := None, None;
    }

    /** `localStorage.clear()`: both keys are removed. */
    method Clear()
      modifies this
      ensures State() == Cleared
    {
      windows, count := None, None;
    }

    function State(): StoreState
      reads this
    {
      StoreState(windows, count)
    }
  }
}
