/**
 * The window registry: the list of window records that every window keeps a
 * copy of and publishes under the `windows` key of the shared store, and the
 * pure operations the window manager performs on it.
 */
module Registry {
  import opened Options
  import opened Metadata

  /** A window's position on the screen and its inner size. */
  datatype Shape = Shape(x: int, y: int, w: int, h: int)

  /** One window's entry; `metaData` is `None` where the object holds `undefined`. */
  datatype Record = Record(id: nat, shape: Shape, metaData: Option<MetaData>)

  /** The ids of a registry, position by position. */
  function Ids(ws: seq<Record>): seq<nat> {
    seq(|ws|, i requires 0 <= i < |ws| => ws[i].id)
  }

  lemma IdsAppend(a: seq<Record>, b: seq<Record>)
    ensures Ids(a + b) == Ids(a) + Ids(b)
  {
  }

  /** No two records carry the same id. */
  predicate UniqueIds(ws: seq<Record>) {
    forall i, j :: 0 <= i < j < |ws| ==> ws[i].id != ws[j].id
  }

  /**
   * The index of the last record that carries `id`, or -1 when none does:
   * the value `getWindowIndexFromId` computes.
   */
  function LastIndexOf(ws: seq<Record>, id: nat): (k: int)
    ensures -1 <= k < |ws|
    ensures k == -1 <==> id !in Ids(ws)
    ensures k >= 0 ==> ws[k].id == id && forall j :: k < j < |ws| ==> ws[j].id != id
  {
    if ws == [] then -1
    else if ws[|ws| - 1].id == id then
      assert Ids(ws)[|ws| - 1] == id;
      |ws| - 1
    else
      var k := LastIndexOf(ws[..|ws| - 1], id);
      assert Ids(ws) == Ids(ws[..|ws| - 1]) + [ws[|ws| - 1].id];
      k
  }

  /**
   * The membership test of a `storage` event, stated on its own: two
   * registries differ when their id sequences differ. Shapes and metadata
   * play no part.
   */
  predicate WindowsChanged(prev: seq<Record>, next: seq<Record>) {
    Ids(prev) != Ids(next)
  }

  /**
   * The registry after `update` wrote a new shape and metadata into the last
   * record carrying `id`; when no record carries it the registry is unchanged.
   */
  function Republished(ws: seq<Record>, id: nat, shape: Shape, meta: Option<MetaData>): (r: seq<Record>)
    ensures |r| == |ws| && Ids(r) == Ids(ws)
    ensures id in Ids(ws) ==> r[LastIndexOf(ws, id)] == Record(id, shape, meta)
    ensures forall i :: 0 <= i < |ws| && i != LastIndexOf(ws, id) ==> r[i] == ws[i]
  {
    var k := LastIndexOf(ws, id);
    if k >= 0 then ws[k := ws[k].(shape := shape, metaData := meta)] else ws
  }

  /** A republished registry never looks changed to the other windows' membership test. */
  lemma RepublishIsSilent(ws: seq<Record>, id: nat, shape: Shape, meta: Option<MetaData>)
    ensures !WindowsChanged(ws, Republished(ws, id, shape, meta))
  {
  }

  /** Where the last match sits depends on the ids alone. */
  lemma LastIndexOfByIds(a: seq<Record>, b: seq<Record>, id: nat)
    requires Ids(a) == Ids(b)
    ensures LastIndexOf(a, id) == LastIndexOf(b, id)
  {
    var ka, kb := LastIndexOf(a, id), LastIndexOf(b, id);
    if ka >= 0 && kb >= 0 {
      assert Ids(a)[ka] == id && Ids(a)[kb] == id;
    }
  }

  /** Republishing the same shape and metadata a second time changes nothing more. */
  lemma RepublishIdempotent(ws: seq<Record>, id: nat, shape: Shape, meta: Option<MetaData>)
    ensures Republished(Republished(ws, id, shape, meta), id, shape, meta) == Republished(ws, id, shape, meta)
  {
    LastIndexOfByIds(Republished(ws, id, shape, meta), ws, id);
  }

  /**
   * Where `Array.prototype.splice(start, 1)` starts on a list of length
   * `len`: a negative start counts back from the end (and stops at 0), a
   * start past the end is clamped to the end.
   */
  function SpliceStart(len: nat, start: int): (k: nat)
    ensures k <= len
  {
    if start < 0 then (if len + start < 0 then 0 else len + start)
    else if start > len then len
    else start
  }

  /** `splice(start, 1)`: removes the element at the splice start, if there is one. */
  function SpliceOne(ws: seq<Record>, start: int): seq<Record> {
    var k := SpliceStart(|ws|, start);
    if k < |ws| then ws[..k] + ws[k + 1..] else ws
  }

  /** The registry after the `beforeunload` handler removed the window `id`. */
  function Unloaded(ws: seq<Record>, id: nat): seq<Record> {
    SpliceOne(ws, LastIndexOf(ws, id))
  }

  /** A window that unloads right after joining leaves the registry it joined. */
  lemma UnloadUndoesJoin(ws: seq<Record>, r: Record)
    ensures Unloaded(ws + [r], r.id) == ws
  {
    assert (ws + [r])[|ws|] == r;
    assert LastIndexOf(ws + [r], r.id) == |ws|;
    assert (ws + [r])[..|ws|] == ws;
  }

  /**
   * When some record carries `id`, unloading removes exactly the last such
   * record: one occurrence of `id` goes, every other record stays, in order.
   */
  lemma UnloadRemovesLastMatch(ws: seq<Record>, id: nat)
    requires id in Ids(ws)
    ensures var k := LastIndexOf(ws, id); Unloaded(ws, id) == ws[..k] + ws[k + 1..]
    ensures |Unloaded(ws, id)| == |ws| - 1
    ensures multiset(Ids(Unloaded(ws, id))) == multiset(Ids(ws)) - multiset{id}
  {
    var k := LastIndexOf(ws, id);
    assert SpliceStart(|ws|, k) == k;
    RemoveAtIds(ws, k);
  }

  /** Removing the element at `k` removes one occurrence of its id and no other. */
  lemma RemoveAtIds(ws: seq<Record>, k: nat)
    requires k < |ws|
    ensures multiset(Ids(ws[..k] + ws[k + 1..])) == multiset(Ids(ws)) - multiset{ws[k].id}
  {
    var a, b := ws[..k], ws[k + 1..];
    assert ws == a + [ws[k]] + b;
    IdsAppend(a, b);
    IdsAppend(a, [ws[k]]);
    IdsAppend(a + [ws[k]], b);
    assert Ids([ws[k]]) == [ws[k].id];
  }

  /**
   * When no record carries `id`, the index -1 makes `splice` remove the last
   * record of the registry, whoever it belongs to.
   */
  lemma UnloadWithoutOwnRecordDropsLast(ws: seq<Record>, id: nat)
    requires id !in Ids(ws)
    ensures ws != [] ==> Unloaded(ws, id) == ws[..|ws| - 1]
    ensures ws == [] ==> Unloaded(ws, id) == []
  {
  }

  /**
   * With unique ids, unloading takes the departing window out of the
   * registry and keeps every other record, ids still unique.
   */
  lemma UnloadWithUniqueIds(ws: seq<Record>, id: nat)
    requires UniqueIds(ws) && id in Ids(ws)
    ensures UniqueIds(Unloaded(ws, id))
    ensures id !in Ids(Unloaded(ws, id))
    ensures forall r :: r in Unloaded(ws, id) <==> r in ws && r.id != id
  {
    var k := LastIndexOf(ws, id);
    assert SpliceStart(|ws|, k) == k;
    RemoveAtUnique(ws, k);
  }

  /** Removing the element at `k` from a registry with unique ids removes exactly the records with its id. */
  lemma RemoveAtUnique(ws: seq<Record>, k: nat)
    requires UniqueIds(ws) && k < |ws|
    ensures UniqueIds(ws[..k] + ws[k + 1..])
    ensures ws[k].id !in Ids(ws[..k] + ws[k + 1..])
    ensures forall r :: r in ws[..k] + ws[k + 1..] <==> r in ws && r.id != ws[k].id
  {
    var u := ws[..k] + ws[k + 1..];
    assert forall i :: 0 <= i < |u| ==> u[i] == if i < k then ws[i] else ws[i + 1];
    forall r | r in ws && r.id != ws[k].id
      ensures r in u
    {
      var i :| 0 <= i < |ws| && ws[i] == r;
      if i < k {
        assert u[i] == r;
      } else {
        assert u[i - 1] == r;
      }
    }
  }
}
