/** The table trackeroo.data, keyed by (ts, dev_id), under INSERT ... ON CONFLICT DO NOTHING. */
module FirstWrite {

  datatype Key = Key(ts: int, devID: string)
  datatype Entry = Entry(tag: string, payload: string)
  datatype Insertion = Insertion(key: Key, entry: Entry)

  type Data = map<Key, Entry>

  function Insert(t: Data, x: Insertion): Data {
    if x.key in t then t else t[x.key := x.entry]
  }

  function InsertAll(t: Data, xs: seq<Insertion>): Data {
    if xs == [] then t else Insert(InsertAll(t, xs[..|xs| - 1]), xs[|xs| - 1])
  }

  function KeysOf(xs: seq<Insertion>): (ks: set<Key>) {
    set i | 0 <= i < |xs| :: xs[i].key
  }

  /** Position of the first insertion under `k`. */
  function First(xs: seq<Insertion>, k: Key): (i: nat)
    ensures i <= |xs|
    ensures forall j | 0 <= j < i :: xs[j].key != k
    ensures i < |xs| ==> xs[i].key == k
  {
    if xs == [] || xs[0].key == k then 0 else
      var i := 1 + First(xs[1..], k);
      assert forall j | 1 <= j < i :: xs[j] == xs[1..][j - 1];
      i
  }

  lemma {:induction false} FirstOfInit(xs: seq<Insertion>, k: Key)
    requires xs != []
    ensures
      var n := |xs| - 1;
      First(xs, k) == if First(xs[..n], k) < n then First(xs[..n], k)
                      else if xs[n].key == k then n else |xs|
  {
    var n := |xs| - 1;
    var i := First(xs[..n], k);
    assert forall j | 0 <= j < n :: xs[..n][j] == xs[j];
  }

  lemma {:induction false} KeysGrow(t: Data, xs: seq<Insertion>)
    ensures InsertAll(t, xs).Keys == t.Keys + KeysOf(xs)
    ensures forall k | k in t :: InsertAll(t, xs)[k] == t[k]
  {
    if xs != [] {
      var n := |xs| - 1;
      KeysGrow(t, xs[..n]);
      assert KeysOf(xs) == KeysOf(xs[..n]) + {xs[n].key};
    }
  }

  /** After any insertions into an empty table: one row per distinct key, holding the first
      payload that was sent under it. */
  lemma {:induction false} FirstPayloadWins(xs: seq<Insertion>)
    ensures
      var t := InsertAll(map[], xs);
      && t.Keys == KeysOf(xs) && |t| == |KeysOf(xs)|
      && forall k | k in t :: First(xs, k) < |xs| && t[k] == xs[First(xs, k)].entry
  {
    KeysGrow(map[], xs);
    var t := InsertAll(map[], xs);
    assert |t| == |t.Keys|;
    forall k | k in t ensures First(xs, k) < |xs| && t[k] == xs[First(xs, k)].entry {
      ValueIsFirst(xs, k);
    }
  }

  lemma {:induction false} ValueIsFirst(xs: seq<Insertion>, k: Key)
    requires k in InsertAll(map[], xs)
    ensures First(xs, k) < |xs| && InsertAll(map[], xs)[k] == xs[First(xs, k)].entry
  {
    if xs != [] {
      var init := xs[..|xs| - 1];
      FirstOfInit(xs, k);
      KeysGrow(map[], init);
      assert First(init, k) < |init| ==> k in KeysOf(init);
      if k in InsertAll(map[], init) {
        ValueIsFirst(init, k);
      }
    }
  }

  /** Replaying insertions already applied, in any order and any number of times, changes
      nothing. */
  lemma {:induction false} ReplayIsNoOp(t: Data, xs: seq<Insertion>, ys: seq<Insertion>)
    requires forall y | y in ys :: y in xs
    ensures InsertAll(InsertAll(t, xs), ys) == InsertAll(t, xs)
  {
    KeysGrow(t, xs);
    if ys != [] {
      var n := |ys| - 1;
      ReplayIsNoOp(t, xs, ys[..n]);
      assert ys[n] in xs;
      assert ys[n].key in KeysOf(xs);
    }
  }

  lemma {:induction false} SecondIsDropped(t: Data, x: Insertion, y: Insertion)
    requires x.key == y.key
    ensures Insert(Insert(t, x), y) == Insert(t, x)
  {
  }

  /** Two insertions commute exactly when their keys differ, or their entries agree, or the key
      is taken already. */
  lemma {:induction false} CommuteExactly(t: Data, x: Insertion, y: Insertion)
    ensures Insert(Insert(t, x), y) == Insert(Insert(t, y), x)
       <==> x.key != y.key || x.entry == y.entry || x.key in t
  {
    var a, b := Insert(Insert(t, x), y), Insert(Insert(t, y), x);
    if x.key == y.key && x.key !in t {
      assert a[x.key] == x.entry && b[x.key] == y.entry;
    } else {
      assert forall k :: k in a <==> k in b;
      assert forall k | k in a :: a[k] == b[k];
    }
  }

  /** The payload just sent is the one stored exactly when nothing else had its key before. A
      second message of a device within one second is dropped. */
  lemma {:induction false} StoredExactly(xs: seq<Insertion>, x: Insertion)
    ensures InsertAll(map[], xs + [x])[x.key] == x.entry
       <==> x.key !in KeysOf(xs) || xs[First(xs, x.key)].entry == x.entry
  {
    FirstPayloadWins(xs);
    assert (xs + [x])[..|xs|] == xs;
  }
}
