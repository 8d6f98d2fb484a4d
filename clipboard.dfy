/** `Clipboard` of src/history.ts: a table from clip id to clip, kept in JavaScript `Map`
    insertion order, beside a `ClipHistory` that orders the ids by recency. The table evicts
    by insertion order and the history by recency, so the two need not hold the same ids. */
module ClipStore {
  import opened Wrappers
  import opened Seqs
  import opened Clips
  import opened History

  /** The constructor's default capacity. */
  const DefaultMaxHistorySize: nat := 30

  /** A JavaScript `Map<ClipId, Clip>`: its entries and the order in which keys were inserted. */
  datatype ClipMap = ClipMap(keys: seq<ClipId>, entries: map<ClipId, Clip>) {

    /** Every key occurs once in the insertion order, and the order lists exactly the keys. */
    ghost predicate Valid() {
      Distinct(keys) && Elems(keys) == entries.Keys
    }

    /** `Map.size`: the number of entries. */
    function Size(): (n: nat)
      ensures Valid() ==> n == |entries|
    {
      KeysCountEntries(this);
      |keys|
    }

    /** `Map.get`: the record under `id`, if any. */
    function Get(id: ClipId): Option<Clip> {
      if id in entries then Some(entries[id]) else None
    }

    /** `Map.set`: the record under `id` becomes `c`. */
    function Set(id: ClipId, c: Clip): ClipMap {
      if id in entries then ClipMap(keys, entries[id := c]) else ClipMap(keys + [id], entries[id := c])
    }

    /** `Map.delete` of the first-inserted key (`keys().next().value`); a no-op on an empty map. */
    function DeleteFirst(): ClipMap {
      if keys == [] then this else ClipMap(keys[1..], entries - {keys[0]})
    }
  }

  /** `Map.set` stores `c` under `id`; a present key keeps its position, a new key goes last;
      every other record is untouched and the map stays well-formed. */
  lemma SetSpec(m: ClipMap, id: ClipId, c: Clip)
    ensures m.Set(id, c).Get(id) == Some(c)
    ensures forall j :: j != id ==> m.Set(id, c).Get(j) == m.Get(j)
    ensures id in m.entries ==> m.Set(id, c).keys == m.keys
    ensures id !in m.entries ==> m.Set(id, c).keys == m.keys + [id]
    ensures m.Set(id, c).entries.Keys == m.entries.Keys + {id}
    ensures m.Valid() ==> m.Set(id, c).Valid()
  {
    var r := m.Set(id, c);
    if m.Valid() && id !in m.entries {
      forall i, j | 0 <= i < j < |r.keys| ensures r.keys[i] != r.keys[j] {
        if j == |m.keys| {
          assert r.keys[i] == m.keys[i] && m.keys[i] in Elems(m.keys);
        } else {
          assert r.keys[i] == m.keys[i] && r.keys[j] == m.keys[j];
        }
      }
      assert Elems(r.keys) == Elems(m.keys) + {id};
    }
  }

  /** Deleting the first-inserted key removes exactly that key and record, shifts the order
      by one and keeps the map well-formed. */
  lemma DeleteFirstSpec(m: ClipMap)
    ensures m.keys == [] ==> m.DeleteFirst() == m
    ensures m.Valid() ==> m.DeleteFirst().Valid()
    ensures m.keys != [] ==>
              m.DeleteFirst().keys == m.keys[1..] && m.keys[0] !in m.DeleteFirst().entries
              && m.DeleteFirst().entries.Keys == m.entries.Keys - {m.keys[0]}
    ensures m.Valid() && m.keys != [] ==> m.DeleteFirst().Size() == m.Size() - 1
    ensures forall j :: m.keys != [] && j != m.keys[0] ==> m.DeleteFirst().Get(j) == m.Get(j)
  {
    if m.keys != [] && m.Valid() {
      var r := m.DeleteFirst();
      var ks := m.keys;
      forall i, j | 0 <= i < j < |r.keys| ensures r.keys[i] != r.keys[j] {
        assert r.keys[i] == ks[i + 1] && r.keys[j] == ks[j + 1];
      }
      assert ks[0] !in Elems(ks[1..]) by {
        forall j | 0 <= j < |ks[1..]| ensures ks[1..][j] != ks[0] {
          assert ks[1..][j] == ks[j + 1];
        }
      }
      assert Elems(ks) == {ks[0]} + Elems(ks[1..]);
      assert r.Valid();
      KeysCountEntries(r);
      KeysCountEntries(m);
    }
  }

  /** In a well-formed map the insertion order lists as many keys as there are entries. */
  lemma KeysCountEntries(m: ClipMap)
    ensures m.Valid() ==> |m.keys| == |m.entries|
  {
    if m.Valid() {
      DistinctCard(m.keys);
    }
  }

  /** The empty map. */
  function EmptyMap(): (m: ClipMap)
    ensures m.Valid() && m.Size() == 0
    ensures forall id :: m.Get(id) == None
  {
    ClipMap([], map[])
  }

  /** Every stored record carries the id it is stored under. */
  ghost predicate IdsMatch(m: ClipMap) {
    forall k :: k in m.entries ==> m.entries[k].id == Some(k)
  }

  /** The id `addClip` files `clip` under: its own id when present, else the key of its data. */
  function AssignedId(clip: Clip, generateKey: string -> ClipId): ClipId {
    if clip.id.Some? then clip.id.value else generateKey(clip.data)
  }

  /** The clip as stored by `addClip`: its id written back. */
  function Stamped(clip: Clip, generateKey: string -> ClipId): (c: Clip)
    ensures c.id == Some(AssignedId(clip, generateKey))
    ensures c.date == clip.date && c.data == clip.data && c.tags == clip.tags
    ensures clip.id.Some? ==> c == clip
  {
    clip.(id := Some(AssignedId(clip, generateKey)))
  }

  /** The map after `addClip`: drop the first-inserted entry when the map is full, then set. */
  function MapAdded(m: ClipMap, max: nat, id: ClipId, c: Clip): ClipMap {
    (if m.Size() >= max then m.DeleteFirst() else m).Set(id, c)
  }

  /** `map` of `Map.get` over a list of ids: one entry per id, absent where the map has no record. */
  function Lookup(m: ClipMap, ids: seq<ClipId>): (r: seq<Option<Clip>>)
    ensures |r| == |ids|
    ensures forall i :: 0 <= i < |ids| ==> r[i] == m.Get(ids[i])
  {
    if ids == [] then [] else [m.Get(ids[0])] + Lookup(m, ids[1..])
  }

  /** The store's observable state: the map and the history's queue. */
  datatype Snapshot = Snapshot(clipboard: ClipMap, queue: seq<ClipId>) {

    /** The invariant `Clipboard` keeps under capacity `max`. */
    ghost predicate Valid(max: nat) {
      clipboard.Valid() && IdsMatch(clipboard) && clipboard.Size() <= Limit(max)
      && Distinct(queue) && |queue| <= Limit(max)
    }

    /** `getClips`: one entry per id of the history. */
    function Clips(): (r: seq<Option<Clip>>)
      ensures |r| == |queue|
    {
      Lookup(clipboard, queue)
    }
  }

  /** The state after `addClip(clip)` on a store of capacity `max`. */
  function AddClipStep(s: Snapshot, max: nat, generateKey: string -> ClipId, clip: Clip): Snapshot {
    var id := AssignedId(clip, generateKey);
    Snapshot(MapAdded(s.clipboard, max, id, Stamped(clip, generateKey)), Added(s.queue, Some(max), id))
  }

  /** The map after `updateClip(clip)`, or nothing when it throws because the id is not stored. */
  function UpdatedMap(m: ClipMap, clip: Clip): (r: Option<ClipMap>)
    ensures r.None? <==> clip.id.None? || clip.id.value !in m.entries
    ensures r.Some? ==> r.value.keys == m.keys && r.value.Get(clip.id.value) == Some(clip)
    ensures r.Some? ==> forall j :: j != clip.id.value ==> r.value.Get(j) == m.Get(j)
  {
    if clip.id.Some? && clip.id.value in m.entries then
      SetSpec(m, clip.id.value, clip);
      Some(m.Set(clip.id.value, clip))
    else
      None
  }

  /** The map half of `addClip`: well-formed, every record under its own id, within the capacity,
      and `c` stored under `id`. */
  lemma MapAddedKeepsInvariant(m: ClipMap, max: nat, id: ClipId, c: Clip)
    requires m.Valid() && IdsMatch(m) && m.Size() <= Limit(max) && c.id == Some(id)
    ensures MapAdded(m, max, id, c).Valid() && IdsMatch(MapAdded(m, max, id, c))
    ensures MapAdded(m, max, id, c).Size() <= Limit(max)
    ensures MapAdded(m, max, id, c).Get(id) == Some(c)
  {
    var dropped := if m.Size() >= max then m.DeleteFirst() else m;
    var r := MapAdded(m, max, id, c);
    EvictionMakesRoom(m, max);
    SetSpec(dropped, id, c);
    assert IdsMatch(r) by {
      forall k | k in r.entries ensures r.entries[k].id == Some(k) {
        if k != id {
          assert r.Get(k) == dropped.Get(k);
        }
      }
    }
  }

  /** The eviction step of `addClip` leaves a well-formed map, every record under its own id,
      with room for one more entry. */
  lemma EvictionMakesRoom(m: ClipMap, max: nat)
    requires m.Valid() && IdsMatch(m) && m.Size() <= Limit(max)
    ensures var dropped := if m.Size() >= max then m.DeleteFirst() else m;
            dropped.Valid() && IdsMatch(dropped) && dropped.Size() < Limit(max)
  {
    var dropped := if m.Size() >= max then m.DeleteFirst() else m;
    DeleteFirstSpec(m);
    assert IdsMatch(dropped) by {
      forall k | k in dropped.entries ensures dropped.entries[k].id == Some(k) {
        assert dropped.Get(k) == m.Get(k);
      }
    }
  }

  /** `addClip` keeps the invariant, makes the id the newest in the history, and `getClip`
      then returns this clip with its id written back, whatever was stored under that id. */
  lemma AddClipStepSpec(s: Snapshot, max: nat, generateKey: string -> ClipId, clip: Clip)
    requires s.Valid(max)
    ensures AddClipStep(s, max, generateKey, clip).Valid(max)
    ensures AddClipStep(s, max, generateKey, clip).queue[0] == AssignedId(clip, generateKey)
    ensures AddClipStep(s, max, generateKey, clip).clipboard.Get(AssignedId(clip, generateKey))
              == Some(Stamped(clip, generateKey))
  {
    var id := AssignedId(clip, generateKey);
    MapAddedKeepsInvariant(s.clipboard, max, id, Stamped(clip, generateKey));
    AddedKeepsInvariant(s.queue, Some(max), id);
  }

  /** When the map is full, `addClip` drops the first-inserted key, whether or not it is the
      least recent one; otherwise it only adds the new id. Every other record is untouched. */
  lemma AddClipMapEviction(s: Snapshot, max: nat, generateKey: string -> ClipId, clip: Clip)
    requires s.clipboard.Valid()
    ensures var r := AddClipStep(s, max, generateKey, clip).clipboard;
            var id := AssignedId(clip, generateKey);
            if s.clipboard.Size() >= max && s.clipboard.keys != [] then
              r.entries.Keys == s.clipboard.entries.Keys - {s.clipboard.keys[0]} + {id}
              && forall j :: j != id && j != s.clipboard.keys[0] ==> r.Get(j) == s.clipboard.Get(j)
            else
              r.entries.Keys == s.clipboard.entries.Keys + {id}
              && forall j :: j != id ==> r.Get(j) == s.clipboard.Get(j)
  {
    var m := s.clipboard;
    var id := AssignedId(clip, generateKey);
    var r := AddClipStep(s, max, generateKey, clip).clipboard;
    var dropped := if m.Size() >= max then m.DeleteFirst() else m;
    assert r == dropped.Set(id, Stamped(clip, generateKey));
    DeleteFirstSpec(m);
    SetSpec(dropped, id, Stamped(clip, generateKey));
  }

  /** Adding a clip whose id is new to a store with room in both map and history appends the
      id to the map's order and puts it in front of the history. */
  lemma AddNewNotFull(s: Snapshot, max: nat, generateKey: string -> ClipId, clip: Clip)
    requires var id := AssignedId(clip, generateKey);
             |s.clipboard.keys| < max && |s.queue| < max && id !in s.clipboard.entries && id !in s.queue
    ensures var id := AssignedId(clip, generateKey);
            AddClipStep(s, max, generateKey, clip)
              == Snapshot(ClipMap(s.clipboard.keys + [id], s.clipboard.entries[id := Stamped(clip, generateKey)]),
                          [id] + s.queue)
  {
  }

  /** Re-adding a stored id to a store with room overwrites its record in place and moves the
      id to the front of the history. */
  lemma AddPresentNotFull(s: Snapshot, max: nat, generateKey: string -> ClipId, clip: Clip)
    requires var id := AssignedId(clip, generateKey);
             |s.clipboard.keys| < max && |s.queue| < max && id in s.clipboard.entries && id in s.queue
    ensures var id := AssignedId(clip, generateKey);
            AddClipStep(s, max, generateKey, clip)
              == Snapshot(ClipMap(s.clipboard.keys, s.clipboard.entries[id := Stamped(clip, generateKey)]),
                          [id] + Without(s.queue, id))
  {
  }

  /** Adding a new id to a full store drops the map's first-inserted key and the history's
      oldest id, which need not be the same id. */
  lemma AddNewWhenFull(s: Snapshot, max: nat, generateKey: string -> ClipId, clip: Clip)
    requires var id := AssignedId(clip, generateKey);
             s.clipboard.keys != [] && |s.clipboard.keys| >= max && s.queue != [] && |s.queue| >= max
             && id !in s.clipboard.entries && id !in s.queue
    ensures var id := AssignedId(clip, generateKey);
            var m := s.clipboard;
            AddClipStep(s, max, generateKey, clip)
              == Snapshot(ClipMap(m.keys[1..] + [id], (m.entries - {m.keys[0]})[id := Stamped(clip, generateKey)]),
                          [id] + s.queue[..|s.queue| - 1])
  {
    assert AssignedId(clip, generateKey) !in s.queue[..|s.queue| - 1];
  }

  /** The key derivation tells the data "1" to "4" of the tests apart. */
  predicate KeysApart(generateKey: string -> ClipId) {
    var k1, k2, k3, k4 := generateKey("1"), generateKey("2"), generateKey("3"), generateKey("4");
    k1 != k2 && k1 != k3 && k1 != k4 && k2 != k3 && k2 != k4 && k3 != k4
  }

  /** A test clip: no id yet, the given data. */
  predicate Unfiled(c: Clip, data: string) {
    c.id.None? && c.data == data
  }

  /** With capacity 3, adding clips "1" and "2" files both in the map and the history. */
  lemma TwoAdds(generateKey: string -> ClipId, c1: Clip, c2: Clip)
    requires KeysApart(generateKey) && Unfiled(c1, "1") && Unfiled(c2, "2")
    ensures var k1, k2 := generateKey("1"), generateKey("2");
            AddClipStep(AddClipStep(Snapshot(EmptyMap(), []), 3, generateKey, c1), 3, generateKey, c2)
              == Snapshot(ClipMap([k1, k2], map[k1 := Stamped(c1, generateKey), k2 := Stamped(c2, generateKey)]),
                          [k2, k1])
  {
    var a1 := AddClipStep(Snapshot(EmptyMap(), []), 3, generateKey, c1);
    AddNewNotFull(Snapshot(EmptyMap(), []), 3, generateKey, c1);
    AddNewNotFull(a1, 3, generateKey, c2);
  }

  /** The test "should add a clip to the clipboard". */
  lemma StoreTestAddOne(generateKey: string -> ClipId, c1: Clip)
    requires Unfiled(c1, "1")
    ensures AddClipStep(Snapshot(EmptyMap(), []), 3, generateKey, c1).Clips() == [Some(Stamped(c1, generateKey))]
  {
    var a1 := AddClipStep(Snapshot(EmptyMap(), []), 3, generateKey, c1);
    AddNewNotFull(Snapshot(EmptyMap(), []), 3, generateKey, c1);
    assert a1.Clips() == [a1.clipboard.Get(generateKey("1"))];
  }

  /** The test "should move repeated clip to the top": adding 1, 2, 1 lists 1 then 2. */
  lemma StoreTestRepeatToTop(generateKey: string -> ClipId, c1: Clip, c2: Clip)
    requires KeysApart(generateKey) && Unfiled(c1, "1") && Unfiled(c2, "2")
    ensures var s1 := Stamped(c1, generateKey);
            var a12 := AddClipStep(AddClipStep(Snapshot(EmptyMap(), []), 3, generateKey, c1), 3, generateKey, c2);
            AddClipStep(a12, 3, generateKey, s1).Clips() == [Some(s1), Some(Stamped(c2, generateKey))]
  {
    var k1, k2 := generateKey("1"), generateKey("2");
    var a12 := AddClipStep(AddClipStep(Snapshot(EmptyMap(), []), 3, generateKey, c1), 3, generateKey, c2);
    var b := AddClipStep(a12, 3, generateKey, Stamped(c1, generateKey));
    RepeatAfterTwo(generateKey, c1, c2);
    ClipsOfTwo(b, k1, k2, Stamped(c1, generateKey), Stamped(c2, generateKey));
  }

  /** In a store of capacity 3 whose map holds ids 1 then 2 and whose history holds two other
      ids than 3, adding clip 3 appends id 3 to the map and puts it in front of the history. */
  lemma ThirdAfterTwo(generateKey: string -> ClipId, s: Snapshot, c3: Clip, x: Clip, y: Clip)
    requires KeysApart(generateKey) && Unfiled(c3, "3")
    requires var k1, k2 := generateKey("1"), generateKey("2");
             s.clipboard == ClipMap([k1, k2], map[k1 := x, k2 := y]) && |s.queue| == 2
             && generateKey("3") !in s.queue
    ensures var k1, k2, k3 := generateKey("1"), generateKey("2"), generateKey("3");
            AddClipStep(s, 3, generateKey, c3)
              == Snapshot(ClipMap([k1, k2, k3], map[k1 := x, k2 := y, k3 := Stamped(c3, generateKey)]),
                          [k3] + s.queue)
  {
    var k1, k2, k3 := generateKey("1"), generateKey("2"), generateKey("3");
    AddNewNotFull(s, 3, generateKey, c3);
    assert [k1, k2] + [k3] == [k1, k2, k3];
  }

  /** With capacity 3, adding 1, 2, 3 fills the store. */
  lemma ThreeAdds(generateKey: string -> ClipId, c1: Clip, c2: Clip, c3: Clip)
    requires KeysApart(generateKey) && Unfiled(c1, "1") && Unfiled(c2, "2") && Unfiled(c3, "3")
    ensures var k1, k2, k3 := generateKey("1"), generateKey("2"), generateKey("3");
            var a12 := AddClipStep(AddClipStep(Snapshot(EmptyMap(), []), 3, generateKey, c1), 3, generateKey, c2);
            AddClipStep(a12, 3, generateKey, c3)
              == Snapshot(ClipMap([k1, k2, k3], map[k1 := Stamped(c1, generateKey), k2 := Stamped(c2, generateKey),
                                                    k3 := Stamped(c3, generateKey)]),
                          [k3, k2, k1])
  {
    var a12 := AddClipStep(AddClipStep(Snapshot(EmptyMap(), []), 3, generateKey, c1), 3, generateKey, c2);
    TwoAdds(generateKey, c1, c2);
    ThirdAfterTwo(generateKey, a12, c3, Stamped(c1, generateKey), Stamped(c2, generateKey));
  }

  /** The test "should not exceed max size": adding 1, 2, 3, 4 with capacity 3 lists 4, 3, 2. */
  lemma StoreTestNotExceedMax(generateKey: string -> ClipId, c1: Clip, c2: Clip, c3: Clip, c4: Clip)
    requires KeysApart(generateKey)
    requires Unfiled(c1, "1") && Unfiled(c2, "2") && Unfiled(c3, "3") && Unfiled(c4, "4")
    ensures var a12 := AddClipStep(AddClipStep(Snapshot(EmptyMap(), []), 3, generateKey, c1), 3, generateKey, c2);
            var a123 := AddClipStep(a12, 3, generateKey, c3);
            AddClipStep(a123, 3, generateKey, c4).Clips()
              == [Some(Stamped(c4, generateKey)), Some(Stamped(c3, generateKey)), Some(Stamped(c2, generateKey))]
  {
    var k2, k3, k4 := generateKey("2"), generateKey("3"), generateKey("4");
    var a12 := AddClipStep(AddClipStep(Snapshot(EmptyMap(), []), 3, generateKey, c1), 3, generateKey, c2);
    var a123 := AddClipStep(a12, 3, generateKey, c3);
    ThreeAdds(generateKey, c1, c2, c3);
    var a4 := AddClipStep(a123, 3, generateKey, c4);
    FullAddsFourth(generateKey, a123, c4, Stamped(c1, generateKey), Stamped(c2, generateKey),
                   Stamped(c3, generateKey));
    ClipsOfThree(a4, k4, k3, k2);
  }

  /** With capacity 3, re-adding clip 1 after 1, 2 overwrites its record in place and moves it
      to the front of the history. */
  lemma RepeatAfterTwo(generateKey: string -> ClipId, c1: Clip, c2: Clip)
    requires KeysApart(generateKey) && Unfiled(c1, "1") && Unfiled(c2, "2")
    ensures var k1, k2 := generateKey("1"), generateKey("2");
            var a12 := AddClipStep(AddClipStep(Snapshot(EmptyMap(), []), 3, generateKey, c1), 3, generateKey, c2);
            AddClipStep(a12, 3, generateKey, Stamped(c1, generateKey))
              == Snapshot(ClipMap([k1, k2], map[k1 := Stamped(c1, generateKey), k2 := Stamped(c2, generateKey)]),
                          [k1, k2])
  {
    var s1 := Stamped(c1, generateKey);
    var a12 := AddClipStep(AddClipStep(Snapshot(EmptyMap(), []), 3, generateKey, c1), 3, generateKey, c2);
    TwoAdds(generateKey, c1, c2);
    ReAddFirstOfTwo(generateKey, a12, s1, s1, Stamped(c2, generateKey));
  }

  /** With capacity 3, adding 1, 2, 1, 3 keeps the map in insertion order 1, 2, 3 while the history
      is 3, 1, 2. */
  lemma RepeatThenThird(generateKey: string -> ClipId, c1: Clip, c2: Clip, c3: Clip)
    requires KeysApart(generateKey) && Unfiled(c1, "1") && Unfiled(c2, "2") && Unfiled(c3, "3")
    ensures var k1, k2, k3 := generateKey("1"), generateKey("2"), generateKey("3");
            var a12 := AddClipStep(AddClipStep(Snapshot(EmptyMap(), []), 3, generateKey, c1), 3, generateKey, c2);
            var a121 := AddClipStep(a12, 3, generateKey, Stamped(c1, generateKey));
            AddClipStep(a121, 3, generateKey, c3)
              == Snapshot(ClipMap([k1, k2, k3], map[k1 := Stamped(c1, generateKey), k2 := Stamped(c2, generateKey),
                                                    k3 := Stamped(c3, generateKey)]),
                          [k3, k1, k2])
  {
    var a12 := AddClipStep(AddClipStep(Snapshot(EmptyMap(), []), 3, generateKey, c1), 3, generateKey, c2);
    var a121 := AddClipStep(a12, 3, generateKey, Stamped(c1, generateKey));
    RepeatAfterTwo(generateKey, c1, c2);
    ThirdAfterTwo(generateKey, a121, c3, Stamped(c1, generateKey), Stamped(c2, generateKey));
  }

  /** In a full store of capacity 3 with map order 1, 2, 3, adding clip 4 drops id 1 from the
      map but the oldest id of the history from the history, whichever that is. */
  lemma FullAddsFourth(generateKey: string -> ClipId, s: Snapshot, c4: Clip, x: Clip, y: Clip, z: Clip)
    requires KeysApart(generateKey) && Unfiled(c4, "4")
    requires var k1, k2, k3 := generateKey("1"), generateKey("2"), generateKey("3");
             s.clipboard == ClipMap([k1, k2, k3], map[k1 := x, k2 := y, k3 := z])
             && |s.queue| == 3 && generateKey("4") !in s.queue
    ensures var k2, k3, k4 := generateKey("2"), generateKey("3"), generateKey("4");
            var r := AddClipStep(s, 3, generateKey, c4);
            r.queue == [k4, s.queue[0], s.queue[1]] && r.clipboard.keys == [k2, k3, k4]
            && r.clipboard.entries == map[k2 := y, k3 := z, k4 := Stamped(c4, generateKey)]
  {
    var k1, k2, k3, k4 := generateKey("1"), generateKey("2"), generateKey("3"), generateKey("4");
    assert s.clipboard.entries.Keys == {k1, k2, k3};
    assert k4 !in s.clipboard.entries;
    AddNewWhenFull(s, 3, generateKey, c4);
    assert [k1, k2, k3][1..] == [k2, k3];
    assert s.clipboard.entries - {k1} == map[k2 := y, k3 := z];
    assert s.queue[..2] == [s.queue[0], s.queue[1]];
  }

  /** The map and the history can disagree: with capacity 3, adding 1, 2, 1, 3, 4 leaves the
      history at [4, 3, 1] but the map at {2, 3, 4}, so `getClips` has a hole. */
  lemma MapAndHistoryDiverge(generateKey: string -> ClipId, c1: Clip, c2: Clip, c3: Clip, c4: Clip)
    requires KeysApart(generateKey)
    requires Unfiled(c1, "1") && Unfiled(c2, "2") && Unfiled(c3, "3") && Unfiled(c4, "4")
    ensures var a12 := AddClipStep(AddClipStep(Snapshot(EmptyMap(), []), 3, generateKey, c1), 3, generateKey, c2);
            var a121 := AddClipStep(a12, 3, generateKey, Stamped(c1, generateKey));
            var r := AddClipStep(AddClipStep(a121, 3, generateKey, c3), 3, generateKey, c4);
            r.queue == [generateKey("4"), generateKey("3"), generateKey("1")]
            && r.clipboard.entries.Keys == {generateKey("2"), generateKey("3"), generateKey("4")}
            && r.Clips() == [Some(Stamped(c4, generateKey)), Some(Stamped(c3, generateKey)), None]
  {
    var k1, k2, k3, k4 := generateKey("1"), generateKey("2"), generateKey("3"), generateKey("4");
    var a12 := AddClipStep(AddClipStep(Snapshot(EmptyMap(), []), 3, generateKey, c1), 3, generateKey, c2);
    var a121 := AddClipStep(a12, 3, generateKey, Stamped(c1, generateKey));
    var a4 := AddClipStep(a121, 3, generateKey, c3);
    RepeatThenThird(generateKey, c1, c2, c3);
    var a5 := AddClipStep(a4, 3, generateKey, c4);
    FullAddsFourth(generateKey, a4, c4, Stamped(c1, generateKey), Stamped(c2, generateKey),
                   Stamped(c3, generateKey));
    assert a5.clipboard.entries.Keys == {k2, k3, k4};
    ClipsOfThree(a5, k4, k3, k1);
  }

  /** In a store of capacity 3 holding ids 1 then 2, with 2 the newest, re-adding a clip filed
      under id 1 overwrites record 1 in place and makes 1 the newest. */
  lemma ReAddFirstOfTwo(generateKey: string -> ClipId, s: Snapshot, clip: Clip, x: Clip, y: Clip)
    requires var k1, k2 := AssignedId(clip, generateKey), generateKey("2");
             k1 != k2 && s == Snapshot(ClipMap([k1, k2], map[k1 := x, k2 := y]), [k2, k1])
    ensures var k1, k2 := AssignedId(clip, generateKey), generateKey("2");
            AddClipStep(s, 3, generateKey, clip)
              == Snapshot(ClipMap([k1, k2], map[k1 := Stamped(clip, generateKey), k2 := y]), [k1, k2])
  {
    var k1, k2 := AssignedId(clip, generateKey), generateKey("2");
    AddPresentNotFull(s, 3, generateKey, clip);
    assert [k2, k1][1..] == [k1] && Without([k1], k1) == [];
    assert Without([k2, k1], k1) == [k2];
  }

  /** Adding clip 1, tagging it through `updateClip`, then adding clip 2 keeps the tagged record. */
  lemma TaggedThenSecond(generateKey: string -> ClipId, c1: Clip, c2: Clip)
    requires Unfiled(c1, "1") && Unfiled(c2, "2") && generateKey("1") != generateKey("2")
    ensures var s1 := Stamped(c1, generateKey);
            var a := AddClipStep(Snapshot(EmptyMap(), []), 3, generateKey, c1);
            var tagged := s1.(tags := ["test"]);
            var u := UpdatedMap(a.clipboard, tagged);
            u.Some?
            && AddClipStep(Snapshot(u.value, a.queue), 3, generateKey, c2)
                 == Snapshot(ClipMap([generateKey("1"), generateKey("2")],
                                     map[generateKey("1") := tagged, generateKey("2") := Stamped(c2, generateKey)]),
                             [generateKey("2"), generateKey("1")])
  {
    var k1 := generateKey("1");
    var tagged := Stamped(c1, generateKey).(tags := ["test"]);
    var a := AddClipStep(Snapshot(EmptyMap(), []), 3, generateKey, c1);
    AddNewNotFull(Snapshot(EmptyMap(), []), 3, generateKey, c1);
    var u := UpdatedMap(a.clipboard, tagged);
    assert tagged.id == Some(k1);
    assert a.clipboard == ClipMap([k1], map[k1 := Stamped(c1, generateKey)]);
    assert a.clipboard.entries[k1 := tagged] == map[k1 := tagged];
    assert u == Some(ClipMap([k1], map[k1 := tagged]));
    AddNewNotFull(Snapshot(u.value, a.queue), 3, generateKey, c2);
  }

  /** Re-adding a clip after `updateClip` stores the re-added record: the tags set by the update
      are overwritten, so the store does not give back the updated record. */
  lemma ReAddOverwritesTags(generateKey: string -> ClipId, c1: Clip, c2: Clip)
    requires Unfiled(c1, "1") && Unfiled(c2, "2") && c1.tags == [] && generateKey("1") != generateKey("2")
    ensures var s1 := Stamped(c1, generateKey);
            var s2 := Stamped(c2, generateKey);
            var a := AddClipStep(Snapshot(EmptyMap(), []), 3, generateKey, c1);
            var tagged := s1.(tags := ["test"]);
            var u := UpdatedMap(a.clipboard, tagged);
            u.Some?
            && var r := AddClipStep(AddClipStep(Snapshot(u.value, a.queue), 3, generateKey, c2),
                                    3, generateKey, s1);
               r.Clips() == [Some(s1), Some(s2)] && r.Clips() != [Some(tagged), Some(s2)]
  {
    var k1, k2 := generateKey("1"), generateKey("2");
    var s1, s2 := Stamped(c1, generateKey), Stamped(c2, generateKey);
    var tagged := s1.(tags := ["test"]);
    var a := AddClipStep(Snapshot(EmptyMap(), []), 3, generateKey, c1);
    var u := UpdatedMap(a.clipboard, tagged);
    TaggedThenSecond(generateKey, c1, c2);
    var b := AddClipStep(Snapshot(u.value, a.queue), 3, generateKey, c2);
    ReAddFirstOfTwo(generateKey, b, s1, tagged, s2);
    ClipsOfTwo(AddClipStep(b, 3, generateKey, s1), k1, k2, s1, s2);
    assert s1.tags != tagged.tags;
  }

  /** A history of three ids lists the map's record, or its absence, for each in turn. */
  lemma ClipsOfThree(s: Snapshot, a: ClipId, b: ClipId, c: ClipId)
    requires s.queue == [a, b, c]
    ensures s.Clips() == [s.clipboard.Get(a), s.clipboard.Get(b), s.clipboard.Get(c)]
  {
  }

  /** A store listing ids 1 then 2 in both map and history gives back their two records. */
  lemma ClipsOfTwo(s: Snapshot, k1: ClipId, k2: ClipId, x: Clip, y: Clip)
    requires k1 != k2 && s == Snapshot(ClipMap([k1, k2], map[k1 := x, k2 := y]), [k1, k2])
    ensures s.Clips() == [Some(x), Some(y)]
  {
    assert s.Clips() == [s.clipboard.Get(k1), s.clipboard.Get(k2)];
  }

  /** Why an update fails: the clip's id (possibly absent) is not stored. */
  datatype UpdateError = NotFound(id: Option<ClipId>)

  /** The clip store. */
  class Clipboard {
    var clipboard: ClipMap
    const maxHistorySize: nat
    const history: ClipHistory
    /** The SHA-256 hex digest of the clip data, supplied from outside the model. */
    const generateKey: string -> ClipId

    /** The map and the history's queue. */
    ghost function State(): Snapshot
      reads this, history
    {
      Snapshot(clipboard, history.queue)
    }

    /** The history is bounded by the same capacity as the map, and both keep their invariants. */
    ghost predicate Valid()
      reads this, history
    {
      history.Valid() && history.max == Some(maxHistorySize) && State().Valid(maxHistorySize)
    }

    /** A store of capacity `maxHistorySize`, 30 unless given, keying clips by `generateKey`. */
    constructor(generateKey: string -> ClipId, maxHistorySize: nat := DefaultMaxHistorySize)
      ensures Valid() && fresh(history)
      ensures this.maxHistorySize == maxHistorySize && this.generateKey == generateKey
      ensures clipboard == EmptyMap() && history.queue == []
    {
      this.clipboard := EmptyMap();
      this.history := new ClipHistory(Some(maxHistorySize));
      this.maxHistorySize := maxHistorySize;
      this.generateKey := generateKey;
    }

    /** Stores `clip` under its own id or the key of its data and makes that id the newest;
        returns the id that `addClip` writes back into the clip. */
    method AddClip(clip: Clip) returns (id: ClipId)
      requires Valid()
      modifies this, history
      ensures Valid()
      ensures id == AssignedId(clip, generateKey)
      ensures State() == AddClipStep(old(State()), maxHistorySize, generateKey, clip)
      ensures history.Peek() == Some(id)
      ensures GetClip(id) == Some(clip.(id := Some(id)))
    {
      ghost var before := State();
      AddClipStepSpec(before, maxHistorySize, generateKey, clip);
      if clipboard.Size() >= maxHistorySize {
        DropOldestClip();
      }
      if clip.id.Some? {
        id := clip.id.value;
      } else {
        id := generateKey(clip.data);
      }
      history.Add(id);
      clipboard := clipboard.Set(id, clip.(id := Some(id)));
      assert State() == AddClipStep(before, maxHistorySize, generateKey, clip);
    }

    /** Replaces the record stored under `clip.id`; fails, changing nothing, when that id is
        absent or not stored. Neither the history nor the map's key order changes. */
    method UpdateClip(clip: Clip) returns (r: Outcome<UpdateError>)
      requires Valid()
      modifies this
      ensures Valid()
      ensures UpdatedMap(old(clipboard), clip).None? ==> r == Fail(NotFound(clip.id)) && clipboard == old(clipboard)
      ensures UpdatedMap(old(clipboard), clip).Some? ==> r == Pass && clipboard == UpdatedMap(old(clipboard), clip).value
      ensures clipboard.keys == old(clipboard.keys)
    {
      if clip.id.None? || clip.id.value !in clipboard.entries {
        return Fail(NotFound(clip.id));
      }
      var before := clipboard;
      SetSpec(before, clip.id.value, clip);
      clipboard := clipboard.Set(clip.id.value, clip);
      assert IdsMatch(clipboard) by {
        forall k | k in clipboard.entries ensures clipboard.entries[k].id == Some(k) {
          if k != clip.id.value {
            assert clipboard.Get(k) == before.Get(k);
          }
        }
      }
      r := Pass;
    }

    /** Deletes the first-inserted entry of the map; the history is not touched. */
    method DropOldestClip()
      requires Valid()
      modifies this
      ensures Valid()
      ensures clipboard == old(clipboard).DeleteFirst()
    {
      var before := clipboard;
      DeleteFirstSpec(before);
      clipboard := clipboard.DeleteFirst();
      assert IdsMatch(clipboard) by {
        forall k | k in clipboard.entries ensures clipboard.entries[k].id == Some(k) {
          assert clipboard.Get(k) == before.Get(k);
        }
      }
    }

    /** The record stored under `id`, which carries that id. */
    function GetClip(id: ClipId): (r: Option<Clip>)
      reads this, history
      requires Valid()
      ensures r.Some? <==> id in clipboard.entries
      ensures r.Some? ==> r.value.id == Some(id)
    {
      clipboard.Get(id)
    }

    /** One entry per id of the history, most recent first: the record under that id, or
        nothing where the map has already dropped it. */
    function GetClips(): (r: seq<Option<Clip>>)
      reads this, history
      requires Valid()
      ensures |r| == history.Length()
      ensures forall i :: 0 <= i < |r| ==> r[i] == GetClip(history.queue[i])
      ensures forall i :: 0 <= i < |r| && r[i].Some? ==> r[i].value.id == Some(history.queue[i])
    {
      DistinctCard(history.queue);
      Lookup(clipboard, history.All())
    }

    /** Empties both the map and the history. */
    method ClearClips()
      requires Valid()
      modifies this, history
      ensures Valid()
      ensures clipboard == EmptyMap() && history.queue == []
      ensures GetClips() == []
    {
      clipboard := EmptyMap();
      history.Clear();
    }

    /** The number of stored records, within the capacity. */
    function GetClipboardSize(): (n: nat)
      reads this, history
      requires Valid()
      ensures n == |clipboard.entries|
      ensures n <= Limit(maxHistorySize)
    {
      clipboard.Size()
    }
  }
}
