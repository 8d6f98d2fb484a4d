/** `ClipHistory` of src/history.ts: a duplicate-free, most-recent-first queue of clip ids,
    bounded by an optional maximum, with a membership set kept beside it. */
module History {
  import opened Wrappers
  import opened Seqs
  import opened Clips

  /** The longest queue a bound of `m` allows: `add` on a bound of 0 still leaves one entry. */
  function Limit(m: nat): (r: nat)
    ensures r >= 1 && r >= m
    ensures m >= 1 ==> r == m
  {
    if m == 0 then 1 else m
  }

  /** The queue length `n` respects the bound `max` (no bound when `max` is absent). */
  predicate WithinMax(n: nat, max: Option<nat>)
    ensures max.None? ==> WithinMax(n, max)
    ensures max.Some? && max.value >= 1 ==> (WithinMax(n, max) <==> n <= max.value)
  {
    max.None? || n <= Limit(max.value)
  }

  /** `length >= max`: comparing with an absent maximum is always false. A queue within its
      bound that is not full has room for one more id; one that is full sits at the bound. */
  predicate Full(n: nat, max: Option<nat>)
    ensures max.None? ==> !Full(n, max)
    ensures WithinMax(n, max) && !Full(n, max) ==> WithinMax(n + 1, max)
    ensures WithinMax(n, max) && Full(n, max) && max.value >= 1 ==> n == max.value
  {
    max.Some? && n >= max.value
  }

  /** The queue with every occurrence of `key` filtered out. */
  function Without(q: seq<ClipId>, key: ClipId): (r: seq<ClipId>)
    ensures key !in r
    ensures |r| <= |q|
  {
    if q == [] then []
    else if q[0] == key then Without(q[1..], key)
    else [q[0]] + Without(q[1..], key)
  }

  /** The queue after an array `pop()`: the last (oldest) id is gone, and pushing it back
      restores the queue. */
  function Popped(q: seq<ClipId>): (r: seq<ClipId>)
    ensures q == [] ==> r == []
    ensures q != [] ==> r + [q[|q| - 1]] == q
  {
    if q == [] then [] else q[..|q| - 1]
  }

  /** What is left of the queue after `add`'s eviction step: a prefix of the queue, one id
      shorter exactly when the queue is full and non-empty. */
  function Kept(q: seq<ClipId>, max: Option<nat>): (r: seq<ClipId>)
    ensures |r| <= |q| && r == q[..|r|]
    ensures !Full(|q|, max) ==> r == q
    ensures Full(|q|, max) && q != [] ==> |r| == |q| - 1
  {
    if Full(|q|, max) then Popped(q) else q
  }

  /** The queue after `add(key)`: evict the oldest when full, then move or put `key` in front. */
  function Added(q: seq<ClipId>, max: Option<nat>, key: ClipId): (r: seq<ClipId>)
    ensures |r| >= 1 && r[0] == key
    ensures |r| <= |Kept(q, max)| + 1
    ensures key !in Kept(q, max) ==> r == [key] + Kept(q, max)
  {
    var kept := Kept(q, max);
    [key] + (if key in kept then Without(kept, key) else kept)
  }

  /** Filtering removes exactly `key` from the elements, keeps distinctness,
      and is the identity when `key` is absent. */
  lemma {:induction false} WithoutRemoves(q: seq<ClipId>, key: ClipId)
    ensures Elems(Without(q, key)) == Elems(q) - {key}
    ensures Distinct(q) ==> Distinct(Without(q, key))
    ensures key !in q ==> Without(q, key) == q
    ensures |Without(q, key)| <= |q|
  {
    if q != [] {
      WithoutRemoves(q[1..], key);
      assert Elems(q) == {q[0]} + Elems(q[1..]);
      if q[0] != key {
        assert Elems(Without(q, key)) == {q[0]} + Elems(Without(q[1..], key));
      }
      if q[0] != key && Distinct(q) {
        var w := Without(q, key);
        assert w == [q[0]] + Without(q[1..], key);
        assert Distinct(q[1..]) by {
          forall i, j | 0 <= i < j < |q[1..]| ensures q[1..][i] != q[1..][j] {
            assert q[1..][i] == q[i + 1] && q[1..][j] == q[j + 1];
          }
        }
        assert q[0] !in Elems(q[1..]) by {
          forall j | 0 <= j < |q[1..]| ensures q[1..][j] != q[0] {
            assert q[1..][j] == q[j + 1];
          }
        }
        forall i, j | 0 <= i < j < |w| ensures w[i] != w[j] {
          if i == 0 {
            assert w[j] in Elems(Without(q[1..], key)) by {
              assert w[j] == Without(q[1..], key)[j - 1];
            }
          } else {
            assert w[i] == Without(q[1..], key)[i - 1] && w[j] == Without(q[1..], key)[j - 1];
          }
        }
      }
      if key !in q {
        assert key !in q[1..];
      }
    }
  }

  /** In a queue without repetitions, filtering the id at position `i` deletes just that
      position: every other id keeps its relative order. */
  lemma {:induction false} WithoutDeletesAt(q: seq<ClipId>, i: nat)
    requires Distinct(q) && i < |q|
    ensures Without(q, q[i]) == q[..i] + q[i + 1..]
  {
    var key := q[i];
    assert Distinct(q[1..]) by {
      forall a, b | 0 <= a < b < |q[1..]| ensures q[1..][a] != q[1..][b] {
        assert q[1..][a] == q[a + 1] && q[1..][b] == q[b + 1];
      }
    }
    if i == 0 {
      assert key !in q[1..] by {
        forall j | 0 <= j < |q[1..]| ensures q[1..][j] != key {
          assert q[1..][j] == q[j + 1];
        }
      }
      WithoutRemoves(q[1..], key);
    } else {
      assert q[0] != key;
      assert q[1..][i - 1] == key;
      WithoutDeletesAt(q[1..], i - 1);
      assert q[1..][..i - 1] == q[1..i];
      assert q[1..][i - 1 + 1..] == q[i + 1..];
      assert [q[0]] + q[1..i] == q[..i];
    }
  }

  /** Dropping the last id of a queue without repetitions removes just that id from its elements. */
  lemma PoppedElems(q: seq<ClipId>)
    requires Distinct(q) && q != []
    ensures Distinct(Popped(q))
    ensures Elems(Popped(q)) == Elems(q) - {q[|q| - 1]}
  {
    var p := Popped(q);
    forall x | x in Elems(q) - {q[|q| - 1]} ensures x in Elems(p) {
      var j :| 0 <= j < |q| && q[j] == x;
      assert p[j] == x;
    }
  }

  /** `add(key)` puts `key` in front, keeps the queue duplicate-free and bounded, and its
      elements are those left after eviction plus `key`. */
  lemma AddedKeepsInvariant(q: seq<ClipId>, max: Option<nat>, key: ClipId)
    requires Distinct(q)
    ensures Added(q, max, key)[0] == key
    ensures Distinct(Added(q, max, key))
    ensures Elems(Added(q, max, key)) == Elems(Kept(q, max)) + {key}
    ensures WithinMax(|q|, max) ==> WithinMax(|Added(q, max, key)|, max)
  {
    var kept := Kept(q, max);
    if q != [] && Full(|q|, max) {
      PoppedElems(q);
    }
    assert Distinct(kept);
    var rest := if key in kept then Without(kept, key) else kept;
    WithoutRemoves(kept, key);
    assert key !in Elems(rest);
    var r := Added(q, max, key);
    assert r == [key] + rest;
    forall i, j | 0 <= i < j < |r| ensures r[i] != r[j] {
      assert r[j] == rest[j - 1];
      if i > 0 {
        assert r[i] == rest[i - 1];
      } else {
        assert r[j] in Elems(rest);
      }
    }
    assert Elems(r) == {key} + Elems(rest);
    if WithinMax(|q|, max) && max.Some? {
      if Full(|q|, max) && q != [] {
        assert |kept| == |q| - 1;
      }
    }
  }

  /** When the queue is full, `add` evicts the last (oldest) id first: that id is gone
      unless it is the one being added. */
  lemma AddedWhenFullEvictsOldest(q: seq<ClipId>, max: Option<nat>, key: ClipId)
    requires Distinct(q) && q != [] && Full(|q|, max)
    ensures Elems(Added(q, max, key)) == Elems(q[..|q| - 1]) + {key}
    ensures q[|q| - 1] != key ==> q[|q| - 1] !in Added(q, max, key)
  {
    AddedKeepsInvariant(q, max, key);
    PoppedElems(q);
    assert q[|q| - 1] !in Elems(q[..|q| - 1]);
    assert Elems(Added(q, max, key)) == Elems(q[..|q| - 1]) + {key};
    if q[|q| - 1] != key {
      assert q[|q| - 1] !in Elems(Added(q, max, key));
    }
  }

  /** Re-adding a present id to a full queue still evicts the oldest, so the queue shrinks by one. */
  lemma RepeatWhenFullShrinks(q: seq<ClipId>, max: Option<nat>, key: ClipId)
    requires Distinct(q) && Full(|q|, max) && q != [] && key in q[..|q| - 1]
    ensures |Added(q, max, key)| == |q| - 1
    ensures Added(q, max, key)[0] == key
  {
    var kept := Popped(q);
    PoppedElems(q);
    var i :| 0 <= i < |kept| && kept[i] == key;
    WithoutDeletesAt(kept, i);
  }

  /** Re-adding a present id to a queue that is not full moves it to the front: the other ids
      keep their order and the length is unchanged. */
  lemma RepeatWhenNotFullMovesToFront(q: seq<ClipId>, max: Option<nat>, i: nat)
    requires Distinct(q) && !Full(|q|, max) && i < |q|
    ensures Added(q, max, q[i]) == [q[i]] + q[..i] + q[i + 1..]
    ensures |Added(q, max, q[i])| == |q|
  {
    WithoutDeletesAt(q, i);
  }

  /** Adding a new id to a queue that is not full prepends it to the whole queue. */
  lemma FreshWhenNotFullPrepends(q: seq<ClipId>, max: Option<nat>, key: ClipId)
    requires !Full(|q|, max) && key !in q
    ensures Added(q, max, key) == [key] + q
  {
  }

  /** The expectations of the `ClipHistory` tests, on an unbounded history. */
  lemma HistoryTestScenarios()
    ensures Added([], None, "clip1") == ["clip1"]
    ensures Added(Added(Added([], None, "clip1"), None, "clip2"), None, "clip3")
              == ["clip3", "clip2", "clip1"]
    ensures Added(Added([], None, "clip1"), None, "clip1") == ["clip1"]
    ensures Popped(Added(Added([], None, "clip1"), None, "clip2")) == ["clip2"]
    ensures Added(Added(Popped(["clip2", "clip1"]), None, "clip3"), None, "clip4")
              == ["clip4", "clip3", "clip2"]
    ensures Added(Popped(["clip2", "clip1"]), None, "clip1") == ["clip1", "clip2"]
  {
    assert Added([], None, "clip1") == ["clip1"];
    assert Added(["clip1"], None, "clip2") == ["clip2", "clip1"];
    assert Added(["clip2", "clip1"], None, "clip3") == ["clip3", "clip2", "clip1"];
    assert Without(["clip1"], "clip1") == [];
    assert Popped(["clip2", "clip1"]) == ["clip2"];
    assert Added(["clip2"], None, "clip3") == ["clip3", "clip2"];
    assert Added(["clip3", "clip2"], None, "clip4") == ["clip4", "clip3", "clip2"];
    assert Added(["clip2"], None, "clip1") == ["clip1", "clip2"];
  }

  /** The recency queue of clip ids. */
  class ClipHistory {
    var queue: seq<ClipId>
    var members: set<ClipId>
    const max: Option<nat>

    /** The queue has no repeats, the membership set holds exactly its ids, and the bound holds. */
    ghost predicate Valid()
      reads this
    {
      Distinct(queue) && members == Elems(queue) && WithinMax(|queue|, max)
    }

    constructor(max: Option<nat>)
      ensures Valid() && this.max == max
      ensures queue == [] && members == {}
    {
      this.max := max;
      queue := [];
      members := {};
    }

    /** Promotes `key` to most recent, evicting the oldest id first when the queue is full. */
    method Add(key: ClipId)
      requires Valid()
      modifies this
      ensures Valid()
      ensures queue == Added(old(queue), max, key)
      ensures members == Elems(Kept(old(queue), max)) + {key}
      ensures Peek() == Some(key)
    {
      AddedKeepsInvariant(queue, max, key);
      if Full(Length(), max) {
        var evicted := Pop();
      }
      if key in members {
        WithoutRemoves(queue, key);
        queue := Without(queue, key);
      }
      queue := [key] + queue;
      members := members + {key};
    }

    /** Empties the queue and its membership set. */
    method Clear()
      requires Valid()
      modifies this
      ensures Valid()
      ensures queue == [] && members == {}
    {
      queue := [];
      members := {};
    }

    /** The ids, most recent first: duplicate-free, exactly the members, within the bound. */
    function All(): (r: seq<ClipId>)
      reads this
      requires Valid()
      ensures Distinct(r) && Elems(r) == members && WithinMax(|r|, max)
    {
      queue
    }

    /** Removes and returns the last (oldest) id; on an empty queue returns nothing and changes nothing. */
    method Pop() returns (item: Option<ClipId>)
      requires Valid()
      modifies this
      ensures Valid()
      ensures queue == Popped(old(queue))
      ensures old(queue) == [] ==> item == None && members == old(members)
      ensures old(queue) != [] ==>
                item == Some(old(queue)[|old(queue)| - 1]) && members == old(members) - {item.value}
    {
      if queue == [] {
        item := None;
      } else {
        PoppedElems(queue);
        var last := queue[|queue| - 1];
        queue := queue[..|queue| - 1];
        members := members - {last};
        item := Some(last);
      }
    }

    /** The most recent id, absent exactly when the history is empty. */
    function Peek(): (r: Option<ClipId>)
      reads this
      requires Valid()
      ensures r.None? <==> members == {}
      ensures r.Some? ==> r.value in members
    {
      if queue == [] then None else assert queue[0] in Elems(queue); Some(queue[0])
    }

    /** The number of ids, which is also the size of the membership set. */
    function Length(): (n: nat)
      reads this
      requires Valid()
      ensures n == |members|
      ensures WithinMax(n, max)
    {
      DistinctCard(queue);
      |queue|
    }
  }
}
