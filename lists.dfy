/**
 * The list operations both dashboard variants perform on their record lists
 * (targets, personal goals, team goals) and on the separate list of completed
 * ids: `filter` by id, `push` an id unless `includes` already finds it, and the
 * consistency invariant between the two lists.
 *
 * Records are generic here; `key` extracts a record's `id`.
 */
module Lists {

  /** No value occurs twice in `s`. */
  predicate NoDup<T(==)>(s: seq<T>) {
    forall i, j :: 0 <= i < j < |s| ==> s[i] != s[j]
  }

  /** The ids of `s`, in order. */
  function Keys<T>(s: seq<T>, key: T -> int): (r: seq<int>)
    ensures |r| == |s|
    ensures forall i :: 0 <= i < |s| ==> r[i] == key(s[i])
  {
    if s == [] then [] else [key(s[0])] + Keys(s[1..], key)
  }

  lemma KeysAppend<T>(s: seq<T>, key: T -> int, x: T)
    ensures Keys(s + [x], key) == Keys(s, key) + [key(x)]
  {
  }

  /** The key of a record of `s` is among the keys of `s`. */
  lemma KeysMember<T>(s: seq<T>, key: T -> int, x: T)
    requires x in s
    ensures key(x) in Keys(s, key)
  {
    var i :| 0 <= i < |s| && s[i] == x;
    assert Keys(s, key)[i] == key(x);
  }

  /** `ids.filter(c => c !== x)`. */
  function Remove(ids: seq<int>, x: int): (r: seq<int>)
    ensures |r| <= |ids|
    ensures forall y :: y in r <==> y in ids && y != x
  {
    if ids == [] then []
    else if ids[0] == x then Remove(ids[1..], x)
    else [ids[0]] + Remove(ids[1..], x)
  }

  /** Removing a value that is absent changes nothing. */
  lemma {:induction false} RemoveAbsent(ids: seq<int>, x: int)
    requires x !in ids
    ensures Remove(ids, x) == ids
  {
    if ids != [] {
      RemoveAbsent(ids[1..], x);
      assert ids == [ids[0]] + ids[1..];
    }
  }

  /** The other values keep their relative order: removal distributes over concatenation. */
  lemma {:induction false} RemoveConcat(a: seq<int>, b: seq<int>, x: int)
    ensures Remove(a + b, x) == Remove(a, x) + Remove(b, x)
  {
    if a == [] {
      assert a + b == b;
    } else {
      var ab := a + b;
      assert ab[0] == a[0] && ab[1..] == a[1..] + b;
      RemoveConcat(a[1..], b, x);
    }
  }

  /** Without duplicates, a present value occurs once, so exactly one element goes. */
  lemma {:induction false} RemoveNoDup(ids: seq<int>, x: int)
    requires NoDup(ids)
    ensures NoDup(Remove(ids, x))
    ensures x in ids ==> |Remove(ids, x)| == |ids| - 1
  {
    if ids != [] {
      var tail := ids[1..];
      assert NoDup(tail) by {
        forall i, j | 0 <= i < j < |tail| ensures tail[i] != tail[j] {
          assert tail[i] == ids[i + 1] && tail[j] == ids[j + 1];
        }
      }
      assert ids[0] !in tail by {
        forall k | 0 <= k < |tail| ensures tail[k] != ids[0] {
          assert tail[k] == ids[k + 1];
        }
      }
      RemoveNoDup(tail, x);
      if ids[0] == x {
        RemoveAbsent(tail, x);
      } else {
        var r := Remove(tail, x);
        assert ids[0] !in r;
        assert NoDup([ids[0]] + r) by {
          forall i, j | 0 <= i < j < |[ids[0]] + r| ensures ([ids[0]] + r)[i] != ([ids[0]] + r)[j] {
            if i > 0 {
              assert ([ids[0]] + r)[i] == r[i - 1] && ([ids[0]] + r)[j] == r[j - 1];
            } else {
              assert ([ids[0]] + r)[j] == r[j - 1];
            }
          }
        }
      }
    }
  }

  /**
   * `if (!ids.includes(x)) ids.push(x)`: `x` ends up present, appended once at
   * the end when it was missing, and the list stays free of duplicates.
   */
  function AddOnce(ids: seq<int>, x: int): (r: seq<int>)
    ensures x in ids ==> r == ids
    ensures x !in ids ==> |r| == |ids| + 1 && r[..|ids|] == ids && r[|ids|] == x
    ensures forall y :: y in r <==> y in ids || y == x
    ensures NoDup(ids) ==> NoDup(r)
  {
    if x in ids then ids else ids + [x]
  }

  /** Completing the same id twice is the same as completing it once. */
  lemma AddOnceIdempotent(ids: seq<int>, x: int)
    ensures AddOnce(AddOnce(ids, x), x) == AddOnce(ids, x)
  {
  }

  /**
   * Deleting an id and then completing it appends the id again: completion does not
   * look at the record list, so the id comes back even though no record has it.
   */
  lemma CompleteAfterDelete(ids: seq<int>, x: int)
    ensures AddOnce(Remove(ids, x), x) == Remove(ids, x) + [x]
  {
  }

  /** `items.filter(t => t.id !== k)`. */
  function RemoveKey<T(!new)>(items: seq<T>, key: T -> int, k: int): (r: seq<T>)
    ensures |r| <= |items|
    ensures forall x :: x in r <==> x in items && key(x) != k
    ensures k !in Keys(r, key)
  {
    if items == [] then []
    else if key(items[0]) == k then RemoveKey(items[1..], key, k)
    else [items[0]] + RemoveKey(items[1..], key, k)
  }

  /** The remaining records keep their relative order. */
  lemma {:induction false} RemoveKeyConcat<T(!new)>(a: seq<T>, b: seq<T>, key: T -> int, k: int)
    ensures RemoveKey(a + b, key, k) == RemoveKey(a, key, k) + RemoveKey(b, key, k)
  {
    if a == [] {
      assert a + b == b;
    } else {
      var ab := a + b;
      assert ab[0] == a[0] && ab[1..] == a[1..] + b;
      RemoveKeyConcat(a[1..], b, key, k);
      if key(a[0]) != k {
        assert RemoveKey(ab, key, k) == [a[0]] + RemoveKey(a[1..] + b, key, k);
      }
    }
  }

  /** A list without the id is left as it is. */
  lemma {:induction false} RemoveKeyAbsent<T(!new)>(items: seq<T>, key: T -> int, k: int)
    requires k !in Keys(items, key)
    ensures RemoveKey(items, key, k) == items
  {
    if items != [] {
      assert Keys(items, key) == [key(items[0])] + Keys(items[1..], key);
      RemoveKeyAbsent(items[1..], key, k);
      assert items == [items[0]] + items[1..];
    }
  }

  /** Record ids stay unique after a removal. */
  lemma {:induction false} RemoveKeyUnique<T(!new)>(items: seq<T>, key: T -> int, k: int)
    requires NoDup(Keys(items, key))
    ensures NoDup(Keys(RemoveKey(items, key, k), key))
  {
    if items != [] {
      var ks := Keys(items, key);
      var tail := items[1..];
      assert Keys(tail, key) == ks[1..];
      NoDupTail(ks);
      RemoveKeyUnique(tail, key, k);
      if key(items[0]) != k {
        var r := RemoveKey(tail, key, k);
        KeysOfSubset(r, tail, key);
        assert Keys([items[0]] + r, key) == [key(items[0])] + Keys(r, key) by {
          assert ([items[0]] + r)[1..] == r;
        }
        NoDupCons(key(items[0]), Keys(r, key));
      }
    }
  }

  /** Dropping the head keeps a list duplicate-free, and the head does not recur. */
  lemma NoDupTail(s: seq<int>)
    requires NoDup(s) && s != []
    ensures NoDup(s[1..]) && s[0] !in s[1..]
  {
    forall i, j | 0 <= i < j < |s[1..]| ensures s[1..][i] != s[1..][j] {
      assert s[1..][i] == s[i + 1] && s[1..][j] == s[j + 1];
    }
  }

  /** Putting a new value in front keeps a list duplicate-free. */
  lemma NoDupCons(x: int, s: seq<int>)
    requires NoDup(s) && x !in s
    ensures NoDup([x] + s)
  {
    var full := [x] + s;
    forall i, j | 0 <= i < j < |full| ensures full[i] != full[j] {
      assert full[j] == s[j - 1];
      if i > 0 {
        assert full[i] == s[i - 1];
      }
    }
  }

  /** The ids of a sub-collection are among the ids of the whole. */
  lemma KeysOfSubset<T>(a: seq<T>, b: seq<T>, key: T -> int)
    requires forall x :: x in a ==> x in b
    ensures forall y :: y in Keys(a, key) ==> y in Keys(b, key)
  {
    forall y | y in Keys(a, key) ensures y in Keys(b, key) {
      var m :| 0 <= m < |a| && Keys(a, key)[m] == y;
      KeysMember(b, key, a[m]);
    }
  }

  /**
   * The invariant between a record list and its completed-id list: the completed
   * ids are free of duplicates and each names a record present in the list.
   */
  predicate Tracks<T>(items: seq<T>, key: T -> int, completed: seq<int>) {
    NoDup(completed) && forall c :: c in completed ==> c in Keys(items, key)
  }

  /** Appending a record keeps the invariant. */
  lemma TracksAppend<T>(items: seq<T>, key: T -> int, completed: seq<int>, x: T)
    requires Tracks(items, key, completed)
    ensures Tracks(items + [x], key, completed)
  {
    KeysAppend(items, key, x);
  }

  /** Completing the id of a present record keeps the invariant. */
  lemma TracksAddOnce<T>(items: seq<T>, key: T -> int, completed: seq<int>, k: int)
    requires Tracks(items, key, completed) && k in Keys(items, key)
    ensures Tracks(items, key, AddOnce(completed, k))
  {
  }

  /** Deleting an id from both lists keeps the invariant. */
  lemma TracksRemove<T(!new)>(items: seq<T>, key: T -> int, completed: seq<int>, k: int)
    requires Tracks(items, key, completed)
    ensures Tracks(RemoveKey(items, key, k), key, Remove(completed, k))
  {
    RemoveNoDup(completed, k);
    var kept := RemoveKey(items, key, k);
    forall c | c in Remove(completed, k) ensures c in Keys(kept, key) {
      var ks := Keys(items, key);
      var i :| 0 <= i < |ks| && ks[i] == c;
      assert items[i] in kept;
      KeysMember(kept, key, items[i]);
    }
  }

  /**
   * Under the invariant there are at most as many completed ids as records, so
   * `total - completed` lies in `0..total`.
   */
  lemma {:induction false} TracksBound<T(!new)>(items: seq<T>, key: T -> int, completed: seq<int>)
    requires Tracks(items, key, completed)
    ensures |completed| <= |items|
  {
    if completed != [] {
      var first := completed[0];
      assert first in completed;
      assert first in Keys(items, key);
      var k := key(items[0]);
      var rest := items[1..];
      var fewer := Remove(completed, k);
      RemoveNoDup(completed, k);
      assert Keys(items, key) == [k] + Keys(rest, key);
      assert Tracks(rest, key, fewer);
      TracksBound(rest, key, fewer);
      if k !in completed {
        RemoveAbsent(completed, k);
      }
    }
  }

  /** The records whose id is not in `completed`, in their original order. */
  function Pending<T(!new)>(items: seq<T>, key: T -> int, completed: seq<int>): (r: seq<T>)
    ensures |r| <= |items|
    ensures forall x :: x in r <==> x in items && key(x) !in completed
  {
    if items == [] then []
    else (if key(items[0]) in completed then [] else [items[0]]) + Pending(items[1..], key, completed)
  }

  /** The pending records keep the list's order: the filter distributes over concatenation. */
  lemma {:induction false} PendingConcat<T(!new)>(a: seq<T>, b: seq<T>, key: T -> int, completed: seq<int>)
    ensures Pending(a + b, key, completed) == Pending(a, key, completed) + Pending(b, key, completed)
  {
    if a == [] {
      assert a + b == b;
    } else {
      var ab := a + b;
      assert ab[0] == a[0] && ab[1..] == a[1..] + b;
      PendingConcat(a[1..], b, key, completed);
    }
  }

  /** Two completed lists that agree on the ids of `items` leave the same records pending. */
  lemma {:induction false} PendingAgree<T(!new)>(items: seq<T>, key: T -> int, c1: seq<int>, c2: seq<int>)
    requires forall x :: x in items ==> (key(x) in c1 <==> key(x) in c2)
    ensures Pending(items, key, c1) == Pending(items, key, c2)
  {
    if items != [] {
      PendingAgree(items[1..], key, c1, c2);
    }
  }

  /**
   * With unique record ids and the invariant, the pending records number exactly
   * `total - completed`: the records a view of unfinished items shows are as many
   * as the in-progress count says.
   */
  lemma {:induction false} PendingCount<T(!new)>(items: seq<T>, key: T -> int, completed: seq<int>)
    requires NoDup(Keys(items, key)) && Tracks(items, key, completed)
    ensures |Pending(items, key, completed)| == |items| - |completed|
  {
    if items == [] {
      TracksBound(items, key, completed);
    } else {
      var k := key(items[0]);
      var rest := items[1..];
      var ks := Keys(items, key);
      assert ks == [k] + Keys(rest, key);
      assert NoDup(Keys(rest, key)) by {
        forall i, j | 0 <= i < j < |Keys(rest, key)| ensures Keys(rest, key)[i] != Keys(rest, key)[j] {
          assert Keys(rest, key)[i] == ks[i + 1] && Keys(rest, key)[j] == ks[j + 1];
        }
      }
      assert k !in Keys(rest, key) by {
        forall m | 0 <= m < |Keys(rest, key)| ensures Keys(rest, key)[m] != k {
          assert Keys(rest, key)[m] == ks[m + 1];
        }
      }
      if k in completed {
        var fewer := Remove(completed, k);
        RemoveNoDup(completed, k);
        forall x | x in rest ensures key(x) in completed <==> key(x) in fewer {
          KeysMember(rest, key, x);
        }
        PendingAgree(rest, key, completed, fewer);
        assert Tracks(rest, key, fewer);
        PendingCount(rest, key, fewer);
      } else {
        assert Tracks(rest, key, completed);
        PendingCount(rest, key, completed);
      }
    }
  }
}
