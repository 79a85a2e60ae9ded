/**
 * The array operations the admin editor applies to ordered lists: the
 * position filter `list.filter((_, i) => i !== index)`, and, over lists of
 * records carrying an id, `filter(r => r.id !== id)`, `map(r => r.id === id ?
 * f(r) : r)` and `find(r => r.id === id)`. Each is written as the
 * element-by-element recursion the array method performs.
 */
module Records {
  import opened Wrappers

  /** `s.filter((_, i) => i !== index)`: keep every element whose position is not `index`. */
  function DropIndex<T>(s: seq<T>, index: int): (r: seq<T>)
    ensures |r| <= |s|
  {
    if s == [] then [] else (if index == 0 then [] else [s[0]]) + DropIndex(s[1..], index - 1)
  }

  /**
   * Removing position `index` deletes exactly that element and keeps the
   * others in order; an index outside the list leaves it unchanged.
   */
  lemma {:induction false} DropIndexRemovesExactlyOne<T>(s: seq<T>, index: int)
    ensures 0 <= index < |s| ==> DropIndex(s, index) == s[..index] + s[index + 1..]
    ensures !(0 <= index < |s|) ==> DropIndex(s, index) == s
  {
    if s != [] {
      DropIndexRemovesExactlyOne(s[1..], index - 1);
      if 0 < index < |s| {
        assert s[1..][..index - 1] == s[1..index];
        assert s[1..][index..] == s[index + 1..];
        assert [s[0]] + s[1..index] == s[..index];
      }
    }
  }

  /** `s.filter(r => key(r) !== id)`. */
  function RemoveById<T(==)>(s: seq<T>, key: T -> string, id: string): (r: seq<T>)
    ensures |r| <= |s|
  {
    if s == [] then []
    else (if key(s[0]) == id then [] else [s[0]]) + RemoveById(s[1..], key, id)
  }

  /** Survivors are records of the input without the id, and every record with another id survives. */
  lemma {:induction false} RemoveByIdMembers<T>(s: seq<T>, key: T -> string, id: string)
    ensures forall x | x in RemoveById(s, key, id) :: x in s && key(x) != id
    ensures forall i | 0 <= i < |s| && key(s[i]) != id :: s[i] in RemoveById(s, key, id)
  {
    if s != [] {
      RemoveByIdMembers(s[1..], key, id);
      forall i | 1 <= i < |s| ensures s[i] == s[1..][i - 1] {}
    }
  }

  /** Filtering distributes over concatenation: survivors keep their relative order. */
  lemma {:induction false} RemoveByIdAppend<T>(a: seq<T>, b: seq<T>, key: T -> string, id: string)
    ensures RemoveById(a + b, key, id) == RemoveById(a, key, id) + RemoveById(b, key, id)
  {
    if a == [] {
      assert a + b == b;
    } else {
      assert (a + b)[1..] == a[1..] + b;
      RemoveByIdAppend(a[1..], b, key, id);
    }
  }

  /** A filter that matches nothing returns the list unchanged. */
  lemma {:induction false} RemoveByIdAbsent<T>(s: seq<T>, key: T -> string, id: string)
    requires forall i | 0 <= i < |s| :: key(s[i]) != id
    ensures RemoveById(s, key, id) == s
  {
    if s != [] {
      RemoveByIdAbsent(s[1..], key, id);
    }
  }

  /** No two records of `s` share an id. */
  predicate UniqueIds<T>(s: seq<T>, key: T -> string) {
    forall i, j | 0 <= i < j < |s| :: key(s[i]) != key(s[j])
  }

  /**
   * With unique ids, removing the id of the record at position `k` deletes
   * exactly that record and keeps the others in their original order.
   */
  lemma {:induction false} RemoveByIdAt<T>(s: seq<T>, key: T -> string, k: nat)
    requires UniqueIds(s, key)
    requires k < |s|
    ensures RemoveById(s, key, key(s[k])) == s[..k] + s[k + 1..]
  {
    var id, tail := key(s[k]), s[1..];
    if k == 0 {
      forall i | 0 <= i < |tail| ensures key(tail[i]) != id {
        assert tail[i] == s[i + 1];
      }
      RemoveByIdAbsent(tail, key, id);
    } else {
      UniqueIdsTail(s, key);
      assert tail[k - 1] == s[k];
      RemoveByIdAt(tail, key, k - 1);
      assert key(s[0]) != id;
      assert [s[0]] + (tail[..k - 1] + tail[k..]) == s[..k] + s[k + 1..];
    }
  }

  /** Dropping the first record keeps ids unique. */
  lemma UniqueIdsTail<T>(s: seq<T>, key: T -> string)
    requires UniqueIds(s, key) && s != []
    ensures UniqueIds(s[1..], key)
  {
    forall i, j | 0 <= i < j < |s| - 1 ensures key(s[1..][i]) != key(s[1..][j]) {
      assert s[1..][i] == s[i + 1] && s[1..][j] == s[j + 1];
    }
  }


  /** Filtering keeps ids unique. */
  lemma {:induction false} RemoveByIdKeepsUnique<T>(s: seq<T>, key: T -> string, id: string)
    requires UniqueIds(s, key)
    ensures UniqueIds(RemoveById(s, key, id), key)
  {
    if s != [] {
      var tail := s[1..];
      var rest := RemoveById(tail, key, id);
      RemoveByIdKeepsUnique(tail, key, id);
      RemoveByIdMembers(tail, key, id);
      forall j | 0 <= j < |rest| ensures key(rest[j]) != key(s[0]) {
        assert rest[j] in rest;
        var m :| 0 <= m < |tail| && tail[m] == rest[j];
        assert tail[m] == s[m + 1];
      }
      var r := RemoveById(s, key, id);
      if key(s[0]) != id {
        assert r == [s[0]] + rest;
        forall i, j | 0 <= i < j < |r| ensures key(r[i]) != key(r[j]) {
          if i > 0 {
            assert r[i] == rest[i - 1] && r[j] == rest[j - 1];
          } else {
            assert r[j] == rest[j - 1];
          }
        }
      } else {
        assert r == rest;
      }
    }
  }

  /** `s.map(r => key(r) === id ? f(r) : r)`. */
  function UpdateById<T(==)>(s: seq<T>, key: T -> string, id: string, f: T -> T): (r: seq<T>)
    ensures |r| == |s|
    ensures forall i | 0 <= i < |s| :: key(s[i]) != id ==> r[i] == s[i]
    ensures forall i | 0 <= i < |s| :: key(s[i]) == id ==> r[i] == f(s[i])
  {
    if s == [] then []
    else [if key(s[0]) == id then f(s[0]) else s[0]] + UpdateById(s[1..], key, id, f)
  }

  /** An update that never changes a record's id keeps every position's id, so unique ids stay unique. */
  lemma UpdateByIdKeepsKeys<T>(s: seq<T>, key: T -> string, id: string, f: T -> T)
    requires forall x :: key(f(x)) == key(x)
    ensures forall i | 0 <= i < |s| :: key(UpdateById(s, key, id, f)[i]) == key(s[i])
    ensures UniqueIds(UpdateById(s, key, id, f), key) <==> UniqueIds(s, key)
  {
    var r := UpdateById(s, key, id, f);
    assert forall i | 0 <= i < |s| :: key(r[i]) == key(s[i]) by {
      forall i | 0 <= i < |s| ensures key(r[i]) == key(s[i]) {
        if key(s[i]) == id {
          assert key(f(s[i])) == key(s[i]);
        }
      }
    }
  }

  /** `s.find(r => key(r) === id)`: the first record with that id, if any. */
  function FindById<T(==)>(s: seq<T>, key: T -> string, id: string): (r: Option<T>)
    ensures r.None? <==> forall i | 0 <= i < |s| :: key(s[i]) != id
    ensures r.Some? ==> r.value in s && key(r.value) == id
    ensures r.Some? ==> exists k | 0 <= k < |s| :: s[k] == r.value && key(s[k]) == id
                                                 && forall j | 0 <= j < k :: key(s[j]) != id
  {
    if s == [] then None
    else if key(s[0]) == id then Some(s[0])
    else FindById(s[1..], key, id)
  }

  /** With unique ids, `find` returns the one record carrying the id. */
  lemma {:induction false} FindByIdUnique<T>(s: seq<T>, key: T -> string, k: nat)
    requires UniqueIds(s, key)
    requires k < |s|
    ensures FindById(s, key, key(s[k])) == Some(s[k])
  {
    if k > 0 {
      FindByIdUnique(s[1..], key, k - 1);
    }
  }
}
