/** Values shared by every part of the model: optional values, Python's
    `item.get('timestamp', 0)`, the time-window filter the detectors and the
    store apply, and the stable sort that `list.sort(key=...)` performs. */
module Common {

  datatype Option<T> = None | Some(value: T)

  /** A timestamp read with `.get('timestamp', 0)`: a missing one counts as 0. */
  function TimeOf(t: Option<real>): real {
    match t
    case Some(v) => v
    case None => 0.0
  }

  /* ---------------------------------------------------------------------- */
  /* Time-window filtering: `[x for x in s if x.get('timestamp', 0) > cutoff]` */
  /* ---------------------------------------------------------------------- */

  /** The elements of `s` whose timestamp is STRICTLY after `cutoff`, in their
      original order. `time` is the record's timestamp field. */
  function Within<T(!new)>(s: seq<T>, time: T -> Option<real>, cutoff: real): (r: seq<T>)
    ensures |r| <= |s|
    ensures forall x :: x in r <==> x in s && TimeOf(time(x)) > cutoff
  {
    if s == [] then []
    else (if TimeOf(time(s[0])) > cutoff then [s[0]] else []) + Within(s[1..], time, cutoff)
  }

  /** Filtering distributes over concatenation: the order of what is kept
      is the order of the input. */
  lemma {:induction false} WithinConcat<T(!new)>(a: seq<T>, b: seq<T>, time: T -> Option<real>, cutoff: real)
    ensures Within(a + b, time, cutoff) == Within(a, time, cutoff) + Within(b, time, cutoff)
    decreases |a|
  {
    if a != [] {
      var head := if TimeOf(time(a[0])) > cutoff then [a[0]] else [];
      assert (a + b)[0] == a[0] && (a + b)[1..] == a[1..] + b;
      calc {
        Within(a + b, time, cutoff);
        head + Within(a[1..] + b, time, cutoff);
        { WithinConcat(a[1..], b, time, cutoff); }
        head + (Within(a[1..], time, cutoff) + Within(b, time, cutoff));
        (head + Within(a[1..], time, cutoff)) + Within(b, time, cutoff);
      }
    } else {
      assert a + b == b;
    }
  }

  /** Filtering twice with the same cutoff is filtering once. */
  lemma {:induction false} WithinIdempotent<T(!new)>(s: seq<T>, time: T -> Option<real>, cutoff: real)
    ensures Within(Within(s, time, cutoff), time, cutoff) == Within(s, time, cutoff)
    decreases |s|
  {
    if s != [] {
      WithinIdempotent(s[1..], time, cutoff);
      var head := if TimeOf(time(s[0])) > cutoff then [s[0]] else [];
      WithinConcat(head, Within(s[1..], time, cutoff), time, cutoff);
    }
  }

  /* ---------------------------------------------------------------------- */
  /* Stable sort by a real-valued key                                       */
  /* ---------------------------------------------------------------------- */

  ghost predicate SortedBy<T>(s: seq<T>, key: T -> real) {
    forall i, j :: 0 <= i < j < |s| ==> key(s[i]) <= key(s[j])
  }

  /** Puts `x` in front of the first element whose key is not smaller, so an
      element inserted earlier stays ahead of later ones with an equal key. */
  function InsertBy<T>(x: T, s: seq<T>, key: T -> real): (r: seq<T>)
    requires SortedBy(s, key)
    ensures SortedBy(r, key)
    ensures |r| == |s| + 1
    ensures r[0] == x || (|s| > 0 && r[0] == s[0])
  {
    if s == [] then [x]
    else if key(s[0]) >= key(x) then [x] + s
    else
      var rest := InsertBy(x, s[1..], key);
      assert key(s[0]) <= key(rest[0]);
      [s[0]] + rest
  }

  /** The result of Python's stable `list.sort(key=key)`: insertion sort from
      the back, which keeps equal-key elements in their input order. */
  function SortBy<T>(s: seq<T>, key: T -> real): (r: seq<T>)
    ensures SortedBy(r, key)
    ensures |r| == |s|
  {
    if s == [] then []
    else InsertBy(s[0], SortBy(s[1..], key), key)
  }

  lemma {:induction false} InsertByPermutes<T>(x: T, s: seq<T>, key: T -> real)
    requires SortedBy(s, key)
    ensures multiset(InsertBy(x, s, key)) == multiset(s) + multiset{x}
  {
    if s != [] && key(s[0]) < key(x) {
      InsertByPermutes(x, s[1..], key);
      assert s == [s[0]] + s[1..];
    }
  }

  /** Sorting rearranges the elements and keeps every one of them. */
  lemma {:induction false} SortByPermutes<T>(s: seq<T>, key: T -> real)
    ensures multiset(SortBy(s, key)) == multiset(s)
  {
    if s != [] {
      SortByPermutes(s[1..], key);
      InsertByPermutes(s[0], SortBy(s[1..], key), key);
      assert s == [s[0]] + s[1..];
    }
  }

  /** The elements of `s` whose key is `v`, in their order in `s`. */
  function WithKey<T>(s: seq<T>, key: T -> real, v: real): (r: seq<T>)
    ensures |r| <= |s|
    ensures forall i :: 0 <= i < |r| ==> key(r[i]) == v
  {
    if s == [] then []
    else (if key(s[0]) == v then [s[0]] else []) + WithKey(s[1..], key, v)
  }

  /** Inserting `x` puts it ahead of every element with the same key and
      leaves the order of the others alone. */
  lemma {:induction false} InsertByWithKey<T>(x: T, s: seq<T>, key: T -> real, v: real)
    requires SortedBy(s, key)
    ensures WithKey(InsertBy(x, s, key), key, v) == (if key(x) == v then [x] else []) + WithKey(s, key, v)
  {
    if s == [] {
    } else if key(s[0]) >= key(x) {
      assert ([x] + s)[1..] == s;
    } else {
      var rest := InsertBy(x, s[1..], key);
      assert ([s[0]] + rest)[1..] == rest;
      InsertByWithKey(x, s[1..], key, v);
    }
  }

  /** The sort is stable: for every key value, the elements carrying it
      come out in the order they went in. */
  lemma {:induction false} SortByStable<T>(s: seq<T>, key: T -> real, v: real)
    ensures WithKey(SortBy(s, key), key, v) == WithKey(s, key, v)
  {
    if s != [] {
      SortByStable(s[1..], key, v);
      InsertByWithKey(s[0], SortBy(s[1..], key), key, v);
    }
  }

  /** `InsertBy` keeps the `i`-th element of `s`, at some index `k`. */
  lemma {:induction false} InsertByKeeps<T>(x: T, s: seq<T>, key: T -> real, i: int) returns (k: int)
    requires SortedBy(s, key) && 0 <= i < |s|
    ensures 0 <= k <= |s| && InsertBy(x, s, key)[k] == s[i]
  {
    if key(s[0]) >= key(x) {
      k := i + 1;
    } else if i == 0 {
      k := 0;
    } else {
      var k' := InsertByKeeps(x, s[1..], key, i - 1);
      k := k' + 1;
    }
  }

  /** `InsertBy` places `x` at some index `k`. */
  lemma {:induction false} InsertByPlaces<T>(x: T, s: seq<T>, key: T -> real) returns (k: int)
    requires SortedBy(s, key)
    ensures 0 <= k <= |s| && InsertBy(x, s, key)[k] == x
  {
    if s == [] || key(s[0]) >= key(x) {
      k := 0;
    } else {
      var k' := InsertByPlaces(x, s[1..], key);
      k := k' + 1;
    }
  }

  /** Every element of `InsertBy(x, s)` is `x` (reported as -1) or the
      `i`-th element of `s`. */
  lemma {:induction false} InsertByFrom<T>(x: T, s: seq<T>, key: T -> real, k: int) returns (i: int)
    requires SortedBy(s, key) && 0 <= k <= |s|
    ensures (i == -1 && InsertBy(x, s, key)[k] == x) || (0 <= i < |s| && InsertBy(x, s, key)[k] == s[i])
  {
    if s == [] {
      i := -1;
    } else if key(s[0]) >= key(x) {
      i := k - 1;
    } else if k == 0 {
      i := 0;
    } else {
      var i' := InsertByFrom(x, s[1..], key, k - 1);
      i := if i' == -1 then -1 else i' + 1;
    }
  }

  /** Sorting keeps the `i`-th element of `s`, at some index `k`. */
  lemma {:induction false} SortByKeeps<T>(s: seq<T>, key: T -> real, i: int) returns (k: int)
    requires 0 <= i < |s|
    ensures 0 <= k < |s| && SortBy(s, key)[k] == s[i]
  {
    if i == 0 {
      k := InsertByPlaces(s[0], SortBy(s[1..], key), key);
    } else {
      var k' := SortByKeeps(s[1..], key, i - 1);
      k := InsertByKeeps(s[0], SortBy(s[1..], key), key, k');
    }
  }

  /** The `k`-th element of the sorted sequence is some element `i` of `s`. */
  lemma {:induction false} SortByFrom<T>(s: seq<T>, key: T -> real, k: int) returns (i: int)
    requires 0 <= k < |s|
    ensures 0 <= i < |s| && SortBy(s, key)[k] == s[i]
  {
    var j := InsertByFrom(s[0], SortBy(s[1..], key), key, k);
    if j == -1 {
      i := 0;
    } else {
      var i' := SortByFrom(s[1..], key, j);
      i := i' + 1;
    }
  }

  /** In a sorted sequence holding the elements of `s`, the last element
      minus the first bounds every difference between elements of `s`, and is
      itself such a difference: `max - min` of `s`. */
  lemma SortedSpan<T>(s: seq<T>, key: T -> real, i: int, j: int)
    requires 0 <= i < |s| && 0 <= j < |s|
    ensures key(s[i]) - key(s[j]) <= key(SortBy(s, key)[|s| - 1]) - key(SortBy(s, key)[0])
  {
    var r := SortBy(s, key);
    var a := SortByKeeps(s, key, i);
    var b := SortByKeeps(s, key, j);
    var lo, hi, x, y := key(r[0]), key(r[|s| - 1]), key(s[i]), key(s[j]);
    assert lo <= y by { assert key(r[b]) == y; }
    assert x <= hi by { assert key(r[a]) == x; }
  }

  /** The first and the last element of the sorted sequence come from `s`. */
  lemma SortedEndsFrom<T>(s: seq<T>, key: T -> real)
    requires |s| > 0
    ensures exists i, j :: 0 <= i < |s| && 0 <= j < |s| && SortBy(s, key)[|s| - 1] == s[i] && SortBy(s, key)[0] == s[j]
  {
    var i := SortByFrom(s, key, |s| - 1);
    var j := SortByFrom(s, key, 0);
    assert 0 <= i < |s| && 0 <= j < |s| && SortBy(s, key)[|s| - 1] == s[i] && SortBy(s, key)[0] == s[j];
  }
}
