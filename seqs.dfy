/** `Array.prototype.filter` and `Array.prototype.find` over sequences. */
module Seqs {
  import opened Wrappers

  /** `s.filter(f)`: the elements satisfying `f`, in their original order. */
  function Filter<T(!new)>(s: seq<T>, f: T -> bool): (r: seq<T>)
    ensures |r| <= |s|
    ensures forall x :: x in r <==> x in s && f(x)
  {
    if |s| == 0 then [] else (if f(s[0]) then [s[0]] else []) + Filter(s[1..], f)
  }

  /** Filtering distributes over concatenation: kept elements keep their relative order. */
  lemma {:induction false} FilterConcat<T(!new)>(a: seq<T>, b: seq<T>, f: T -> bool)
    ensures Filter(a + b, f) == Filter(a, f) + Filter(b, f)
  {
    if |a| > 0 {
      assert (a + b)[0] == a[0];
      assert (a + b)[1..] == a[1..] + b;
      FilterConcat(a[1..], b, f);
      var head := if f(a[0]) then [a[0]] else [];
      calc {
        Filter(a + b, f);
        head + Filter(a[1..] + b, f);
        head + (Filter(a[1..], f) + Filter(b, f));
        (head + Filter(a[1..], f)) + Filter(b, f);
      }
    } else {
      assert a + b == b;
    }
  }

  /** Filtering with a predicate that every element satisfies changes nothing. */
  lemma {:induction false} FilterAll<T(!new)>(s: seq<T>, f: T -> bool)
    requires forall i :: 0 <= i < |s| ==> f(s[i])
    ensures Filter(s, f) == s
  {
    if |s| > 0 {
      FilterAll(s[1..], f);
    }
  }

  /** The number of elements satisfying `f`. */
  function Count<T(!new)>(s: seq<T>, f: T -> bool): nat {
    |Filter(s, f)|
  }

  /** `s.findIndex(f)`, with `None` for -1: the first position whose element satisfies `f`. */
  function FirstIndex<T>(s: seq<T>, f: T -> bool): (r: Option<nat>)
    ensures r.Some? ==> r.value < |s| && f(s[r.value]) && forall j :: 0 <= j < r.value ==> !f(s[j])
    ensures r.None? <==> forall j :: 0 <= j < |s| ==> !f(s[j])
  {
    if |s| == 0 then None
    else if f(s[0]) then Some(0)
    else
      match FirstIndex(s[1..], f)
      case None => None
      case Some(k) => Some(k + 1)
  }

  /** `s.find(f)`: the first element satisfying `f`. */
  function Find<T>(s: seq<T>, f: T -> bool): (r: Option<T>)
    ensures r.Some? ==> r.value in s && f(r.value)
    ensures r.Some? ==> exists k :: 0 <= k < |s| && s[k] == r.value && forall j :: 0 <= j < k ==> !f(s[j])
    ensures r.None? <==> forall j :: 0 <= j < |s| ==> !f(s[j])
  {
    match FirstIndex(s, f)
    case None => None
    case Some(k) => Some(s[k])
  }

  /** Appending an element never changes a successful `find`, and changes a failed
      one only when the new element satisfies `f`. */
  lemma {:induction false} FindAppend<T>(s: seq<T>, x: T, f: T -> bool)
    ensures Find(s + [x], f) == if Find(s, f).Some? then Find(s, f) else if f(x) then Some(x) else None
  {
    if |s| > 0 {
      assert (s + [x])[0] == s[0];
      assert (s + [x])[1..] == s[1..] + [x];
      if !f(s[0]) {
        FindAppend(s[1..], x, f);
        FindTail(s, f);
        FindTail(s + [x], f);
      }
    } else {
      assert s + [x] == [x];
    }
  }

  lemma FindTail<T>(s: seq<T>, f: T -> bool)
    requires |s| > 0 && !f(s[0])
    ensures Find(s, f) == Find(s[1..], f)
  {
    match FirstIndex(s[1..], f)
    case None =>
    case Some(k) => assert s[1..][k] == s[k + 1];
  }

  /** `rows` after skipping `offset` and keeping at most `limit` (SQL OFFSET / LIMIT). */
  function Page<T>(rows: seq<T>, limit: Option<nat>, offset: nat): (r: seq<T>)
    ensures limit.Some? ==> |r| <= limit.value
    ensures |r| <= |rows|
    ensures |r| == if offset >= |rows| then 0
                   else if limit.Some? && limit.value < |rows| - offset then limit.value
                   else |rows| - offset
    ensures forall i :: 0 <= i < |r| ==> offset + i < |rows| && r[i] == rows[offset + i]
  {
    var rest := if offset <= |rows| then rows[offset..] else [];
    if limit.Some? && limit.value < |rest| then rest[..limit.value] else rest
  }

  /** A page without limit or offset is the whole sequence. */
  lemma PageWhole<T>(rows: seq<T>)
    ensures Page(rows, None, 0) == rows
  {
  }

  /** A page holds only elements of the sequence. */
  lemma PageWithin<T>(rows: seq<T>, limit: Option<nat>, offset: nat)
    ensures forall x :: x in Page(rows, limit, offset) ==> x in rows
  {
  }
}
