/** The few list operations of the Kotlin standard library that the core relies on. */
module Collections {
  import opened Wrappers

  /**
   * `indexOfFirst { p(it) }` (with -1 as `None`), which is also what `firstOrNull`
   * looks up: the lowest index whose element satisfies `p`.
   */
  function FirstIndex<T>(s: seq<T>, p: T -> bool): (r: Option<nat>)
    ensures r.Some? ==> r.value < |s| && p(s[r.value])
    ensures r.Some? ==> forall j :: 0 <= j < r.value ==> !p(s[j])
    ensures r.None? <==> forall j :: 0 <= j < |s| ==> !p(s[j])
  {
    if |s| == 0 then None
    else if p(s[0]) then Some(0)
    else match FirstIndex(s[1..], p)
      case None => None
      case Some(k) => Some(k + 1)
  }

  /** `firstOrNull { p(it) }` */
  function FirstOrNull<T>(s: seq<T>, p: T -> bool): (r: Option<T>)
    ensures r.Some? <==> exists j :: 0 <= j < |s| && p(s[j])
    ensures r.Some? ==> p(r.value) && r.value in s
    ensures r.Some? ==> exists i :: 0 <= i < |s| && s[i] == r.value && forall j :: 0 <= j < i ==> !p(s[j])
  {
    match FirstIndex(s, p)
    case None => None
    case Some(i) => Some(s[i])
  }

  /** `partition { p(it) }`: the elements satisfying `p`, and the rest, each in their original order. */
  function Partition<T>(s: seq<T>, p: T -> bool): (r: (seq<T>, seq<T>))
    ensures |r.0| + |r.1| == |s|
    ensures forall i :: 0 <= i < |r.0| ==> p(r.0[i])
    ensures forall i :: 0 <= i < |r.1| ==> !p(r.1[i])
  {
    if |s| == 0 then ([], [])
    else
      var (yes, no) := Partition(s[1..], p);
      if p(s[0]) then ([s[0]] + yes, no) else (yes, [s[0]] + no)
  }

  /** Together the two parts are a permutation of the input: nothing is lost or duplicated. */
  lemma {:induction false} PartitionPermutes<T>(s: seq<T>, p: T -> bool)
    ensures multiset(Partition(s, p).0) + multiset(Partition(s, p).1) == multiset(s)
  {
    if |s| > 0 {
      PartitionPermutes(s[1..], p);
      assert s == [s[0]] + s[1..];
    }
  }

  /** Partitioning a concatenation partitions each half: both parts keep the input's order. */
  lemma {:induction false} PartitionConcat<T>(s: seq<T>, t: seq<T>, p: T -> bool)
    ensures Partition(s + t, p) == (Partition(s, p).0 + Partition(t, p).0, Partition(s, p).1 + Partition(t, p).1)
  {
    if |s| > 0 {
      PartitionConcat(s[1..], t, p);
      assert (s + t)[0] == s[0] && (s + t)[1..] == s[1..] + t;
      var rest, tail := Partition(s[1..], p), Partition(t, p);
      if p(s[0]) {
        assert Partition(s + t, p).0 == [s[0]] + (rest.0 + tail.0) == ([s[0]] + rest.0) + tail.0;
      } else {
        assert Partition(s + t, p).1 == [s[0]] + (rest.1 + tail.1) == ([s[0]] + rest.1) + tail.1;
      }
    } else {
      assert s + t == t;
      assert Partition(s, p) == ([], []);
      assert [] + Partition(t, p).0 == Partition(t, p).0 && [] + Partition(t, p).1 == Partition(t, p).1;
    }
  }

  /**
   * Every element of either part comes from `s`, and every element of `s`
   * lands in the part its predicate value selects.
   */
  lemma PartitionMembership<T>(s: seq<T>, p: T -> bool)
    ensures var r := Partition(s, p);
      && (forall i :: 0 <= i < |r.0| ==> r.0[i] in s)
      && (forall i :: 0 <= i < |r.1| ==> r.1[i] in s)
      && (forall i :: 0 <= i < |s| ==> if p(s[i]) then s[i] in r.0 else s[i] in r.1)
  {
    var r := Partition(s, p);
    PartitionPermutes(s, p);
    forall i | 0 <= i < |r.0| ensures r.0[i] in s {
      assert r.0[i] in multiset(r.0);
      assert multiset(s)[r.0[i]] == multiset(r.0)[r.0[i]] + multiset(r.1)[r.0[i]];
    }
    forall i | 0 <= i < |r.1| ensures r.1[i] in s {
      assert r.1[i] in multiset(r.1);
      assert multiset(s)[r.1[i]] == multiset(r.0)[r.1[i]] + multiset(r.1)[r.1[i]];
    }
    forall i | 0 <= i < |s| ensures if p(s[i]) then s[i] in r.0 else s[i] in r.1 {
      assert s[i] in multiset(s);
      if p(s[i]) {
        assert s[i] !in multiset(r.1);
      } else {
        assert s[i] !in multiset(r.0);
      }
    }
  }
}
