/**
 * A Redis sorted set (`auction:{id}:rank`) as the list ZREVRANGE walks:
 * members by score from high to low, members with equal scores in reverse
 * byte order. ZADD replaces a member's score; ZREVRANGE reads a window by
 * Redis's index rules, where a negative index counts from the end.
 */
module RedisZSet {
  import opened Common

  datatype Entry = Entry(member: string, score: real)

  /** Lexicographic order on member names. */
  predicate StrLess(a: string, b: string)
  {
    if a == [] then b != []
    else if b == [] then false
    else if a[0] != b[0] then a[0] < b[0]
    else StrLess(a[1..], b[1..])
  }

  lemma {:induction false} StrLessIrreflexive(a: string)
    ensures !StrLess(a, a)
  {
    if a != [] { StrLessIrreflexive(a[1..]); }
  }

  lemma {:induction false} StrLessTotal(a: string, b: string)
    requires a != b
    ensures StrLess(a, b) || StrLess(b, a)
  {
    if a != [] && b != [] && a[0] == b[0] {
      assert a == [a[0]] + a[1..] && b == [b[0]] + b[1..];
      StrLessTotal(a[1..], b[1..]);
    }
  }

  lemma {:induction false} StrLessTransitive(a: string, b: string, c: string)
    requires StrLess(a, b) && StrLess(b, c)
    ensures StrLess(a, c)
  {
    if a != [] && a[0] == b[0] && b[0] == c[0] {
      StrLessTransitive(a[1..], b[1..], c[1..]);
    }
  }

  /** `x` is listed before `y` by ZREVRANGE. */
  predicate Precedes(x: Entry, y: Entry)
  {
    x.score > y.score || (x.score == y.score && StrLess(y.member, x.member))
  }

  lemma PrecedesTransitive(x: Entry, y: Entry, z: Entry)
    requires Precedes(x, y) && Precedes(y, z)
    ensures Precedes(x, z)
  {
    if x.score == y.score == z.score {
      StrLessTransitive(z.member, y.member, x.member);
    }
  }

  /** The list is in ZREVRANGE order and names each member once. */
  predicate Valid(z: seq<Entry>)
  {
    && (forall i, j :: 0 <= i < j < |z| ==> Precedes(z[i], z[j]))
    && (forall i, j :: 0 <= i < j < |z| ==> z[i].member != z[j].member)
  }

  predicate Has(z: seq<Entry>, member: string)
  {
    exists i :: 0 <= i < |z| && z[i].member == member
  }

  /** Scores never increase along the listing. */
  lemma ValidScoresNonIncreasing(z: seq<Entry>, i: int, j: int)
    requires Valid(z) && 0 <= i <= j < |z|
    ensures z[i].score >= z[j].score
  {
  }

  /** The entries of `z` whose member is not `member`, in the same order (ZREM). */
  function Remove(z: seq<Entry>, member: string): (r: seq<Entry>)
    requires Valid(z)
    ensures Valid(r) && !Has(r, member)
    ensures forall e :: e in r <==> e in z && e.member != member
    ensures |r| == if Has(z, member) then |z| - 1 else |z|
  {
    if z == [] then []
    else
      var rest := Remove(z[1..], member);
      assert Has(z, member) <==> z[0].member == member || Has(z[1..], member) by {
        if Has(z, member) {
          var i :| 0 <= i < |z| && z[i].member == member;
          if i > 0 { assert z[1..][i - 1].member == member; }
        }
      }
      if z[0].member == member then
        assert !Has(z[1..], member);
        rest
      else
        var r := [z[0]] + rest;
        assert forall j :: 0 < j < |r| ==> r[j] in z[1..];
        r
  }

  /** Places `e` where the order wants it. */
  function Insert(z: seq<Entry>, e: Entry): (r: seq<Entry>)
    requires Valid(z) && !Has(z, e.member)
    ensures Valid(r) && |r| == |z| + 1
    ensures forall x :: x in r <==> x in z || x == e
  {
    if z == [] then [e]
    else if Precedes(e, z[0]) then
      var r := [e] + z;
      assert forall j :: 0 < j < |r| ==> r[j] == z[j - 1];
      forall j | 0 < j < |r| ensures Precedes(e, r[j]) {
        if j > 1 { PrecedesTransitive(e, z[0], z[j - 1]); }
      }
      r
    else
      var rest := Insert(z[1..], e);
      var r := [z[0]] + rest;
      assert Precedes(z[0], e) by {
        assert z[0].member != e.member;
        if z[0].score == e.score { StrLessTotal(z[0].member, e.member); }
      }
      assert forall j :: 0 < j < |r| ==> r[j] in z[1..] || r[j] == e;
      r
  }

  /** ZADD member score: the member's old entry, if any, gives way to the new one. */
  function ZAdd(z: seq<Entry>, member: string, score: real): (r: seq<Entry>)
    requires Valid(z)
    ensures Valid(r) && Has(r, member)
    ensures forall e :: e in r <==> (e in z && e.member != member) || e == Entry(member, score)
    ensures |r| == if Has(z, member) then |z| else |z| + 1
  {
    var r := Insert(Remove(z, member), Entry(member, score));
    assert r[0] in r;
    r
  }

  /**
   * ZREVRANGE key start stop: negative indexes count from the end, the
   * stop index is clamped to the last element, and an empty window gives [].
   */
  function ZRevRange(z: seq<Entry>, start: int, stop: int): (r: seq<Entry>)
    ensures |r| <= |z|
  {
    var n := |z|;
    var s := if start < 0 then MaxInt(n + start, 0) else start;
    var e := if stop < 0 then n + stop else stop;
    var e' := if e >= n then n - 1 else e;
    if s > e' || s >= n then [] else z[s..e' + 1]
  }

  /** The window getRawRankings asks for with k >= 1 is the first min(k, n) entries. */
  lemma TopWindow(z: seq<Entry>, k: int)
    requires k >= 1
    ensures ZRevRange(z, 0, k - 1) == z[..MinInt(k, |z|)]
  {
  }

  /** Any ZREVRANGE window of a well-formed set is itself in order with unique members. */
  lemma WindowValid(z: seq<Entry>, start: int, stop: int)
    requires Valid(z)
    ensures Valid(ZRevRange(z, start, stop))
  {
    var r := ZRevRange(z, start, stop);
    if r != [] {
      var n := |z|;
      var s := if start < 0 then MaxInt(n + start, 0) else start;
      forall i, j | 0 <= i < j < |r| ensures Precedes(r[i], r[j]) && r[i].member != r[j].member {
        assert r[i] == z[s + i] && r[j] == z[s + j];
      }
    }
  }

  /** With k == 0 the stop index is -1, the last element: the window is the whole set. */
  lemma ZeroKWindowIsEverything(z: seq<Entry>)
    ensures ZRevRange(z, 0, -1) == z
  {
  }
}
