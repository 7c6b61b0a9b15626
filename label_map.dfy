/**
 * The JavaScript `Map<string, {x: string, y: number}>` that the podcast chart fills.
 * A JavaScript `Map` remembers insertion order: `set` on a key that is already present
 * replaces its value in place, `set` on a new key appends it, and `values()` lists the
 * values in that order. The map is modelled as the sequence of its values; since every
 * stored value is `{x: key, y: ...}`, the key of an entry is its `x`.
 */
module LabelMap {
  import opened Wrappers

  /** One chart point: the window label `x` and the window total `y`. */
  datatype Point = Point(x: string, y: int)

  /** No two entries share a key. */
  ghost predicate DistinctKeys(m: seq<Point>) {
    forall i, j :: 0 <= i < j < |m| ==> m[i].x != m[j].x
  }

  /** Position of `key` among the entries, or `|m|` when it is absent. */
  function Find(m: seq<Point>, key: string): (i: nat)
    ensures i <= |m|
    ensures i < |m| ==> m[i].x == key
    ensures forall j :: 0 <= j < i ==> m[j].x != key
  {
    if |m| == 0 then 0
    else if m[0].x == key then 0
    else 1 + Find(m[1..], key)
  }

  /** `Map.prototype.get`: the value stored under `key`, if any. */
  function Get(m: seq<Point>, key: string): (r: Option<int>)
    ensures r.None? <==> forall j :: 0 <= j < |m| ==> m[j].x != key
    ensures r.Some? ==> exists j :: 0 <= j < |m| && m[j] == Point(key, r.value)
  {
    var i := Find(m, key);
    if i < |m| then Some(m[i].y) else None
  }

  /**
   * `Map.prototype.set(key, {x: key, y})`: an existing entry keeps its position and
   * takes the new value; a new key is appended after all the others.
   */
  function Set(m: seq<Point>, key: string, y: int): (r: seq<Point>)
    ensures |r| == if Get(m, key).Some? then |m| else |m| + 1
    ensures forall i :: 0 <= i < |m| ==> r[i].x == m[i].x
    ensures |r| > |m| ==> r[|m|] == Point(key, y)
    ensures Get(m, key).Some? ==> r[Find(m, key)] == Point(key, y)
    ensures forall i :: 0 <= i < |r| ==> r[i] == Point(key, y) || (i < |m| && r[i] == m[i])
    ensures DistinctKeys(m) ==> DistinctKeys(r)
  {
    var i := Find(m, key);
    if i < |m| then m[i := Point(key, y)] else m + [Point(key, y)]
  }

  /** `get` after `set`: the key reads back the value just stored, other keys are untouched. */
  lemma {:induction false} GetSet(m: seq<Point>, key: string, y: int)
    ensures Get(Set(m, key, y), key) == Some(y)
    ensures forall other :: other != key ==> Get(Set(m, key, y), other) == Get(m, other)
  {
    var r := Set(m, key, y);
    var i := Find(m, key);
    FindIsLeast(r, key, if i < |m| then i else |m|);
    forall other | other != key ensures Get(r, other) == Get(m, other) {
      var j := Find(m, other);
      FindIsLeast(r, other, if j < |m| then j else |r|);
    }
  }

  /** `set` on a key that no entry carries appends the new entry. */
  lemma SetAbsent(m: seq<Point>, key: string, y: int)
    requires forall j :: 0 <= j < |m| ==> m[j].x != key
    ensures Set(m, key, y) == m + [Point(key, y)]
  {
    FindIsLeast(m, key, |m|);
  }

  /** Any index that is "the first occurrence of `key`, or the end" is `Find`'s answer. */
  lemma FindIsLeast(m: seq<Point>, key: string, i: nat)
    requires i <= |m|
    requires i < |m| ==> m[i].x == key
    requires forall j :: 0 <= j < i ==> m[j].x != key
    ensures Find(m, key) == i
  {
  }

  /** Sum of the totals of all entries. */
  function Total(s: seq<Point>): int
  {
    if s == [] then 0 else s[0].y + Total(s[1..])
  }

  lemma {:induction false} TotalAppend(a: seq<Point>, b: seq<Point>)
    ensures Total(a + b) == Total(a) + Total(b)
  {
    if a == [] {
      assert a + b == b;
    } else {
      assert (a + b)[1..] == a[1..] + b;
      TotalAppend(a[1..], b);
    }
  }

  lemma {:induction false} TotalUpdate(s: seq<Point>, i: nat, p: Point)
    requires i < |s|
    ensures Total(s[i := p]) == Total(s) - s[i].y + p.y
  {
    if i > 0 {
      assert s[i := p][1..] == s[1..][i - 1 := p];
      TotalUpdate(s[1..], i - 1, p);
    }
  }

  /** Storing `y` under `key` changes the sum of all totals by `y` minus what `key` held. */
  lemma SetTotal(m: seq<Point>, key: string, y: int)
    ensures Total(Set(m, key, y)) == Total(m) - Get(m, key).GetOr(0) + y
  {
    var i := Find(m, key);
    if i < |m| {
      TotalUpdate(m, i, Point(key, y));
    } else {
      TotalAppend(m, [Point(key, y)]);
      assert Total([Point(key, y)]) == y;
    }
  }

  lemma {:induction false} TotalOfZeros(s: seq<Point>)
    requires forall i :: 0 <= i < |s| ==> s[i].y == 0
    ensures Total(s) == 0
  {
    if s != [] {
      TotalOfZeros(s[1..]);
    }
  }

  /** Dropping a prefix of zero totals keeps the sum. */
  lemma {:induction false} TotalDropZeros(s: seq<Point>, cut: nat)
    requires cut <= |s|
    requires forall i :: 0 <= i < cut ==> s[i].y == 0
    ensures Total(s[cut..]) == Total(s)
  {
    if cut > 0 {
      assert s[1..][cut - 1..] == s[cut..];
      TotalDropZeros(s[1..], cut - 1);
    }
  }

  /** An entry whose key kept its position is still found after the map changed around it. */
  lemma GetKeptKey(m: seq<Point>, r: seq<Point>, key: string)
    requires |m| <= |r|
    requires forall i :: 0 <= i < |m| ==> r[i].x == m[i].x
    requires Get(m, key).Some?
    ensures Get(r, key).Some?
  {
    var i := Find(m, key);
    assert r[i].x == key;
  }
}
