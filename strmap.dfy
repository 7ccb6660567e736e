/**
 * StrMap: the chained hash map from string keys to values that stores every
 * ledger of the tracer. It has a fixed number of buckets chosen at creation,
 * each bucket a growable list of key/value pairs, a count of distinct keys
 * (`size`) and a running total of the numeric reading of every stored value
 * (`total_value`), kept up to date by every `put` and never recomputed.
 *
 * The C map stores formatted text; here a map stores typed values `V`, with
 * `num` giving the number `atof` reads from a value's text and `width` the
 * length of that text (what `strmap_get` compares with the caller's buffer).
 */
module StrMaps {
  import opened Basics

  datatype Pair<V> = Pair(key: string, value: V)

  const HashModulus: nat := 0x1_0000_0000_0000_0000

  /**
   * The value `int c = *str` gives a character: its low byte read as a
   * signed `char`, so bytes from 0x80 up are negative.
   */
  function SignedChar(c: char): (v: int)
    ensures -128 <= v < 128
    ensures v % 256 == (c as int) % 256
  {
    var b := (c as int) % 256;
    if b >= 128 then b - 256 else b
  }

  /** djb2 over `unsigned long`: h := h * 33 + c, starting from 5381, modulo 2^64. */
  function Hash(s: string): (h: nat)
    ensures h < HashModulus
  {
    if s == [] then 5381 else (Hash(s[..|s| - 1]) * 33 + SignedChar(s[|s| - 1])) % HashModulus
  }

  /** djb2 over unbounded integers, with no wrap-around. */
  function ExactHash(s: string): int {
    if s == [] then 5381 else ExactHash(s[..|s| - 1]) * 33 + SignedChar(s[|s| - 1])
  }

  lemma {:induction false} ModStep(a: int, c: int)
    ensures ((a % HashModulus) * 33 + c) % HashModulus == (a * 33 + c) % HashModulus
  {
    var q := a / HashModulus;
    assert a == q * HashModulus + a % HashModulus;
    assert a * 33 + c == ((a % HashModulus) * 33 + c) + (q * 33) * HashModulus;
  }

  /** Wrapping at every step is the same as reducing the exact sum once at the end. */
  lemma {:induction false} HashIsExactModulo(s: string)
    ensures Hash(s) == ExactHash(s) % HashModulus
  {
    if s != [] {
      HashIsExactModulo(s[..|s| - 1]);
      ModStep(ExactHash(s[..|s| - 1]), SignedChar(s[|s| - 1]));
    }
  }

  /** An arbitrary key of a non-empty map. */
  ghost function PickKey<V>(m: map<string, V>): (k: string)
    requires |m| > 0
    ensures k in m
  {
    var k :| k in m; k
  }

  /** Reference definition: the sum of the numeric readings of all stored values. */
  ghost function Sum<V>(m: map<string, V>, num: V -> real): real
    decreases |m|
  {
    if |m| == 0 then 0.0
    else
      var k := PickKey(m);
      num(m[k]) + Sum(m - {k}, num)
  }

  lemma {:induction false} RemoveKeyCardinality<V>(m: map<string, V>, k: string)
    requires k in m
    ensures |m - {k}| == |m| - 1
  {
    assert (m - {k}).Keys == m.Keys - {k};
  }

  /** The sum can be split at any key, not only at the one the definition picks. */
  lemma {:induction false} SumRemove<V>(m: map<string, V>, num: V -> real, k: string)
    requires k in m
    ensures Sum(m, num) == num(m[k]) + Sum(m - {k}, num)
    decreases |m|
  {
    var j := PickKey(m);
    if j != k {
      RemoveKeyCardinality(m, j);
      RemoveKeyCardinality(m, k);
      SumRemove(m - {j}, num, k);
      SumRemove(m - {k}, num, j);
      assert m - {j} - {k} == m - {k} - {j};
    }
  }

  /** Overwriting a key moves the sum by new - old. */
  lemma {:induction false} SumReplace<V>(m: map<string, V>, num: V -> real, k: string, v: V)
    requires k in m
    ensures Sum(m[k := v], num) == Sum(m, num) - num(m[k]) + num(v)
  {
    SumRemove(m, num, k);
    SumRemove(m[k := v], num, k);
    assert m[k := v] - {k} == m - {k};
  }

  /** Adding a fresh key adds its value to the sum. */
  lemma {:induction false} SumInsert<V>(m: map<string, V>, num: V -> real, k: string, v: V)
    requires k !in m
    ensures Sum(m[k := v], num) == Sum(m, num) + num(v)
  {
    SumRemove(m[k := v], num, k);
    assert m[k := v] - {k} == m;
  }

  /**
   * What `strmap_get` hands back: the value of a present key whose text fits
   * in a buffer of `cap` characters (room for the terminating NUL included).
   */
  function Fetch<V>(m: map<string, V>, key: string, cap: nat, width: V -> nat): Option<V> {
    if key in m && width(m[key]) < cap then Some(m[key]) else None
  }

  /** `get_pair`: the first position of `key` in a bucket, or the bucket length. */
  method FindPair<V>(bucket: seq<Pair<V>>, key: string) returns (i: nat)
    ensures i <= |bucket|
    ensures i < |bucket| ==> bucket[i].key == key
    ensures forall j :: 0 <= j < i ==> bucket[j].key != key
  {
    i := 0;
    while i < |bucket|
      invariant i <= |bucket|
      invariant forall j :: 0 <= j < i ==> bucket[j].key != key
    {
      if bucket[i].key == key {
        return;
      }
      i := i + 1;
    }
  }

  function SlotOf(key: string, n: nat): (b: nat)
    requires n > 0
    ensures b < n
  {
    Hash(key) % n
  }

  /**
   * The bucket table `bs` holds exactly the pairs of `contents`: every pair
   * sits in the bucket its key hashes to, no key occurs twice in a bucket and
   * every key of `contents` occurs in its bucket.
   */
  ghost predicate Holds<V>(bs: seq<seq<Pair<V>>>, contents: map<string, V>) {
    && |bs| > 0
    && (forall b {:trigger BucketHolds(bs, contents, b)} :: 0 <= b < |bs| ==> BucketHolds(bs, contents, b))
    && (forall k {:trigger Stored(bs, k)} :: k in contents ==> Stored(bs, k))
  }

  /**
   * Bucket `b` holds pairs of `contents` only, each in the bucket its key
   * hashes to, and no key twice.
   */
  ghost predicate BucketHolds<V>(bs: seq<seq<Pair<V>>>, contents: map<string, V>, b: int) {
    && 0 <= b < |bs|
    && (forall i :: 0 <= i < |bs[b]| ==>
          && SlotOf(bs[b][i].key, |bs|) == b
          && bs[b][i].key in contents
          && contents[bs[b][i].key] == bs[b][i].value)
    && (forall i, j :: 0 <= i < j < |bs[b]| ==> bs[b][i].key != bs[b][j].key)
  }

  /** Key `k` occurs in the bucket it hashes to. */
  ghost predicate Stored<V>(bs: seq<seq<Pair<V>>>, k: string) {
    |bs| > 0 && exists i :: 0 <= i < |bs[SlotOf(k, |bs|)]| && bs[SlotOf(k, |bs|)][i].key == k
  }

  /** A key missing from its bucket is missing from the map. */
  lemma {:induction false} AbsentFromBucket<V>(bs: seq<seq<Pair<V>>>, contents: map<string, V>, k: string)
    requires Holds(bs, contents)
    requires forall j :: 0 <= j < |bs[SlotOf(k, |bs|)]| ==> bs[SlotOf(k, |bs|)][j].key != k
    ensures k !in contents
  {
    var placed := Stored(bs, k);
  }

  lemma {:induction false} HoldsAfterReplace<V>(bs: seq<seq<Pair<V>>>, contents: map<string, V>, b: nat, i: nat, v: V)
    requires Holds(bs, contents)
    requires b < |bs| && i < |bs[b]|
    ensures bs[b][i].key in contents && contents[bs[b][i].key] == bs[b][i].value
    ensures Holds(bs[b := bs[b][i := Pair(bs[b][i].key, v)]], contents[bs[b][i].key := v])
  {
    var k := bs[b][i].key;
    assert BucketHolds(bs, contents, b);
    var bs': seq<seq<Pair<V>>> := bs[b := bs[b][i := Pair(k, v)]];
    var c' := contents[k := v];
    forall b' | 0 <= b' < |bs'|
      ensures BucketHolds(bs', c', b')
    {
      assert BucketHolds(bs, contents, b');
      if b' == b {
        assert forall j :: 0 <= j < |bs[b]| ==> bs'[b][j].key == bs[b][j].key;
      }
    }
    forall k' | k' in c'
      ensures Stored(bs', k')
    {
      if k' == k {
        assert bs'[b][i].key == k;
      } else {
        assert Stored(bs, k');
        var j :| 0 <= j < |bs[SlotOf(k', |bs|)]| && bs[SlotOf(k', |bs|)][j].key == k';
        assert bs'[SlotOf(k', |bs'|)][j].key == k';
      }
    }
  }

  lemma {:induction false} HoldsAfterInsert<V>(bs: seq<seq<Pair<V>>>, contents: map<string, V>, k: string, v: V)
    requires Holds(bs, contents)
    requires forall j :: 0 <= j < |bs[SlotOf(k, |bs|)]| ==> bs[SlotOf(k, |bs|)][j].key != k
    ensures k !in contents
    ensures Holds(bs[SlotOf(k, |bs|) := bs[SlotOf(k, |bs|)] + [Pair(k, v)]], contents[k := v])
  {
    AbsentFromBucket(bs, contents, k);
    var b := SlotOf(k, |bs|);
    var bs': seq<seq<Pair<V>>> := bs[b := bs[b] + [Pair(k, v)]];
    var c' := contents[k := v];
    forall b' | 0 <= b' < |bs'|
      ensures BucketHolds(bs', c', b')
    {
      assert BucketHolds(bs, contents, b');
    }
    forall k' | k' in c'
      ensures Stored(bs', k')
    {
      if k' == k {
        assert bs'[b][|bs[b]|].key == k;
      } else {
        assert Stored(bs, k');
        var j :| 0 <= j < |bs[SlotOf(k', |bs|)]| && bs[SlotOf(k', |bs|)][j].key == k';
        assert bs'[SlotOf(k', |bs'|)][j].key == k';
      }
    }
  }

  /**
   * The whole abstract state of a map: the table holds `contents`, `size`
   * counts its keys and `total` is the sum of its values' readings.
   */
  ghost predicate Consistent<V>(bs: seq<seq<Pair<V>>>, contents: map<string, V>, size: int, total: real,
                                num: V -> real) {
    Holds(bs, contents) && size == |contents| && total == Sum(contents, num)
  }

  /** Replacing a stored value keeps the state consistent, with the total moved by new - old. */
  lemma {:induction false} ReplaceKeepsConsistent<V>(bs: seq<seq<Pair<V>>>, contents: map<string, V>, size: int, total: real,
                                  num: V -> real, b: nat, i: nat, k: string, v: V)
    requires Consistent(bs, contents, size, total, num)
    requires b < |bs| && i < |bs[b]| && bs[b][i].key == k
    ensures k in contents && contents[k] == bs[b][i].value
    ensures Consistent(bs[b := bs[b][i := Pair(k, v)]], contents[k := v], size,
                       total - num(bs[b][i].value) + num(v), num)
  {
    HoldsAfterReplace(bs, contents, b, i, v);
    SumReplace(contents, num, k, v);
  }

  /** Appending a fresh key keeps the state consistent, with one more key and its value added. */
  lemma {:induction false} InsertKeepsConsistent<V>(bs: seq<seq<Pair<V>>>, contents: map<string, V>, size: int, total: real,
                                 num: V -> real, k: string, v: V)
    requires Consistent(bs, contents, size, total, num)
    requires forall j :: 0 <= j < |bs[SlotOf(k, |bs|)]| ==> bs[SlotOf(k, |bs|)][j].key != k
    ensures k !in contents
    ensures Consistent(bs[SlotOf(k, |bs|) := bs[SlotOf(k, |bs|)] + [Pair(k, v)]], contents[k := v], size + 1,
                       total + num(v), num)
  {
    HoldsAfterInsert(bs, contents, k, v);
    SumInsert(contents, num, k, v);
  }

  class StrMap<V> {
    /** Numeric reading of a stored value (`atof` of its text). */
    const num: V -> real
    /** Length of a stored value's text. */
    const width: V -> nat
    const buckets: array<seq<Pair<V>>>
    var size: int
    var total: real

    ghost var Contents: map<string, V>

    ghost predicate Valid()
      reads this, buckets
    {
      Consistent(buckets[..], Contents, size, total, num)
    }

    /** `strmap_new`: an empty map with `capacity` buckets. */
    constructor (capacity: nat, num: V -> real, width: V -> nat)
      requires capacity > 0
      ensures Valid() && fresh(buckets)
      ensures Contents == map[] && this.num == num && this.width == width
      ensures buckets.Length == capacity
    {
      this.num := num;
      this.width := width;
      buckets := new seq<Pair<V>>[capacity](_ => []);
      size := 0;
      total := 0.0;
      Contents := map[];
    }

    /** `strmap_get_count`. */
    function Count(): (n: int)
      reads this, buckets
      requires Valid()
      ensures n == |Contents|
    {
      size
    }

    /** `sum_strmap`: the running total, read in constant time. */
    function Total(): (t: real)
      reads this, buckets
      requires Valid()
      ensures t == Sum(Contents, num)
    {
      total
    }

    /**
     * The map emptied in place, as `strmap_new` leaves a new one: every
     * bucket empty, no keys and a zero total, with the bucket count kept.
     */
    method Clear()
      requires Valid()
      modifies this, buckets
      ensures Valid() && Contents == map[] && Count() == 0 && Total() == 0.0
    {
      var i := 0;
      while i < buckets.Length
        invariant 0 <= i <= buckets.Length
        invariant forall j :: 0 <= j < i ==> buckets[j] == []
      {
        buckets[i] := [];
        i := i + 1;
      }
      size, total, Contents := 0, 0.0, map[];
      forall b | 0 <= b < buckets.Length
        ensures BucketHolds(buckets[..], Contents, b)
      {
        assert buckets[..][b] == [];
      }
    }

    /**
     * `strmap_get` with a caller buffer of `cap` characters: nothing for a
     * null or absent key, nothing when the value's text does not fit.
     */
    method Get(key: Option<string>, cap: nat) returns (r: Option<V>)
      requires Valid()
      ensures r == if key.Some? then Fetch(Contents, key.value, cap, width) else None
    {
      if key.None? {
        return None;
      }
      var k := key.value;
      var bucket := buckets[SlotOf(k, buckets.Length)];
      var i := FindPair(bucket, k);
      if i == |bucket| {
        AbsentFromBucket(buckets[..], Contents, k);
        return None;
      }
      assert BucketHolds(buckets[..], Contents, SlotOf(k, buckets.Length));
      if width(bucket[i].value) >= cap {
        return None;
      }
      r := Some(bucket[i].value);
    }

    /**
     * `strmap_put`: a null key or value stores nothing; an existing key has
     * its value replaced (size kept, total moved by new - old); a fresh key
     * is appended to its bucket (size + 1, total + value).
     */
    method Put(key: Option<string>, value: Option<V>) returns (stored: bool)
      requires Valid()
      modifies this, buckets
      ensures Valid()
      ensures stored <==> key.Some? && value.Some?
      ensures !stored ==> Contents == old(Contents) && size == old(size) && total == old(total)
      ensures stored ==> Contents == old(Contents)[key.value := value.value]
      ensures stored && key.value in old(Contents) ==>
                size == old(size) && total == old(total) - num(old(Contents)[key.value]) + num(value.value)
      ensures stored && key.value !in old(Contents) ==>
                size == old(size) + 1 && total == old(total) + num(value.value)
    {
      if key.None? || value.None? {
        return false;
      }
      stored := true;
      var k, v := key.value, value.value;
      var b := SlotOf(k, buckets.Length);
      var bucket := buckets[b];
      var i := FindPair(bucket, k);
      if i < |bucket| {
        Replace(b, i, k, v);
      } else {
        Append(b, k, v);
      }
    }

    /** Overwrites the value of the pair at position `i` of bucket `b`. */
    method Replace(b: nat, i: nat, k: string, v: V)
      requires Valid() && b < buckets.Length && i < |buckets[b]| && buckets[b][i].key == k
      modifies this, buckets
      ensures Valid()
      ensures k in old(Contents) && Contents == old(Contents)[k := v]
      ensures size == old(size) && total == old(total) - num(old(Contents)[k]) + num(v)
    {
      ghost var bs := buckets[..];
      var bucket := buckets[b];
      ReplaceKeepsConsistent(bs, Contents, size, total, num, b, i, k, v);
      buckets[b] := bucket[i := Pair(k, v)];
      assert buckets[..] == bs[b := bs[b][i := Pair(k, v)]];
      total := total - num(bucket[i].value) + num(v);
      Contents := Contents[k := v];
    }

    /** Appends a pair for a key that its bucket `b` does not hold. */
    method Append(b: nat, k: string, v: V)
      requires Valid() && b == SlotOf(k, buckets.Length)
      requires forall j :: 0 <= j < |buckets[b]| ==> buckets[b][j].key != k
      modifies this, buckets
      ensures Valid()
      ensures k !in old(Contents) && Contents == old(Contents)[k := v]
      ensures size == old(size) + 1 && total == old(total) + num(v)
    {
      ghost var bs := buckets[..];
      var bucket := buckets[b];
      InsertKeepsConsistent(bs, Contents, size, total, num, k, v);
      buckets[b] := bucket + [Pair(k, v)];
      assert buckets[..] == bs[b := bs[b] + [Pair(k, v)]];
      size := size + 1;
      total := total + num(v);
      Contents := Contents[k := v];
    }
  }
}
