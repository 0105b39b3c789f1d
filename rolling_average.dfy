/**
 * `RollingAverage<CAP>`: the average of the last CAP values pushed, kept in a
 * fixed-size circular buffer with a running sum. Values are exact reals here,
 * so the running sum is exact.
 */
module RollingAverages {

  function Sum(s: seq<real>): real
  {
    if s == [] then 0.0 else Sum(s[..|s| - 1]) + s[|s| - 1]
  }

  /** The last `n` values of `s`, or all of them when there are fewer. */
  function Recent<T>(s: seq<T>, n: nat): (r: seq<T>)
    ensures |r| == if |s| <= n then |s| else n
  {
    if |s| <= n then s else s[|s| - n..]
  }

  /** Sum counted from the front: the oldest value can be subtracted from the running sum. */
  lemma {:induction false} SumFront(s: seq<real>)
    requires s != []
    ensures Sum(s) == s[0] + Sum(s[1..])
  {
    if |s| > 1 {
      SumFront(s[..|s| - 1]);
      assert s[..|s| - 1][1..] == s[1..][..|s| - 2];
    }
  }

  /** Once `n` values are present, a new value pushes the oldest one out. */
  lemma RecentPush<T>(s: seq<T>, x: T, n: nat)
    requires n > 0
    ensures Recent(s + [x], n) == if |s| < n then s + [x] else Recent(s, n)[1..] + [x]
  {
    if |s| >= n {
      assert (s + [x])[|s| + 1 - n..] == s[|s| - n..][1..] + [x];
    }
  }

  /** The buffered values of buffer `d`, oldest first. */
  function WindowOf(d: seq<real>, count: nat, idx: nat): seq<real>
    requires count <= |d| && idx <= |d|
  {
    if count < |d| then d[..count] else d[idx..] + d[..idx]
  }

  /**
   * The buffer invariant, over the buffer's contents `d`: `count` and `idx`
   * stay in range, the buffer holds the last `min(n, |d|)` pushed values,
   * unused slots are still 0, and `sum` is their sum.
   */
  ghost predicate BufferInvariant(d: seq<real>, sum: real, idx: nat, count: nat, pushed: seq<real>)
  {
    && count <= |d|
    && (if |d| == 0 then idx == 0 else idx < |d|)
    && (count < |d| ==> idx == count && forall i :: count <= i < |d| ==> d[i] == 0.0)
    && WindowOf(d, count, idx) == Recent(pushed, |d|)
    && sum == Sum(WindowOf(d, count, idx))
  }

  lemma NextIndex(i: nat, n: nat)
    requires i < n
    ensures (i + 1) % n == if i + 1 == n then 0 else i + 1
  {
  }

  /** A push while the buffer is filling keeps the invariant. */
  lemma PushWhileFilling(d: seq<real>, sum: real, idx: nat, count: nat, pushed: seq<real>, val: real)
    requires BufferInvariant(d, sum, idx, count, pushed) && count < |d|
    ensures BufferInvariant(d[idx := val], sum + val, (idx + 1) % |d|, count + 1, pushed + [val])
  {
    var cap := |d|;
    var e := d[idx := val];
    var before := WindowOf(d, count, idx);
    assert before == d[..count] == Recent(pushed, cap) == pushed;
    RecentPush(pushed, val, cap);
    NextIndex(idx, cap);
    assert e[..count + 1] == before + [val];
    var after := WindowOf(e, count + 1, (idx + 1) % cap);
    if count + 1 == cap {
      assert after == e[0..] + e[..0];
      assert e[0..] + e[..0] == e[..count + 1];
    } else {
      assert after == e[..count + 1];
      assert forall i :: count + 1 <= i < cap ==> e[i] == d[i];
    }
    assert after == before + [val];
  }

  /** A push into a full buffer keeps the invariant: the oldest value leaves the sum. */
  lemma PushWhenFull(d: seq<real>, sum: real, idx: nat, count: nat, pushed: seq<real>, val: real)
    requires BufferInvariant(d, sum, idx, count, pushed) && count == |d| > 0
    ensures BufferInvariant(d[idx := val], sum - d[idx] + val, (idx + 1) % |d|, count, pushed + [val])
  {
    var cap := |d|;
    var e := d[idx := val];
    var before := WindowOf(d, count, idx);
    assert before == d[idx..] + d[..idx];
    RecentPush(pushed, val, cap);
    SumFront(before);
    assert before[0] == d[idx];
    NextIndex(idx, cap);
    var after := WindowOf(e, count, (idx + 1) % cap);
    if idx + 1 == cap {
      assert after == e[0..] + e[..0] == e;
      assert e == d[..idx] + [val];
      assert before[1..] == d[..idx];
    } else {
      assert after == e[idx + 1..] + e[..idx + 1];
      assert e[idx + 1..] == d[idx + 1..];
      assert e[..idx + 1] == d[..idx] + [val];
      assert before[1..] == d[idx + 1..] + d[..idx];
    }
    assert after == before[1..] + [val];
  }

  class RollingAverage {
    const cap: nat
    var data: array<real>
    var sum: real
    var idx: nat
    var count: nat
    /** Every value pushed so far, oldest first. */
    ghost var pushed: seq<real>
    /** The contents of `data`. */
    ghost var slots: seq<real>

    ghost predicate Valid()
      reads this, data
    {
      data.Length == cap && data[..] == slots && BufferInvariant(slots, sum, idx, count, pushed)
    }

    /** `new`: an all-zero buffer, nothing pushed yet. */
    constructor (capacity: nat)
      ensures Valid() && fresh(data)
      ensures cap == capacity && count == 0 && idx == 0 && sum == 0.0 && pushed == []
      ensures data[..] == seq(capacity, _ => 0.0)
    {
      cap := capacity;
      data := new real[capacity](_ => 0.0);
      sum, idx, count := 0.0, 0, 0;
      pushed := [];
      slots := seq(capacity, _ => 0.0);
    }

    /** `push`: writes the value over the slot at `idx` and moves `idx` on by one, modulo `cap`. */
    method Push(val: real)
      requires Valid() && cap > 0
      modifies this, data
      ensures Valid() && data == old(data)
      ensures pushed == old(pushed) + [val]
      ensures count == if old(count) < cap then old(count) + 1 else cap
      ensures idx == (old(idx) + 1) % cap
      ensures data[..] == old(data[..])[old(idx) := val]
    {
      if count == cap {
        PushFull(val);
      } else {
        PushFilling(val);
      }
    }

    /** The branch of `push` for a full buffer: the oldest value leaves the sum. */
    method PushFull(val: real)
      requires Valid() && cap > 0 && count == cap
      modifies this, data
      ensures Valid() && data == old(data)
      ensures pushed == old(pushed) + [val] && count == cap
      ensures idx == (old(idx) + 1) % cap
      ensures data[..] == old(data[..])[old(idx) := val]
    {
      PushWhenFull(slots, sum, idx, count, pushed, val);
      var oldest := data[idx];
      sum := sum - oldest;
      data[idx] := val;
      slots := slots[idx := val];
      sum := sum + val;
      idx := (idx + 1) % cap;
      pushed := pushed + [val];
    }

    /** The branch of `push` while the buffer is filling: one more value is counted. */
    method PushFilling(val: real)
      requires Valid() && cap > 0 && count < cap
      modifies this, data
      ensures Valid() && data == old(data)
      ensures pushed == old(pushed) + [val] && count == old(count) + 1
      ensures idx == (old(idx) + 1) % cap
      ensures data[..] == old(data[..])[old(idx) := val]
    {
      PushWhileFilling(slots, sum, idx, count, pushed, val);
      count := count + 1;
      data[idx] := val;
      slots := slots[idx := val];
      sum := sum + val;
      idx := (idx + 1) % cap;
      pushed := pushed + [val];
    }

    /** `average`: 0 before anything is pushed, otherwise the mean of the last `min(n, cap)` pushed values. */
    function Average(): (r: real)
      reads this, data
      requires Valid()
      ensures count == 0 ==> r == 0.0
      ensures count > 0 ==> r == Sum(Recent(pushed, cap)) / (|Recent(pushed, cap)| as real)
    {
      if count == 0 then 0.0 else sum / count as real
    }
  }
}
