/**
 * The sample history: a fixed ring of CACHE_MAX_SAMPLES timestamped
 * readings, indexed from the oldest retained entry, that overwrites its
 * oldest entry when it is full.
 */
module DataCache {
  import opened Types
  import Arith

  const CACHE_MAX_SAMPLES: nat := 8000

  /** struct iv_sample: uptime in milliseconds (truncated to 32 bits) and the level in dB. */
  datatype Sample = Sample(uptimeMs: uint32, db: uint8)

  /** The last n elements of s (all of s when it is shorter). */
  function Newest<T>(s: seq<T>, n: nat): (r: seq<T>)
    ensures |r| == if |s| <= n then |s| else n
  {
    if |s| <= n then s else s[|s| - n..]
  }

  /** The logical history after one push: s appended, the oldest entry dropped when full. */
  function Pushed(contents: seq<Sample>, s: Sample): seq<Sample>
    requires |contents| <= CACHE_MAX_SAMPLES
  {
    if |contents| == CACHE_MAX_SAMPLES then contents[1..] + [s] else contents + [s]
  }

  /** A push keeps exactly the newest CACHE_MAX_SAMPLES entries of old history followed by s. */
  lemma PushedKeepsNewest(contents: seq<Sample>, s: Sample)
    requires |contents| <= CACHE_MAX_SAMPLES
    ensures Pushed(contents, s) == Newest(contents + [s], CACHE_MAX_SAMPLES)
    ensures |Pushed(contents, s)| <= CACHE_MAX_SAMPLES
  {
    if |contents| == CACHE_MAX_SAMPLES {
      assert (contents + [s])[1..] == contents[1..] + [s];
    }
  }

  /** Consecutive pushes of the samples in xs, in order. */
  function PushAll(contents: seq<Sample>, xs: seq<Sample>): seq<Sample>
    requires |contents| <= CACHE_MAX_SAMPLES
    decreases |xs|
  {
    if xs == [] then contents
    else
      PushedKeepsNewest(contents, xs[0]);
      PushAll(Pushed(contents, xs[0]), xs[1..])
  }

  lemma NewestOfNewest<T>(s: seq<T>, t: seq<T>, n: nat)
    ensures Newest(Newest(s, n) + t, n) == Newest(s + t, n)
  {
    if |s| > n {
      var m := |s + t|;
      assert |Newest(s, n) + t| == n + |t|;
      if n + |t| > n {
        assert Newest(s, n) + t == (s + t)[|s| - n..];
      } else {
        assert t == [];
        assert s + t == s;
      }
    }
  }

  /** Any run of pushes leaves the newest CACHE_MAX_SAMPLES entries of the old history followed by xs. */
  lemma {:induction false} PushAllKeepsNewest(contents: seq<Sample>, xs: seq<Sample>)
    requires |contents| <= CACHE_MAX_SAMPLES
    ensures PushAll(contents, xs) == Newest(contents + xs, CACHE_MAX_SAMPLES)
    decreases |xs|
  {
    if xs == [] {
      assert contents + xs == contents;
    } else {
      PushedKeepsNewest(contents, xs[0]);
      PushAllKeepsNewest(Pushed(contents, xs[0]), xs[1..]);
      NewestOfNewest(contents + [xs[0]], xs[1..], CACHE_MAX_SAMPLES);
      assert contents + [xs[0]] + xs[1..] == contents + xs;
    }
  }

  /**
   * Pushing CACHE_MAX_SAMPLES + k samples into an empty history leaves it
   * full, with the sample pushed at 0-based position k as the oldest entry.
   */
  lemma OverflowEvictsOldest(xs: seq<Sample>, k: nat)
    requires |xs| == CACHE_MAX_SAMPLES + k
    ensures |PushAll([], xs)| == CACHE_MAX_SAMPLES
    ensures PushAll([], xs)[0] == xs[k]
    ensures PushAll([], xs) == xs[k..]
  {
    PushAllKeepsNewest([], xs);
    assert [] + xs == xs;
  }

  /** Reduction of an index below 2 * CACHE_MAX_SAMPLES into the ring, without `%`. */
  function Wrap(x: nat): (r: nat)
    requires x < 2 * CACHE_MAX_SAMPLES
    ensures r < CACHE_MAX_SAMPLES
  {
    if x < CACHE_MAX_SAMPLES then x else x - CACHE_MAX_SAMPLES
  }

  /** On the indices the ring computes, `% CACHE_MAX_SAMPLES` is Wrap. */
  lemma ModIsWrap(x: nat)
    requires x < 2 * CACHE_MAX_SAMPLES
    ensures x % CACHE_MAX_SAMPLES == Wrap(x)
  {
    if x < CACHE_MAX_SAMPLES {
      Arith.DivUnique(x, CACHE_MAX_SAMPLES, 0, x);
    } else {
      Arith.DivUnique(x, CACHE_MAX_SAMPLES, 1, x - CACHE_MAX_SAMPLES);
    }
  }

  /** Logical position i of a ring whose oldest entry is in slot t. */
  function Slot(t: nat, i: nat): (k: nat)
    requires t < CACHE_MAX_SAMPLES && i < CACHE_MAX_SAMPLES
    ensures k < CACHE_MAX_SAMPLES
  {
    Wrap(t + i)
  }

  /** The slots of arr, read from t onwards around the ring, hold contents. */
  ghost predicate Holds(arr: seq<Sample>, t: nat, contents: seq<Sample>)
    requires |arr| == CACHE_MAX_SAMPLES && t < CACHE_MAX_SAMPLES && |contents| <= CACHE_MAX_SAMPLES
  {
    forall i :: 0 <= i < |contents| ==> contents[i] == arr[Slot(t, i)]
  }

  /**
   * Storing s in the slot after the last entry, and moving the oldest slot
   * on when the ring was full, makes the ring hold the pushed history.
   */
  lemma HoldsPushed(arr: seq<Sample>, t: nat, contents: seq<Sample>, s: Sample,
                    arr': seq<Sample>, t': nat, contents': seq<Sample>)
    requires |arr| == CACHE_MAX_SAMPLES && t < CACHE_MAX_SAMPLES && |contents| <= CACHE_MAX_SAMPLES
    requires Holds(arr, t, contents)
    requires |arr'| == CACHE_MAX_SAMPLES
    requires forall k :: 0 <= k < CACHE_MAX_SAMPLES ==> arr'[k] == if k == Wrap(t + |contents|) then s else arr[k]
    requires t' == if |contents| == CACHE_MAX_SAMPLES then Wrap(t + 1) else t
    requires contents' == Pushed(contents, s)
    ensures |contents'| <= CACHE_MAX_SAMPLES
    ensures Holds(arr', t', contents')
  {
    var c := |contents|;
    var h := Wrap(t + c);
    var p := contents';
    if c < CACHE_MAX_SAMPLES {
      forall i | 0 <= i < |p|
        ensures p[i] == arr'[Slot(t, i)]
      {
        if i < c {
          assert Slot(t, i) != h;
        }
      }
    } else {
      forall i | 0 <= i < |p|
        ensures p[i] == arr'[Slot(t', i)]
      {
        assert Slot(t', i) == Wrap(t + 1 + i);
        if i < CACHE_MAX_SAMPLES - 1 {
          assert Slot(t', i) == Slot(t, i + 1) != h;
        }
      }
    }
  }

  class Cache {
    /** The static cache array: its identity never changes. */
    const cache: array<Sample>
    var head: nat
    var tail: nat
    var count: nat
    /** The retained samples, oldest first. */
    ghost var Contents: seq<Sample>

    ghost predicate Valid()
      reads this, cache
    {
      && cache.Length == CACHE_MAX_SAMPLES
      && count <= CACHE_MAX_SAMPLES
      && tail < CACHE_MAX_SAMPLES
      && head == Wrap(tail + count)
      && |Contents| == count
      && Holds(cache[..], tail, Contents)
    }

    /** The zero-initialised static storage. */
    constructor ()
      ensures Valid() && fresh(cache)
      ensures head == 0 && tail == 0 && count == 0 && Contents == []
    {
      cache := new Sample[CACHE_MAX_SAMPLES](_ => Sample(0, 0));
      head, tail, count := 0, 0, 0;
      Contents := [];
    }

    /** data_cache_init: forget every sample. */
    method Init()
      requires Valid()
      modifies this
      ensures Valid()
      ensures head == 0 && tail == 0 && count == 0 && Contents == []
    {
      head := 0;
      tail := 0;
      count := 0;
      Contents := [];
    }

    /** data_cache_clear: forget every sample. */
    method Clear()
      requires Valid()
      modifies this
      ensures Valid()
      ensures head == 0 && tail == 0 && count == 0 && Contents == []
    {
      head := 0;
      tail := 0;
      count := 0;
      Contents := [];
    }

    /**
     * data_cache_push: store (uptime, db) at head, evicting the oldest entry
     * when full. uptime is k_uptime_get(), passed in; the store keeps its
     * low 32 bits.
     */
    method Push(db: uint8, uptime: nat)
      requires Valid()
      modifies this, cache
      ensures Valid()
      ensures Contents == Pushed(old(Contents), Sample(uptime % 0x1_0000_0000, db))
      ensures old(count) < CACHE_MAX_SAMPLES ==> count == old(count) + 1 && tail == old(tail)
      ensures old(count) == CACHE_MAX_SAMPLES ==> count == CACHE_MAX_SAMPLES && tail == Wrap(old(tail) + 1)
      ensures head == Wrap(old(head) + 1)
    {
      var s := Sample(uptime % 0x1_0000_0000, db);
      ghost var arr, t0, C0 := cache[..], tail, Contents;
      ModIsWrap(head + 1);
      ModIsWrap(tail + 1);
      if count == CACHE_MAX_SAMPLES {
        // Overwrite oldest
        tail := (tail + 1) % CACHE_MAX_SAMPLES;
      } else {
        count := count + 1;
      }
      cache[head] := s;
      head := (head + 1) % CACHE_MAX_SAMPLES;
      Contents := Pushed(Contents, s);
      HoldsPushed(arr, t0, C0, s, cache[..], tail, Contents);
    }

    /** data_cache_count */
    method Count() returns (n: uint32)
      requires Valid()
      ensures n == |Contents|
    {
      n := count;
    }

    /**
     * data_cache_get: the sample at logical index idx (0 is the oldest), or
     * false with *out left as it was (the value passed in as out).
     */
    method Get(idx: uint32, out: Sample) returns (found: bool, result: Sample)
      requires Valid()
      ensures found <==> idx < |Contents|
      ensures found ==> result == Contents[idx] && result == cache[(tail + idx) % CACHE_MAX_SAMPLES]
      ensures !found ==> result == out
    {
      if idx >= count {
        return false, out;
      }
      ModIsWrap(tail + idx);
      assert Contents[idx] == cache[..][Slot(tail, idx)];
      var actualIdx := (tail + idx) % CACHE_MAX_SAMPLES;
      result := cache[actualIdx];
      found := true;
    }
  }
}
