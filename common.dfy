/** Optional values and success/failure results, standing in for Java's
    null / Optional and for thrown exceptions; HashMap iteration orders;
    Java's `long`; and the wall clock. */
module Common {

  datatype Option<+T> = None | Some(value: T)

  datatype Result<+T, +E> = Ok(value: T) | Err(error: E)

  /** Regrouping a concatenation, stated once so that traces built by
      appending can be compared without unfolding them. */
  lemma AppendAssoc<X>(a: seq<X>, b: seq<X>, c: seq<X>)
    ensures (a + b) + c == a + (b + c)
  {
  }

  /** `entries` lists every entry of `m` exactly once: one iteration order
      of a HashMap's `entrySet()`. */
  predicate IsEntrySet<K(==), V(==)>(entries: seq<(K, V)>, m: map<K, V>)
  {
    && (forall i, j :: 0 <= i < j < |entries| ==> entries[i].0 != entries[j].0)
    && (forall i :: 0 <= i < |entries| ==> entries[i].0 in m && m[entries[i].0] == entries[i].1)
    && (forall k :: k in m ==> exists i :: 0 <= i < |entries| && entries[i].0 == k)
  }

  /** A commerce product's UUID, kept opaque. */
  type ProductId = string

  /** Java's 64-bit `long`. */
  type Long = x: int | -0x8000_0000_0000_0000 <= x < 0x8000_0000_0000_0000

  /** `Long::sum` / `a + b` on longs: two's-complement wrap-around. */
  function LongSum(a: Long, b: Long): (s: Long)
    ensures -0x8000_0000_0000_0000 <= a + b < 0x8000_0000_0000_0000 ==> s == a + b
    ensures (s - (a + b)) % 0x1_0000_0000_0000_0000 == 0
  {
    (a + b + 0x8000_0000_0000_0000) % 0x1_0000_0000_0000_0000 - 0x8000_0000_0000_0000
  }

  /** Java's `String.trim().isEmpty()`: every character is at most U+0020. */
  predicate Blank(s: string)
  {
    forall i :: 0 <= i < |s| ==> s[i] <= ' '
  }

  /** `Instant.now()`: the clock's successive readings are `reading(0)`,
      `reading(1)`, ...; `ticks` counts the readings taken so far. */
  class Clock {
    const reading: nat -> int
    var ticks: nat

    constructor(reading: nat -> int)
      ensures this.reading == reading && ticks == 0
    {
      this.reading := reading;
      ticks := 0;
    }

    method Now() returns (t: int)
      modifies this
      ensures ticks == old(ticks) + 1
      ensures t == reading(old(ticks))
    {
      t := reading(ticks);
      ticks := ticks + 1;
    }
  }
}
