/** The generation counter of screen shares: never 0, and no repeat for 2^32 - 1 shares. */
module BroadcastGeneration {
  import opened MachineIntegers

  /** Wrapping 64-bit addition. */
  function Wrap(n: int): (w: int)
    ensures -LONG / 2 <= w < LONG / 2
  {
    var m := n % LONG;
    if m >= LONG / 2 then m - LONG else m
  }

  /** The low 32 bits. */
  function Truncate(n: int): (g: int)
    ensures 0 <= g < WORD
  {
    n % WORD
  }

  lemma TruncateWraps(n: int)
    ensures Truncate(Wrap(n)) == Truncate(n)
  {
    var q := n / LONG;
    assert n == LONG * q + n % LONG;
    var m := n % LONG;
    assert LONG == WORD * WORD;
    Shifted(m, WORD * q);
    Shifted(m - LONG, WORD);
    assert n == m + WORD * (WORD * q);
  }

  lemma Shifted(n: int, k: int)
    ensures (n + WORD * k) % WORD == n % WORD
  {
    assert n + WORD * k == WORD * (n / WORD + k) + n % WORD;
  }

  class GenerationStore {
    /** The persisted 64-bit counter; 0 when nothing was stored yet. */
    var counter: int

    method NextGeneration() returns (g: int)
      modifies this
      ensures counter == NextCounter(old(counter)) && g == Truncate(counter)
    {
      var next := Wrap(counter + 1);
      if Truncate(next) == 0 {
        next := Wrap(next + 1);
      }
      counter := next;
      g := Truncate(next);
    }
  }

  function NextCounter(c: int): int {
    var next := Wrap(c + 1);
    if Truncate(next) == 0 then Wrap(next + 1) else next
  }

  /** The generation handed out by the `n`-th call from now on, counting from 1. */
  function Generation(c: int, n: nat): int
    requires n > 0
  {
    Truncate(Counter(c, n))
  }

  function Counter(c: int, n: nat): int {
    if n == 0 then c else NextCounter(Counter(c, n - 1))
  }

  /** A call hands out the successor, and 1 after the largest: 0 is left out. */
  lemma Successor(c: int)
    ensures Truncate(NextCounter(c)) == if Truncate(c) == WORD - 1 then 1 else Truncate(c) + 1
  {
    TruncateWraps(c + 1);
    TruncateWraps(Wrap(c + 1) + 1);
    assert Truncate(c + 1) == if Truncate(c) == WORD - 1 then 0 else Truncate(c) + 1 by { NextResidue(c); }
    NextResidue(Wrap(c + 1));
  }

  lemma NextResidue(c: int)
    ensures (c + 1) % WORD == if c % WORD == WORD - 1 then 0 else c % WORD + 1
  {
    assert c == WORD * (c / WORD) + c % WORD;
    if c % WORD == WORD - 1 {
      assert c + 1 == WORD * (c / WORD + 1);
    }
  }

  /** Generation 0 is never handed out, whatever was persisted. */
  lemma NeverZero(c: int, n: nat)
    requires n > 0
    ensures Generation(c, n) != 0
  {
    Successor(Counter(c, n - 1));
  }

  /** From the first call on the generations run in a cycle of length 2^32 - 1. */
  lemma {:induction false} Cycle(c: int, n: nat, k: nat)
    requires n > 0
    ensures Generation(c, n + k) == (Generation(c, n) - 1 + k) % (WORD - 1) + 1
  {
    NeverZero(c, n);
    if k > 0 {
      Cycle(c, n, k - 1);
      var a := Generation(c, n) - 1 + (k - 1);
      Successor(Counter(c, n + k - 1));
      NextOfCycle(a);
    }
  }

  lemma NextOfCycle(a: nat)
    ensures (a + 1) % (WORD - 1) == if a % (WORD - 1) == WORD - 2 then 0 else a % (WORD - 1) + 1
  {
    var m := WORD - 1;
    assert a == m * (a / m) + a % m;
    if a % m == m - 1 {
      assert a + 1 == m * (a / m + 1);
    }
  }

  /** Two calls hand out the same generation if and only if a multiple of 2^32 - 1
      calls lies between them. */
  lemma GenerationsRepeat(c: int, n: nat, k: nat)
    requires n > 0
    ensures Generation(c, n + k) == Generation(c, n) <==> k % (WORD - 1) == 0
  {
    NeverZero(c, n);
    Cycle(c, n, k);
    var m, a := WORD - 1, Generation(c, n) - 1;
    assert 0 <= a < m;
    assert k == m * (k / m) + k % m;
    Residue(a, k, m);
  }

  lemma Residue(a: nat, k: nat, m: nat)
    requires a < m
    ensures (a + k) % m == a <==> k % m == 0
  {
    var q, r := k / m, k % m;
    assert k == m * q + r;
    if a + r < m {
      ModUnique(a + k, m, q, a + r);
    } else {
      assert a + k == m * (q + 1) + (a + r - m);
      ModUnique(a + k, m, q + 1, a + r - m);
    }
  }

  lemma ModUnique(n: nat, m: nat, q: nat, r: nat)
    requires r < m && n == m * q + r
    ensures n % m == r
  {
    var p, s := n / m, n % m;
    assert n == m * p + s && 0 <= s < m;
    assert m * (p - q) == r - s;
    AtLeast(m, p - q);
  }

  lemma AtLeast(m: nat, d: int)
    ensures d >= 1 ==> m * d >= m
    ensures d <= -1 ==> m * d + m <= 0
  {}

  /** Without the App Group's defaults the clock gives the generation; 0 is avoided here too. */
  function FallbackGeneration(nowMs: int): (g: int)
    ensures 0 < g < WORD
    ensures Truncate(nowMs) != 0 ==> g == Truncate(nowMs)
  {
    if Truncate(nowMs) == 0 then 1 else Truncate(nowMs)
  }
}
