/** The odd/even seqlock of the broadcast frame, one store at a time: an accepted
    read is the memory of one single publish. */
module Seqlock {
  import opened MachineIntegers
  import opened Wrappers

  type byte = b: int | 0 <= b < 256

  /** The shared memory: the sequence number, and all other bytes by offset. */
  datatype Memory = Memory(seqNo: int, cells: seq<byte>)

  /** One store of the writer. */
  datatype Op =
    | Begin
    | Put(at: nat, value: byte)
    | Publish

  /** 32-bit arithmetic. */
  function Wrapped(n: int): int {
    n % WORD
  }

  function Odd(s: int): int {
    if s % 2 == 0 then s + 1 else s
  }

  function Apply(m: Memory, op: Op): Memory {
    match op
    case Begin => m.(seqNo := Odd(m.seqNo))
    case Put(at, v) => if at < |m.cells| then m.(cells := m.cells[at := v]) else m
    case Publish => m.(seqNo := Wrapped(m.seqNo + 1))
  }

  function Run(m: Memory, ops: seq<Op>): Memory {
    if ops == [] then m else Apply(Run(m, ops[..|ops| - 1]), ops[|ops| - 1])
  }

  /** Whether a frame is being written after these stores. */
  predicate Open(ops: seq<Op>) {
    ops != [] && match ops[|ops| - 1]
                 case Begin => true
                 case Put(_, _) => Open(ops[..|ops| - 1])
                 case Publish => false
  }

  /** The writer announces a frame before it touches it, and publishes what it
      announced.  A frame may also be given up, or announced twice. */
  predicate Follows(ops: seq<Op>) {
    ops == [] || (Follows(ops[..|ops| - 1]) && (ops[|ops| - 1].Begin? || Open(ops[..|ops| - 1])))
  }

  function Publishes(ops: seq<Op>): nat {
    if ops == [] then 0 else Publishes(ops[..|ops| - 1]) + if ops[|ops| - 1].Publish? then 1 else 0
  }

  lemma OneMore(m: Memory, ops: seq<Op>, op: Op)
    ensures Run(m, ops + [op]) == Apply(Run(m, ops), op)
    ensures Follows(ops + [op]) <==> Follows(ops) && (op.Begin? || Open(ops))
    ensures Open(ops + [op]) <==> op.Begin? || (op.Put? && Open(ops))
    ensures Publishes(ops + [op]) == Publishes(ops) + if op.Publish? then 1 else 0
  {
    assert (ops + [op])[..|ops + [op]| - 1] == ops;
  }

  // ----- the sequence number ----------------------------------------------------------

  /** The sequence number counts publishes by two, and is odd while a frame is open. */
  lemma {:induction false} SeqNoCounts(m: Memory, ops: seq<Op>)
    requires m.seqNo == 0 && Follows(ops)
    ensures Run(m, ops).seqNo == Wrapped(2 * Publishes(ops) + if Open(ops) then 1 else 0)
    ensures Run(m, ops).seqNo % 2 == 1 <==> Open(ops)
    ensures |Run(m, ops).cells| == |m.cells|
  {
    if ops != [] {
      var before, op := ops[..|ops| - 1], ops[|ops| - 1];
      SeqNoCounts(m, before);
      assert ops == before + [op];
      OneMore(m, before, op);
      hide Run, Publishes, Follows, Open, Wrapped;
      Counted(Run(m, before).seqNo, Publishes(before), Open(before), op);
    }
  }

  /** What one store does to the count: `p` publishes before it, and a frame open or not. */
  lemma Counted(s: int, p: nat, open: bool, op: Op)
    requires s == Wrapped(2 * p + if open then 1 else 0) && (op.Publish? ==> open)
    ensures s % 2 == 1 <==> open
    ensures op.Begin? ==> Odd(s) == Wrapped(2 * p + 1)
    ensures op.Publish? ==> Wrapped(s + 1) == Wrapped(2 * (p + 1)) && Wrapped(s + 1) % 2 == 0
  {
    hide Wrapped;
    EvenWraps(2 * p);
    EvenWraps(2 * p + 2);
    SuccessorWraps(2 * p + 1);
  }

  lemma EvenWraps(n: int)
    requires n % 2 == 0
    ensures Wrapped(n) % 2 == 0 && Wrapped(n + 1) == Wrapped(n) + 1
  {
    var q, r := n / WORD, n % WORD;
    assert n == WORD * q + r;
    assert r % 2 == 0;
    assert n + 1 == WORD * q + (r + 1);
  }

  lemma SuccessorWraps(n: int)
    ensures Wrapped(Wrapped(n) + 1) == Wrapped(n + 1)
  {
    assert n == WORD * (n / WORD) + n % WORD;
  }

  /** Where two stretches of the run end in the same even number, fewer than 2^31
      publishes apart, nothing at all was stored in between. */
  lemma {:induction false} NothingStored(m: Memory, ops: seq<Op>, i: nat, j: nat)
    requires m.seqNo == 0 && Follows(ops) && i <= j <= |ops|
    requires Run(m, ops[..i]).seqNo % 2 == 0 && Run(m, ops[..j]).seqNo == Run(m, ops[..i]).seqNo
    requires Publishes(ops[..j]) - Publishes(ops[..i]) < WORD / 2
    ensures i == j
  {
    FollowsPrefix(ops, i);
    FollowsPrefix(ops, j);
    SeqNoCounts(m, ops[..i]);
    SeqNoCounts(m, ops[..j]);
    PublishesGrow(ops, i, j);
    SameResidue(Publishes(ops[..i]), Publishes(ops[..j]));
    if i < j {
      StaysOpen(ops, i, j);
    }
  }

  lemma SameResidue(a: nat, b: nat)
    requires a <= b < a + WORD / 2 && (2 * a) % WORD == (2 * b) % WORD
    ensures a == b
  {
    var p, q := 2 * a / WORD, 2 * b / WORD;
    assert 2 * b - 2 * a == WORD * (q - p);
  }

  lemma {:induction false} FollowsPrefix(ops: seq<Op>, i: nat)
    requires Follows(ops) && i <= |ops|
    ensures Follows(ops[..i])
    decreases |ops|
  {
    if i < |ops| {
      assert ops[..|ops| - 1][..i] == ops[..i];
      FollowsPrefix(ops[..|ops| - 1], i);
    } else {
      assert ops[..i] == ops;
    }
  }

  lemma {:induction false} PublishesGrow(ops: seq<Op>, i: nat, j: nat)
    requires i <= j <= |ops|
    ensures Publishes(ops[..i]) <= Publishes(ops[..j])
    decreases j - i
  {
    if i < j {
      assert ops[..j][..j - 1] == ops[..j - 1];
      PublishesGrow(ops, i, j - 1);
    }
  }

  /** Once a frame is announced the number stays odd until the next publish. */
  lemma {:induction false} StaysOpen(ops: seq<Op>, i: nat, j: nat)
    requires Follows(ops) && i < j <= |ops| && !Open(ops[..i])
    requires Publishes(ops[..i]) == Publishes(ops[..j])
    ensures Open(ops[..j])
    decreases j - i
  {
    assert ops[..j][..j - 1] == ops[..j - 1];
    FollowsPrefix(ops, j);
    PublishesGrow(ops, i, j - 1);
    if i < j - 1 {
      StaysOpen(ops, i, j - 1);
    }
  }

  // ----- reads ------------------------------------------------------------------------------

  /** A read: the sequence number is loaded first and last, and byte `a` in between,
      when the writer has made `when(a)` of its stores. */
  datatype Read = Read(first: nat, when: nat -> nat, last: nat)

  ghost predicate Between(r: Read, ops: seq<Op>) {
    r.first <= r.last <= |ops| && forall a: nat :: r.first <= r.when(a) <= r.last
  }

  /** The check of the reader: even, and the same before and after. */
  ghost predicate Accepts(m: Memory, ops: seq<Op>, r: Read)
    requires Between(r, ops)
  {
    Run(m, ops[..r.first]).seqNo % 2 == 0 && Run(m, ops[..r.last]).seqNo == Run(m, ops[..r.first]).seqNo
  }

  /** The byte the reader loads at `a`. */
  function Loaded(m: Memory, ops: seq<Op>, r: Read, a: nat): Option<byte>
    requires r.when(a) <= |ops|
  {
    var cells := Run(m, ops[..r.when(a)]).cells;
    if a < |cells| then Some(cells[a]) else None
  }

  /** Where the latest publish among the first `i` stores left off; 0 if there is none. */
  function LatestPublish(ops: seq<Op>, i: nat): (p: nat)
    requires i <= |ops|
    ensures p <= i && (p > 0 ==> ops[p - 1].Publish?)
  {
    if i == 0 || ops[i - 1].Publish? then i else LatestPublish(ops, i - 1)
  }

  lemma {:induction false} ClosedSince(m: Memory, ops: seq<Op>, i: nat)
    requires Follows(ops) && i <= |ops| && !Open(ops[..i])
    ensures LatestPublish(ops, i) == i
  {
    FollowsPrefix(ops, i);
    if i > 0 {
      assert ops[..i][..i - 1] == ops[..i - 1];
    }
  }

  /** Whatever the interleaving, a read that is accepted returns, byte for byte, the
      memory as one single publish left it, or as it was before all stores. */
  lemma NoTornRead(m: Memory, ops: seq<Op>, r: Read)
    requires m.seqNo == 0 && Follows(ops) && Between(r, ops) && Accepts(m, ops, r)
    requires Publishes(ops[..r.last]) - Publishes(ops[..r.first]) < WORD / 2
    ensures
      var p := LatestPublish(ops, r.first);
      var image := Run(m, ops[..p]).cells;
      && p <= r.first && (p == 0 || ops[p - 1].Publish?) && (forall i :: p <= i < r.first ==> !ops[i].Publish?)
      && forall a: nat :: Loaded(m, ops, r, a) == if a < |image| then Some(image[a]) else None
  {
    NothingStored(m, ops, r.first, r.last);
    FollowsPrefix(ops, r.first);
    SeqNoCounts(m, ops[..r.first]);
    ClosedSince(m, ops, r.first);
    forall a: nat
      ensures Loaded(m, ops, r, a)
           == var image := Run(m, ops[..r.first]).cells; if a < |image| then Some(image[a]) else None
    {
      assert r.when(a) == r.first;
    }
  }

  /** Within the bound a read is accepted exactly if no frame was open and nothing at all was
      stored while it was going on: the check neither lets a torn read through nor turns a
      quiet one away. */
  lemma AcceptedExactly(m: Memory, ops: seq<Op>, r: Read)
    requires m.seqNo == 0 && Follows(ops) && Between(r, ops)
    requires Publishes(ops[..r.last]) - Publishes(ops[..r.first]) < WORD / 2
    ensures Accepts(m, ops, r) <==> r.first == r.last && !Open(ops[..r.first])
  {
    FollowsPrefix(ops, r.first);
    SeqNoCounts(m, ops[..r.first]);
    if Accepts(m, ops, r) {
      NothingStored(m, ops, r.first, r.last);
    }
  }

  // ----- the bound is tight -------------------------------------------------------------------

  /** A frame that rewrites one byte. */
  function OneByteFrame(at: nat, v: byte): seq<Op> {
    [Begin, Put(at, v), Publish]
  }

  function Frames(at: nat, v: byte, n: nat): seq<Op> {
    if n == 0 then [] else Frames(at, v, n - 1) + OneByteFrame(at, v)
  }

  /** One frame that rewrites the byte at `a`, then `n` frames that rewrite the one at `b`. */
  function TwoStage(a: nat, b: nat, v: byte, n: nat): seq<Op> {
    OneByteFrame(a, v) + Frames(b, v, n)
  }

  lemma FrameRuns(m: Memory, ops: seq<Op>, at: nat, v: byte)
    requires Follows(ops) && !Open(ops) && m.seqNo == 0 && at < |m.cells| == |Run(m, ops).cells|
    ensures
      var all := ops + OneByteFrame(at, v);
      && Follows(all) && !Open(all) && Publishes(all) == Publishes(ops) + 1
      && Run(m, all).cells == Run(m, ops).cells[at := v]
  {
    SeqNoCounts(m, ops);
    var a, b := ops + [Begin], ops + [Begin] + [Put(at, v)];
    OneMore(m, ops, Begin);
    OneMore(m, a, Put(at, v));
    OneMore(m, b, Publish);
    assert b + [Publish] == ops + OneByteFrame(at, v);
    hide Run, Follows, Open, Publishes;
  }

  lemma {:induction false} TwoStageRuns(m: Memory, a: nat, b: nat, v: byte, n: nat)
    requires m.seqNo == 0 && a < |m.cells| && b < |m.cells|
    ensures
      var ops := TwoStage(a, b, v, n);
      && Follows(ops) && !Open(ops) && Publishes(ops) == n + 1 && |ops| == 3 * n + 3
      && Run(m, ops).cells == if n == 0 then m.cells[a := v] else m.cells[a := v][b := v]
  {
    hide Run, Follows, Open, Publishes;
    var ops := TwoStage(a, b, v, n);
    if n == 0 {
      Untouched(m);
      FrameRuns(m, [], a, v);
      assert ops == [] + OneByteFrame(a, v);
    } else {
      var before := TwoStage(a, b, v, n - 1);
      TwoStageRuns(m, a, b, v, n - 1);
      FrameRuns(m, before, b, v);
      assert ops == before + OneByteFrame(b, v);
      assert m.cells[a := v][b := v][b := v] == m.cells[a := v][b := v];
    }
  }

  lemma Untouched(m: Memory)
    ensures Follows([]) && !Open([]) && Publishes([]) == 0 && Run(m, []) == m
  {}

  /** From the first publish on the byte at `a` is the new one. */
  lemma {:induction false} PublishedFirst(m: Memory, a: nat, b: nat, v: byte, n: nat, p: nat)
    requires m.seqNo == 0 && a < |m.cells| && b < |m.cells| && 3 <= p <= |TwoStage(a, b, v, n)|
    ensures
      var cells := Run(m, TwoStage(a, b, v, n)[..p]).cells;
      |cells| == |m.cells| && cells[a] == v
  {
    var ops := TwoStage(a, b, v, n);
    if n == 0 {
      TwoStageRuns(m, a, b, v, 0);
      assert ops[..p] == ops;
    } else {
      var before := TwoStage(a, b, v, n - 1);
      TwoStageRuns(m, a, b, v, n - 1);
      assert ops == before + OneByteFrame(b, v);
      if p <= |before| {
        assert ops[..p] == before[..p];
        PublishedFirst(m, a, b, v, n - 1, p);
      } else {
        StoresKeep(m, before, a, b, v, p - |before|);
        assert ops[..p] == before + OneByteFrame(b, v)[..p - |before|];
      }
    }
  }

  lemma StoresKeep(m: Memory, ops: seq<Op>, a: nat, b: nat, v: byte, k: nat)
    requires 1 <= k <= 3 && a < |m.cells| == |Run(m, ops).cells| && Run(m, ops).cells[a] == v
    ensures
      var cells := Run(m, ops + OneByteFrame(b, v)[..k]).cells;
      |cells| == |m.cells| && cells[a] == v
  {
    var x, y := ops + [Begin], ops + [Begin] + [Put(b, v)];
    OneMore(m, ops, Begin);
    OneMore(m, x, Put(b, v));
    OneMore(m, y, Publish);
    hide Run;
    assert OneByteFrame(b, v)[..1] == [Begin] && OneByteFrame(b, v)[..2] == [Begin] + [Put(b, v)];
    assert OneByteFrame(b, v)[..3] == [Begin] + [Put(b, v)] + [Publish];
    assert ops + ([Begin] + [Put(b, v)]) == y && ops + ([Begin] + [Put(b, v)] + [Publish]) == y + [Publish];
  }

  /** No publish leaves anything before its third store. */
  lemma FirstPublish(a: nat, b: nat, v: byte, n: nat, p: nat)
    requires 0 < p <= |TwoStage(a, b, v, n)| && TwoStage(a, b, v, n)[p - 1].Publish?
    ensures p >= 3
  {
    assert TwoStage(a, b, v, n)[..3] == OneByteFrame(a, v);
    assert TwoStage(a, b, v, n)[0] == Begin && TwoStage(a, b, v, n)[1] == Put(a, v);
  }

  /** The read that loads the byte at `a` before all stores, every other one after them. */
  function Straddling(a: nat, n: nat): Read {
    Read(0, (x: nat) => if x == a then 0 else n, n)
  }

  /** The bound is tight: with exactly 2^31 publishes during the read the check of the
      reader accepts an old byte next to a new one, which no publish ever left together
      and which were not together before the first store either. */
  lemma TornAfterWrap(m: Memory, a: nat, b: nat, v: byte)
    requires m.seqNo == 0 && a < |m.cells| && b < |m.cells| && a != b && m.cells[a] != v && m.cells[b] != v
    ensures
      var ops := TwoStage(a, b, v, WORD / 2 - 1);
      var r := Straddling(a, |ops|);
      && Follows(ops) && Between(r, ops) && Accepts(m, ops, r)
      && Publishes(ops[..r.last]) - Publishes(ops[..r.first]) == WORD / 2
      && Loaded(m, ops, r, a) == Some(m.cells[a]) && Loaded(m, ops, r, b) == Some(v)
      && (forall p :: 0 < p <= |ops| && ops[p - 1].Publish? ==>
            |Run(m, ops[..p]).cells| == |m.cells| && Run(m, ops[..p]).cells[a] != m.cells[a])
  {
    var n := WORD / 2 - 1;
    var ops := TwoStage(a, b, v, n);
    TwoStageRuns(m, a, b, v, n);
    Untouched(m);
    SeqNoCounts(m, ops);
    assert ops[..|ops|] == ops && ops[..0] == [];
    forall p | 0 < p <= |ops| && ops[p - 1].Publish?
      ensures |Run(m, ops[..p]).cells| == |m.cells| && Run(m, ops[..p]).cells[a] != m.cells[a]
    {
      FirstPublish(a, b, v, n, p);
      PublishedFirst(m, a, b, v, n, p);
    }
  }
}
