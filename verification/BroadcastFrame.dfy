/** The bytes of a broadcast frame: the header fields and their encoding, and the
    writer that stores them into the shared memory under the seqlock. */
module BroadcastFrame {
  import opened MachineIntegers
  import opened Wrappers
  import opened Seqlock
  import BroadcastGeneration

  const HEADER_SIZE: nat := 64
  const WIDTH_OFFSET: nat := 4
  const HEARTBEAT_INTERVAL_MS: int := 1000
  const HEARTBEAT_STALE_THRESHOLD_MS: int := 3000

  // ----- little-endian numbers ---------------------------------------------------------

  function LE(v: nat, n: nat): (bs: seq<byte>)
    ensures |bs| == n
  {
    if n == 0 then [] else [v % 256] + LE(v / 256, n - 1)
  }

  function Val(bs: seq<byte>): nat {
    if bs == [] then 0 else bs[0] + 256 * Val(bs[1..])
  }

  function Pow256(n: nat): nat {
    if n == 0 then 1 else 256 * Pow256(n - 1)
  }

  lemma {:induction false} ValOfLE(v: nat, n: nat)
    requires v < Pow256(n)
    ensures Val(LE(v, n)) == v
  {
    if n > 0 {
      assert LE(v, n)[1..] == LE(v / 256, n - 1);
      ValOfLE(v / 256, n - 1);
    }
  }

  /** The two's complement of a 64-bit number. */
  function Unsigned(v: int): nat
    requires -LONG / 2 <= v < LONG / 2
  {
    if v < 0 then v + LONG else v
  }

  function Signed(v: nat): int {
    if v >= LONG / 2 then v - LONG else v
  }

  // ----- fields one after the other ------------------------------------------------------

  /** A field: its value and its width in bytes. */
  function Encoded(fields: seq<(nat, nat)>): seq<byte> {
    if fields == [] then [] else LE(fields[0].0, fields[0].1) + Encoded(fields[1..])
  }

  function Offset(fields: seq<(nat, nat)>, k: nat): nat
    requires k <= |fields|
  {
    if k == 0 then 0 else fields[0].1 + Offset(fields[1..], k - 1)
  }

  lemma {:induction false} FieldAt(fields: seq<(nat, nat)>, k: nat)
    requires k < |fields| && fields[k].0 < Pow256(fields[k].1)
    ensures Offset(fields, k) + fields[k].1 <= |Encoded(fields)|
    ensures Val(Encoded(fields)[Offset(fields, k)..Offset(fields, k) + fields[k].1]) == fields[k].0
  {
    hide LE, Val, Pow256;
    var first, rest := LE(fields[0].0, fields[0].1), Encoded(fields[1..]);
    assert Encoded(fields) == first + rest && Offset(fields, 0) == 0;
    if k == 0 {
      assert Encoded(fields)[..|first|] == first;
      ValOfLE(fields[0].0, fields[0].1);
    } else {
      assert Offset(fields, k) == |first| + Offset(fields[1..], k - 1);
      FieldAt(fields[1..], k - 1);
      hide Encoded, Offset;
      var o := Offset(fields[1..], k - 1);
      assert Encoded(fields)[|first| + o..|first| + o + fields[k].1] == rest[o..o + fields[k].1];
    }
  }

  // ----- frames ----------------------------------------------------------------------------

  /** A plane of pixels; `base` is None when its address cannot be had. */
  datatype Plane = Plane(bytesPerRow: nat, height: nat, base: Option<seq<byte>>)

  datatype Frame = Frame(
    width: nat, height: nat, pixelFormat: nat, planar: bool, planes: seq<Plane>, timestampNs: int, rotation: nat)

  predicate Word(n: nat) {
    n < WORD
  }

  /** What the capture framework delivers: plane memory of the announced size, and
      numbers that fit their header fields. */
  predicate WellFormed(f: Frame) {
    && |f.planes| > 0 && (!f.planar ==> |f.planes| == 1)
    && (forall k :: 0 <= k < |f.planes| ==>
          Word(f.planes[k].bytesPerRow) && Word(f.planes[k].height)
          && (f.planes[k].base.Some? ==> |f.planes[k].base.value| == f.planes[k].bytesPerRow * f.planes[k].height))
    && Word(f.width) && Word(f.height) && Word(f.pixelFormat) && Word(|f.planes|) && Word(f.rotation)
    && -LONG / 2 <= f.timestampNs < LONG / 2
  }

  function DataSize(planes: seq<Plane>): nat {
    if planes == [] then 0
    else DataSize(planes[..|planes| - 1]) + planes[|planes| - 1].bytesPerRow * planes[|planes| - 1].height
  }

  /** It adds up over the planes, whether or not they have an address. */
  lemma {:induction false} DataSizeAdds(a: seq<Plane>, b: seq<Plane>)
    ensures DataSize(a + b) == DataSize(a) + DataSize(b)
    ensures |a| == 1 ==> DataSize(a) == a[0].bytesPerRow * a[0].height
  {
    if b == [] {
      assert a + b == a;
    } else {
      assert (a + b)[..|a + b| - 1] == a + b[..|b| - 1];
      DataSizeAdds(a, b[..|b| - 1]);
    }
  }

  /** The pixels that are written: the planes that have an address, one after the other. */
  function Pixels(planes: seq<Plane>): seq<byte> {
    if planes == [] then []
    else Pixels(planes[..|planes| - 1])
         + match planes[|planes| - 1].base case None => [] case Some(bytes) => bytes
  }

  lemma {:induction false} PixelsFit(planes: seq<Plane>)
    requires forall k :: 0 <= k < |planes| && planes[k].base.Some? ==>
               |planes[k].base.value| == planes[k].bytesPerRow * planes[k].height
    ensures |Pixels(planes)| <= DataSize(planes)
  {
    if planes != [] {
      PixelsFit(planes[..|planes| - 1]);
      Area(planes[|planes| - 1].bytesPerRow, planes[|planes| - 1].height);
    }
  }

  lemma Area(a: nat, b: nat)
    ensures a * b >= 0
  {}

  function PlaneInfo(f: Frame, k: nat): (nat, nat) {
    if k < |f.planes| then (f.planes[k].bytesPerRow, f.planes[k].height) else (0, 0)
  }

  /** The header from the width on, with the widths of its fields. */
  function HeaderFields(f: Frame, generation: nat): seq<(nat, nat)>
    requires -LONG / 2 <= f.timestampNs < LONG / 2
  {
    [(f.width, 4), (f.height, 4), (f.pixelFormat, 4), (|f.planes|, 4),
     (PlaneInfo(f, 0).0, 4), (PlaneInfo(f, 0).1, 4), (PlaneInfo(f, 1).0, 4), (PlaneInfo(f, 1).1, 4),
     (Unsigned(f.timestampNs), 8), (f.rotation, 4), (generation, 4)]
  }

  // ----- what a reader decodes ---------------------------------------------------------------

  /** The number of `n` bytes at `at`. */
  function Load(cells: seq<byte>, at: nat, n: nat): nat
    requires at + n <= |cells|
  {
    Val(cells[at..at + n])
  }

  /** The memory shows this frame, stamped with this generation. */
  ghost predicate Shows(cells: seq<byte>, f: Frame, generation: nat) {
    && |cells| >= HEADER_SIZE + |Pixels(f.planes)|
    && Load(cells, 4, 4) == f.width && Load(cells, 8, 4) == f.height
    && Load(cells, 12, 4) == f.pixelFormat && Load(cells, 16, 4) == |f.planes|
    && Load(cells, 20, 4) == PlaneInfo(f, 0).0 && Load(cells, 24, 4) == PlaneInfo(f, 0).1
    && Load(cells, 28, 4) == PlaneInfo(f, 1).0 && Load(cells, 32, 4) == PlaneInfo(f, 1).1
    && Signed(Load(cells, 36, 8)) == f.timestampNs
    && Load(cells, 44, 4) == f.rotation && Load(cells, 48, 4) == generation
    && cells[HEADER_SIZE..HEADER_SIZE + |Pixels(f.planes)|] == Pixels(f.planes)
  }

  // ----- stretches of stores --------------------------------------------------------------------

  function Puts(at: nat, data: seq<byte>): seq<Op> {
    if data == [] then [] else Puts(at, data[..|data| - 1]) + [Put(at + |data| - 1, data[|data| - 1])]
  }

  function Overwrite(cells: seq<byte>, at: nat, data: seq<byte>): (r: seq<byte>)
    requires at + |data| <= |cells|
    ensures |r| == |cells|
  {
    cells[..at] + data + cells[at + |data|..]
  }

  lemma {:induction false} PutsRun(m: Memory, ops: seq<Op>, at: nat, data: seq<byte>)
    requires Follows(ops) && Open(ops) && at + |data| <= |Run(m, ops).cells|
    ensures
      var all := ops + Puts(at, data);
      && Follows(all) && Open(all) && Publishes(all) == Publishes(ops)
      && Run(m, all) == Run(m, ops).(cells := Overwrite(Run(m, ops).cells, at, data))
  {
    hide Run, Follows, Open, Publishes, Overwrite;
    if data == [] {
      assert ops + [] == ops;
      NothingWritten(Run(m, ops).cells, at);
    } else {
      var front, last := data[..|data| - 1], Put(at + |data| - 1, data[|data| - 1]);
      PutsRun(m, ops, at, front);
      OverwriteLast(Run(m, ops).cells, at, data);
      OneMore(m, ops + Puts(at, front), last);
      assert ops + Puts(at, data) == ops + Puts(at, front) + [last];
    }
  }

  lemma OverwriteLast(cells: seq<byte>, at: nat, data: seq<byte>)
    requires data != [] && at + |data| <= |cells|
    ensures Overwrite(cells, at, data[..|data| - 1])[at + |data| - 1 := data[|data| - 1]] == Overwrite(cells, at, data)
  {}

  lemma {:induction false} PutsJoin(at: nat, a: seq<byte>, b: seq<byte>)
    ensures Puts(at, a + b) == Puts(at, a) + Puts(at + |a|, b)
  {
    if b == [] {
      assert a + b == a;
    } else {
      PutsJoin(at, a, b[..|b| - 1]);
      assert (a + b)[..|a + b| - 1] == a + b[..|b| - 1];
    }
  }

  /** The stores of one frame. */
  function FrameOps(f: Frame, generation: nat): seq<Op>
    requires -LONG / 2 <= f.timestampNs < LONG / 2
  {
    [Begin] + Puts(HEADER_SIZE, Pixels(f.planes))
      + Puts(WIDTH_OFFSET, Encoded(HeaderFields(f, generation))) + [Publish]
  }

  /** A frame that was stored in full is what the memory shows. */
  lemma FrameShown(m: Memory, ops: seq<Op>, f: Frame, generation: nat)
    requires Follows(ops) && WellFormed(f) && Word(generation)
    requires HEADER_SIZE + DataSize(f.planes) <= |Run(m, ops).cells|
    ensures
      var all := ops + FrameOps(f, generation);
      && Follows(all) && !Open(all) && Publishes(all) == Publishes(ops) + 1
      && Shows(Run(m, all).cells, f, generation)
  {
    hide Pixels, DataSize, Encoded, HeaderFields, Puts, Shows, Run, Follows, Open, Publishes;
    var pixels, header := Pixels(f.planes), Encoded(HeaderFields(f, generation));
    PixelsFit(f.planes);
    HeaderLength(f, generation);
    var a := ops + [Begin];
    var b := a + Puts(HEADER_SIZE, pixels);
    var c := b + Puts(WIDTH_OFFSET, header);
    OneMore(m, ops, Begin);
    PutsRun(m, a, HEADER_SIZE, pixels);
    PutsRun(m, b, WIDTH_OFFSET, header);
    OneMore(m, c, Publish);
    assert ops + FrameOps(f, generation) == c + [Publish];
    OverwrittenShows(Run(m, ops).cells, f, generation);
  }

  lemma HeaderLength(f: Frame, generation: nat)
    requires -LONG / 2 <= f.timestampNs < LONG / 2
    ensures |Encoded(HeaderFields(f, generation))| == 48
  {
    var fields := HeaderFields(f, generation);
    FieldsLength(fields);
    OffsetOf(f, generation, 11);
  }

  lemma {:induction false} FieldsLength(fields: seq<(nat, nat)>)
    ensures |Encoded(fields)| == Offset(fields, |fields|)
  {
    if fields != [] {
      FieldsLength(fields[1..]);
    }
  }

  lemma {:induction false} OffsetAdds(fields: seq<(nat, nat)>, k: nat)
    requires k < |fields|
    ensures Offset(fields, k + 1) == Offset(fields, k) + fields[k].1
  {
    if k > 0 {
      OffsetAdds(fields[1..], k - 1);
    }
  }

  /** The offsets of the header layout, counted from the width. */
  lemma OffsetOf(f: Frame, generation: nat, k: nat)
    requires -LONG / 2 <= f.timestampNs < LONG / 2 && k <= 11
    ensures Offset(HeaderFields(f, generation), k) == if k <= 8 then 4 * k else 4 * k + 4
  {
    if k > 0 {
      OffsetOf(f, generation, k - 1);
      OffsetAdds(HeaderFields(f, generation), k - 1);
    }
  }

  lemma Powers()
    ensures Pow256(4) == WORD && Pow256(8) == LONG
  {
    assert Pow256(2) == 65536 && Pow256(3) == 16777216;
    assert Pow256(5) == 0x100_0000_0000 && Pow256(6) == 0x1_0000_0000_0000 && Pow256(7) == 0x100_0000_0000_0000;
  }

  lemma SubSlice(cells: seq<byte>, a: nat, b: nat, o: nat, n: nat)
    requires a <= b <= |cells| && a + o + n <= b
    ensures cells[a..b][o..o + n] == cells[a + o..a + o + n]
  {
    var inner, direct := cells[a..b][o..o + n], cells[a + o..a + o + n];
    assert |inner| == |direct| && forall i :: 0 <= i < n ==> inner[i] == direct[i];
  }

  lemma FieldsAre(f: Frame, generation: nat)
    requires -LONG / 2 <= f.timestampNs < LONG / 2
    ensures
      var fields := HeaderFields(f, generation);
      && |fields| == 11 && fields[0] == (f.width, 4) && fields[1] == (f.height, 4)
      && fields[2] == (f.pixelFormat, 4) && fields[3] == (|f.planes|, 4)
      && fields[4] == (PlaneInfo(f, 0).0, 4) && fields[5] == (PlaneInfo(f, 0).1, 4)
      && fields[6] == (PlaneInfo(f, 1).0, 4) && fields[7] == (PlaneInfo(f, 1).1, 4)
      && fields[8] == (Unsigned(f.timestampNs), 8) && fields[9] == (f.rotation, 4) && fields[10] == (generation, 4)
  {}

  lemma FieldWidth(f: Frame, generation: nat, k: nat)
    requires WellFormed(f) && Word(generation) && k < 11
    ensures |HeaderFields(f, generation)| == 11
    ensures HeaderFields(f, generation)[k].1 == if k == 8 then 8 else 4
    ensures HeaderFields(f, generation)[k].0 < Pow256(HeaderFields(f, generation)[k].1)
  {
    Powers();
  }

  /** The field at index `k` of the header is what a load at its offset returns. */
  lemma HeaderField(cells: seq<byte>, f: Frame, generation: nat, k: nat)
    requires WellFormed(f) && Word(generation) && k < 11 && |cells| >= HEADER_SIZE
    requires cells[4..52] == Encoded(HeaderFields(f, generation))
    ensures
      var o := if k <= 8 then 4 * k else 4 * k + 4;
      Load(cells, 4 + o, if k == 8 then 8 else 4) == HeaderFields(f, generation)[k].0
  {
    hide Encoded, Offset, Val;
    var fields, o, n := HeaderFields(f, generation), if k <= 8 then 4 * k else 4 * k + 4, if k == 8 then 8 else 4;
    FieldWidth(f, generation, k);
    OffsetOf(f, generation, k);
    FieldAt(fields, k);
    SubSlice(cells, 4, 52, o, n);
  }

  lemma OverwrittenShows(cells: seq<byte>, f: Frame, generation: nat)
    requires WellFormed(f) && Word(generation) && HEADER_SIZE + |Pixels(f.planes)| <= |cells|
    requires |Encoded(HeaderFields(f, generation))| == 48
    ensures Shows(Overwrite(Overwrite(cells, HEADER_SIZE, Pixels(f.planes)), WIDTH_OFFSET,
                            Encoded(HeaderFields(f, generation))), f, generation)
  {
    hide Encoded, HeaderFields, Load, Overwrite, Shows, Pixels;
    var header, pixels := Encoded(HeaderFields(f, generation)), Pixels(f.planes);
    var now := Overwrite(Overwrite(cells, HEADER_SIZE, pixels), WIDTH_OFFSET, header);
    Overwritten(cells, HEADER_SIZE, pixels, 0, 0);
    Overwritten(Overwrite(cells, HEADER_SIZE, pixels), WIDTH_OFFSET, header, HEADER_SIZE, HEADER_SIZE + |pixels|);
    HeaderShows(now, f, generation);
  }

  lemma Overwritten(cells: seq<byte>, at: nat, data: seq<byte>, lo: nat, hi: nat)
    requires at + |data| <= |cells| && lo <= hi <= |cells| && (hi <= at || at + |data| <= lo)
    ensures Overwrite(cells, at, data)[at..at + |data|] == data
    ensures Overwrite(cells, at, data)[lo..hi] == cells[lo..hi]
  {
    var r := Overwrite(cells, at, data);
    assert forall i :: lo <= i < hi ==> r[i] == cells[i];
  }

  lemma HeaderShows(cells: seq<byte>, f: Frame, generation: nat)
    requires WellFormed(f) && Word(generation) && HEADER_SIZE + |Pixels(f.planes)| <= |cells|
    requires cells[4..52] == Encoded(HeaderFields(f, generation))
    requires cells[HEADER_SIZE..HEADER_SIZE + |Pixels(f.planes)|] == Pixels(f.planes)
    ensures Shows(cells, f, generation)
  {
    hide Encoded, Load, Pixels, Pow256;
    HeaderField(cells, f, generation, 0);
    HeaderField(cells, f, generation, 1);
    HeaderField(cells, f, generation, 2);
    HeaderField(cells, f, generation, 3);
    HeaderField(cells, f, generation, 4);
    HeaderField(cells, f, generation, 5);
    HeaderField(cells, f, generation, 6);
    HeaderField(cells, f, generation, 7);
    HeaderField(cells, f, generation, 8);
    HeaderField(cells, f, generation, 9);
    HeaderField(cells, f, generation, 10);
  }

  // ----- the writer ---------------------------------------------------------------------------------

  /** The lifecycle marker of a share. */
  datatype Sidecar = Sidecar(sessionId: string, generation: nat, activeCall: bool, heartbeatMs: int)

  predicate IsLive(s: Sidecar, nowMs: int, staleThresholdMs: int) {
    s.activeCall && nowMs - s.heartbeatMs < staleThresholdMs
  }

  datatype Outcome = Stopped | Skipped | GivenUp | Published

  class FrameWriter {
    const generation: nat
    const sessionId: string
    var seqNo: int
    const cells: array<byte>
    var lastHeartbeatCheckMs: int
    ghost const start: Memory
    ghost var log: seq<Op>
    ghost var shown: map<nat, Frame>

    /** What the sample handler does with a frame: a writer whose reader is gone stops;
        a frame that does not fit is skipped; one without an address is given up. */
    function Fate(f: Frame, nowMs: int, sidecar: Option<Sidecar>): Outcome
      reads this`lastHeartbeatCheckMs
    {
      if nowMs - lastHeartbeatCheckMs >= HEARTBEAT_INTERVAL_MS
         && !(sidecar.Some? && IsLive(sidecar.value, nowMs, HEARTBEAT_STALE_THRESHOLD_MS)
              && sidecar.value.generation == generation && sidecar.value.sessionId == sessionId) then Stopped
      else if HEADER_SIZE + DataSize(f.planes) > cells.Length then Skipped
      else if !f.planar && f.planes != [] && f.planes[0].base.None? then GivenUp
      else Published
    }

    ghost function View(): Memory
      reads this`seqNo, cells
    {
      Memory(seqNo, cells[..])
    }

    /** The memory is the outcome of the stores so far; they keep the seqlock's
        protocol, and every publish left a whole frame. */
    ghost predicate Valid()
      reads this`seqNo, this`log, this`shown, cells
    {
      && Word(generation) && start.seqNo == 0 && cells.Length >= HEADER_SIZE && |start.cells| == cells.Length
      && Load(start.cells, 48, 4) == 0
      && Follows(log) && View() == Run(start, log)
      && (forall p :: p in shown ==> p <= |log|)
      && (forall p :: 0 < p <= |log| && log[p - 1].Publish? ==> p in shown && Shown(p))
    }

    ghost predicate Shown(p: nat)
      requires p in shown && p <= |log|
      reads this`log, this`shown
    {
      Shows(Run(start, log[..p]).cells, shown[p], generation)
    }

    /** openSharedMemory: the header is zeroed, whatever the file held before. */
    constructor (generation: nat, sessionId: string, file: array<byte>, nowMs: int)
      requires Word(generation) && file.Length >= HEADER_SIZE
      modifies file
      ensures Valid() && cells == file && this.generation == generation && this.sessionId == sessionId
      ensures log == [] && lastHeartbeatCheckMs == nowMs
      ensures file[HEADER_SIZE..] == old(file[HEADER_SIZE..])
    {
      ZeroHeader(file);
      this.generation, this.sessionId := generation, sessionId;
      seqNo, cells, lastHeartbeatCheckMs := 0, file, nowMs;
      log, shown := [], map[];
      start := Memory(0, file[..]);
      new;
      ZeroLoads(start.cells[48..52]);
    }

    /** One memcpy, byte by byte. */
    method WriteBytes(at: nat, data: seq<byte>)
      requires at + |data| <= cells.Length
      modifies cells, this`log
      ensures log == old(log) + Puts(at, data)
      ensures cells[..] == Overwrite(old(cells[..]), at, data)
    {
      for i := 0 to |data|
        invariant log == old(log) + Puts(at, data[..i])
        invariant cells[..] == Overwrite(old(cells[..]), at, data[..i])
      {
        cells[at + i] := data[i];
        assert data[..i + 1][..i] == data[..i];
        log := log + [Put(at + i, data[i])];
      }
      assert data[..|data|] == data;
    }

    /** Stores into an open frame. */
    method CopyIn(at: nat, data: seq<byte>)
      requires Valid() && Open(log) && at + |data| <= cells.Length
      modifies cells, this`log
      ensures Valid() && Open(log)
      ensures log == old(log) + Puts(at, data)
      ensures cells[..] == Overwrite(old(cells[..]), at, data)
    {
      hide Run, Follows, Open, Shows, Load, Overwrite;
      PutsRun(start, log, at, data);
      WriteBytes(at, data);
      PutsAppended(old(log), at, data);
      forall p | 0 < p <= |log| && log[p - 1].Publish?
        ensures p in shown && Shown(p)
      {
        assert log[..p] == old(log)[..p] && old(log)[p - 1] == log[p - 1] && old(Shown(p));
      }
    }

    /** The planes that have an address, one after the other from the header's end. */
    method StorePixels(f: Frame)
      requires Valid() && Open(log) && WellFormed(f) && HEADER_SIZE + DataSize(f.planes) <= cells.Length
      modifies cells, this`log
      ensures Valid() && Open(log)
      ensures HEADER_SIZE + |Pixels(f.planes)| <= cells.Length
      ensures log == old(log) + Puts(HEADER_SIZE, Pixels(f.planes))
      ensures cells[..] == Overwrite(old(cells[..]), HEADER_SIZE, Pixels(f.planes))
    {
      hide Valid, Overwrite, Puts, Pixels, DataSize, Open, WellFormed;
      Sized(f);
      var dataOffset := HEADER_SIZE;
      NothingWritten(old(cells[..]), HEADER_SIZE);
      NoPlane(f.planes);
      PixelsFit(f.planes);
      for k := 0 to |f.planes|
        invariant Valid() && Open(log)
        invariant |Pixels(f.planes[..k])| <= |Pixels(f.planes)| && dataOffset == HEADER_SIZE + |Pixels(f.planes[..k])|
        invariant log == old(log) + Puts(HEADER_SIZE, Pixels(f.planes[..k]))
        invariant cells[..] == Overwrite(old(cells[..]), HEADER_SIZE, Pixels(f.planes[..k]))
      {
        OneMorePlane(f.planes, k);
        if f.planes[k].base.Some? {
          var bytes := f.planes[k].base.value;
          CopyIn(dataOffset, bytes);
          PutsJoin(HEADER_SIZE, Pixels(f.planes[..k]), bytes);
          OverwriteJoin(old(cells[..]), HEADER_SIZE, Pixels(f.planes[..k]), bytes);
          dataOffset := dataOffset + |bytes|;
        }
      }
      assert f.planes[..|f.planes|] == f.planes;
    }

    /** One header field, right after those before it. */
    method StoreField(f: Frame, at: nat, v: nat, n: nat, ghost k: nat, ghost was: seq<byte>, ghost before: seq<Op>)
      requires Valid() && Open(log) && WellFormed(f) && k < 11 && HeaderFields(f, generation)[k] == (v, n)
      requires HEADER_SIZE <= cells.Length == |was| && at == if k <= 8 then 4 + 4 * k else 8 + 4 * k
      requires HeaderStored(f, k, was, before) && Word(generation)
      modifies cells, this`log
      ensures Valid() && Open(log)
      ensures HeaderStored(f, k + 1, was, before)
    {
      hide Valid, Open, Puts, Overwrite, Encoded, HeaderFields, Offset;
      ghost var fields := HeaderFields(f, generation);
      FieldWidth(f, generation, k);
      OffsetOf(f, generation, k);
      OneMoreField(fields, k);
      CopyIn(at, LE(v, n));
      PutsJoin(WIDTH_OFFSET, Encoded(fields[..k]), LE(v, n));
      OverwriteJoin(was, WIDTH_OFFSET, Encoded(fields[..k]), LE(v, n));
    }

    /** The first `k` header fields are stored, and nothing else since. */
    ghost predicate HeaderStored(f: Frame, k: nat, was: seq<byte>, before: seq<Op>)
      requires k <= 11 && -LONG / 2 <= f.timestampNs < LONG / 2
      reads this`log, cells
    {
      var bytes := Encoded(HeaderFields(f, generation)[..k]);
      && WIDTH_OFFSET + |bytes| <= |was|
      && log == before + Puts(WIDTH_OFFSET, bytes)
      && cells[..] == Overwrite(was, WIDTH_OFFSET, bytes)
    }

    method StoreHeader(f: Frame)
      requires Valid() && Open(log) && WellFormed(f)
      modifies cells, this`log
      ensures Valid() && Open(log)
      ensures |Encoded(HeaderFields(f, generation))| == 48
      ensures log == old(log) + Puts(WIDTH_OFFSET, Encoded(HeaderFields(f, generation)))
      ensures cells[..] == Overwrite(old(cells[..]), WIDTH_OFFSET, Encoded(HeaderFields(f, generation)))
    {
      assert Word(generation) && HEADER_SIZE <= cells.Length;
      ghost var was, before := cells[..], log;
      HeaderStart(f, was, before);
      FieldsAre(f, generation);
      hide HeaderStored, Valid, Open, HeaderFields, Encoded, Puts, Overwrite, WellFormed;
      StoreShape(f, was, before);
      StorePlaneLayout(f, was, before);
      StoreField(f, 36, Unsigned(f.timestampNs), 8, 8, was, before);
      StoreField(f, 44, f.rotation, 4, 9, was, before);
      StoreField(f, 48, generation, 4, 10, was, before);
      HeaderDone(f, was, before);
    }

    method StoreShape(f: Frame, ghost was: seq<byte>, ghost before: seq<Op>)
      requires Valid() && Open(log) && WellFormed(f) && Word(generation) && HEADER_SIZE <= cells.Length == |was|
      requires HeaderStored(f, 0, was, before)
      modifies cells, this`log
      ensures Valid() && Open(log) && HeaderStored(f, 4, was, before)
    {
      FieldsAre(f, generation);
      hide HeaderStored, Valid, Open, HeaderFields, WellFormed;
      StoreField(f, 4, f.width, 4, 0, was, before);
      StoreField(f, 8, f.height, 4, 1, was, before);
      StoreField(f, 12, f.pixelFormat, 4, 2, was, before);
      StoreField(f, 16, |f.planes|, 4, 3, was, before);
    }

    method StorePlaneLayout(f: Frame, ghost was: seq<byte>, ghost before: seq<Op>)
      requires Valid() && Open(log) && WellFormed(f) && Word(generation) && HEADER_SIZE <= cells.Length == |was|
      requires HeaderStored(f, 4, was, before)
      modifies cells, this`log
      ensures Valid() && Open(log) && HeaderStored(f, 8, was, before)
    {
      FieldsAre(f, generation);
      hide HeaderStored, Valid, Open, HeaderFields, WellFormed;
      StoreField(f, 20, PlaneInfo(f, 0).0, 4, 4, was, before);
      StoreField(f, 24, PlaneInfo(f, 0).1, 4, 5, was, before);
      StoreField(f, 28, PlaneInfo(f, 1).0, 4, 6, was, before);
      StoreField(f, 32, PlaneInfo(f, 1).1, 4, 7, was, before);
    }

    lemma HeaderStart(f: Frame, was: seq<byte>, before: seq<Op>)
      requires -LONG / 2 <= f.timestampNs < LONG / 2 && HEADER_SIZE <= cells.Length
      requires was == cells[..] && before == log
      ensures HeaderStored(f, 0, was, before)
    {
      assert HeaderFields(f, generation)[..0] == [];
    }

    lemma HeaderDone(f: Frame, was: seq<byte>, before: seq<Op>)
      requires -LONG / 2 <= f.timestampNs < LONG / 2 && HeaderStored(f, 11, was, before)
      ensures
        var header := Encoded(HeaderFields(f, generation));
        && |header| == 48 && WIDTH_OFFSET + |header| <= |was|
        && log == before + Puts(WIDTH_OFFSET, header) && cells[..] == Overwrite(was, WIDTH_OFFSET, header)
    {
      HeaderLength(f, generation);
      assert HeaderFields(f, generation)[..11] == HeaderFields(f, generation);
    }

    /** processSampleBuffer */
    method ProcessSampleBuffer(f: Frame, nowMs: int, sidecar: Option<Sidecar>) returns (outcome: Outcome)
      requires Valid() && WellFormed(f)
      modifies this, cells
      ensures Valid()
      ensures outcome == old(Fate(f, nowMs, sidecar))
      ensures
        nowMs - old(lastHeartbeatCheckMs) >= 1000 ==>
          (outcome.Stopped? <==>
           !(&& sidecar.Some? && sidecar.value.activeCall && nowMs - sidecar.value.heartbeatMs < 3000
             && sidecar.value.generation == generation && sidecar.value.sessionId == sessionId))
      ensures outcome.Stopped? ==> nowMs - old(lastHeartbeatCheckMs) >= 1000
      ensures outcome.Skipped? ==> 64 + DataSize(f.planes) > cells.Length
      ensures
        outcome.GivenUp? ==>
          64 + DataSize(f.planes) <= cells.Length && !f.planar && f.planes != [] && f.planes[0].base.None?
      ensures
        outcome.Published? ==>
          64 + DataSize(f.planes) <= cells.Length && (f.planar || f.planes == [] || f.planes[0].base.Some?)
      ensures log == old(log) + (match outcome
                                 case GivenUp => [Begin]
                                 case Published => FrameOps(f, generation)
                                 case _ => [])
      ensures shown == if outcome.Published? then old(shown)[|log| := f] else old(shown)
      ensures lastHeartbeatCheckMs == if nowMs - old(lastHeartbeatCheckMs) >= HEARTBEAT_INTERVAL_MS then nowMs
                                      else old(lastHeartbeatCheckMs)
    {
      hide Valid, Open, FrameOps, DataSize, WellFormed;
      Stamped(f);
      if nowMs - lastHeartbeatCheckMs >= HEARTBEAT_INTERVAL_MS {
        lastHeartbeatCheckMs := nowMs;
        var live := sidecar.Some? && IsLive(sidecar.value, nowMs, HEARTBEAT_STALE_THRESHOLD_MS)
                    && sidecar.value.generation == generation && sidecar.value.sessionId == sessionId;
        if !live {
          return Stopped;
        }
      }
      if HEADER_SIZE + DataSize(f.planes) > cells.Length {
        return Skipped;
      }
      if !f.planar && f.planes != [] && f.planes[0].base.None? {
        BeginFrame();
        return GivenUp;
      }
      WriteFrame(f);
      outcome := Published;
    }

    /** A whole frame: announced, stored, published. */
    method WriteFrame(f: Frame)
      requires Valid() && WellFormed(f) && HEADER_SIZE + DataSize(f.planes) <= cells.Length
      modifies this`seqNo, this`log, this`shown, cells
      ensures Valid() && log == old(log) + FrameOps(f, generation) && shown == old(shown)[|log| := f]
    {
      hide Valid, Open, DataSize, WellFormed, Puts, Pixels, Encoded, HeaderFields, Overwrite;
      Stamped(f);
      ProtocolKept();
      BeginFrame();
      StorePixels(f);
      StoreHeader(f);
      assert log + [Publish] == old(log) + FrameOps(f, generation);
      PublishFrame(f, old(log));
    }

    /** Makes the number odd, whether or not an earlier frame was given up. */
    method BeginFrame()
      requires Valid()
      modifies this`seqNo, this`log
      ensures Valid() && log == old(log) + [Begin] && Open(log)
    {
      hide Run, Shows, Load;
      OneMore(start, log, Begin);
      if seqNo % 2 == 0 {
        seqNo := seqNo + 1;
      }
      log := log + [Begin];
      forall p | 0 < p <= |log| && log[p - 1].Publish?
        ensures p in shown && Shown(p)
      {
        assert log[|log| - 1].Begin?;
        assert log[..p] == old(log)[..p] && old(log)[p - 1] == log[p - 1] && old(Shown(p));
      }
    }

    lemma ProtocolKept()
      requires Valid()
      ensures Follows(log)
    {}

    /** Makes the number even again, and the frame visible. */
    method PublishFrame(f: Frame, ghost before: seq<Op>)
      requires Valid() && WellFormed(f) && Follows(before) && HEADER_SIZE + DataSize(f.planes) <= cells.Length
      requires log + [Publish] == before + FrameOps(f, generation)
      modifies this`seqNo, this`log, this`shown
      ensures Valid() && log == before + FrameOps(f, generation)
      ensures shown == old(shown)[|log| := f]
    {
      hide Run, Follows, Open, Shows, Load, FrameOps, WellFormed, DataSize;
      Stamped(f);
      RunLength(start, before);
      FrameShown(start, before, f, generation);
      OneMore(start, log, Publish);
      PrefixesKeep(log, [Publish]);
      seqNo := (seqNo + 1) % WORD;
      log := log + [Publish];
      shown := shown[|log| := f];
      assert log[..|log|] == log;
    }

    lemma PrefixesKeep(ops: seq<Op>, more: seq<Op>)
      ensures forall p :: 0 <= p <= |ops| ==> (ops + more)[..p] == ops[..p]
    {}
  }

  method ZeroHeader(file: array<byte>)
    requires file.Length >= HEADER_SIZE
    modifies file
    ensures file[HEADER_SIZE..] == old(file[HEADER_SIZE..])
    ensures forall k :: 0 <= k < HEADER_SIZE ==> file[k] == 0
  {
    for i := 0 to HEADER_SIZE
      invariant forall k :: 0 <= k < i ==> file[k] == 0
      invariant forall k :: HEADER_SIZE <= k < file.Length ==> file[k] == old(file[k])
    {
      file[i] := 0;
    }
  }

  lemma {:induction false} ZeroLoads(bs: seq<byte>)
    requires forall i :: 0 <= i < |bs| ==> bs[i] == 0
    ensures Val(bs) == 0
  {
    if bs != [] {
      ZeroLoads(bs[1..]);
    }
  }

  lemma Stamped(f: Frame)
    requires WellFormed(f)
    ensures -LONG / 2 <= f.timestampNs < LONG / 2
  {}

  lemma Sized(f: Frame)
    requires WellFormed(f)
    ensures forall k :: 0 <= k < |f.planes| && f.planes[k].base.Some? ==>
              |f.planes[k].base.value| == f.planes[k].bytesPerRow * f.planes[k].height
  {}

  lemma NoPlane(planes: seq<Plane>)
    ensures Pixels(planes[..0]) == []
  {}

  lemma NothingWritten(cells: seq<byte>, at: nat)
    requires at <= |cells|
    ensures Overwrite(cells, at, []) == cells && Puts(at, []) == []
  {}

  lemma {:induction false} OneMorePlane(planes: seq<Plane>, k: nat)
    requires k < |planes|
    ensures Pixels(planes[..k + 1])
         == if planes[k].base.None? then Pixels(planes[..k]) else Pixels(planes[..k]) + planes[k].base.value
    ensures |Pixels(planes[..k + 1])| <= |Pixels(planes)|
    decreases |planes|
  {
    hide Pixels;
    assert planes[..k + 1][..k] == planes[..k];
    LastPlane(planes[..k + 1]);
    if k + 1 < |planes| {
      OneMorePlane(planes[..|planes| - 1], k);
      assert planes[..|planes| - 1][..k + 1] == planes[..k + 1];
      LastPlane(planes);
    } else {
      assert planes[..k + 1] == planes;
    }
  }

  lemma LastPlane(planes: seq<Plane>)
    requires planes != []
    ensures
      var front, last := Pixels(planes[..|planes| - 1]), planes[|planes| - 1].base;
      Pixels(planes) == if last.None? then front else front + last.value
  {}

  lemma {:induction false} OneMoreField(fields: seq<(nat, nat)>, k: nat)
    requires k < |fields|
    ensures Encoded(fields[..k + 1]) == Encoded(fields[..k]) + LE(fields[k].0, fields[k].1)
    ensures |Encoded(fields[..k])| == Offset(fields, k)
  {
    if k > 0 {
      OneMoreField(fields[1..], k - 1);
      assert fields[..k + 1][1..] == fields[1..][..k] && fields[..k][1..] == fields[1..][..k - 1];
    } else {
      assert fields[..1][1..] == [];
    }
  }

  lemma OverwriteJoin(cells: seq<byte>, at: nat, a: seq<byte>, b: seq<byte>)
    requires at + |a| + |b| <= |cells|
    ensures Overwrite(Overwrite(cells, at, a), at + |a|, b) == Overwrite(cells, at, a + b)
  {}

  lemma {:induction false} RunLength(m: Memory, ops: seq<Op>)
    ensures |Run(m, ops).cells| == |m.cells|
  {
    if ops != [] {
      RunLength(m, ops[..|ops| - 1]);
    }
  }

  lemma PutsAppended(ops: seq<Op>, at: nat, data: seq<byte>)
    ensures forall p :: |ops| <= p < |ops + Puts(at, data)| ==> (ops + Puts(at, data))[p].Put?
  {
    PutsOnly(at, data);
  }

  lemma {:induction false} PutsOnly(at: nat, data: seq<byte>)
    ensures forall i :: 0 <= i < |Puts(at, data)| ==> Puts(at, data)[i].Put?
  {
    if data != [] {
      PutsOnly(at, data[..|data| - 1]);
    }
  }

  // ----- what readers get --------------------------------------------------------------------------------

  /** The bytes a read collects. */
  ghost predicate Collects(m: Memory, ops: seq<Op>, r: Read, image: seq<byte>)
    requires Between(r, ops)
  {
    |image| == |m.cells| && forall a: nat :: a < |image| ==> Loaded(m, ops, r, a) == Some(image[a])
  }

  /** A reader that follows the documented contract - an even number, unchanged across
      its read, and the live generation, which is not 0 - gets the pixels and the header
      of one frame that the writer published as a whole, and the writer is the live one. */
  lemma AcceptedFrame(w: FrameWriter, r: Read, image: seq<byte>, live: nat)
    requires w.Valid() && Between(r, w.log) && Accepts(w.start, w.log, r) && Collects(w.start, w.log, r, image)
    requires Publishes(w.log[..r.last]) - Publishes(w.log[..r.first]) < WORD / 2
    requires |image| >= HEADER_SIZE && Load(image, 48, 4) == live && live != 0
    ensures
      var p := LatestPublish(w.log, r.first);
      && p in w.shown && Shows(image, w.shown[p], live)
      && w.generation == live
  {
    hide Run, Follows, Publishes, Open, Shows, Load, Pixels, Accepts, Loaded;
    var p := LatestPublish(w.log, r.first);
    ZeroedHeader(w);
    NoTornRead(w.start, w.log, r);
    RunLength(w.start, w.log[..p]);
    var left := Run(w.start, w.log[..p]).cells;
    assert image == left by {
      forall a: nat | a < |image|
        ensures image[a] == left[a]
      {
        assert Loaded(w.start, w.log, r, a) == Some(image[a]);
      }
    }
    assert w.Shown(p);
    ShownGeneration(image, w.shown[p], w.generation);
  }

  /** The store hands out the generations: a writer with that of share `n` and a reader
      that waits for share `n + k`.  What the reader accepts is a whole frame, and a
      writer left over from an earlier share is never taken for the live one unless
      exactly a multiple of 2^32 - 1 shares lie between them. */
  lemma LiveFrame(w: FrameWriter, r: Read, image: seq<byte>, counter: int, n: nat, k: nat)
    requires w.Valid() && Between(r, w.log) && Accepts(w.start, w.log, r) && Collects(w.start, w.log, r, image)
    requires Publishes(w.log[..r.last]) - Publishes(w.log[..r.first]) < WORD / 2
    requires n > 0 && w.generation == BroadcastGeneration.Generation(counter, n)
    requires |image| >= HEADER_SIZE && Load(image, 48, 4) == BroadcastGeneration.Generation(counter, n + k)
    ensures k % (WORD - 1) == 0
    ensures
      var p := LatestPublish(w.log, r.first);
      p in w.shown && Shows(image, w.shown[p], BroadcastGeneration.Generation(counter, n + k))
  {
    hide Run, Follows, Publishes, Open, Shows, Load, Pixels, Accepts, Loaded, Collects;
    hide BroadcastGeneration.Generation;
    BroadcastGeneration.NeverZero(counter, n + k);
    BroadcastGeneration.GenerationsRepeat(counter, n, k);
    AcceptedFrame(w, r, image, Load(image, 48, 4));
  }

  /** Before the first publish the header reads as generation 0. */
  lemma ZeroedHeader(w: FrameWriter)
    requires w.Valid()
    ensures Run(w.start, w.log[..0]) == w.start && Load(w.start.cells, 48, 4) == 0
  {
    assert w.log[..0] == [];
  }

  lemma ShownGeneration(cells: seq<byte>, f: Frame, generation: nat)
    requires Shows(cells, f, generation)
    ensures Load(cells, 48, 4) == generation
  {
    hide Load, Pixels;
  }
}
