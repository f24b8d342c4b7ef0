/** The two-index byte buffer of Buffer.h and Buffer.cpp.

    `Image` is the value of a buffer and the functions on it say what each operation
    does to the storage and to both indices; the class at the end is the buffer itself,
    with its storage changed in place, proved equal to those functions. */
module Buffers {
  import opened Bytes

  const CHEAP_PREPEND: nat := 8
  const EXTRA_SIZE: nat := 65536

  datatype Image = Image(store: Bytes, reader: nat, writer: nat) {
    predicate Valid() {
      CHEAP_PREPEND <= reader <= writer <= |store|
    }

    function Content(): Bytes
      requires Valid()
    {
      store[reader..writer]
    }

    function Readable(): nat
      requires Valid()
    {
      writer - reader
    }

    function Writable(): nat
      requires Valid()
    {
      |store| - writer
    }
  }

  function Zeros(n: nat): (z: Bytes)
    ensures |z| == n
  {
    seq(n, i => 0)
  }

  function Fresh(initialSize: nat): Image {
    Image(Zeros(CHEAP_PREPEND + initialSize), CHEAP_PREPEND, CHEAP_PREPEND)
  }

  function RetrieveAll(b: Image): Image {
    b.(reader := CHEAP_PREPEND, writer := CHEAP_PREPEND)
  }

  function Retrieve(b: Image, len: nat): Image
    requires b.Valid()
  {
    if len < b.Readable() then b.(reader := b.reader + len) else RetrieveAll(b)
  }

  /** The readable bytes moved down to the end of the prepend area. */
  function Compact(b: Image): Image
    requires b.Valid()
  {
    var r := b.Readable();
    Image(b.store[..CHEAP_PREPEND] + b.Content() + b.store[CHEAP_PREPEND + r..], CHEAP_PREPEND, CHEAP_PREPEND + r)
  }

  /** The storage resized to `n` bytes, new bytes being zero. */
  function Resize(b: Image, n: nat): Image
    requires |b.store| <= n
  {
    b.(store := b.store + Zeros(n - |b.store|))
  }

  predicate MustGrow(b: Image, len: nat)
    requires b.Valid()
  {
    b.Writable() + b.reader < len + CHEAP_PREPEND
  }

  function MakeSpace(b: Image, len: nat): Image
    requires b.Valid() && b.Writable() < len
  {
    if MustGrow(b, len) then Resize(b, b.writer + len) else Compact(b)
  }

  function EnsureWritable(b: Image, len: nat): Image
    requires b.Valid()
  {
    if b.Writable() < len then MakeSpace(b, len) else b
  }

  /** `data` written into the storage from the writer index on. */
  function Store(b: Image, data: Bytes): Image
    requires b.Valid() && |data| <= b.Writable()
  {
    Image(b.store[..b.writer] + data + b.store[b.writer + |data|..], b.reader, b.writer + |data|)
  }

  function Append(b: Image, data: Bytes): Image
    requires b.Valid()
  {
    MakeSpaceSpec(b, |data|);
    Store(EnsureWritable(b, |data|), data)
  }

  /** What readv gives back: an error, or the bytes it delivered (none at end of file). */
  datatype ReadResult = ReadError | Delivered(bytes: Bytes)

  function Segments(b: Image): nat
    requires b.Valid()
  {
    if b.Writable() < EXTRA_SIZE then 2 else 1
  }

  /** readv never delivers more than the segments it was given can hold. */
  predicate KernelMayDeliver(b: Image, r: ReadResult)
    requires b.Valid()
  {
    r.Delivered? ==> |r.bytes| <= b.Writable() + (if Segments(b) == 2 then EXTRA_SIZE else 0)
  }

  function ReadFd(b: Image, r: ReadResult): Image
    requires b.Valid() && KernelMayDeliver(b, r)
  {
    if r.ReadError? then b
    else if |r.bytes| <= b.Writable() then Store(b, r.bytes)
    else Append(Store(b, r.bytes[..b.Writable()]), r.bytes[b.Writable()..])
  }

  // ----- what one operation does -----

  /** makeSpace keeps the readable bytes and leaves room; its resize always grows, and its
      overlapping copy moves bytes strictly to the left. */
  lemma MakeSpaceSpec(b: Image, len: nat)
    requires b.Valid()
    ensures EnsureWritable(b, len).Valid()
    ensures EnsureWritable(b, len).Content() == b.Content()
    ensures EnsureWritable(b, len).Writable() >= len
    ensures b.Writable() < len && MustGrow(b, len) ==> |b.store| < b.writer + len == |EnsureWritable(b, len).store|
    ensures b.Writable() < len && !MustGrow(b, len) ==> CHEAP_PREPEND < b.reader && |EnsureWritable(b, len).store| == |b.store|
  {
    if b.Writable() < len && !MustGrow(b, len) {
      assert Compact(b).Content() == b.Content();
    }
  }

  lemma StoreSpec(b: Image, data: Bytes)
    requires b.Valid() && |data| <= b.Writable()
    ensures Store(b, data).Valid() && |Store(b, data).store| == |b.store|
    ensures Store(b, data).Content() == b.Content() + data
  {
  }

  lemma AppendSpec(b: Image, data: Bytes)
    requires b.Valid()
    ensures Append(b, data).Valid()
    ensures Append(b, data).Content() == b.Content() + data
  {
    MakeSpaceSpec(b, |data|);
    StoreSpec(EnsureWritable(b, |data|), data);
  }

  lemma RetrieveSpec(b: Image, len: nat)
    requires b.Valid()
    ensures Retrieve(b, len).Valid()
    ensures Retrieve(b, len).Content() == if len <= b.Readable() then b.Content()[len..] else []
  {
  }

  /** Scatter read: whatever readv delivers ends up, in order, behind the readable bytes;
      the overflow branch needs the second segment, and then at most 128k-1 bytes arrive. */
  lemma ReadFdSpec(b: Image, r: ReadResult)
    requires b.Valid() && KernelMayDeliver(b, r)
    ensures ReadFd(b, r).Valid()
    ensures ReadFd(b, r).Content() == b.Content() + (if r.Delivered? then r.bytes else [])
    ensures r.Delivered? && |r.bytes| > b.Writable() ==> Segments(b) == 2
    ensures r.Delivered? && Segments(b) == 2 ==> |r.bytes| <= 131071
  {
    if r.Delivered? && |r.bytes| <= b.Writable() {
      StoreSpec(b, r.bytes);
    } else if r.Delivered? {
      var head, tail := r.bytes[..b.Writable()], r.bytes[b.Writable()..];
      StoreSpec(b, head);
      AppendSpec(Store(b, head), tail);
      assert head + tail == r.bytes;
      assert (b.Content() + head) + tail == b.Content() + (head + tail);
    }
  }

  // ----- every sequence of operations -----

  datatype Op = Put(data: Bytes) | Take(len: nat) | Fill(result: ReadResult)

  /** A buffer together with what has gone through it: every byte put in, every byte
      taken out, and the largest number of readable bytes there ever was. */
  datatype Trace = Trace(image: Image, input: Bytes, output: Bytes, peak: nat)

  function Max(a: int, b: int): int {
    if a < b then b else a
  }

  predicate Allowed(t: Trace, op: Op) {
    t.image.Valid() && (op.Fill? ==> KernelMayDeliver(t.image, op.result))
  }

  function Step(t: Trace, op: Op): Trace
    requires Allowed(t, op)
  {
    match op
    case Put(data) =>
      AppendSpec(t.image, data);
      var b := Append(t.image, data);
      Trace(b, t.input + data, t.output, Max(t.peak, b.Readable()))
    case Take(len) =>
      var c := t.image.Content();
      Trace(Retrieve(t.image, len), t.input, t.output + c[..if len <= |c| then len else |c|], t.peak)
    case Fill(result) =>
      ReadFdSpec(t.image, result);
      var b := ReadFd(t.image, result);
      Trace(b, t.input + (if result.Delivered? then result.bytes else []), t.output, Max(t.peak, b.Readable()))
  }

  ghost predicate Runs(t: Trace, ops: seq<Op>)
    decreases |ops|
  {
    ops != [] ==> Allowed(t, ops[0]) && Runs(Step(t, ops[0]), ops[1..])
  }

  ghost function After(t: Trace, ops: seq<Op>): Trace
    requires Runs(t, ops)
    decreases |ops|
  {
    if ops == [] then t else After(Step(t, ops[0]), ops[1..])
  }

  function Start(initialSize: nat): Trace {
    Trace(Fresh(initialSize), [], [], 0)
  }

  /** The largest storage a buffer can have once it was built for `initialSize` bytes and
      never held more than `peak` readable bytes: it does not grow at all until the peak
      passes the initial size. */
  function SizeBound(initialSize: nat, peak: nat): int {
    if peak <= initialSize then CHEAP_PREPEND + initialSize
    else Max(CHEAP_PREPEND + peak, 2 * peak + 6)
  }

  predicate Good(initialSize: nat, t: Trace) {
    && t.image.Valid()
    && t.output + t.image.Content() == t.input
    && t.image.Readable() <= t.peak
    && CHEAP_PREPEND + initialSize <= |t.image.store| <= SizeBound(initialSize, t.peak)
    && (t.image.Readable() == 0 ==> t.image.reader == CHEAP_PREPEND)
  }

  lemma EnsureWritableBound(b: Image, len: nat)
    requires b.Valid() && (b.Readable() == 0 ==> b.reader == CHEAP_PREPEND)
    ensures EnsureWritable(b, len).Valid()
    ensures |EnsureWritable(b, len).store| <=
            Max(|b.store|, Max(CHEAP_PREPEND + b.Readable() + len, 2 * (b.Readable() + len) + 6))
    ensures |b.store| <= |EnsureWritable(b, len).store|
    ensures CHEAP_PREPEND + b.Readable() + len <= |b.store| ==> |EnsureWritable(b, len).store| == |b.store|
  {
    MakeSpaceSpec(b, len);
  }

  /** Any way of getting from `t` to an image with `got` more bytes, within the bound. */
  lemma GrowthKeepsGood(initialSize: nat, t: Trace, b: Image, got: Bytes)
    requires Good(initialSize, t) && b.Valid()
    requires b.Content() == t.image.Content() + got
    requires b.Readable() == 0 ==> b.reader == CHEAP_PREPEND
    requires |t.image.store| <= |b.store| <= Max(|t.image.store|, Max(CHEAP_PREPEND + b.Readable(), 2 * b.Readable() + 6))
    requires CHEAP_PREPEND + b.Readable() <= |t.image.store| ==> |b.store| == |t.image.store|
    ensures Good(initialSize, Trace(b, t.input + got, t.output, Max(t.peak, b.Readable())))
  {
    assert t.output + (t.image.Content() + got) == t.input + got;
  }

  lemma PutKeepsGood(initialSize: nat, t: Trace, data: Bytes)
    requires Good(initialSize, t)
    ensures Good(initialSize, Step(t, Put(data)))
  {
    AppendSpec(t.image, data);
    AppendBound(t.image, data);
    GrowthKeepsGood(initialSize, t, Append(t.image, data), data);
  }

  lemma TakeKeepsGood(initialSize: nat, t: Trace, len: nat)
    requires Good(initialSize, t)
    ensures Good(initialSize, Step(t, Take(len)))
  {
    var c := t.image.Content();
    var n := if len <= |c| then len else |c|;
    RetrieveSpec(t.image, len);
    assert t.output + c[..n] + c[n..] == t.output + c;
  }

  lemma AppendBound(b: Image, data: Bytes)
    requires b.Valid() && (b.Readable() == 0 ==> b.reader == CHEAP_PREPEND)
    ensures Append(b, data).Valid() && Append(b, data).Readable() == b.Readable() + |data|
    ensures var n, m := b.Readable() + |data|, |Append(b, data).store|;
            && |b.store| <= m <= Max(|b.store|, Max(CHEAP_PREPEND + n, 2 * n + 6))
            && (CHEAP_PREPEND + n <= |b.store| ==> m == |b.store|)
            && (n == 0 ==> Append(b, data).reader == CHEAP_PREPEND)
  {
    EnsureWritableBound(b, |data|);
    MakeSpaceSpec(b, |data|);
  }

  lemma ReadFdBound(b: Image, r: ReadResult)
    requires b.Valid() && KernelMayDeliver(b, r) && (b.Readable() == 0 ==> b.reader == CHEAP_PREPEND)
    ensures ReadFd(b, r).Valid()
    ensures var n := ReadFd(b, r).Readable();
            && |b.store| <= |ReadFd(b, r).store| <= Max(|b.store|, Max(CHEAP_PREPEND + n, 2 * n + 6))
            && (CHEAP_PREPEND + n <= |b.store| ==> |ReadFd(b, r).store| == |b.store|)
    ensures ReadFd(b, r).Readable() == 0 ==> ReadFd(b, r).reader == CHEAP_PREPEND
  {
    hide Append;
    if r.Delivered? && |r.bytes| > b.Writable() {
      var head, rest := r.bytes[..b.Writable()], r.bytes[b.Writable()..];
      StoreSpec(b, head);
      AppendBound(Store(b, head), rest);
    }
  }

  lemma FillKeepsGood(initialSize: nat, t: Trace, r: ReadResult)
    requires Good(initialSize, t) && Allowed(t, Fill(r))
    ensures Good(initialSize, Step(t, Fill(r)))
  {
    ReadFdBound(t.image, r);
    ReadFdSpec(t.image, r);
    GrowthKeepsGood(initialSize, t, ReadFd(t.image, r), if r.Delivered? then r.bytes else []);
  }

  lemma StepKeepsGood(initialSize: nat, t: Trace, op: Op)
    requires Good(initialSize, t) && Allowed(t, op)
    ensures Good(initialSize, Step(t, op))
  {
    match op
    case Put(data) => PutKeepsGood(initialSize, t, data);
    case Take(len) => TakeKeepsGood(initialSize, t, len);
    case Fill(r) => FillKeepsGood(initialSize, t, r);
  }

  /** Every run of appends, retrieves and reads keeps the indices in order, returns the bytes
      in the order they came, and stays within the size bound. */
  lemma {:induction false} EveryRunIsGood(initialSize: nat, t: Trace, ops: seq<Op>)
    requires Good(initialSize, t) && Runs(t, ops)
    ensures Good(initialSize, After(t, ops))
    decreases |ops|
  {
    if ops != [] {
      StepKeepsGood(initialSize, t, ops[0]);
      EveryRunIsGood(initialSize, Step(t, ops[0]), ops[1..]);
    }
  }

  /** The FIFO and capacity theorem for a buffer from its construction on. */
  lemma BufferTheorem(initialSize: nat, ops: seq<Op>)
    requires Runs(Start(initialSize), ops)
    ensures var t := After(Start(initialSize), ops);
            && t.image.Valid()
            && t.output + t.image.Content() == t.input
            && CHEAP_PREPEND + initialSize <= |t.image.store| <= SizeBound(initialSize, t.peak)
            && |t.image.store| <= Max(CHEAP_PREPEND + initialSize, 2 * t.peak + 7)
  {
    EveryRunIsGood(initialSize, Start(initialSize), ops);
  }

  /** The sizes alone, for an append that has to grow the storage. */
  lemma GrowingAppend(t: Trace, n: nat)
    requires t.image.Valid() && t.image.Writable() < n && MustGrow(t.image, n)
    ensures var u := Step(t, Put(Zeros(n)));
            && u.image.Valid() && u.image.reader == t.image.reader
            && u.image.writer == |u.image.store| == t.image.writer + n
            && u.peak == Max(t.peak, t.image.Readable() + n)
  {
    AppendSpec(t.image, Zeros(n));
  }

  lemma RunOne(t: Trace, a: Op)
    requires Allowed(t, a)
    ensures Runs(t, [a]) && After(t, [a]) == Step(t, a)
  {
    assert [a][1..] == [];
    assert After(Step(t, a), []) == Step(t, a);
  }

  lemma RunThree(t: Trace, a: Op, b: Op, c: Op)
    requires Allowed(t, a) && Allowed(Step(t, a), b) && Allowed(Step(Step(t, a), b), c)
    ensures Runs(t, [a, b, c])
    ensures After(t, [a, b, c]) == Step(Step(Step(t, a), b), c)
  {
    RunOne(Step(Step(t, a), b), c);
    assert [b, c][1..] == [c];
    assert After(Step(t, a), [b, c]) == Step(Step(Step(t, a), b), c);
    assert [a, b, c][1..] == [b, c];
  }

  /** Past the initial size: fill, leave one byte at the very end, and append again. */
  lemma LargePeakIsReached(initialSize: nat, peak: nat) returns (ops: seq<Op>)
    requires initialSize < peak && 1 < peak
    ensures Runs(Start(initialSize), ops)
    ensures After(Start(initialSize), ops).peak == peak
    ensures |After(Start(initialSize), ops).image.store| == 2 * peak + 6
  {
    var t := Start(initialSize);
    var put, take := Put(Zeros(peak - 1)), Take(peak - 2);
    if initialSize < peak - 1 {
      GrowingAppend(t, peak - 1);
    } else {
      AppendSpec(t.image, Zeros(peak - 1));
    }
    GrowingAppend(Step(Step(t, put), take), peak - 1);
    ops := [put, take, put];
    RunThree(t, put, take, put);
  }

  /** The bound is exact: for every initial size and every peak some run reaches it. */
  lemma SizeBoundIsReached(initialSize: nat, peak: nat) returns (ops: seq<Op>)
    ensures Runs(Start(initialSize), ops)
    ensures After(Start(initialSize), ops).peak == peak
    ensures |After(Start(initialSize), ops).image.store| == SizeBound(initialSize, peak)
  {
    var t := Start(initialSize);
    if initialSize < peak && 1 < peak {
      ops := LargePeakIsReached(initialSize, peak);
    } else {
      ops := [Put(Zeros(peak))];
      if initialSize < peak {
        GrowingAppend(t, peak);
      } else {
        AppendSpec(t.image, Zeros(peak));
      }
      RunOne(t, ops[0]);
    }
  }

  // ----- the buffer itself -----

  /** std::copy of a[from..to] to `dst` within one array. The ranges may overlap: since
      `dst` is not to the right of `from`, reading stays ahead of writing. */
  method CopyForward(a: array<Byte>, from: nat, to: nat, dst: nat)
    requires dst <= from <= to <= a.Length
    modifies a
    ensures a[..] == old(a[..dst] + a[from..to] + a[dst + (to - from)..])
  {
    ghost var was, moved := a[..], a[from..to];
    for i := 0 to to - from
      invariant forall k :: 0 <= k < dst ==> a[k] == was[k]
      invariant forall k :: dst <= k < dst + i ==> a[k] == moved[k - dst]
      invariant forall k :: dst + i <= k < a.Length ==> a[k] == was[k]
    {
      a[dst + i] := a[from + i];
    }
    assert a[..] == was[..dst] + moved + was[dst + (to - from)..];
  }

  /** std::copy of `src` into the array from `dst` on. */
  method CopyFrom(src: Bytes, a: array<Byte>, dst: nat)
    requires dst + |src| <= a.Length
    modifies a
    ensures a[..] == old(a[..dst]) + src + old(a[dst + |src|..])
  {
    for i := 0 to |src|
      invariant forall k :: 0 <= k < dst ==> a[k] == old(a[k])
      invariant forall k :: dst <= k < dst + i ==> a[k] == src[k - dst]
      invariant forall k :: dst + i <= k < a.Length ==> a[k] == old(a[k])
    {
      a[dst + i] := src[i];
    }
  }

  class Buffer {
    var data: array<Byte>
    var readerIndex: nat
    var writerIndex: nat

    ghost predicate Valid()
      reads this
    {
      CHEAP_PREPEND <= readerIndex <= writerIndex <= data.Length
    }

    ghost function View(): (b: Image)
      requires Valid()
      reads this, data
      ensures b.Valid()
    {
      Image(data[..], readerIndex, writerIndex)
    }

    constructor (initialSize: nat)
      ensures Valid() && fresh(data)
      ensures View() == Fresh(initialSize)
    {
      data := new Byte[CHEAP_PREPEND + initialSize](i => 0);
      readerIndex, writerIndex := CHEAP_PREPEND, CHEAP_PREPEND;
      new;
      assert data[..] == Zeros(CHEAP_PREPEND + initialSize);
    }

    method ReadableBytes() returns (n: nat)
      requires Valid()
      ensures n == |View().Content()|
    {
      n := writerIndex - readerIndex;
    }

    method Drop(len: nat)
      requires Valid()
      modifies this
      ensures Valid() && data == old(data)
      ensures View() == Retrieve(old(View()), len)
    {
      if len < writerIndex - readerIndex {
        readerIndex := readerIndex + len;
      } else {
        readerIndex, writerIndex := CHEAP_PREPEND, CHEAP_PREPEND;
      }
    }

    /** retrieveAsString copies `len` bytes from the reader index on and then retrieves;
        the string is the front of the readable bytes as long as there are that many. */
    method RetrieveAsString(len: nat) returns (s: Bytes)
      requires Valid() && readerIndex + len <= data.Length
      modifies this
      ensures Valid() && data == old(data)
      ensures View() == Retrieve(old(View()), len)
      ensures s == old(data[readerIndex..readerIndex + len])
      ensures len <= |old(View()).Content()| ==> s == old(View()).Content()[..len]
    {
      s := data[readerIndex..readerIndex + len];
      Drop(len);
    }

    method RetrieveAllAsString() returns (s: Bytes)
      requires Valid()
      modifies this
      ensures Valid() && data == old(data)
      ensures s == old(View()).Content()
      ensures View() == RetrieveAll(old(View()))
    {
      s := RetrieveAsString(writerIndex - readerIndex);
    }

    method CopyDown()
      requires Valid()
      modifies this, data
      ensures Valid() && data == old(data)
      ensures View() == Compact(old(View()))
    {
      var readable := writerIndex - readerIndex;
      CopyForward(data, readerIndex, writerIndex, CHEAP_PREPEND);
      readerIndex := CHEAP_PREPEND;
      writerIndex := CHEAP_PREPEND + readable;
    }

    method MakeRoom(len: nat)
      requires Valid() && data.Length - writerIndex < len
      modifies this, data
      ensures Valid() && (data == old(data) || fresh(data))
      ensures View() == MakeSpace(old(View()), len)
    {
      if data.Length - writerIndex + readerIndex < len + CHEAP_PREPEND {
        var n := writerIndex + len;
        var was := data[..];
        data := new Byte[n](i => if 0 <= i < |was| then was[i] else 0);
        assert data[..] == was + Zeros(n - |was|);
      } else {
        CopyDown();
      }
    }

    /** std::copy to the writer index, then the writer index moved past it. */
    method CopyIn(src: Bytes)
      requires Valid() && |src| <= data.Length - writerIndex
      modifies this, data
      ensures Valid() && data == old(data)
      ensures View() == Store(old(View()), src)
    {
      CopyFrom(src, data, writerIndex);
      writerIndex := writerIndex + |src|;
    }

    method AppendBytes(src: Bytes)
      requires Valid()
      modifies this, data
      ensures Valid() && (data == old(data) || fresh(data))
      ensures View() == Append(old(View()), src)
      ensures View().Content() == old(View()).Content() + src
    {
      AppendSpec(View(), src);
      MakeSpaceSpec(View(), |src|);
      if data.Length - writerIndex < |src| {
        MakeRoom(|src|);
      }
      CopyIn(src);
    }

    /** readv into the writable space and, when that is short, into the stack segment. */
    method Read(r: ReadResult) returns (n: int)
      requires Valid() && KernelMayDeliver(View(), r)
      modifies this, data
      ensures Valid() && (data == old(data) || fresh(data))
      ensures n == if r.ReadError? then -1 else |r.bytes|
      ensures View() == ReadFd(old(View()), r)
      ensures View().Content() == old(View()).Content() + (if r.Delivered? then r.bytes else [])
    {
      ReadFdSpec(View(), r);
      if r.ReadError? {
        return -1;
      }
      n := |r.bytes|;
      var writable := data.Length - writerIndex;
      if n <= writable {
        CopyIn(r.bytes);
      } else {
        CopyIn(r.bytes[..writable]);
        AppendBytes(r.bytes[writable..]);
      }
    }
  }
}
