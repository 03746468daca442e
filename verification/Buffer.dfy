/** The byte buffer of a connection: a vector of bytes with a read and a write
    index (Buffer.h, Buffer.cc).  `Buf` is the buffer as a value, `Buffer` the
    object that changes in place; every method of the object is proved to do
    what the function of the same name does to the value. */
module Buffers {
  type Byte = bv8

  const CHEAP_PREPEND: nat := 8
  const INITIAL_SIZE: nat := 1024
  /** Size of the stack area that `readFd` offers to the kernel as a second segment. */
  const EXTRA_SIZE: nat := 65536

  function Min(a: int, b: int): int {
    if a < b then a else b
  }

  function Max(a: int, b: int): int {
    if a < b then b else a
  }

  function Zeros(n: nat): seq<Byte> {
    seq(n, _ => 0)
  }

  /** `std::vector::resize` to a larger size: the new cells are zero. */
  function Resized(cells: seq<Byte>, size: nat): seq<Byte>
    requires |cells| <= size
  {
    cells + Zeros(size - |cells|)
  }

  datatype Buf = Buf(cells: seq<Byte>, reader: nat, writer: nat) {
    /** What every operation keeps.  The last conjunct: an empty buffer is always rewound. */
    ghost predicate Valid() {
      && CHEAP_PREPEND <= reader <= writer <= |cells|
      && (reader == writer ==> reader == CHEAP_PREPEND)
    }

    function Readable(): (s: seq<Byte>)
      requires Valid()
    {
      cells[reader..writer]
    }

    function Writable(): nat
      requires Valid()
    {
      |cells| - writer
    }

    function Retrieve(len: nat): Buf
      requires Valid()
    {
      if len < writer - reader then this.(reader := reader + len)
      else this.(reader := CHEAP_PREPEND, writer := CHEAP_PREPEND)
    }

    /** The `n` bytes from `peek()` on, readable or not: what `write(fd, peek(), ...)` puts on the wire. */
    function Window(n: nat): seq<Byte>
      requires Valid() && n <= |cells| - reader
    {
      cells[reader..reader + n]
    }

    function MakeSpace(len: nat): Buf
      requires Valid() && Writable() < len
    {
      if Writable() + reader < len + CHEAP_PREPEND then
        this.(cells := Resized(cells, writer + len))
      else
        var n := writer - reader;
        Buf(cells[..CHEAP_PREPEND] + cells[reader..writer] + cells[CHEAP_PREPEND + n..],
            CHEAP_PREPEND, CHEAP_PREPEND + n)
    }

    function EnsureWritable(len: nat): Buf
      requires Valid()
    {
      if Writable() < len then MakeSpace(len) else this
    }

    function Append(data: seq<Byte>): Buf
      requires Valid()
    {
      EnsureWritableIsSafe(this, |data|);
      var b := EnsureWritable(|data|);
      b.(cells := b.cells[..b.writer] + data + b.cells[b.writer + |data|..], writer := b.writer + |data|)
    }

    /** The most that one `readv` with the segments of `readFd` can return. */
    function ReadCapacity(): nat
      requires Valid()
    {
      Writable() + if Writable() < EXTRA_SIZE then EXTRA_SIZE else 0
    }

    /** `readFd` when the kernel delivers `data`: the free cells first, the rest by way of `extrabuf`. */
    function ReadFd(data: seq<Byte>): Buf
      requires Valid() && |data| <= ReadCapacity()
    {
      if |data| <= Writable() then Filled(data)
      else Filled(data[..Writable()]).Append(data[Writable()..])
    }

    /** The free cells from the write index on overwritten by `bytes`. */
    function Filled(bytes: seq<Byte>): (r: Buf)
      requires Valid() && |bytes| <= Writable()
      ensures r.Valid() && r.Readable() == Readable() + bytes && |r.cells| == |cells|
    {
      var r := this.(cells := cells[..writer] + bytes + cells[writer + |bytes|..], writer := writer + |bytes|);
      assert r.cells[reader..r.writer] == cells[reader..writer] + bytes;
      r
    }
  }

  const FRESH: Buf := Buf(Zeros(CHEAP_PREPEND + INITIAL_SIZE), CHEAP_PREPEND, CHEAP_PREPEND)

  /** Both branches of `makeSpace` end with room for `len` bytes, keep every readable byte in order,
      and the branch that moves is taken only when the copy goes strictly to the left. */
  lemma MakeSpaceIsSafe(b: Buf, len: nat)
    requires b.Valid() && b.Writable() < len
    ensures var r := b.MakeSpace(len);
            && r.Valid() && r.Readable() == b.Readable() && r.Writable() >= len
            && (|r.cells| == |b.cells| ==> b.reader > CHEAP_PREPEND && r.reader == CHEAP_PREPEND)
            && |r.cells| <= Max(|b.cells|, |b.Readable()| + 2 * len + 7)
  {
  }

  lemma EnsureWritableIsSafe(b: Buf, len: nat)
    requires b.Valid()
    ensures var r := b.EnsureWritable(len);
            && r.Valid() && r.Readable() == b.Readable() && r.Writable() >= len
            && |b.cells| <= |r.cells| <= Max(|b.cells|, |b.Readable()| + 2 * len + 7)
  {
    if b.Writable() < len {
      MakeSpaceIsSafe(b, len);
    }
  }

  lemma AppendIsSafe(b: Buf, data: seq<Byte>)
    requires b.Valid()
    ensures var r := b.Append(data);
            && r.Valid() && r.Readable() == b.Readable() + data
            && |b.cells| <= |r.cells| <= Max(|b.cells|, |b.Readable()| + 2 * |data| + 7)
  {
    EnsureWritableIsSafe(b, |data|);
    var e := b.EnsureWritable(|data|);
    var r := b.Append(data);
    assert r.cells[e.reader..r.writer] == e.cells[e.reader..e.writer] + data;
  }

  lemma RetrieveIsSafe(b: Buf, len: nat)
    requires b.Valid()
    ensures var r := b.Retrieve(len);
            && r.Valid() && r.Readable() == b.Readable()[Min(len, |b.Readable()|)..] && |r.cells| == |b.cells|
  {
  }

  /** `writeFd` followed by `retrieve(n)`: the stream is conserved exactly when no more was
      written than was readable; otherwise bytes are added to it. */
  lemma SentThenRetrieved(b: Buf, n: nat)
    requires b.Valid() && n <= |b.cells| - b.reader
    ensures b.Window(n) + b.Retrieve(n).Readable() == b.Readable() <==> n <= |b.Readable()|
    ensures n > |b.Readable()| ==> |b.Window(n) + b.Retrieve(n).Readable()| > |b.Readable()|
    ensures |b.Retrieve(n).Readable()| == Max(0, |b.Readable()| - n)
  {
  }

  /** Whatever the kernel delivers within its range is appended, in order, across the spill. */
  lemma ReadFdIsSafe(b: Buf, data: seq<Byte>)
    requires b.Valid() && |data| <= b.ReadCapacity()
    ensures var r := b.ReadFd(data);
            && r.Valid() && r.Readable() == b.Readable() + data
            && |b.cells| <= |r.cells| <= Max(|b.cells|, |b.Readable()| + 2 * |data| + 7)
  {
    if |data| > b.Writable() {
      var direct, spilled := data[..b.Writable()], data[b.Writable()..];
      AppendIsSafe(b.Filled(direct), spilled);
      calc {
        b.ReadFd(data).Readable();
        b.Filled(direct).Readable() + spilled;
        b.Readable() + direct + spilled;
        { assert direct + spilled == data; }
        b.Readable() + data;
      }
    }
  }

  // ---- Runs of operations ----

  datatype BufferOp =
    | Append(data: seq<Byte>)
    | Retrieve(len: nat)
    | RetrieveString(len: nat)
    | EnsureWritable(len: nat)
    | ReadFd(data: seq<Byte>)

  /** The ranges within which the callers stay: a string is taken from what is readable,
      and `readv` fills at most the segments it is given. */
  ghost predicate Allowed(b: Buf, op: BufferOp)
    requires b.Valid()
  {
    match op
    case RetrieveString(len) => len <= |b.Readable()|
    case ReadFd(data) => |data| <= b.ReadCapacity()
    case _ => true
  }

  /** What the operation does to a plain queue of bytes. */
  function OnQueue(q: seq<Byte>, op: BufferOp): seq<Byte> {
    match op
    case Append(data) => q + data
    case Retrieve(len) => q[Min(len, |q|)..]
    case RetrieveString(len) => q[Min(len, |q|)..]
    case EnsureWritable(_) => q
    case ReadFd(data) => q + data
  }

  ghost function Apply(b: Buf, op: BufferOp): (r: Buf)
    requires b.Valid() && Allowed(b, op)
    ensures r.Valid() && r.Readable() == OnQueue(b.Readable(), op)
  {
    match op
    case Append(data) => AppendIsSafe(b, data); b.Append(data)
    case Retrieve(len) => RetrieveIsSafe(b, len); b.Retrieve(len)
    case RetrieveString(len) => RetrieveIsSafe(b, len); b.Retrieve(len)
    case EnsureWritable(len) => EnsureWritableIsSafe(b, len); b.EnsureWritable(len)
    case ReadFd(data) => ReadFdIsSafe(b, data); b.ReadFd(data)
  }

  ghost predicate AllAllowed(b: Buf, ops: seq<BufferOp>)
    requires b.Valid()
    decreases |ops|
  {
    ops == [] || (Allowed(b, ops[0]) && AllAllowed(Apply(b, ops[0]), ops[1..]))
  }

  ghost function Run(b: Buf, ops: seq<BufferOp>): (r: Buf)
    requires b.Valid() && AllAllowed(b, ops)
    ensures r.Valid()
    decreases |ops|
  {
    if ops == [] then b else Run(Apply(b, ops[0]), ops[1..])
  }

  /** Bytes that one operation puts in. */
  function Input(op: BufferOp): seq<Byte> {
    match op
    case Append(data) => data
    case ReadFd(data) => data
    case _ => []
  }

  /** Bytes that one operation takes out, read from the cells at the read index as `peek()` does. */
  function Output(b: Buf, op: BufferOp): seq<Byte>
    requires b.Valid()
  {
    match op
    case Retrieve(len) => b.cells[b.reader..b.reader + Min(len, b.writer - b.reader)]
    case RetrieveString(len) => if len <= b.writer - b.reader then b.cells[b.reader..b.reader + len] else []
    case _ => []
  }

  ghost function Inputs(ops: seq<BufferOp>): seq<Byte> {
    if ops == [] then [] else Input(ops[0]) + Inputs(ops[1..])
  }

  ghost function Outputs(b: Buf, ops: seq<BufferOp>): seq<Byte>
    requires b.Valid() && AllAllowed(b, ops)
    decreases |ops|
  {
    if ops == [] then [] else Output(b, ops[0]) + Outputs(Apply(b, ops[0]), ops[1..])
  }

  lemma StepIsFifo(b: Buf, op: BufferOp)
    requires b.Valid() && Allowed(b, op)
    ensures b.Readable() + Input(op) == Output(b, op) + Apply(b, op).Readable()
  {
    hide Apply, Buf.Append, Buf.ReadFd, Buf.Retrieve, Buf.EnsureWritable;
    if op.Retrieve? || op.RetrieveString? {
      TakenThenLeft(b, Min(op.len, |b.Readable()|));
    }
  }

  lemma TakenThenLeft(b: Buf, n: nat)
    requires b.Valid() && n <= |b.Readable()|
    ensures b.Readable() == b.cells[b.reader..b.reader + n] + b.Readable()[n..]
  {
  }

  /** Refinement of a FIFO queue: over every run, what was readable and what went in is exactly
      what came out followed by what is still readable, byte for byte and in order. */
  lemma {:induction false} RunIsFifo(b: Buf, ops: seq<BufferOp>)
    requires b.Valid() && AllAllowed(b, ops)
    ensures b.Readable() + Inputs(ops) == Outputs(b, ops) + Run(b, ops).Readable()
    decreases |ops|
  {
    if ops != [] {
      var b' := Apply(b, ops[0]);
      StepIsFifo(b, ops[0]);
      RunIsFifo(b', ops[1..]);
      Splice(b.Readable(), Input(ops[0]), Output(b, ops[0]), b'.Readable(),
             Inputs(ops[1..]), Outputs(b', ops[1..]), Run(b', ops[1..]).Readable());
    }
  }

  lemma Splice(a: seq<Byte>, i: seq<Byte>, o: seq<Byte>, m: seq<Byte>, i': seq<Byte>, o': seq<Byte>, z: seq<Byte>)
    requires a + i == o + m && m + i' == o' + z
    ensures a + (i + i') == (o + o') + z
  {
    assert a + (i + i') == (a + i) + i' == o + (m + i');
  }

  // ---- How large the vector grows ----

  /** No more than `peak` readable bytes after any operation, none putting in more than `largest`. */
  ghost predicate StaysWithin(b: Buf, ops: seq<BufferOp>, peak: nat, largest: nat)
    requires b.Valid() && AllAllowed(b, ops)
    decreases |ops|
  {
    && |b.Readable()| <= peak
    && (ops == [] ||
        (&& !ops[0].EnsureWritable?
         && |Input(ops[0])| <= largest
         && StaysWithin(Apply(b, ops[0]), ops[1..], peak, largest)))
  }

  /** Over any run of reads and appends the vector never exceeds the larger of the size it started
      with and peak readable + largest append + 7; from a new buffer the first of these is 1032. */
  lemma {:induction false} SizeIsBounded(b: Buf, ops: seq<BufferOp>, peak: nat, largest: nat)
    requires b.Valid() && AllAllowed(b, ops) && StaysWithin(b, ops, peak, largest)
    ensures |Run(b, ops).cells| <= Max(|b.cells|, peak + largest + 7)
    decreases |ops|
  {
    if ops != [] {
      var b' := Apply(b, ops[0]);
      StepIsFifo(b, ops[0]);
      match ops[0] {
        case Append(data) => AppendIsSafe(b, data); assert |b'.Readable()| == |b.Readable()| + |data|;
        case ReadFd(data) => ReadFdIsSafe(b, data); assert |b'.Readable()| == |b.Readable()| + |data|;
        case Retrieve(len) => RetrieveIsSafe(b, len);
        case RetrieveString(len) => RetrieveIsSafe(b, len);
      }
      assert |b'.Readable()| <= peak;
      SizeIsBounded(b', ops[1..], peak, largest);
    }
  }

  // ---- The object ----

  /** `cells` after the first `n` cells from `src` on have been copied to `dst` and the cells after it. */
  function Moved(cells: seq<Byte>, src: nat, dst: nat, n: nat): seq<Byte>
    requires dst <= src && src + n <= |cells|
  {
    cells[..dst] + cells[src..src + n] + cells[dst + n..]
  }

  /** One step of a forward copy to the left still finds the original byte at its source. */
  lemma MoveOne(cells: seq<Byte>, src: nat, dst: nat, i: nat)
    requires dst < src && src + i < |cells|
    ensures var now := Moved(cells, src, dst, i);
            now[src + i] == cells[src + i] && now[dst + i := now[src + i]] == Moved(cells, src, dst, i + 1)
  {
  }

  class Buffer {
    var data: array<Byte>
    var readerIndex: nat
    var writerIndex: nat

    ghost predicate Valid()
      reads this, data
    {
      State().Valid()
    }

    ghost function State(): Buf
      reads this, data
    {
      Buf(data[..], readerIndex, writerIndex)
    }

    ghost function Contents(): seq<Byte>
      reads this, data
      requires Valid()
    {
      data[readerIndex..writerIndex]
    }

    constructor ()
      ensures Valid() && fresh(data) && State() == FRESH && Contents() == []
    {
      data := new Byte[CHEAP_PREPEND + INITIAL_SIZE](_ => 0);
      readerIndex := CHEAP_PREPEND;
      writerIndex := CHEAP_PREPEND;
    }

    method ReadableBytes() returns (n: nat)
      requires Valid()
      ensures n == |Contents()|
    {
      n := writerIndex - readerIndex;
    }

    method WritableBytes() returns (n: nat)
      requires Valid()
      ensures n == State().Writable()
    {
      n := data.Length - writerIndex;
    }

    method Retrieve(len: nat)
      requires Valid()
      modifies this`readerIndex, this`writerIndex
      ensures Valid() && State() == old(State()).Retrieve(len)
      ensures Contents() == old(Contents())[Min(len, |old(Contents())|)..]
    {
      if len < writerIndex - readerIndex {
        readerIndex := readerIndex + len;
      } else {
        RetrieveAll();
      }
    }

    method RetrieveAll()
      requires Valid()
      modifies this`readerIndex, this`writerIndex
      ensures Valid() && Contents() == []
      ensures State() == old(State()).(reader := CHEAP_PREPEND, writer := CHEAP_PREPEND)
    {
      readerIndex := CHEAP_PREPEND;
      writerIndex := CHEAP_PREPEND;
    }

    method RetrieveAllAsString() returns (s: seq<Byte>)
      requires Valid()
      modifies this`readerIndex, this`writerIndex
      ensures Valid() && s == old(Contents()) && Contents() == []
    {
      s := RetrieveAsString(writerIndex - readerIndex);
    }

    method RetrieveAsString(len: nat) returns (s: seq<Byte>)
      requires Valid() && len <= |Contents()|
      modifies this`readerIndex, this`writerIndex
      ensures Valid() && State() == old(State()).Retrieve(len)
      ensures old(Contents()) == s + Contents() && |s| == len
    {
      s := data[readerIndex..readerIndex + len];
      Retrieve(len);
    }

    method EnsureWritableBytes(len: nat)
      requires Valid()
      modifies this, data
      ensures Valid() && (data == old(data) || fresh(data))
      ensures State() == old(State()).EnsureWritable(len)
      ensures Contents() == old(Contents()) && State().Writable() >= len
    {
      EnsureWritableIsSafe(State(), len);
      if data.Length - writerIndex < len {
        MakeSpace(len);
      }
    }

    method MakeSpace(len: nat)
      requires Valid() && State().Writable() < len
      modifies this, data
      ensures Valid() && (data == old(data) || fresh(data))
      ensures State() == old(State()).MakeSpace(len)
      ensures Contents() == old(Contents()) && State().Writable() >= len
    {
      MakeSpaceIsSafe(State(), len);
      if data.Length - writerIndex + readerIndex < len + CHEAP_PREPEND {
        Resize(writerIndex + len);
      } else {
        var readable := writerIndex - readerIndex;
        CopyLeft(readerIndex, CHEAP_PREPEND, readable);
        readerIndex := CHEAP_PREPEND;
        writerIndex := readerIndex + readable;
      }
    }

    /** `std::copy`, which goes forwards, onto a range that may overlap its source from the left. */
    method CopyLeft(src: nat, dst: nat, n: nat)
      requires dst < src && src + n <= data.Length
      modifies data
      ensures data[..] == Moved(old(data[..]), src, dst, n)
    {
      ghost var before := data[..];
      assert data[..] == Moved(before, src, dst, 0);
      var i := 0;
      while i < n
        invariant 0 <= i <= n
        invariant data[..] == Moved(before, src, dst, i)
      {
        MoveOne(before, src, dst, i);
        data[dst + i] := data[src + i];
        i := i + 1;
      }
    }

    /** `vector::resize` to a larger size: a new array holding the old cells, then zeros. */
    method Resize(size: nat)
      requires data.Length <= size
      modifies this`data
      ensures fresh(data) && data[..] == Resized(old(data[..]), size)
    {
      var bigger := new Byte[size](_ => 0);
      var cells := data;
      var i := 0;
      while i < cells.Length
        invariant 0 <= i <= cells.Length
        invariant forall k :: 0 <= k < i ==> bigger[k] == cells[k]
        invariant forall k :: i <= k < size ==> bigger[k] == 0
      {
        bigger[i] := cells[i];
        i := i + 1;
      }
      data := bigger;
    }

    /** Copies `bytes` into the cells from index `at` on. */
    method CopyIn(at: nat, bytes: seq<Byte>)
      requires at + |bytes| <= data.Length
      modifies data
      ensures data[..] == old(data[..at]) + bytes + old(data[at + |bytes|..])
    {
      var i := 0;
      while i < |bytes|
        invariant 0 <= i <= |bytes|
        invariant forall k :: 0 <= k < i ==> data[at + k] == bytes[k]
        invariant forall j :: 0 <= j < data.Length && !(at <= j < at + i) ==> data[j] == old(data[j])
      {
        data[at + i] := bytes[i];
        i := i + 1;
      }
    }

    method Append(bytes: seq<Byte>)
      requires Valid()
      modifies this, data
      ensures Valid() && (data == old(data) || fresh(data))
      ensures State() == old(State()).Append(bytes)
      ensures Contents() == old(Contents()) + bytes
    {
      AppendIsSafe(State(), bytes);
      EnsureWritableBytes(|bytes|);
      CopyIn(writerIndex, bytes);
      writerIndex := writerIndex + |bytes|;
    }

    /** `readFd` when `readv` returns the bytes `incoming` of the stream. */
    method ReadFd(incoming: seq<Byte>) returns (n: nat)
      requires Valid() && |incoming| <= State().ReadCapacity()
      modifies this, data
      ensures Valid() && (data == old(data) || fresh(data))
      ensures State() == old(State()).ReadFd(incoming)
      ensures n == |incoming| && Contents() == old(Contents()) + incoming
    {
      ReadFdIsSafe(State(), incoming);
      var writable := data.Length - writerIndex;
      n := |incoming|;
      // the kernel fills the first segment, then extrabuf
      var direct := if n < writable then n else writable;
      var extrabuf := incoming[direct..];
      CopyIn(writerIndex, incoming[..direct]);
      if n <= writable {
        assert incoming[..direct] == incoming;
        writerIndex := writerIndex + n;
      } else {
        writerIndex := data.Length;
        assert State() == old(State()).Filled(incoming[..direct]);
        Append(extrabuf);
      }
    }

    /** `writeFd`: hands the kernel the `writableBytes()` bytes from `peek()` on, of which it takes
        `taken`.  Neither index moves.  `sent` is what went on the wire. */
    method WriteFd(taken: nat) returns (n: nat, sent: seq<Byte>)
      requires Valid() && taken <= State().Writable()
      ensures n == taken && sent == State().Window(n)
    {
      n := taken;
      sent := data[readerIndex..readerIndex + n];
    }
  }
}
