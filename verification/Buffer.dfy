/** The byte buffer of ads_Buffer.h and ads_Buffer.cc: a vector with a read index and
    a write index, grown or compacted in place when its tail is too short. */
module Buffers {

  newtype byte = x: int | 0 <= x < 0x100

  const CHEAP_PREPEND: nat := 8
  const INITIAL_SIZE: nat := 1024
  const EXTRA_SIZE: nat := 65536
  const SIZE_T_MODULUS: nat := 0x1_0000_0000_0000_0000

  // ---------- Shapes: the three numbers that decide when the vector grows ----------

  datatype Shape = Shape(size: nat, reader: nat, writer: nat) {
    predicate Valid() {
      CHEAP_PREPEND <= reader <= writer <= size
    }

    function Readable(): nat
      requires Valid()
    {
      writer - reader
    }

    function Writeable(): nat
      requires Valid()
    {
      size - writer
    }
  }

  function FreshShape(initialSize: nat): (s: Shape)
    ensures s.Valid() && s.Readable() == 0
  {
    Shape(CHEAP_PREPEND + initialSize, CHEAP_PREPEND, CHEAP_PREPEND)
  }

  function Retrieved(s: Shape, len: nat): (t: Shape)
    requires s.Valid()
    ensures t.Valid() && t.size == s.size
    ensures t.Readable() == if len < s.Readable() then s.Readable() - len else 0
  {
    if len < s.Readable() then s.(reader := s.reader + len)
    else s.(reader := CHEAP_PREPEND, writer := CHEAP_PREPEND)
  }

  predicate MustGrow(s: Shape, len: nat)
    requires s.Valid()
  {
    s.Writeable() + s.reader < len + CHEAP_PREPEND
  }

  function Ensured(s: Shape, len: nat): (t: Shape)
    requires s.Valid()
    ensures t.Valid() && t.Readable() == s.Readable() && len <= t.Writeable() && s.size <= t.size
  {
    if len <= s.Writeable() then s
    else if MustGrow(s, len) then s.(size := s.writer + len)
    else s.(reader := CHEAP_PREPEND, writer := CHEAP_PREPEND + s.Readable())
  }

  function Appended(s: Shape, len: nat): (t: Shape)
    requires s.Valid()
    ensures t.Valid() && t.Readable() == s.Readable() + len && s.size <= t.size
  {
    var t := Ensured(s, len);
    t.(writer := t.writer + len)
  }

  /** When ensureWriteable reaches the compaction branch, the copy's destination lies
      strictly below its source, as a forward copy within one vector needs. */
  lemma CompactionMovesLeft(s: Shape, len: nat)
    requires s.Valid() && s.Writeable() < len && !MustGrow(s, len)
    ensures CHEAP_PREPEND < s.reader
  {
  }

  /** The vector grows exactly when the contents, the new bytes and the 8 prepend bytes do not
      fit into it together, and then only as far as the new bytes reach. */
  lemma GrowsExactly(s: Shape, len: nat)
    requires s.Valid()
    ensures Ensured(s, len).size == (if s.Readable() + len + 8 <= s.size then s.size else s.writer + len)
    ensures s.size < s.Readable() + len + 8 ==> s.size < s.writer + len || len == s.size - s.writer
  {
  }

  /** A buffer that has been emptied is as good as new; and one made without a size has room
      for 1024 bytes. */
  lemma DrainedIsFresh(s: Shape, len: nat)
    requires s.Valid() && s.Readable() <= len
    ensures Retrieved(s, len) == FreshShape(s.size - 8)
    ensures FreshShape(INITIAL_SIZE) == Shape(1032, 8, 8)
  {
  }

  // ---------- Runs of appends and retrieves ----------

  datatype Op = Append(len: nat) | Retrieve(len: nat)

  function Step(s: Shape, op: Op): (t: Shape)
    requires s.Valid()
    ensures t.Valid()
  {
    match op
    case Append(len) => Appended(s, len)
    case Retrieve(len) => Retrieved(s, len)
  }

  function Run(s: Shape, ops: seq<Op>): (t: Shape)
    requires s.Valid()
    ensures t.Valid()
    decreases |ops|
  {
    if ops == [] then s else Run(Step(s, ops[0]), ops[1..])
  }

  /** No append is longer than `longest` and none leaves more than `peak` bytes readable. */
  predicate Within(s: Shape, ops: seq<Op>, peak: nat, longest: nat)
    requires s.Valid()
    decreases |ops|
  {
    ops != [] ==>
      && (ops[0].Append? ==> ops[0].len <= longest && Step(s, ops[0]).Readable() <= peak)
      && Within(Step(s, ops[0]), ops[1..], peak, longest)
  }

  function Max(a: nat, b: nat): nat {
    if a < b then b else a
  }

  lemma {:induction false} CapacityBoundFrom(s: Shape, ops: seq<Op>, peak: nat, longest: nat)
    requires s.Valid() && Within(s, ops, peak, longest)
    ensures Run(s, ops).size <= Max(s.size, peak + longest + 7)
    decreases |ops|
  {
    if ops == [] {
    } else {
      CapacityBoundFrom(Step(s, ops[0]), ops[1..], peak, longest);
    }
  }

  /** The vector never outgrows the initial size, or the peak plus one append plus 7. */
  lemma CapacityBound(initialSize: nat, ops: seq<Op>, peak: nat, longest: nat)
    requires Within(FreshShape(initialSize), ops, peak, longest)
    ensures Run(FreshShape(initialSize), ops).size <= Max(CHEAP_PREPEND + initialSize, peak + longest + 7)
  {
    CapacityBoundFrom(FreshShape(initialSize), ops, peak, longest);
  }

  function Ones(n: nat): seq<Op> {
    if n == 0 then [] else [Append(1)] + Ones(n - 1)
  }

  lemma {:induction false} OnesFill(s: Shape, n: nat, rest: seq<Op>, peak: nat, longest: nat)
    requires s.Valid() && n <= s.Writeable() && s.Readable() + n <= peak && 1 <= longest
    requires Within(s.(writer := s.writer + n), rest, peak, longest)
    ensures Within(s, Ones(n) + rest, peak, longest)
    ensures Run(s, Ones(n) + rest) == Run(s.(writer := s.writer + n), rest)
    decreases n
  {
    if n == 0 {
      assert Ones(0) + rest == rest;
      assert s.(writer := s.writer + 0) == s;
    } else {
      var next := s.(writer := s.writer + 1);
      var tail := Ones(n - 1) + rest;
      assert Step(s, Append(1)) == next;
      assert next.(writer := next.writer + n - 1) == s.(writer := s.writer + n);
      OnesFill(next, n - 1, rest, peak, longest);
      assert Ones(n) + rest == [Append(1)] + tail && ([Append(1)] + tail)[1..] == tail;
    }
  }

  /** The bound is sharp: for every append length below the peak some run attains it. */
  lemma CapacityBoundAttained(peak: nat, longest: nat) returns (ops: seq<Op>)
    requires 1 <= longest < peak
    ensures Within(FreshShape(peak - 1), ops, peak, longest)
    ensures Run(FreshShape(peak - 1), ops).size == peak + longest + 7
  {
    var rest := [Retrieve(longest - 1), Append(longest)];
    var start := FreshShape(peak - 1);
    var full := start.(writer := start.writer + peak - 1);
    var drained := Step(full, rest[0]);
    assert drained == Shape(peak + 7, longest + 7, peak + 7);
    assert rest[1..] == [Append(longest)] && rest[1..][1..] == [];
    assert Step(drained, Append(longest)) == Shape(peak + longest + 7, longest + 7, peak + longest + 7);
    assert Run(drained, rest[1..]) == Run(Step(drained, Append(longest)), []);
    OnesFill(start, peak - 1, rest, peak, longest);
    ops := Ones(peak - 1) + rest;
  }

  // ---------- The scatter read ----------

  /** What readv returned: the bytes it stored, first in the free tail and then in the
      64 KiB spill, or the errno of a failed call. */
  datatype ReadResult = Data(bytes: seq<byte>) | Error(errno: int)

  datatype ReadOutcome =
    | Count(n: nat)        // the call returned n
    | Failed(errno: int)   // the call returned a negative number and saved errno
    | Undefined            // the call copies from beyond the spill: no claim is made

  /** readv is offered the tail, and the spill too when the tail is shorter than it. */
  function Offered(writeable: nat): nat {
    if writeable < EXTRA_SIZE then writeable + EXTRA_SIZE else writeable
  }

  /** The length line 57 passes to append, in size_t arithmetic. */
  function SpillLength(n: nat): nat {
    (n - EXTRA_SIZE) % SIZE_T_MODULUS
  }

  /** What readFd stores of the bytes that arrived: all that fit in the tail, and otherwise
      SpillLength bytes of the spill behind a full tail. */
  function Stored(writeable: nat, bytes: seq<byte>): seq<byte>
    requires |bytes| <= writeable || EXTRA_SIZE <= |bytes| <= Offered(writeable)
  {
    if |bytes| <= writeable then bytes else bytes[..writeable + |bytes| - EXTRA_SIZE]
  }

  /** Whenever the spill holds bytes, at most 131071 arrived and the length on line 57 is
      not the n - writeable bytes the spill holds: too short if n reaches 64 KiB, and
      otherwise, having wrapped around, longer than the spill itself. */
  lemma SpillLengthIsNeverExact(writeable: nat, n: nat)
    requires writeable < n <= Offered(writeable)
    ensures n <= 131071 && Offered(65535) == 131071
    ensures EXTRA_SIZE <= n ==> SpillLength(n) == n - EXTRA_SIZE < n - writeable
    ensures n < EXTRA_SIZE ==> EXTRA_SIZE < SpillLength(n)
  {
    if n < EXTRA_SIZE {
      assert (n - EXTRA_SIZE) % SIZE_T_MODULUS == (n - EXTRA_SIZE + SIZE_T_MODULUS) % SIZE_T_MODULUS;
    }
  }

  // ---------- The buffer ----------

  class Buffer {
    var data: array<byte>
    var readerIndex: nat
    var writerIndex: nat

    ghost predicate Valid()
      reads this
    {
      CHEAP_PREPEND <= readerIndex <= writerIndex <= data.Length
    }

    ghost function Contents(): seq<byte>
      requires Valid()
      reads this, data
    {
      data[readerIndex..writerIndex]
    }

    ghost function GetShape(): (s: Shape)
      requires Valid()
      reads this
      ensures s.Valid()
    {
      Shape(data.Length, readerIndex, writerIndex)
    }

    constructor (initialSize: nat := INITIAL_SIZE)
      ensures Valid() && fresh(data)
      ensures Contents() == [] && GetShape() == FreshShape(initialSize)
    {
      data := new byte[CHEAP_PREPEND + initialSize](_ => 0);
      readerIndex, writerIndex := CHEAP_PREPEND, CHEAP_PREPEND;
    }

    function ReadableBytes(): (n: nat)
      requires Valid()
      reads this, data
      ensures n == |Contents()|
    {
      writerIndex - readerIndex
    }

    function WriteableBytes(): nat
      requires Valid()
      reads this
    {
      data.Length - writerIndex
    }

    method RetrieveAll()
      requires Valid()
      modifies this`readerIndex, this`writerIndex
      ensures Valid() && Contents() == []
      ensures GetShape() == Retrieved(old(GetShape()), old(GetShape().Readable()))
    {
      readerIndex, writerIndex := CHEAP_PREPEND, CHEAP_PREPEND;
    }

    method Retrieve(len: nat)
      requires Valid()
      modifies this`readerIndex, this`writerIndex
      ensures Valid()
      ensures Contents() == if len < |old(Contents())| then old(Contents())[len..] else []
      ensures GetShape() == Retrieved(old(GetShape()), len)
    {
      if len < ReadableBytes() {
        readerIndex := readerIndex + len;
      } else {
        RetrieveAll();
      }
    }

    /** A length beyond the readable region still copies from the vector; only a length
        beyond the vector itself is out of bounds. */
    method RetrieveAsString(len: nat) returns (s: seq<byte>)
      requires Valid() && readerIndex + len <= data.Length
      modifies this`readerIndex, this`writerIndex
      ensures Valid() && |s| == len
      ensures len <= |old(Contents())| ==> s + Contents() == old(Contents())
      ensures |old(Contents())| <= len ==> old(Contents()) <= s && Contents() == []
      ensures GetShape() == Retrieved(old(GetShape()), len)
    {
      s := data[readerIndex..readerIndex + len];
      Retrieve(len);
    }

    method RetrieveAllAsString() returns (s: seq<byte>)
      requires Valid()
      modifies this`readerIndex, this`writerIndex
      ensures Valid() && s == old(Contents()) && Contents() == []
    {
      s := RetrieveAsString(ReadableBytes());
    }

    /** vector::resize to a larger size. */
    method Resize(size: nat)
      requires data.Length <= size
      modifies this`data
      ensures fresh(data) && data.Length == size
      ensures forall k :: 0 <= k < old(data.Length) ==> data[k] == old(data[k])
    {
      var grown := new byte[size](_ => 0);
      forall i | 0 <= i < data.Length {
        grown[i] := data[i];
      }
      data := grown;
    }

    /** The forward copy of the readable region, within the vector, to its left end. */
    method CopyDown()
      requires Valid() && CHEAP_PREPEND < readerIndex
      modifies data
      ensures data[CHEAP_PREPEND..CHEAP_PREPEND + writerIndex - readerIndex] == old(Contents())
    {
      ghost var was := Contents();
      for i := 0 to writerIndex - readerIndex
        invariant forall k :: CHEAP_PREPEND <= k < CHEAP_PREPEND + i ==> data[k] == was[k - CHEAP_PREPEND]
        invariant forall k :: CHEAP_PREPEND + i <= k < data.Length ==> data[k] == old(data[k])
      {
        assert data[readerIndex + i] == was[i];
        data[CHEAP_PREPEND + i] := data[readerIndex + i];
      }
    }

    /** Called only when the tail is shorter than len. */
    method MakeSpace(len: nat)
      requires Valid() && WriteableBytes() < len
      modifies this, data
      ensures Valid() && (data == old(data) || fresh(data))
      ensures Contents() == old(Contents())
      ensures GetShape() == Ensured(old(GetShape()), len)
    {
      if WriteableBytes() + readerIndex < len + CHEAP_PREPEND {
        Resize(writerIndex + len);
      } else {
        CompactionMovesLeft(GetShape(), len);
        var readable := ReadableBytes();
        CopyDown();
        readerIndex, writerIndex := CHEAP_PREPEND, CHEAP_PREPEND + readable;
      }
    }

    method EnsureWriteable(len: nat)
      requires Valid()
      modifies this, data
      ensures Valid() && (data == old(data) || fresh(data))
      ensures Contents() == old(Contents())
      ensures GetShape() == Ensured(old(GetShape()), len)
    {
      if WriteableBytes() < len {
        MakeSpace(len);
      }
    }

    /** Stores bytes in the free tail without moving the write index. */
    method FillTail(bytes: seq<byte>)
      requires Valid() && |bytes| <= WriteableBytes()
      modifies data
      ensures Contents() == old(Contents())
      ensures data[writerIndex..writerIndex + |bytes|] == bytes
    {
      forall i | 0 <= i < |bytes| {
        data[writerIndex + i] := bytes[i];
      }
    }

    /** The bytes readv put in the tail become readable. */
    method Deposit(bytes: seq<byte>)
      requires Valid() && |bytes| <= WriteableBytes()
      modifies this`writerIndex, data
      ensures Valid() && Contents() == old(Contents()) + bytes
      ensures readerIndex == old(readerIndex) && writerIndex == old(writerIndex) + |bytes|
    {
      FillTail(bytes);
      writerIndex := writerIndex + |bytes|;
    }

    method Append(bytes: seq<byte>)
      requires Valid()
      modifies this, data
      ensures Valid() && (data == old(data) || fresh(data))
      ensures Contents() == old(Contents()) + bytes
      ensures GetShape() == Appended(old(GetShape()), |bytes|)
    {
      EnsureWriteable(|bytes|);
      Deposit(bytes);
    }

    /** readFd as written: line 57 appends n - sizeof(extrabuf) bytes of the spill. It
        delivers what the socket delivered exactly when nothing reached the spill. */
    method ReadFd(result: ReadResult) returns (outcome: ReadOutcome)
      requires Valid() && (result.Data? ==> |result.bytes| <= Offered(WriteableBytes()))
      modifies this, data
      ensures Valid() && (data == old(data) || fresh(data))
      ensures result.Error? ==> outcome == Failed(result.errno) && Contents() == old(Contents())
      ensures outcome.Undefined? <==> result.Data? && old(WriteableBytes()) < |result.bytes| < EXTRA_SIZE
      ensures result.Data? && !outcome.Undefined? ==>
                outcome == Count(|result.bytes|) &&
                var kept := if |result.bytes| <= old(WriteableBytes()) then |result.bytes|
                            else old(WriteableBytes()) + |result.bytes| - EXTRA_SIZE;
                0 <= kept <= |result.bytes| && Contents() == old(Contents()) + result.bytes[..kept]
      ensures result.Data? ==>
                (!outcome.Undefined? && Contents() == old(Contents()) + result.bytes
                 <==> |result.bytes| <= old(WriteableBytes()))
    {
      if result.Error? {
        return Failed(result.errno);
      }
      var n := |result.bytes|;
      var writeable := WriteableBytes();
      ghost var before := Contents();
      if n <= writeable {
        assert result.bytes[..n] == result.bytes;
        Deposit(result.bytes);
        return Count(n);
      }
      SpillLengthIsNeverExact(writeable, n);
      Deposit(result.bytes[..writeable]);
      if EXTRA_SIZE < SpillLength(n) {
        return Undefined;
      }
      var spill := result.bytes[writeable..];
      Append(spill[..SpillLength(n)]);
      SplitPrefix(before, result.bytes, writeable, SpillLength(n));
      assert |Contents()| < |before + result.bytes|;
      return Count(n);
    }

    /** readFd with line 57 appending the n - writeable bytes that the spill holds. */
    method ReadFdRepaired(result: ReadResult) returns (outcome: ReadOutcome)
      requires Valid() && (result.Data? ==> |result.bytes| <= Offered(WriteableBytes()))
      modifies this, data
      ensures Valid() && (data == old(data) || fresh(data))
      ensures result.Error? ==> outcome == Failed(result.errno) && Contents() == old(Contents())
      ensures result.Data? ==> outcome == Count(|result.bytes|) && Contents() == old(Contents()) + result.bytes
    {
      if result.Error? {
        return Failed(result.errno);
      }
      var n := |result.bytes|;
      var writeable := WriteableBytes();
      ghost var before := Contents();
      if n <= writeable {
        Deposit(result.bytes);
      } else {
        var spill := result.bytes[writeable..];
        Deposit(result.bytes[..writeable]);
        Append(spill);
        assert spill[..|spill|] == spill && result.bytes[..n] == result.bytes;
        SplitPrefix(before, result.bytes, writeable, |spill|);
      }
      return Count(n);
    }
  }

  lemma SplitPrefix(before: seq<byte>, bytes: seq<byte>, k: nat, len: nat)
    requires k + len <= |bytes|
    ensures before + bytes[..k] + bytes[k..][..len] == before + bytes[..k + len]
  {
  }
}
