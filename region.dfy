/** The cursor that MemoryBuffer (nvm/pmem.py) keeps over a mapped region,
    described on values: the region's bytes and the cursor position. The
    class MemoryBuffer in pmem.dfy is proved against the functions here, and
    the lemmas below state what a caller of write, read and seek can rely on.
    The region's size is the length of its bytes; no operation changes it. */
module Region {

  /** The exceptions MemoryBuffer and the native wrappers raise. */
  datatype Error =
    | OutOfRange          // RuntimeError, "Out of range error."
    | NegativePosition    // RuntimeError, "Negative position."
    | EndOfFile           // EOFError, "End of file."
    | OsError(errno: int) // RuntimeError carrying strerror(errno) of a failed native call

  /** A returned value, or the exception raised instead. */
  datatype Result<T> = Ok(value: T) | Err(error: Error)

  /** The mapped bytes and the cursor. */
  datatype State = State(bytes: seq<bv8>, pos: int)

  /** The cursor never leaves the region. */
  predicate Valid(s: State) {
    0 <= s.pos <= |s.bytes|
  }

  /** A state whose cursor is inside the region. */
  type ValidState = s: State | Valid(s) witness State([], 0)

  /** What an operation returns, and the state it leaves behind. */
  datatype Step<T> = Step(result: Result<T>, after: State)

  /** The two byte sequences have one length and agree outside [lo, hi). */
  predicate SameOutside(a: seq<bv8>, b: seq<bv8>, lo: int, hi: int) {
    |a| == |b| && forall i :: 0 <= i < |a| && !(lo <= i < hi) ==> a[i] == b[i]
  }

  /** The bytes v sit in bytes at offset p. */
  predicate LiesAt(v: seq<bv8>, bytes: seq<bv8>, p: int) {
    0 <= p && p + |v| <= |bytes| && forall i :: 0 <= i < |v| ==> bytes[p + i] == v[i]
  }

  /** MemoryBuffer.write: empty data is a no-op; data that does not fit between
      the cursor and the end of the region is refused; otherwise it lands at
      the cursor and the cursor moves past it. */
  function Write(s: ValidState, data: seq<bv8>): (t: Step<()>)
    ensures Valid(t.after) && |t.after.bytes| == |s.bytes|
    ensures t.result.Ok? <==> s.pos + |data| <= |s.bytes|
    ensures t.result.Err? ==> t.result.error == OutOfRange && t.after == s
    ensures |data| == 0 ==> t.result.Ok? && t.after == s
    ensures t.result.Ok? ==>
      && t.after.pos == s.pos + |data|
      && LiesAt(data, t.after.bytes, s.pos)
      && SameOutside(t.after.bytes, s.bytes, s.pos, t.after.pos)
  {
    if |data| == 0 then Step(Ok(()), s)
    else if |data| + s.pos > |s.bytes| then Step(Err(OutOfRange), s)
    else
      var newPos := s.pos + |data|;
      Step(Ok(()), State(s.bytes[..s.pos] + data + s.bytes[newPos..], newPos))
  }

  /** MemoryBuffer.read: a count of zero or less reads everything from the
      cursor to the end, and fails at the end; a positive count reads exactly
      that many bytes and fails if they are not all there. The bytes are
      never changed, and a failure leaves the cursor where it was. */
  function Read(s: ValidState, count: int := 0): (t: Step<seq<bv8>>)
    ensures Valid(t.after) && t.after.bytes == s.bytes
    ensures t.result.Err? ==> t.after == s
    ensures count <= 0 ==>
      && (t.result.Err? <==> s.pos >= |s.bytes|)
      && (t.result.Err? ==> t.result.error == EndOfFile)
      && (t.result.Ok? ==>
            && t.after.pos == |s.bytes|
            && |t.result.value| == |s.bytes| - s.pos > 0
            && LiesAt(t.result.value, s.bytes, s.pos))
    ensures count > 0 ==>
      && (t.result.Err? <==> s.pos + count > |s.bytes|)
      && (t.result.Err? ==> t.result.error == OutOfRange)
      && (t.result.Ok? ==>
            && t.after.pos == s.pos + count
            && |t.result.value| == count
            && LiesAt(t.result.value, s.bytes, s.pos))
  {
    if count <= 0 then
      if s.pos >= |s.bytes| then Step(Err(EndOfFile), s)
      else Step(Ok(s.bytes[s.pos..]), State(s.bytes, |s.bytes|))
    else
      if s.pos + count > |s.bytes| then Step(Err(OutOfRange), s)
      else Step(Ok(s.bytes[s.pos..s.pos + count]), State(s.bytes, s.pos + count))
  }

  /** MemoryBuffer.seek: a negative position and one past the end are
      refused with different errors; any position inside the region, the end
      included, becomes the cursor. */
  function Seek(s: State, p: int): (t: Step<()>)
    ensures t.after.bytes == s.bytes
    ensures t.result.Ok? <==> 0 <= p <= |s.bytes|
    ensures t.result.Ok? ==> t.after.pos == p && Valid(t.after)
    ensures t.result.Err? ==>
      && t.after == s
      && t.result.error == (if p < 0 then NegativePosition else OutOfRange)
  {
    if p < 0 then Step(Err(NegativePosition), s)
    else if p > |s.bytes| then Step(Err(OutOfRange), s)
    else Step(Ok(()), State(s.bytes, p))
  }

  /** Write, seek back to where the write started, read as many bytes as were
      written: the data comes back, and the cursor ends where the write left it.
      The data must be non-empty, since a read of zero bytes reads to the end. */
  lemma WriteSeekReadRoundTrip(s: State, d: seq<bv8>)
    requires Valid(s) && 0 < |d| && s.pos + |d| <= |s.bytes|
    ensures var w := Write(s, d).after;
            var k := Seek(w, s.pos).after;
            Read(k, |d|).result == Ok(d) && Read(k, |d|).after == w
  {
  }

  /** The exception to the round trip: after writing nothing, a read of
      zero bytes returns the rest of the region (or fails at its end), not
      the empty data. */
  lemma EmptyRoundTripReadsToEnd(s: State)
    requires Valid(s)
    ensures var k := Seek(Write(s, []).after, s.pos).after;
            Read(k, 0).result == (if s.pos == |s.bytes| then Err(EndOfFile) else Ok(s.bytes[s.pos..]))
  {
  }

  /** Splicing d1 and then d2 right after it into b is splicing d1 + d2. */
  lemma SpliceTwice(b: seq<bv8>, p: nat, d1: seq<bv8>, d2: seq<bv8>)
    requires p + |d1| + |d2| <= |b|
    ensures var q, e := p + |d1|, p + |d1| + |d2|;
            var b1 := b[..p] + d1 + b[q..];
            b1[..q] + d2 + b1[e..] == b[..p] + (d1 + d2) + b[e..]
  {
    var q, e := p + |d1|, p + |d1| + |d2|;
    var b1 := b[..p] + d1 + b[q..];
    assert b1[..q] == b[..p] + d1;
    assert b1[e..] == b[e..];
  }

  /** Two writes one after the other are one write of the two pieces joined. */
  lemma WritesConcatenate(s: State, d1: seq<bv8>, d2: seq<bv8>)
    requires Valid(s) && s.pos + |d1| + |d2| <= |s.bytes|
    ensures Write(Write(s, d1).after, d2) == Write(s, d1 + d2)
  {
    if d1 == [] {
      assert d1 + d2 == d2;
    } else if d2 == [] {
      assert d1 + d2 == d1;
    } else {
      var p, q, e := s.pos, s.pos + |d1|, s.pos + |d1| + |d2|;
      var b1 := s.bytes[..p] + d1 + s.bytes[q..];
      SpliceTwice(s.bytes, p, d1, d2);
      calc {
        Write(Write(s, d1).after, d2);
        Write(State(b1, q), d2);
        Step(Ok(()), State(b1[..q] + d2 + b1[e..], e));
        Step(Ok(()), State(s.bytes[..p] + (d1 + d2) + s.bytes[e..], e));
        Write(s, d1 + d2);
      }
    }
  }

  /** Two reads of positive counts one after the other return together what
      one read of the summed count returns. */
  lemma ReadsConcatenate(s: State, a: int, b: int)
    requires Valid(s) && a > 0 && b > 0 && s.pos + a + b <= |s.bytes|
    ensures var r1 := Read(s, a);
            var r2 := Read(r1.after, b);
            r2.after == Read(s, a + b).after &&
            Read(s, a + b).result == Ok(r1.result.value + r2.result.value)
  {
    assert s.bytes[s.pos..s.pos + a + b] == s.bytes[s.pos..s.pos + a] + s.bytes[s.pos + a..s.pos + a + b];
  }

  /** After a read to the end the next read to the end fails. */
  lemma ReadToEndThenEndOfFile(s: State)
    requires Valid(s)
    ensures Read(Read(s).after).result == Err(EndOfFile)
  {
  }

  /** One call on the buffer, as a caller would make it. */
  datatype Call = WriteCall(data: seq<bv8>) | ReadCall(count: int) | SeekCall(p: int)

  /** The state a call leaves behind, whether it succeeded or raised. */
  function Apply(s: ValidState, c: Call): State
  {
    match c
    case WriteCall(d) => Write(s, d).after
    case ReadCall(n) => Read(s, n).after
    case SeekCall(p) => Seek(s, p).after
  }

  /** The state after a sequence of calls, each exception caught by the caller. */
  function Run(s: ValidState, calls: seq<Call>): State
    decreases |calls|
  {
    if calls == [] then s else Run(Apply(s, calls[0]), calls[1..])
  }

  /** Whatever the caller does, the cursor stays inside the region and the
      region keeps its size. */
  lemma {:induction false} RunKeepsInvariant(s: State, calls: seq<Call>)
    requires Valid(s)
    ensures Valid(Run(s, calls)) && |Run(s, calls).bytes| == |s.bytes|
    decreases |calls|
  {
    if calls != [] {
      RunKeepsInvariant(Apply(s, calls[0]), calls[1..]);
    }
  }

  /** Reads and seeks never change the region's contents. */
  lemma {:induction false} RunWithoutWritesKeepsBytes(s: State, calls: seq<Call>)
    requires Valid(s)
    requires forall i :: 0 <= i < |calls| ==> !calls[i].WriteCall?
    ensures Run(s, calls).bytes == s.bytes
    decreases |calls|
  {
    if calls != [] {
      RunWithoutWritesKeepsBytes(Apply(s, calls[0]), calls[1..]);
    }
  }

  /** Bytes written stay readable through any reads and seeks that follow:
      seeking back to where the write began and reading as many bytes as were
      written returns them. */
  lemma WrittenDataSurvivesReadsAndSeeks(s: State, d: seq<bv8>, calls: seq<Call>)
    requires Valid(s) && 0 < |d| && s.pos + |d| <= |s.bytes|
    requires forall i :: 0 <= i < |calls| ==> !calls[i].WriteCall?
    ensures var k := Seek(Run(Write(s, d).after, calls), s.pos);
            k.result.Ok? && Read(k.after, |d|).result == Ok(d)
  {
    var w := Write(s, d).after;
    RunKeepsInvariant(w, calls);
    RunWithoutWritesKeepsBytes(w, calls);
  }
}
