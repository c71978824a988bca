/** MemoryBuffer of nvm/pmem.py as a class over an array of bytes, the native
    durability calls it makes as events on a ghost trace, and the three
    scoped-exit policies (MemoryBuffer, FlushContext, DrainContext) as
    functions on that trace which the exit methods are proved against. */
module Pmem {
  import opened Region

  /** A call into libpmem that has an effect on the mapping. */
  datatype Event = PmemPersist | PmemMsync | PmemFlush | PmemDrain | PmemUnmap

  /** The answers libpmem gives during one exit: whether the range is
      persistent memory, the return codes of pmem_msync and pmem_unmap, and the
      errno a failing call leaves behind. */
  datatype Native = Native(isPmem: bool, msyncRet: int, unmapRet: int, errno: int)

  /** The calls an exit makes, what it returns (Ok(false): the exception in
      flight, if any, propagates) or raises, and whether the mapping is gone. */
  datatype ExitStep = ExitStep(events: seq<Event>, outcome: Result<bool>, unmapped: bool)

  /** A file-like cursor over a mapped byte region. */
  class MemoryBuffer {
    const buffer: array<bv8>
    const size: nat
    var pos: int
    /** The native calls made on this mapping so far. */
    ghost var trace: seq<Event>
    /** Set once the mapping has been released. */
    ghost var dead: bool

    ghost predicate Valid()
      reads this
    {
      size == buffer.Length && 0 <= pos <= size
    }

    /** The region's bytes and the cursor, as a value. */
    ghost function Snapshot(): (s: State)
      reads this, buffer
      ensures Valid() ==> Region.Valid(s)
    {
      State(buffer[..], pos)
    }

    /** Wrap a mapped buffer: the size is fixed to the buffer's length and the
        cursor starts at the beginning. */
    constructor (buffer_: array<bv8>)
      ensures buffer == buffer_ && size == buffer_.Length && pos == 0
      ensures Valid() && trace == [] && !dead
    {
      buffer := buffer_;
      size := buffer_.Length;
      pos := 0;
      trace := [];
      dead := false;
    }

    /** __len__: the size of the region. */
    function Len(): (n: nat)
      reads this
      requires Valid()
      ensures n == buffer.Length
    {
      size
    }

    method Write(data: seq<bv8>) returns (r: Result<()>)
      requires Valid() && !dead
      modifies this`pos, buffer
      ensures Valid()
      ensures Step(r, Snapshot()) == Region.Write(old(Snapshot()), data)
    {
      if |data| == 0 {
        return Ok(());
      }
      var ldata := |data|;
      if ldata + pos > size {
        return Err(OutOfRange);
      }
      var newPos := pos + ldata;
      forall i | pos <= i < newPos {
        buffer[i] := data[i - pos];
      }
      ghost var was := old(buffer[..]);
      assert buffer[..] == was[..pos] + data + was[newPos..];
      pos := newPos;
      r := Ok(());
    }

    method Read(count: int := 0) returns (r: Result<seq<bv8>>)
      requires Valid() && !dead
      modifies this`pos
      ensures Valid()
      ensures Step(r, Snapshot()) == Region.Read(old(Snapshot()), count)
    {
      if count <= 0 {
        if pos >= size {
          return Err(EndOfFile);
        }
        var data := buffer[pos..size];
        assert data == buffer[..][pos..];
        pos := size;
        return Ok(data);
      } else {
        if pos + count > size {
          return Err(OutOfRange);
        }
        var data := buffer[pos..pos + count];
        pos := pos + count;
        return Ok(data);
      }
    }

    method Seek(p: int) returns (r: Result<()>)
      requires Valid()
      modifies this`pos
      ensures Valid()
      ensures Step(r, Snapshot()) == Region.Seek(old(Snapshot()), p)
    {
      if p < 0 {
        return Err(NegativePosition);
      }
      if p > size {
        return Err(OutOfRange);
      }
      pos := p;
      r := Ok(());
    }

    /** __enter__: the with-block works on the buffer itself. */
    method Enter() returns (mb: MemoryBuffer)
      ensures mb == this
    {
      mb := this;
    }

    /** __exit__: on a normal exit, make the region durable (persist on
        persistent memory, msync otherwise) and unmap it; with an exception in
        flight do nothing. Never suppresses the exception. */
    method Exit(excInFlight: bool, native: Native) returns (r: Result<bool>)
      requires !excInFlight ==> !dead
      modifies this`trace, this`dead
      ensures var x := BufferExit(excInFlight, native);
              && trace == old(trace) + x.events
              && r == x.outcome
              && dead == (old(dead) || x.unmapped)
    {
      if !excInFlight {
        if native.isPmem {
          Persist(this);
        } else {
          var m := Msync(this, native.msyncRet, native.errno);
          if m.Err? {
            return Err(m.error);
          }
        }
        var u := Unmap(this, native.unmapRet, native.errno);
        if u.Err? {
          return Err(u.error);
        }
      }
      r := Ok(false);
    }
  }

  /** persist: pmem_persist over the whole region; it cannot fail. */
  method Persist(mb: MemoryBuffer)
    requires !mb.dead
    modifies mb`trace
    ensures mb.trace == old(mb.trace) + [PmemPersist]
  {
    mb.trace := mb.trace + [PmemPersist];
  }

  /** msync: pmem_msync over the whole region; a non-zero return raises. */
  method Msync(mb: MemoryBuffer, ret: int, errno: int) returns (r: Result<int>)
    requires !mb.dead
    modifies mb`trace
    ensures mb.trace == old(mb.trace) + [PmemMsync]
    ensures r.Err? <==> ret != 0
    ensures r.Err? ==> r.error == OsError(errno)
    ensures r.Ok? ==> r.value == 0
  {
    mb.trace := mb.trace + [PmemMsync];
    if ret != 0 {
      return Err(OsError(errno));
    }
    r := Ok(ret);
  }

  /** flush: pmem_flush over the whole region; it cannot fail. */
  method Flush(mb: MemoryBuffer)
    requires !mb.dead
    modifies mb`trace
    ensures mb.trace == old(mb.trace) + [PmemFlush]
  {
    mb.trace := mb.trace + [PmemFlush];
  }

  /** drain: waits for flushed stores to reach persistence; it cannot fail.
      This is the intended behaviour (see DrainContextExitAsWritten). */
  method Drain(mb: MemoryBuffer)
    requires !mb.dead
    modifies mb`trace
    ensures mb.trace == old(mb.trace) + [PmemDrain]
  {
    mb.trace := mb.trace + [PmemDrain];
  }

  /** unmap: pmem_unmap over the whole region; a non-zero return raises and
      leaves the mapping in place. */
  method Unmap(mb: MemoryBuffer, ret: int, errno: int) returns (r: Result<int>)
    requires !mb.dead
    modifies mb`trace, mb`dead
    ensures mb.trace == old(mb.trace) + [PmemUnmap]
    ensures mb.dead <==> ret == 0
    ensures r.Err? <==> ret != 0
    ensures r.Err? ==> r.error == OsError(errno)
    ensures r.Ok? ==> r.value == 0
  {
    mb.trace := mb.trace + [PmemUnmap];
    if ret != 0 {
      return Err(OsError(errno));
    }
    mb.dead := true;
    r := Ok(ret);
  }

  /** The MemoryBuffer exit policy: with an exception in flight nothing is
      called; otherwise exactly one of persist (on persistent memory) and
      msync (elsewhere) is called, then unmap, unless msync failed. A normal
      exit either releases the mapping or raises the native error. */
  function BufferExit(excInFlight: bool, n: Native): (x: ExitStep)
    ensures excInFlight ==> x == ExitStep([], Ok(false), false)
    ensures !excInFlight ==> 1 <= |x.events| <= 2
    ensures !excInFlight ==> x.events[0] == (if n.isPmem then PmemPersist else PmemMsync)
    ensures !excInFlight ==>
      x.events == [if n.isPmem then PmemPersist else PmemMsync] + (if n.isPmem || n.msyncRet == 0 then [PmemUnmap] else [])
    ensures PmemPersist in x.events <==> !excInFlight && n.isPmem
    ensures PmemMsync in x.events <==> !excInFlight && !n.isPmem
    ensures PmemUnmap in x.events <==> !excInFlight && (n.isPmem || n.msyncRet == 0)
    ensures PmemUnmap in x.events ==> x.events[|x.events| - 1] == PmemUnmap
    ensures PmemFlush !in x.events && PmemDrain !in x.events
    ensures x.unmapped <==> PmemUnmap in x.events && n.unmapRet == 0
    ensures x.outcome.Ok? ==> x.outcome.value == false
    ensures x.outcome.Err? <==> !excInFlight && !x.unmapped
    ensures x.outcome.Err? ==> x.outcome.error == OsError(n.errno)
  {
    if excInFlight then ExitStep([], Ok(false), false)
    else
      var sync := if n.isPmem then PmemPersist else PmemMsync;
      if !n.isPmem && n.msyncRet != 0 then ExitStep([sync], Err(OsError(n.errno)), false)
      else if n.unmapRet != 0 then ExitStep([sync, PmemUnmap], Err(OsError(n.errno)), false)
      else ExitStep([sync, PmemUnmap], Ok(false), true)
  }

  /** The FlushContext exit policy: with an exception in flight nothing is
      called; otherwise flush, then unmap only when asked to. */
  function FlushContextExit(excInFlight: bool, unmap: bool, n: Native): (x: ExitStep)
    ensures excInFlight ==> x == ExitStep([], Ok(false), false)
    ensures !excInFlight ==> 1 <= |x.events| && x.events[0] == PmemFlush
    ensures !excInFlight ==> x.events == [PmemFlush] + (if unmap then [PmemUnmap] else [])
    ensures PmemUnmap in x.events <==> !excInFlight && unmap
    ensures PmemUnmap in x.events ==> x.events == [PmemFlush, PmemUnmap]
    ensures forall e :: e in x.events ==> e == PmemFlush || e == PmemUnmap
    ensures x.unmapped <==> PmemUnmap in x.events && n.unmapRet == 0
    ensures x.outcome.Ok? ==> x.outcome.value == false
    ensures x.outcome.Err? <==> PmemUnmap in x.events && n.unmapRet != 0
    ensures x.outcome.Err? ==> x.outcome.error == OsError(n.errno)
  {
    if excInFlight then ExitStep([], Ok(false), false)
    else if !unmap then ExitStep([PmemFlush], Ok(false), false)
    else if n.unmapRet != 0 then ExitStep([PmemFlush, PmemUnmap], Err(OsError(n.errno)), false)
    else ExitStep([PmemFlush, PmemUnmap], Ok(false), true)
  }

  /** The DrainContext exit policy as its author intended: with an exception
      in flight nothing is called; otherwise drain, then unmap only when asked
      to. */
  function DrainContextExit(excInFlight: bool, unmap: bool, n: Native): (x: ExitStep)
    ensures excInFlight ==> x == ExitStep([], Ok(false), false)
    ensures !excInFlight ==> 1 <= |x.events| && x.events[0] == PmemDrain
    ensures !excInFlight ==> x.events == [PmemDrain] + (if unmap then [PmemUnmap] else [])
    ensures PmemUnmap in x.events <==> !excInFlight && unmap
    ensures PmemUnmap in x.events ==> x.events == [PmemDrain, PmemUnmap]
    ensures forall e :: e in x.events ==> e == PmemDrain || e == PmemUnmap
    ensures x.unmapped <==> PmemUnmap in x.events && n.unmapRet == 0
    ensures x.outcome.Ok? ==> x.outcome.value == false
    ensures x.outcome.Err? <==> PmemUnmap in x.events && n.unmapRet != 0
    ensures x.outcome.Err? ==> x.outcome.error == OsError(n.errno)
  {
    if excInFlight then ExitStep([], Ok(false), false)
    else if !unmap then ExitStep([PmemDrain], Ok(false), false)
    else if n.unmapRet != 0 then ExitStep([PmemDrain, PmemUnmap], Err(OsError(n.errno)), false)
    else ExitStep([PmemDrain, PmemUnmap], Ok(false), true)
  }

  /** The DrainContext exit policy as pmem.py has it: its drain wrapper calls
      pmem_flush, so the events are those of a flush. */
  function DrainContextExitAsWritten(excInFlight: bool, unmap: bool, n: Native): (x: ExitStep)
    ensures !excInFlight ==> 1 <= |x.events| && x.events[0] == PmemFlush
  {
    if excInFlight then ExitStep([], Ok(false), false)
    else if !unmap then ExitStep([PmemFlush], Ok(false), false)
    else if n.unmapRet != 0 then ExitStep([PmemFlush, PmemUnmap], Err(OsError(n.errno)), false)
    else ExitStep([PmemFlush, PmemUnmap], Ok(false), true)
  }

  /** As written, leaving a DrainContext is indistinguishable from leaving a
      FlushContext, and no exit of it ever drains. */
  lemma DrainContextAsWrittenNeverDrains(excInFlight: bool, unmap: bool, n: Native)
    ensures DrainContextExitAsWritten(excInFlight, unmap, n) == FlushContextExit(excInFlight, unmap, n)
    ensures PmemDrain !in DrainContextExitAsWritten(excInFlight, unmap, n).events
    ensures !excInFlight ==> DrainContextExitAsWritten(excInFlight, unmap, n) != DrainContextExit(excInFlight, unmap, n)
  {
  }

  /** A context manager that flushes its buffer on a normal exit. */
  class FlushContext {
    const memoryBuffer: MemoryBuffer
    const unmap: bool

    constructor (memoryBuffer: MemoryBuffer, unmap: bool := true)
      ensures this.memoryBuffer == memoryBuffer && this.unmap == unmap
    {
      this.memoryBuffer := memoryBuffer;
      this.unmap := unmap;
    }

    /** __enter__: the with-block works on the wrapped buffer. */
    method Enter() returns (mb: MemoryBuffer)
      ensures mb == memoryBuffer
    {
      mb := memoryBuffer;
    }

    method Exit(excInFlight: bool, native: Native) returns (r: Result<bool>)
      requires !excInFlight ==> !memoryBuffer.dead
      modifies memoryBuffer`trace, memoryBuffer`dead
      ensures var x := FlushContextExit(excInFlight, unmap, native);
              && memoryBuffer.trace == old(memoryBuffer.trace) + x.events
              && r == x.outcome
              && memoryBuffer.dead == (old(memoryBuffer.dead) || x.unmapped)
    {
      if !excInFlight {
        Flush(memoryBuffer);
        if unmap {
          var u := Unmap(memoryBuffer, native.unmapRet, native.errno);
          if u.Err? {
            return Err(u.error);
          }
        }
      }
      r := Ok(false);
    }
  }

  /** A context manager that drains its buffer on a normal exit. */
  class DrainContext {
    const memoryBuffer: MemoryBuffer
    const unmap: bool

    constructor (memoryBuffer: MemoryBuffer, unmap: bool := true)
      ensures this.memoryBuffer == memoryBuffer && this.unmap == unmap
    {
      this.memoryBuffer := memoryBuffer;
      this.unmap := unmap;
    }

    /** __enter__: the with-block works on the wrapped buffer. */
    method Enter() returns (mb: MemoryBuffer)
      ensures mb == memoryBuffer
    {
      mb := memoryBuffer;
    }

    method Exit(excInFlight: bool, native: Native) returns (r: Result<bool>)
      requires !excInFlight ==> !memoryBuffer.dead
      modifies memoryBuffer`trace, memoryBuffer`dead
      ensures var x := DrainContextExit(excInFlight, unmap, native);
              && memoryBuffer.trace == old(memoryBuffer.trace) + x.events
              && r == x.outcome
              && memoryBuffer.dead == (old(memoryBuffer.dead) || x.unmapped)
    {
      if !excInFlight {
        Drain(memoryBuffer);
        if unmap {
          var u := Unmap(memoryBuffer, native.unmapRet, native.errno);
          if u.Err? {
            return Err(u.error);
          }
        }
      }
      r := Ok(false);
    }
  }

  /** The write, seek, read sequence of the buffer's round-trip test, on the
      class: starting at the beginning, non-empty data that fits comes back. */
  method WriteSeekRead(mb: MemoryBuffer, d: seq<bv8>) returns (r: Result<seq<bv8>>)
    requires mb.Valid() && !mb.dead && mb.pos == 0 && 0 < |d| <= mb.size
    modifies mb`pos, mb.buffer
    ensures r == Ok(d)
    ensures mb.Valid() && mb.pos == |d|
  {
    ghost var s := mb.Snapshot();
    var w := mb.Write(d);
    var k := mb.Seek(0);
    r := mb.Read(|d|);
    WriteSeekReadRoundTrip(s, d);
  }
}
