/**
 * The checks each `enqueue*` runs before it builds the wait list: the
 * context-affinity check, the coercion of origin/region arrays into
 * three-slot arrays, and the per-command argument checks.
 */
module Validation {
  import opened Wrappers
  import opened OpenCL

  // ---------------------------------------------------------------------
  // Context affinity

  /**
   * The affinity check: the queue's context query pre-loads 0, the operand's
   * query pre-loads `(cl_context) -1`, and the two results are compared.
   */
  predicate SameContext(queueCtx: Option<Handle>, operandCtx: Option<Handle>)
  {
    queueCtx.GetOr(NULL) == operandCtx.GetOr(ALL_ONES_HANDLE)
  }

  /** A real context handle: neither null nor the all-ones pre-load value. */
  predicate RealContext(c: Handle)
  {
    c != NULL && c != ALL_ONES_HANDLE
  }

  /**
   * When both queries succeed with real contexts the check passes exactly
   * when the contexts are equal; when either query fails it never passes
   * against a real context.
   */
  lemma SameContextMeaning(queueCtx: Option<Handle>, operandCtx: Option<Handle>)
    ensures queueCtx.Some? && operandCtx.Some? ==>
      (SameContext(queueCtx, operandCtx) <==> queueCtx.value == operandCtx.value)
    ensures queueCtx.None? && operandCtx.Some? && RealContext(operandCtx.value) ==> !SameContext(queueCtx, operandCtx)
    ensures queueCtx.Some? && RealContext(queueCtx.value) && operandCtx.None? ==> !SameContext(queueCtx, operandCtx)
    ensures queueCtx.None? && operandCtx.None? ==> !SameContext(queueCtx, operandCtx)
  {
  }

  /** Copies as written: only the source operand's context is compared with the queue's. */
  predicate CopyContextAsWritten(queueCtx: Option<Handle>, srcCtx: Option<Handle>, dstCtx: Option<Handle>)
  {
    SameContext(queueCtx, srcCtx)
  }

  /** A destination in another context slips through the as-written copy check. */
  lemma CopyToForeignContextAccepted()
    ensures CopyContextAsWritten(Some(7), Some(7), Some(9))
  {
  }

  /** Copies, corrected: both operands must share the queue's context. */
  predicate CopyContextOk(queueCtx: Option<Handle>, srcCtx: Option<Handle>, dstCtx: Option<Handle>)
  {
    SameContext(queueCtx, srcCtx) && SameContext(queueCtx, dstCtx)
  }

  /** With real contexts, the corrected copy check passes exactly when all three agree. */
  lemma CopyContextOkMeaning(q: Handle, s: Handle, d: Handle)
    ensures CopyContextOk(Some(q), Some(s), Some(d)) <==> q == s && q == d
    ensures d != q ==> !CopyContextOk(Some(q), Some(s), Some(d))
  {
  }

  // ---------------------------------------------------------------------
  // Origin / region arrays

  /** `size_t origin[3]`, `region[3]`: the fixed three slots. */
  const TRIPLE: nat := 3

  /** Slot `k` after filling from the script's array: its entry if it has one, else the default. */
  function Overlay(dflt: seq<nat>, given: seq<U32>): (t: seq<nat>)
    requires |dflt| == TRIPLE
    ensures |t| == TRIPLE
    ensures forall k :: 0 <= k < TRIPLE && k < |given| ==> t[k] == given[k]
    ensures forall k :: |given| <= k < TRIPLE ==> t[k] == dflt[k]
  {
    seq(TRIPLE, k requires 0 <= k < TRIPLE => if k < |given| then given[k] as nat else dflt[k])
  }

  /** Memory `mem` after a store of `v` at index `i`; a store just past the end extends it. */
  function Store(mem: seq<nat>, i: nat, v: nat): (r: seq<nat>)
    requires i <= |mem|
  {
    if i < |mem| then mem[i := v] else mem + [v]
  }

  /**
   * The fill loop as written: the three slots start at the defaults and
   * iteration `i` stores entry `i` at slot `i`, once per entry of the
   * script's array, with no bound of 3.  The result is the three slots
   * followed by whatever memory past them the loop wrote.
   */
  function FillAsWritten(dflt: seq<nat>, given: seq<U32>): (mem: seq<nat>)
    requires |dflt| == TRIPLE
    ensures |mem| >= TRIPLE
    decreases |given|
  {
    if |given| == 0 then dflt
    else
      var prev := FillAsWritten(dflt, given[..|given| - 1]);
      if |given| - 1 <= |prev| then Store(prev, |given| - 1, given[|given| - 1] as nat) else prev
  }

  /**
   * After the as-written loop, each entry of the script's array lies at its
   * own index, the slots it does not reach keep their defaults, and it wrote
   * exactly `max(3, |given|)` locations.
   */
  lemma {:induction false} FillAsWrittenShape(dflt: seq<nat>, given: seq<U32>)
    requires |dflt| == TRIPLE
    ensures |FillAsWritten(dflt, given)| == if |given| <= TRIPLE then TRIPLE else |given|
    ensures forall k :: 0 <= k < |given| ==> FillAsWritten(dflt, given)[k] == given[k] as nat
    ensures forall k :: |given| <= k < TRIPLE ==> FillAsWritten(dflt, given)[k] == dflt[k]
    decreases |given|
  {
    if |given| > 0 {
      var init := given[..|given| - 1];
      FillAsWrittenShape(dflt, init);
      assert forall k :: 0 <= k < |init| ==> init[k] == given[k];
    }
  }

  /** The as-written loop writes past the three-slot array exactly when the script gives more than three entries. */
  lemma FillOverrunsIff(dflt: seq<nat>, given: seq<U32>)
    requires |dflt| == TRIPLE
    ensures |FillAsWritten(dflt, given)| > TRIPLE <==> |given| > TRIPLE
    ensures |given| > TRIPLE ==> |FillAsWritten(dflt, given)| == |given|
    ensures |given| > TRIPLE ==> forall k :: TRIPLE <= k < |given| ==> FillAsWritten(dflt, given)[k] == given[k] as nat
  {
    FillAsWrittenShape(dflt, given);
  }

  /** Within three entries the as-written loop leaves exactly the overlay on the defaults. */
  lemma FillAsWrittenInBounds(dflt: seq<nat>, given: seq<U32>)
    requires |dflt| == TRIPLE && |given| <= TRIPLE
    ensures FillAsWritten(dflt, given) == Overlay(dflt, given)
  {
    FillAsWrittenShape(dflt, given);
  }

  /** A four-entry array makes the loop store its fourth entry at slot 3, past the end of the three-slot array. */
  lemma FourEntryArrayOverruns(dflt: seq<nat>, given: seq<U32>)
    requires |dflt| == TRIPLE && |given| == 4
    ensures |FillAsWritten(dflt, given)| == 4 && FillAsWritten(dflt, given)[3] == given[3] as nat
  {
    FillAsWrittenShape(dflt, given);
  }

  /**
   * The fill loop, corrected to stop at the third slot: the array starts at
   * the defaults and the script's entries overwrite its leading slots.
   */
  method FillTriple(dflt: seq<nat>, given: seq<U32>) returns (t: seq<nat>)
    requires |dflt| == TRIPLE
    ensures t == Overlay(dflt, given)
  {
    var slots := new nat[TRIPLE];
    slots[0], slots[1], slots[2] := dflt[0], dflt[1], dflt[2];
    var n := if |given| < TRIPLE then |given| else TRIPLE;
    var i := 0;
    while i < n
      invariant 0 <= i <= n
      invariant forall k :: 0 <= k < i ==> slots[k] == given[k] as nat
      invariant forall k :: i <= k < TRIPLE ==> slots[k] == dflt[k]
    {
      slots[i] := given[i];
      i := i + 1;
    }
    t := slots[..];
  }

  const ZERO3: seq<nat> := [0, 0, 0]
  const ONES3: seq<nat> := [1, 1, 1]

  /** Any region slot equal to zero (the region default is 1 in every slot). */
  predicate EmptyRegion(region: seq<nat>)
    requires |region| == TRIPLE
  {
    region[0] == 0 || region[1] == 0 || region[2] == 0
  }

  /**
   * A region is empty exactly when the script gives a zero among its first
   * three entries: the slots it leaves out keep the default 1.
   */
  lemma EmptyRegionIffGivenZero(region: seq<U32>)
    ensures EmptyRegion(Overlay(ONES3, region)) <==> exists k :: 0 <= k < TRIPLE && k < |region| && region[k] == 0
  {
    var t := Overlay(ONES3, region);
    if EmptyRegion(t) {
      var k := if t[0] == 0 then 0 else if t[1] == 0 then 1 else 2;
      assert t[k] == 0 && k < |region| && region[k] == 0;
    }
  }

  // ---------------------------------------------------------------------
  // Buffer ranges

  /**
   * Write-buffer as written: `len < (int)(size+offset)`, where the sum is
   * computed in 32 bits and then read as a signed int.
   */
  predicate WriteRangeRejectedAsWritten(len: nat, offset: U32, size: U32)
  {
    len < ToInt32((offset + size) % TWO_32)
  }

  /** The wrap lets a one-byte write at offset 2^32-1 from an empty host buffer through. */
  lemma WriteRangeWrapAccepts()
    ensures !WriteRangeRejectedAsWritten(0, 0xFFFF_FFFF, 1)
    ensures WriteRangeRejected(0, 0xFFFF_FFFF, 1)
  {
  }

  /** Likewise a 2 GiB write from an empty buffer: the sum reads as negative. */
  lemma WriteRangeSignAccepts()
    ensures !WriteRangeRejectedAsWritten(0, 0, 0x8000_0000)
    ensures WriteRangeRejected(0, 0, 0x8000_0000)
  {
  }

  /** Write-buffer, corrected: the range must fit the host buffer in exact arithmetic. */
  predicate WriteRangeRejected(len: nat, offset: U32, size: U32)
  {
    len < offset + size
  }

  /**
   * The corrected write check accepts exactly the writes that start within
   * the host buffer and whose every byte lies in it; it refuses everything the written check
   * refuses, and agrees with it while the sum stays below 2^31.
   */
  lemma WriteRangeMeaning(len: nat, offset: U32, size: U32)
    ensures !WriteRangeRejected(len, offset, size) <==> offset <= len && forall b: nat :: InRange(b, offset, size) ==> b < len
    ensures WriteRangeRejectedAsWritten(len, offset, size) ==> WriteRangeRejected(len, offset, size)
    ensures offset + size < 0x8000_0000 ==>
      (WriteRangeRejected(len, offset, size) <==> WriteRangeRejectedAsWritten(len, offset, size))
  {
    if WriteRangeRejected(len, offset, size) && size > 0 {
      assert InRange(offset + size - 1, offset, size);
    }
  }

  /** Read-buffer as written: `(int)offset > len`; the size plays no part. */
  predicate ReadRangeRejectedAsWritten(len: nat, offset: U32, size: U32)
  {
    ToInt32(offset) > len
  }

  /** An eight-byte read into a four-byte host buffer is accepted. */
  lemma ReadRangeIgnoresSize()
    ensures !ReadRangeRejectedAsWritten(4, 0, 8)
  {
  }

  /** Read-buffer, corrected to the write path's bound. */
  predicate ReadRangeRejected(len: nat, offset: U32, size: U32)
  {
    len < offset + size
  }

  /**
   * The corrected read check accepts exactly the reads that start within the
   * host buffer and whose every byte lands in it, and refuses everything the written check
   * refuses.
   */
  lemma ReadRangeMeaning(len: nat, offset: U32, size: U32)
    ensures !ReadRangeRejected(len, offset, size) <==> offset <= len && forall b: nat :: InRange(b, offset, size) ==> b < len
    ensures ReadRangeRejectedAsWritten(len, offset, size) ==> ReadRangeRejected(len, offset, size)
  {
    if ReadRangeRejected(len, offset, size) && size > 0 {
      assert InRange(offset + size - 1, offset, size);
    }
  }

  /**
   * Copy-buffer range check: either range runs past its buffer.  The sums
   * of two 32-bit values cannot wrap in `size_t`.
   */
  predicate CopyRangeRejected(srcOffset: U32, dstOffset: U32, size: U32, srcSize: nat, dstSize: nat)
  {
    srcOffset + size > srcSize || dstOffset + size > dstSize
  }

  /** Copy-buffer overlap test on the same buffer, as written. */
  predicate Overlapping(srcOffset: nat, dstOffset: nat, size: nat)
  {
    srcOffset + size > dstOffset && dstOffset + size > srcOffset
  }

  /** Byte `b` lies in the half-open range of `size` bytes from `offset`. */
  predicate InRange(b: nat, offset: nat, size: nat)
  {
    offset <= b < offset + size
  }

  /** The overlap test holds exactly when the two half-open byte ranges share a byte. */
  lemma OverlappingMeaning(srcOffset: nat, dstOffset: nat, size: nat)
    ensures Overlapping(srcOffset, dstOffset, size) <==>
      exists b :: InRange(b, srcOffset, size) && InRange(b, dstOffset, size)
  {
    if Overlapping(srcOffset, dstOffset, size) {
      var b := if srcOffset < dstOffset then dstOffset else srcOffset;
      assert InRange(b, srcOffset, size) && InRange(b, dstOffset, size);
    }
  }

  /** Buffer-rect call-site check on the results of the two rectangle-size helpers. */
  predicate RectSizesRejected(len: nat, bufferRectSize: int, hostRectSize: int)
  {
    bufferRectSize < 0 || hostRectSize < 0 || bufferRectSize > len || hostRectSize > len
  }

  /** Image copy to buffer: the source rectangle or the bytes it covers do not fit. */
  predicate ImageToBufferRejected(srcOrigin: seq<nat>, region: seq<nat>, w: nat, h: nat, bpp: nat, dstSize: nat)
    requires |srcOrigin| == TRIPLE && |region| == TRIPLE
  {
    srcOrigin[0] + region[0] > w || srcOrigin[1] + region[1] > h
    || MulSize(MulSize(region[0], region[1]), bpp) > dstSize
  }

  /** Buffer copy to image: region or origin outside the image, or the source bytes past the buffer. */
  predicate BufferToImageRejected(srcOffset: nat, dstOrigin: seq<nat>, region: seq<nat>, w: nat, h: nat, bpp: nat, srcSize: nat)
    requires |dstOrigin| == TRIPLE && |region| == TRIPLE
  {
    region[0] > w || region[1] > h
    || AddSize(srcOffset, MulSize(MulSize(region[0], region[1]), bpp)) > srcSize
    || dstOrigin[0] > w || dstOrigin[1] > h
  }

  // ---------------------------------------------------------------------
  // The argument checks of each command, in source order

  /** The write-buffer range check: as written, or corrected to exact arithmetic. */
  predicate WriteRangeCheck(corrected: bool, len: nat, offset: U32, size: U32)
  {
    if corrected then WriteRangeRejected(len, offset, size) else WriteRangeRejectedAsWritten(len, offset, size)
  }

  /** The read-buffer range check: as written, or corrected to the write path's bound. */
  predicate ReadRangeCheck(corrected: bool, len: nat, offset: U32, size: U32)
  {
    if corrected then ReadRangeRejected(len, offset, size) else ReadRangeRejectedAsWritten(len, offset, size)
  }

  /**
   * What the argument checks of a command throw, if anything, after the
   * affinity check has passed.  Origins default to 0 and regions to 1 in
   * each slot the script does not give.  With `corrected` false the buffer
   * range checks are the source's; with `corrected` true they are the
   * corrected ones.
   */
  function ArgumentFailure(cmd: Command, corrected: bool): (r: Option<ErrorCode>)
    ensures r.Some? ==> r.value in {InvalidValue, MemCopyOverlap, InvalidGlobalWorkSize}
    ensures r == Some(InvalidGlobalWorkSize) <==> cmd.NDRangeKernel? && (cmd.globals.None? || |cmd.globals.value| == 0)
    ensures r == Some(MemCopyOverlap) <==>
      cmd.CopyBuffer? && !CopyRangeRejected(cmd.srcOffset, cmd.dstOffset, cmd.size, cmd.srcSize, cmd.dstSize)
      && cmd.src == cmd.dst && Overlapping(cmd.srcOffset, cmd.dstOffset, cmd.size)
    ensures (cmd.Task? || cmd.MapBuffer? || cmd.MapImage? || cmd.UnmapMemObject? || cmd.WaitForEvents?) ==> r.None?
    ensures HasHostBuffer(cmd) && cmd.host.None? ==> r == Some(InvalidValue)
    ensures cmd.WriteBuffer? && cmd.host.Some? ==>
      (r == Some(InvalidValue) <==> WriteRangeCheck(corrected, cmd.host.value, cmd.offset, cmd.size))
    ensures cmd.ReadBuffer? && cmd.host.Some? ==>
      (r == Some(InvalidValue) <==> ReadRangeCheck(corrected, cmd.host.value, cmd.offset, cmd.size))
  {
    match cmd
    case NDRangeKernel(_, globals) =>
      if globals.None? || |globals.value| == 0 then Some(InvalidGlobalWorkSize) else None
    case Task(_) => None
    case WriteBuffer(_, offset, size, host) =>
      if host.None? || WriteRangeCheck(corrected, host.value, offset, size) then Some(InvalidValue) else None
    case ReadBuffer(_, offset, size, host) =>
      if host.None? || ReadRangeCheck(corrected, host.value, offset, size) then Some(InvalidValue) else None
    case WriteBufferRect(_, _, _, _, host, bufSz, hostSz) =>
      if host.None? || RectSizesRejected(host.value, bufSz, hostSz) then Some(InvalidValue) else None
    case ReadBufferRect(_, _, _, _, host, bufSz, hostSz) =>
      if host.None? || RectSizesRejected(host.value, bufSz, hostSz) then Some(InvalidValue) else None
    case CopyBuffer(src, dst, so, dof, size, ls, ld) =>
      if CopyRangeRejected(so, dof, size, ls, ld) then Some(InvalidValue)
      else if src == dst && Overlapping(so, dof, size) then Some(MemCopyOverlap)
      else None
    case CopyBufferRect(_, _, so, dof, region, ls, ld) =>
      var s, d, r := Overlay(ZERO3, so), Overlay(ZERO3, dof), Overlay(ONES3, region);
      if EmptyRegion(r) || s[0] + r[0] > ls || d[0] + r[0] > ld then Some(InvalidValue) else None
    case WriteImage(_, _, region, host, rect) =>
      if EmptyRegion(Overlay(ONES3, region)) || host.None? || rect < 0 then Some(InvalidValue) else None
    case ReadImage(_, _, _, host, rect) =>
      if host.None? || rect < 0 then Some(InvalidValue) else None
    case CopyImage(_, _, _, _, _, srcRect, dstRect) =>
      if srcRect < 0 || dstRect < 0 then Some(InvalidValue) else None
    case CopyImageToBuffer(_, _, so, region, w, h, bpp, sz) =>
      if ImageToBufferRejected(Overlay(ZERO3, so), Overlay(ONES3, region), w, h, bpp, sz) then Some(InvalidValue) else None
    case CopyBufferToImage(_, _, so, dof, region, w, h, bpp, sz) =>
      if BufferToImageRejected(so, Overlay(ZERO3, dof), Overlay(ONES3, region), w, h, bpp, sz) then Some(InvalidValue) else None
    case MapBuffer(_, _, _) => None
    case MapImage(_, _, _) => None
    case UnmapMemObject(_) => None
    case WaitForEvents => None
  }

  /** The commands that read or write a script-side host buffer. */
  predicate HasHostBuffer(cmd: Command)
  {
    cmd.WriteBuffer? || cmd.ReadBuffer? || cmd.WriteBufferRect? || cmd.ReadBufferRect?
    || cmd.WriteImage? || cmd.ReadImage?
  }

  /** The operands whose context the affinity check compares (the kernel or the first memory object). */
  function CheckedOperand(cmd: Command): Option<Handle>
  {
    match cmd
    case NDRangeKernel(k, _) => Some(k)
    case Task(k) => Some(k)
    case WaitForEvents => None
    case CopyBuffer(src, _, _, _, _, _, _) => Some(src)
    case CopyBufferRect(src, _, _, _, _, _, _) => Some(src)
    case CopyImage(src, _, _, _, _, _, _) => Some(src)
    case CopyImageToBuffer(src, _, _, _, _, _, _, _) => Some(src)
    case CopyBufferToImage(src, _, _, _, _, _, _, _, _) => Some(src)
    case _ => Some(cmd.mem)
  }

  /** The copy commands: two memory operands. */
  predicate IsCopy(cmd: Command)
  {
    cmd.CopyBuffer? || cmd.CopyBufferRect? || cmd.CopyImage? || cmd.CopyImageToBuffer? || cmd.CopyBufferToImage?
  }

  /**
   * Everything a command is checked for before its wait list is built:
   * affinity first, then its arguments.  The context queries are inputs:
   * `queueCtx` for the queue, `srcCtx` for the checked operand, `dstCtx`
   * for a copy's destination.  As written (`corrected` false) only the
   * checked operand's context is compared; corrected, a copy's destination
   * is compared too.
   */
  function Precheck(cmd: Command, queueCtx: Option<Handle>, srcCtx: Option<Handle>, dstCtx: Option<Handle>,
                    corrected: bool): (r: Option<ErrorCode>)
    ensures CheckedOperand(cmd).Some? && !SameContext(queueCtx, srcCtx) ==> r == Some(InvalidContext)
    ensures corrected && IsCopy(cmd) && !SameContext(queueCtx, dstCtx) ==> r == Some(InvalidContext)
    ensures !corrected && (CheckedOperand(cmd).None? || SameContext(queueCtx, srcCtx)) ==> r == ArgumentFailure(cmd, false)
    ensures r != Some(InvalidContext) ==> r == ArgumentFailure(cmd, corrected)
    ensures r.None? ==> ArgumentFailure(cmd, corrected).None?
  {
    if CheckedOperand(cmd).Some? && !SameContext(queueCtx, srcCtx) then Some(InvalidContext)
    else if corrected && IsCopy(cmd) && !SameContext(queueCtx, dstCtx) then Some(InvalidContext)
    else ArgumentFailure(cmd, corrected)
  }

  /**
   * The corrections only add refusals: whatever the source refuses, the
   * corrected checks refuse too, and commands other than buffer reads and
   * writes see the same argument checks in both.
   */
  lemma CorrectionOnlyAddsRefusals(cmd: Command, queueCtx: Option<Handle>, srcCtx: Option<Handle>, dstCtx: Option<Handle>)
    ensures Precheck(cmd, queueCtx, srcCtx, dstCtx, false).Some? ==> Precheck(cmd, queueCtx, srcCtx, dstCtx, true).Some?
    ensures !cmd.WriteBuffer? && !cmd.ReadBuffer? ==> ArgumentFailure(cmd, true) == ArgumentFailure(cmd, false)
  {
    if cmd.WriteBuffer? && cmd.host.Some? {
      WriteRangeMeaning(cmd.host.value, cmd.offset, cmd.size);
    }
    if cmd.ReadBuffer? && cmd.host.Some? {
      ReadRangeMeaning(cmd.host.value, cmd.offset, cmd.size);
    }
  }

  /**
   * A same-buffer copy whose ranges fit is refused with MEM_COPY_OVERLAP
   * exactly when its source and destination ranges share a byte.
   */
  lemma CopyOverlapMeaning(b: Handle, so: U32, dof: U32, size: U32, len: nat, corrected: bool)
    requires so + size <= len && dof + size <= len
    ensures ArgumentFailure(CopyBuffer(b, b, so, dof, size, len, len), corrected) == Some(MemCopyOverlap) <==>
      exists k :: InRange(k, so, size) && InRange(k, dof, size)
    ensures ArgumentFailure(CopyBuffer(b, b, so, dof, size, len, len), corrected) != Some(InvalidValue)
  {
    OverlappingMeaning(so, dof, size);
  }

  /** The per-command chains of codes a failed native enqueue is mapped through. */
  function EnqueueErrors(cmd: Command): seq<ErrorCode>
  {
    match cmd
    case NDRangeKernel(_, _) =>
      [InvalidProgramExecutable, InvalidCommandQueue, InvalidKernel, InvalidContext, InvalidKernelArgs,
       InvalidWorkDimension, InvalidGlobalWorkSize, InvalidGlobalOffset, InvalidWorkGroupSize,
       InvalidWorkItemSize, MisalignedSubBufferOffset, InvalidImageSize, ImageFormatNotSupported,
       MemObjectAllocationFailure, OutOfResources, OutOfHostMemory, InvalidEventWaitList]
    case Task(_) =>
      [InvalidProgramExecutable, InvalidCommandQueue, InvalidKernel, InvalidContext, InvalidKernelArgs,
       InvalidWorkGroupSize, MisalignedSubBufferOffset, InvalidImageSize, ImageFormatNotSupported,
       MemObjectAllocationFailure, OutOfResources, OutOfHostMemory, InvalidEventWaitList]
    case WriteBuffer(_, _, _, _) => TransferErrors
    case ReadBuffer(_, _, _, _) => TransferErrors
    case WriteBufferRect(_, _, _, _, _, _, _) => TransferErrors
    case ReadBufferRect(_, _, _, _, _, _, _) => TransferErrors
    case CopyBuffer(_, _, _, _, _, _, _) =>
      [InvalidCommandQueue, InvalidContext, InvalidMemObject, InvalidValue, InvalidEventWaitList,
       MisalignedSubBufferOffset, MemCopyOverlap, MemObjectAllocationFailure, OutOfResources, OutOfHostMemory]
    case CopyBufferRect(_, _, _, _, _, _, _) =>
      [InvalidCommandQueue, InvalidContext, InvalidMemObject, InvalidValue, InvalidEventWaitList,
       MemCopyOverlap, MisalignedSubBufferOffset, MemObjectAllocationFailure, OutOfResources, OutOfHostMemory]
    case WriteImage(_, _, _, _, _) => ImageTransferErrors
    case ReadImage(_, _, _, _, _) => ImageTransferErrors
    case CopyImage(_, _, _, _, _, _, _) =>
      [InvalidCommandQueue, InvalidContext, InvalidMemObject, ImageFormatMismatch, InvalidValue,
       InvalidEventWaitList, InvalidImageSize, ImageFormatNotSupported, MemObjectAllocationFailure,
       InvalidOperation, MemCopyOverlap, OutOfResources, OutOfHostMemory]
    case CopyImageToBuffer(_, _, _, _, _, _, _, _) => ImageBufferCopyErrors
    case CopyBufferToImage(_, _, _, _, _, _, _, _, _) => ImageBufferCopyErrors
    case MapBuffer(_, _, _) =>
      [InvalidCommandQueue, InvalidContext, InvalidMemObject, InvalidValue, InvalidEventWaitList,
       MisalignedSubBufferOffset, MapFailure, ExecStatusErrorForEventsInWaitList,
       MemObjectAllocationFailure, InvalidOperation, OutOfResources, OutOfHostMemory]
    case MapImage(_, _, _) =>
      [InvalidCommandQueue, InvalidContext, InvalidMemObject, InvalidValue, InvalidEventWaitList,
       InvalidImageSize, ImageFormatNotSupported, MapFailure, ExecStatusErrorForEventsInWaitList,
       MemObjectAllocationFailure, InvalidOperation, OutOfResources, OutOfHostMemory]
    case UnmapMemObject(_) =>
      [InvalidCommandQueue, InvalidContext, InvalidMemObject, InvalidValue, InvalidContext,
       InvalidEventWaitList, OutOfResources, OutOfHostMemory]
    case WaitForEvents =>
      [InvalidCommandQueue, InvalidContext, InvalidValue, InvalidContext, InvalidEvent,
       OutOfResources, OutOfHostMemory]
  }

  const TransferErrors: seq<ErrorCode> :=
    [InvalidCommandQueue, InvalidContext, InvalidMemObject, InvalidValue, InvalidEventWaitList,
     MisalignedSubBufferOffset, ExecStatusErrorForEventsInWaitList, MemObjectAllocationFailure,
     InvalidOperation, OutOfResources, OutOfHostMemory]

  const ImageTransferErrors: seq<ErrorCode> :=
    [InvalidCommandQueue, InvalidContext, InvalidMemObject, InvalidValue, InvalidEventWaitList,
     InvalidImageSize, ImageFormatNotSupported, MemObjectAllocationFailure, InvalidOperation,
     ExecStatusErrorForEventsInWaitList, OutOfResources, OutOfHostMemory]

  const ImageBufferCopyErrors: seq<ErrorCode> :=
    [InvalidCommandQueue, InvalidContext, InvalidMemObject, InvalidValue, InvalidEventWaitList,
     MisalignedSubBufferOffset, InvalidImageSize, ImageFormatNotSupported, MemObjectAllocationFailure,
     InvalidOperation, OutOfResources, OutOfHostMemory]

  /** Every command except the wait itself can hand back a produced event. */
  predicate ProducesEvent(cmd: Command)
  {
    !cmd.WaitForEvents?
  }

  /** The byte length of the view a successful map returns: `size` for a buffer, the region volume for an image. */
  function MappedLength(cmd: Command): (n: nat)
    requires cmd.MapBuffer? || cmd.MapImage?
    ensures cmd.MapBuffer? ==> n == cmd.size
    ensures cmd.MapImage? ==>
      var r := MapTriple(cmd.region);
      && n == MulSize(MulSize(r[0], r[1]), r[2])
      && (r[0] * r[1] * r[2] < TWO_64 ==> n == r[0] * r[1] * r[2])
      && (r[0] == 0 || r[1] == 0 || r[2] == 0 ==> n == 0)
  {
    if cmd.MapBuffer? then cmd.size
    else
      var r := MapTriple(cmd.region);
      ProductFits(r[0], r[1], r[2]);
      MulSize(MulSize(r[0], r[1]), r[2])
  }

  /** A product of three sizes that fits `size_t` is computed exactly; a zero factor gives zero. */
  lemma ProductFits(a: nat, b: nat, c: nat)
    ensures a * b * c < TWO_64 ==> MulSize(MulSize(a, b), c) == a * b * c
    ensures a == 0 || b == 0 || c == 0 ==> MulSize(MulSize(a, b), c) == 0
  {
    if c > 0 && a * b * c < TWO_64 {
      assert a * b <= a * b * c by {
        assert a * b * c == (a * b) * c;
      }
    }
    if a == 0 || b == 0 {
      assert a * b == 0;
    }
  }

  /** Map-image reads exactly three entries; a missing entry coerces to 0. */
  function MapTriple(given: seq<U32>): (t: seq<nat>)
    ensures |t| == TRIPLE
    ensures forall k :: 0 <= k < TRIPLE ==> t[k] == if k < |given| then given[k] as nat else 0
  {
    Overlay(ZERO3, given)
  }

  /** A region a script gives with fewer than three entries maps an empty image view. */
  lemma ShortMapRegionIsEmpty(m: Handle, origin: seq<U32>, region: seq<U32>)
    requires |region| < TRIPLE
    ensures MappedLength(MapImage(m, origin, region)) == 0
  {
  }
}
