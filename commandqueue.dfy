/**
 * The command queue wrapper (commandqueue.cc): every `enqueue*` runs its
 * checks, builds its wait list, issues the native call, maps a failure to an
 * exception and, on success, binds the produced event to the script's event
 * object.  Also the queue's release, flush, finish, getInfo and creation.
 */
module CommandQueue {
  import opened Wrappers
  import opened OpenCL
  import opened Common
  import opened Registry
  import opened WaitList
  import opened Validation

  /** How a binding call ends: normally, by throwing, or by handing a status to a callback. */
  datatype Outcome = Completed | Raised(error: Thrown) | Deferred(status: int)

  /** The outcome of a submission and whether the native enqueue was issued. */
  datatype Submission = Submission(outcome: Outcome, issued: bool)

  /**
   * A submission's course: its checks, then its wait list (built against
   * the queue's context, 0 when that query fails), then the native call.
   * `corrected` selects the source's argument and affinity checks (false)
   * or the corrected ones (true).
   */
  function SubmitSpec(cmd: Command, queueCtx: Option<Handle>, srcCtx: Option<Handle>, dstCtx: Option<Handle>,
                      events: Option<seq<EventView>>, nativeRet: int, corrected: bool): (s: Submission)
    ensures s.issued <==> Precheck(cmd, queueCtx, srcCtx, dstCtx, corrected).None?
                          && WaitListFailure(events, queueCtx.GetOr(NULL)).None?
    ensures Precheck(cmd, queueCtx, srcCtx, dstCtx, corrected).Some? ==>
      s.outcome == Raised(Named(Precheck(cmd, queueCtx, srcCtx, dstCtx, corrected).value))
    ensures !s.issued ==> s.outcome.Raised? && s.outcome.error.Named?
    ensures s.issued ==> (s.outcome == Completed <==> nativeRet == CL_SUCCESS)
    ensures s.issued && nativeRet != CL_SUCCESS ==> s.outcome == Raised(ThrowChain(nativeRet, EnqueueErrors(cmd)))
  {
    match Precheck(cmd, queueCtx, srcCtx, dstCtx, corrected)
    case Some(e) => Submission(Raised(Named(e)), false)
    case None =>
      match WaitListFailure(events, queueCtx.GetOr(NULL))
      case Some(e) => Submission(Raised(Named(e)), false)
      case None =>
        if nativeRet == CL_SUCCESS then Submission(Completed, true)
        else Submission(Raised(ThrowChain(nativeRet, EnqueueErrors(cmd))), true)
  }

  /**
   * Context affinity: a kernel or memory operand from another context is
   * rejected with INVALID_CONTEXT and nothing reaches the runtime.
   */
  lemma ForeignOperandNeverIssued(cmd: Command, q: Handle, s: Handle, dstCtx: Option<Handle>,
                                  events: Option<seq<EventView>>, nativeRet: int, corrected: bool)
    requires CheckedOperand(cmd).Some? && RealContext(q) && RealContext(s) && q != s
    ensures SubmitSpec(cmd, Some(q), Some(s), dstCtx, events, nativeRet, corrected)
            == Submission(Raised(Named(InvalidContext)), false)
  {
    SameContextMeaning(Some(q), Some(s));
  }

  /** Corrected, a copy whose destination lives in another context is rejected the same way. */
  lemma ForeignCopyDestinationNeverIssued(cmd: Command, q: Handle, d: Handle,
                                          events: Option<seq<EventView>>, nativeRet: int)
    requires IsCopy(cmd) && RealContext(q) && RealContext(d) && q != d
    ensures SubmitSpec(cmd, Some(q), Some(q), Some(d), events, nativeRet, true)
            == Submission(Raised(Named(InvalidContext)), false)
  {
    SameContextMeaning(Some(q), Some(d));
  }

  /**
   * As written, a copy whose source shares the queue's context reaches the
   * runtime whatever context its destination lives in, once its arguments
   * and wait list pass.
   */
  lemma ForeignCopyDestinationIssuedAsWritten(cmd: Command, q: Handle, d: Option<Handle>,
                                              events: Option<seq<EventView>>, nativeRet: int)
    requires IsCopy(cmd) && ArgumentFailure(cmd, false).None? && WaitListFailure(events, q).None?
    ensures SubmitSpec(cmd, Some(q), Some(q), d, events, nativeRet, false).issued
  {
  }

  /**
   * The corrected checks only take submissions away: whatever they let
   * through, the source lets through too, with the same outcome.
   */
  lemma CorrectedSubmissionAgrees(cmd: Command, queueCtx: Option<Handle>, srcCtx: Option<Handle>, dstCtx: Option<Handle>,
                                  events: Option<seq<EventView>>, nativeRet: int)
    ensures SubmitSpec(cmd, queueCtx, srcCtx, dstCtx, events, nativeRet, true).issued ==>
      SubmitSpec(cmd, queueCtx, srcCtx, dstCtx, events, nativeRet, false)
      == SubmitSpec(cmd, queueCtx, srcCtx, dstCtx, events, nativeRet, true)
  {
    CorrectionOnlyAddsRefusals(cmd, queueCtx, srcCtx, dstCtx);
  }

  /** An NDRange without a global size is rejected before its wait list is looked at. */
  lemma MissingGlobalsNeverIssued(k: Handle, globals: Option<seq<U32>>, q: Handle,
                                  events: Option<seq<EventView>>, nativeRet: int, corrected: bool)
    requires globals.None? || |globals.value| == 0
    ensures SubmitSpec(NDRangeKernel(k, globals), Some(q), Some(q), None, events, nativeRet, corrected)
            == Submission(Raised(Named(InvalidGlobalWorkSize)), false)
  {
  }

  /**
   * A listed event in an error state stops a submission that passed its
   * checks, whatever the runtime would have answered.
   */
  lemma FailedEventNeverIssued(cmd: Command, queueCtx: Option<Handle>, srcCtx: Option<Handle>, dstCtx: Option<Handle>,
                               vs: seq<EventView>, i: nat, nativeRet: int, corrected: bool)
    requires Precheck(cmd, queueCtx, srcCtx, dstCtx, corrected).None?
    requires i < |vs| && vs[i].handle != NULL && vs[i].status < 0
    requires forall j :: 0 <= j < i ==> !Offends(vs[j], queueCtx.GetOr(NULL))
    ensures SubmitSpec(cmd, queueCtx, srcCtx, dstCtx, Some(vs), nativeRet, corrected)
            == Submission(Raised(Named(ExecStatusErrorForEventsInWaitList)), false)
  {
    FailedEventRejects(vs, queueCtx.GetOr(NULL), i);
  }

  /** A submission reaches the runtime only with every listed event acceptable. */
  lemma IssuedOnlyWithAcceptableEvents(cmd: Command, queueCtx: Option<Handle>, srcCtx: Option<Handle>, dstCtx: Option<Handle>,
                                       vs: seq<EventView>, nativeRet: int, corrected: bool)
    requires SubmitSpec(cmd, queueCtx, srcCtx, dstCtx, Some(vs), nativeRet, corrected).issued
    ensures forall i :: 0 <= i < |vs| ==> Acceptable(vs[i], queueCtx.GetOr(NULL))
  {
    WaitListAcceptsIffAllAcceptable(vs, queueCtx.GetOr(NULL));
  }

  /** `Event::setEvent`: the script's event object takes the produced handle and is registered under it. */
  method BindEvent(e: WebCLObject, produced: Handle, reg: Registry)
    modifies e`handle, reg`entries
    ensures e.handle == produced
    ensures reg.entries == if produced == NULL then old(reg.entries) else old(reg.entries)[produced := e]
  {
    e.handle := produced;
    reg.Register(produced, e);
  }

  /**
   * One `enqueue*` call on queue `q`.  `out` is the script's event object
   * (null when the argument is absent); `nativeRet` and `produced` are what
   * the runtime answers to the enqueue.  The native call is logged exactly
   * when the submission is issued, and the event is bound exactly when the
   * call succeeded and an event object was given.  `corrected` selects the
   * source's checks or the corrected ones, as in `SubmitSpec`.
   */
  method Submit(q: WebCLObject, cmd: Command, waits: Option<seq<WebCLObject>>, out: WebCLObject?,
                nativeRet: int, produced: Handle, corrected: bool, reg: Registry, rt: Runtime)
    returns (outcome: Outcome)
    requires q.kind == CommandQueueType
    requires out != null ==> out.kind == EventType
    modifies rt`calls, out, reg`entries
    ensures out != null ==> out.isSubBuffer == old(out.isSubBuffer) && out.status == old(out.status)
    ensures var s := SubmitSpec(cmd, old(rt.ContextOf(q.handle)), old(rt.ContextOf(CheckedOperand(cmd).GetOr(NULL))),
                                old(rt.ContextOf(if IsCopy(cmd) then cmd.dst else NULL)),
                                old(ViewsOf(waits, rt)), nativeRet, corrected);
      && outcome == s.outcome
      && rt.calls == old(rt.calls) + (if s.issued then [Enqueue(q.handle, cmd, AllHandles(old(ViewsOf(waits, rt)).GetOr([])))] else [])
      && (if s.issued && nativeRet == CL_SUCCESS && out != null && ProducesEvent(cmd)
          then out.handle == produced
               && reg.entries == (if produced == NULL then old(reg.entries) else old(reg.entries)[produced := out])
          else (out != null ==> out.handle == old(out.handle)) && reg.entries == old(reg.entries))
  {
    ghost var vs := ViewsOf(waits, rt);
    var queueCtx := rt.ContextOf(q.handle);
    var srcCtx := rt.ContextOf(CheckedOperand(cmd).GetOr(NULL));
    var dstCtx := rt.ContextOf(if IsCopy(cmd) then cmd.dst else NULL);
    ghost var s := SubmitSpec(cmd, queueCtx, srcCtx, dstCtx, vs, nativeRet, corrected);
    var pre := Precheck(cmd, queueCtx, srcCtx, dstCtx, corrected);
    if pre.Some? {
      return Raised(Named(pre.value));
    }
    var list, count, failure, leaked := MakeEventWaitList(waits, queueCtx.GetOr(NULL), rt);
    if failure.Some? {
      return Raised(Named(failure.value));
    }
    var handles := if list == null then [] else list[..];
    assert handles == AllHandles(vs.GetOr([]));
    rt.Issue(Enqueue(q.handle, cmd, handles));
    if nativeRet != CL_SUCCESS {
      return Raised(ThrowChain(nativeRet, EnqueueErrors(cmd)));
    }
    if out != null && ProducesEvent(cmd) {
      BindEvent(out, produced, reg);
    }
    outcome := Completed;
  }

  const MarkerErrors: seq<ErrorCode> := [InvalidCommandQueue, InvalidValue, OutOfResources, OutOfHostMemory]

  const BarrierWaitErrors: seq<ErrorCode> :=
    [InvalidCommandQueue, InvalidContext, InvalidValue, InvalidEvent, OutOfResources, OutOfHostMemory]

  const QueueErrors: seq<ErrorCode> := [InvalidCommandQueue, OutOfResources, OutOfHostMemory]

  /**
   * The barrier's wait failure as written: the mapping tests the barrier's
   * own status, which is CL_SUCCESS on that path, not the wait's.
   */
  function BarrierWaitErrorAsWritten(barrierRet: int, waitRet: int): Thrown
  {
    ThrowChain(barrierRet, BarrierWaitErrors)
  }

  /** As written, every failure of the barrier's wait reaches script as an unknown error. */
  lemma BarrierWaitErrorLostAsWritten(waitRet: int)
    ensures BarrierWaitErrorAsWritten(CL_SUCCESS, waitRet) == UnknownError
  {
  }

  /** The barrier's wait failure, mapped through the wait's own status. */
  function BarrierWaitError(waitRet: int): (t: Thrown)
    ensures t.Named? ==> Code(t.code) == waitRet
  {
    ThrowChain(waitRet, BarrierWaitErrors)
  }

  /** Mapped through the wait's own status, every listed failure keeps its name. */
  lemma BarrierWaitErrorNamed(e: ErrorCode)
    requires e in BarrierWaitErrors
    ensures BarrierWaitError(Code(e)) == Named(e)
    ensures BarrierWaitErrorAsWritten(CL_SUCCESS, Code(e)) == UnknownError
  {
    ThrowChainNamesListed(e, BarrierWaitErrors);
  }

  /** `enqueueMarker`: no checks and no wait list; the event is bound on success. */
  method EnqueueMarker(q: WebCLObject, out: WebCLObject?, nativeRet: int, produced: Handle, reg: Registry, rt: Runtime)
    returns (outcome: Outcome)
    requires q.kind == CommandQueueType
    requires out != null ==> out.kind == EventType
    modifies rt`calls, out, reg`entries
    ensures out != null ==> out.isSubBuffer == old(out.isSubBuffer) && out.status == old(out.status)
    ensures rt.calls == old(rt.calls) + [Marker(old(q.handle))]
    ensures outcome == if nativeRet == CL_SUCCESS then Completed else Raised(ThrowChain(nativeRet, MarkerErrors))
    ensures if nativeRet == CL_SUCCESS && out != null
            then out.handle == produced
                 && reg.entries == (if produced == NULL then old(reg.entries) else old(reg.entries)[produced := out])
            else (out != null ==> out.handle == old(out.handle)) && reg.entries == old(reg.entries)
  {
    rt.Issue(Marker(q.handle));
    if nativeRet != CL_SUCCESS {
      return Raised(ThrowChain(nativeRet, MarkerErrors));
    }
    if out != null {
      BindEvent(out, produced, reg);
    }
    outcome := Completed;
  }

  /**
   * `enqueueBarrier`: the barrier is issued after the wait list is built;
   * when there is a list and the barrier succeeded, a wait on the list is
   * issued too.  No event is ever bound: the barrier call produces none.
   * A failed wait is mapped as written (`corrected` false: through the
   * barrier's status, so always an unknown error) or through the wait's own
   * status.  `leaked` says the native wait list is abandoned without being
   * freed: on the wait-list builder's own leaking exits, and whenever a
   * non-empty list meets a failed barrier or a failed wait.
   */
  method EnqueueBarrier(q: WebCLObject, waits: Option<seq<WebCLObject>>, barrierRet: int, waitRet: int,
                        corrected: bool, rt: Runtime)
    returns (outcome: Outcome, leaked: bool)
    modifies rt`calls
    ensures var failure := WaitListFailure(old(ViewsOf(waits, rt)), old(rt.ContextOf(q.handle)).GetOr(NULL));
      var hs := AllHandles(old(ViewsOf(waits, rt)).GetOr([]));
      && (failure.Some? ==>
            outcome == Raised(Named(failure.value)) && rt.calls == old(rt.calls)
            && (leaked <==> failure.value != InvalidEventWaitList))
      && (failure.None? ==> (leaked <==> hs != [] && (barrierRet != CL_SUCCESS || waitRet != CL_SUCCESS)))
      && (failure.None? && barrierRet != CL_SUCCESS ==>
            rt.calls == old(rt.calls) + [Barrier(q.handle)] && outcome == Raised(ThrowChain(barrierRet, QueueErrors)))
      && (failure.None? && barrierRet == CL_SUCCESS && hs == [] ==>
            rt.calls == old(rt.calls) + [Barrier(q.handle)] && outcome == Completed)
      && (failure.None? && barrierRet == CL_SUCCESS && hs != [] ==>
            && rt.calls == old(rt.calls) + [Barrier(q.handle), WaitForEventsOnQueue(q.handle, hs)]
            && (waitRet == CL_SUCCESS ==> outcome == Completed)
            && (waitRet != CL_SUCCESS && corrected ==> outcome == Raised(BarrierWaitError(waitRet)))
            && (waitRet != CL_SUCCESS && !corrected ==> outcome == Raised(UnknownError)))
  {
    ghost var vs := ViewsOf(waits, rt);
    var ctx1 := rt.ContextOf(q.handle).GetOr(NULL);
    var list, count, failure, listLeaked := MakeEventWaitList(waits, ctx1, rt);
    if failure.Some? {
      return Raised(Named(failure.value)), listLeaked;
    }
    rt.Issue(Barrier(q.handle));
    if list != null && barrierRet == CL_SUCCESS {
      rt.Issue(WaitForEventsOnQueue(q.handle, list[..]));
      if waitRet != CL_SUCCESS {
        BarrierWaitErrorLostAsWritten(waitRet);
        var e := if corrected then BarrierWaitError(waitRet) else BarrierWaitErrorAsWritten(barrierRet, waitRet);
        return Raised(e), true;
      }
    }
    if barrierRet != CL_SUCCESS {
      return Raised(ThrowChain(barrierRet, QueueErrors)), list != null;
    }
    outcome, leaked := Completed, false;
  }

  /** `flush`. */
  method Flush(q: WebCLObject, ret: int, rt: Runtime) returns (outcome: Outcome)
    modifies rt`calls
    ensures rt.calls == old(rt.calls) + [Call.Flush(q.handle)]
    ensures outcome == if ret == CL_SUCCESS then Completed else Raised(ThrowChain(ret, QueueErrors))
  {
    rt.Issue(Call.Flush(q.handle));
    outcome := if ret == CL_SUCCESS then Completed else Raised(ThrowChain(ret, QueueErrors));
  }

  /**
   * `finish`: a queue with no handle throws INVALID_COMMAND_QUEUE without a
   * native call; with a callback the status goes to the callback instead of
   * being thrown.
   */
  method Finish(q: WebCLObject, ret: int, hasCallback: bool, rt: Runtime) returns (outcome: Outcome)
    modifies rt`calls
    ensures q.handle == NULL ==> outcome == Raised(Named(InvalidCommandQueue)) && rt.calls == old(rt.calls)
    ensures q.handle != NULL ==> rt.calls == old(rt.calls) + [Call.Finish(q.handle)]
    ensures q.handle != NULL && hasCallback ==> outcome == Deferred(ret)
    ensures q.handle != NULL && !hasCallback ==>
      outcome == if ret == CL_SUCCESS then Completed else Raised(ThrowChain(ret, QueueErrors))
  {
    if q.handle == NULL {
      return Raised(ThrowChain(Code(InvalidCommandQueue), [InvalidCommandQueue]));
    }
    rt.Issue(Call.Finish(q.handle));
    if hasCallback {
      var baton := new Baton();
      baton.error := ret;
      return Deferred(baton.error);
    }
    outcome := if ret == CL_SUCCESS then Completed else Raised(ThrowChain(ret, QueueErrors));
  }

  /** `release`: flush first; only a successful flush goes on to the destructor. */
  method Release(q: WebCLObject, flushRet: int, reg: Registry, rt: Runtime) returns (outcome: Outcome)
    requires q.kind == CommandQueueType
    modifies q`handle, reg`entries, rt`refCount, rt`calls
    ensures flushRet != CL_SUCCESS ==>
      outcome == Raised(ThrowChain(flushRet, QueueErrors)) && rt.calls == old(rt.calls) + [Call.Flush(old(q.handle))]
      && q.handle == old(q.handle) && reg.entries == old(reg.entries) && rt.refCount == old(rt.refCount)
    ensures flushRet == CL_SUCCESS ==>
      var st := DestroyStep(q.kind, old(q.handle), old(rt.RefCount(q.handle)));
      && outcome == Completed && q.handle == st.handle
      && rt.calls == old(rt.calls) + [Call.Flush(old(q.handle))] + (if st.released then [Call.Release(old(q.handle))] else [])
      && reg.entries == (if st.unregistered && !reg.atExit then Without(old(reg.entries), q) else old(reg.entries))
      && rt.refCount == (if st.released && old(rt.RefCount(q.handle)) > 0
                         then old(rt.refCount)[old(q.handle) := old(rt.RefCount(q.handle)) - 1]
                         else old(rt.refCount))
  {
    rt.Issue(Call.Flush(q.handle));
    if flushRet != CL_SUCCESS {
      return Raised(ThrowChain(flushRet, QueueErrors));
    }
    q.Destructor(reg, rt);
    outcome := Completed;
  }

  /** `CommandQueue::New`: wrap the created handle and register it. */
  method New(reg: Registry, h: Handle) returns (q: WebCLObject)
    modifies reg`entries
    ensures fresh(q) && q.kind == CommandQueueType && q.handle == h
    ensures reg.entries == if h == NULL then old(reg.entries) else old(reg.entries)[h := q]
  {
    q := Wrap(reg, CommandQueueType, h);
  }

  /** The `getInfo` parameters whose handling is modelled. */
  datatype QueueInfo = QueueContext | QueueDevice | QueueProperties | OtherInfo

  /** What `getInfo` returns: a wrapper (or undefined, as null), a number, or an exception. */
  datatype InfoResult = ObjectValue(obj: WebCLObject?) | NumberValue(n: int) | InfoRaised(error: Thrown)

  const InfoErrors: seq<ErrorCode> := [InvalidCommandQueue, InvalidValue, OutOfResources, OutOfHostMemory]

  /**
   * `getInfo`: `ret` and `value` are the runtime's answer to the query.
   * Context and device answers are found in the registry or wrapped anew.
   */
  method GetInfo(q: WebCLObject, param: QueueInfo, ret: int, value: Handle, reg: Registry) returns (r: InfoResult)
    modifies reg`entries
    ensures param == OtherInfo ==> r == InfoRaised(Named(InvalidValue)) && reg.entries == old(reg.entries)
    ensures param != OtherInfo && ret != CL_SUCCESS ==> r == InfoRaised(ThrowChain(ret, InfoErrors)) && reg.entries == old(reg.entries)
    ensures param == QueueProperties && ret == CL_SUCCESS ==> r == NumberValue(JsInt(value)) && reg.entries == old(reg.entries)
    ensures (param == QueueContext || param == QueueDevice) && ret == CL_SUCCESS ==>
      r.ObjectValue? && (value == NULL <==> r.obj == null)
      && (value != NULL && value in old(reg.entries) ==> r.obj == old(reg.entries[value]) && reg.entries == old(reg.entries))
      && (value != NULL && value !in old(reg.entries) ==>
            && r.obj != null && fresh(r.obj) && r.obj.handle == value
            && r.obj.kind == (if param == QueueContext then ContextType else DeviceType)
            && reg.entries == old(reg.entries)[value := r.obj])
  {
    if param == OtherInfo {
      return InfoRaised(Named(InvalidValue));
    }
    if ret != CL_SUCCESS {
      return InfoRaised(ThrowChain(ret, InfoErrors));
    }
    if param == QueueProperties {
      return NumberValue(JsInt(value));
    }
    var w := Discover(reg, value, if param == QueueContext then ContextType else DeviceType);
    r := ObjectValue(w);
  }
}
