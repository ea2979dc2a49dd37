/**
 * Building the native wait list of a submission from the script's list of
 * event wrappers (the `MakeEventWaitList` step every enqueue shares).
 */
module WaitList {
  import opened Wrappers
  import opened OpenCL
  import opened Registry

  /**
   * What the builder learns about one listed event: its bound handle, its
   * last-known status, and the context and reference count the runtime
   * reports for that handle.
   */
  datatype EventView = EventView(handle: Handle, status: int, context: Handle, refCount: nat)

  /** The view of one wrapper.  A failed context query leaves the context as 0. */
  function ViewOf(e: WebCLObject, rt: Runtime): EventView
    reads e, rt
  {
    EventView(e.handle, e.status, rt.ContextOf(e.handle).GetOr(NULL), rt.RefCount(e.handle))
  }

  function Views(es: seq<WebCLObject>, rt: Runtime): (vs: seq<EventView>)
    reads es, rt
    ensures |vs| == |es|
    ensures forall i :: 0 <= i < |es| ==> vs[i] == ViewOf(es[i], rt)
  {
    seq(|es|, i reads es, rt requires 0 <= i < |es| => ViewOf(es[i], rt))
  }

  function ViewsOf(arg: Option<seq<WebCLObject>>, rt: Runtime): Option<seq<EventView>>
    reads if arg.Some? then arg.value else [], rt
  {
    match arg
    case None => None
    case Some(es) => Some(Views(es, rt))
  }

  /** A bound event with an error status or a foreign context stops the build. */
  predicate Offends(v: EventView, ctx1: Handle)
  {
    v.handle != NULL && (v.status < 0 || v.context != ctx1)
  }

  /** The code an offending event is reported with: the status check comes first. */
  function OffenceCode(v: EventView): ErrorCode
  {
    if v.status < 0 then ExecStatusErrorForEventsInWaitList else InvalidContext
  }

  /** A bound event that is still referenced goes into the native list. */
  predicate Kept(v: EventView)
  {
    v.handle != NULL && v.refCount != 0
  }

  /** An event the submission accepts: bound, not failed, same context, still referenced. */
  predicate Acceptable(v: EventView, ctx1: Handle)
  {
    v.handle != NULL && v.status >= 0 && v.context == ctx1 && v.refCount != 0
  }

  /** The handles of the kept events, in list order (reference definition). */
  function KeptHandles(vs: seq<EventView>): (hs: seq<Handle>)
    ensures |hs| <= |vs|
  {
    if vs == [] then []
    else KeptHandles(vs[..|vs| - 1]) + (if Kept(vs[|vs| - 1]) then [vs[|vs| - 1].handle] else [])
  }

  function AllHandles(vs: seq<EventView>): (hs: seq<Handle>)
    ensures |hs| == |vs| && forall i :: 0 <= i < |vs| ==> hs[i] == vs[i].handle
  {
    seq(|vs|, i requires 0 <= i < |vs| => vs[i].handle)
  }

  /** The loop of the builder over a prefix of the list. */
  datatype ScanResult = Abort(code: ErrorCode) | Collected(handles: seq<Handle>)

  /** One iteration of the builder's loop. */
  function ScanStep(acc: ScanResult, v: EventView, ctx1: Handle): ScanResult
  {
    match acc
    case Abort(c) => Abort(c)
    case Collected(hs) =>
      if v.handle == NULL then Collected(hs)
      else if v.status < 0 then Abort(ExecStatusErrorForEventsInWaitList)
      else if v.context != ctx1 then Abort(InvalidContext)
      else if v.refCount != 0 then Collected(hs + [v.handle])
      else Collected(hs)
  }

  function Scan(vs: seq<EventView>, ctx1: Handle): ScanResult
  {
    if vs == [] then Collected([]) else ScanStep(Scan(vs[..|vs| - 1], ctx1), vs[|vs| - 1], ctx1)
  }

  lemma ScanPrefixStep(vs: seq<EventView>, ctx1: Handle, i: nat)
    requires i < |vs|
    ensures Scan(vs[..i + 1], ctx1) == ScanStep(Scan(vs[..i], ctx1), vs[i], ctx1)
  {
    assert vs[..i + 1][..i] == vs[..i];
  }

  /**
   * The error the builder throws, if any: the first offending event's code,
   * or INVALID_EVENT_WAIT_LIST when fewer events were kept than listed.  An
   * absent or empty list builds an empty native list.
   */
  function WaitListFailure(arg: Option<seq<EventView>>, ctx1: Handle): Option<ErrorCode>
  {
    match arg
    case None => None
    case Some(vs) =>
      match Scan(vs, ctx1)
      case Abort(c) => Some(c)
      case Collected(hs) => if |hs| == |vs| then None else Some(InvalidEventWaitList)
  }

  /** Without offenders, the scan keeps exactly the bound, still-referenced events. */
  lemma {:induction false} ScanWithoutOffenders(vs: seq<EventView>, ctx1: Handle)
    requires forall i :: 0 <= i < |vs| ==> !Offends(vs[i], ctx1)
    ensures Scan(vs, ctx1) == Collected(KeptHandles(vs))
    decreases |vs|
  {
    if vs != [] {
      var init := vs[..|vs| - 1];
      assert forall i :: 0 <= i < |init| ==> init[i] == vs[i];
      ScanWithoutOffenders(init, ctx1);
    }
  }

  /** The first offending event decides the error, whatever follows it. */
  lemma {:induction false} ScanStopsAtFirstOffender(vs: seq<EventView>, ctx1: Handle, i: nat)
    requires i < |vs| && Offends(vs[i], ctx1)
    requires forall j :: 0 <= j < i ==> !Offends(vs[j], ctx1)
    ensures Scan(vs, ctx1) == Abort(OffenceCode(vs[i]))
    decreases |vs|
  {
    var init := vs[..|vs| - 1];
    assert forall j :: 0 <= j < |init| ==> init[j] == vs[j];
    if i == |vs| - 1 {
      ScanWithoutOffenders(init, ctx1);
    } else {
      ScanStopsAtFirstOffender(init, ctx1, i);
    }
  }

  /** Some event offends exactly when the scan aborts. */
  lemma {:induction false} ScanAbortsIffOffender(vs: seq<EventView>, ctx1: Handle)
    ensures Scan(vs, ctx1).Abort? <==> exists i :: 0 <= i < |vs| && Offends(vs[i], ctx1)
    decreases |vs|
  {
    if vs != [] {
      var init := vs[..|vs| - 1];
      assert forall j :: 0 <= j < |init| ==> init[j] == vs[j];
      ScanAbortsIffOffender(init, ctx1);
      if exists i :: 0 <= i < |init| && Offends(init[i], ctx1) {
        var i :| 0 <= i < |init| && Offends(init[i], ctx1);
        assert Offends(vs[i], ctx1);
      }
    }
  }

  /** The kept handles are all of them exactly when every event is kept, and then in list order. */
  lemma {:induction false} KeptAll(vs: seq<EventView>)
    ensures |KeptHandles(vs)| == |vs| <==> forall i :: 0 <= i < |vs| ==> Kept(vs[i])
    ensures |KeptHandles(vs)| == |vs| ==> KeptHandles(vs) == AllHandles(vs)
    decreases |vs|
  {
    if vs != [] {
      var init := vs[..|vs| - 1];
      assert forall j :: 0 <= j < |init| ==> init[j] == vs[j];
      KeptAll(init);
    }
  }

  /**
   * The submission may proceed exactly when every listed event is
   * acceptable; the native list is then the listed handles in order.
   */
  lemma WaitListAcceptsIffAllAcceptable(vs: seq<EventView>, ctx1: Handle)
    ensures WaitListFailure(Some(vs), ctx1).None? <==> forall i :: 0 <= i < |vs| ==> Acceptable(vs[i], ctx1)
    ensures WaitListFailure(Some(vs), ctx1).None? ==> Scan(vs, ctx1) == Collected(AllHandles(vs))
  {
    ScanAbortsIffOffender(vs, ctx1);
    KeptAll(vs);
    if forall i :: 0 <= i < |vs| ==> !Offends(vs[i], ctx1) {
      ScanWithoutOffenders(vs, ctx1);
    }
  }

  /** One event with an error status makes the whole submission fail, unless an earlier one offends. */
  lemma FailedEventRejects(vs: seq<EventView>, ctx1: Handle, i: nat)
    requires i < |vs| && vs[i].handle != NULL && vs[i].status < 0
    requires forall j :: 0 <= j < i ==> !Offends(vs[j], ctx1)
    ensures WaitListFailure(Some(vs), ctx1) == Some(ExecStatusErrorForEventsInWaitList)
  {
    ScanStopsAtFirstOffender(vs, ctx1, i);
  }

  /** A released or never-bound event makes the list incomplete. */
  lemma DeadEventRejects(vs: seq<EventView>, ctx1: Handle, i: nat)
    requires i < |vs| && !Kept(vs[i])
    requires forall j :: 0 <= j < |vs| ==> !Offends(vs[j], ctx1)
    ensures WaitListFailure(Some(vs), ctx1) == Some(InvalidEventWaitList)
  {
    ScanWithoutOffenders(vs, ctx1);
    KeptAll(vs);
  }

  /**
   * The loop of `MakeEventWaitList`: walk the listed events, stop at the
   * first offender, append each kept handle to `a`.  Its answer is `Scan`'s.
   */
  method ScanEvents(es: seq<WebCLObject>, ctx1: Handle, rt: Runtime, a: array<Handle>)
    returns (count: nat, abort: Option<ErrorCode>)
    requires a.Length == |es|
    modifies a
    ensures abort.Some? ==> Scan(Views(es, rt), ctx1) == Abort(abort.value)
    ensures abort.Some? ==> abort.value == ExecStatusErrorForEventsInWaitList || abort.value == InvalidContext
    ensures abort.None? ==> count <= a.Length && Scan(Views(es, rt), ctx1) == Collected(a[..count])
  {
    ghost var vs := Views(es, rt);
    count, abort := 0, None;
    var i := 0;
    while i < |es|
      invariant 0 <= i <= |es| && count <= i
      invariant Scan(vs[..i], ctx1) == Collected(a[..count])
    {
      var e := es[i];
      assert vs[i] == ViewOf(e, rt);
      ScanPrefixStep(vs, ctx1, i);
      if e.handle != NULL {
        if e.status < 0 {
          ScanAbortPersists(vs, ctx1, i + 1);
          return 0, Some(ExecStatusErrorForEventsInWaitList);
        }
        var ctxEv := rt.ContextOf(e.handle).GetOr(NULL);
        if ctxEv != ctx1 {
          ScanAbortPersists(vs, ctx1, i + 1);
          return 0, Some(InvalidContext);
        }
        if rt.RefCount(e.handle) != 0 {
          a[count] := e.handle;
          assert a[..count + 1] == a[..count] + [e.handle];
          count := count + 1;
        }
      }
      i := i + 1;
    }
    assert vs[..|es|] == vs;
  }

  /**
   * `MakeEventWaitList`.  On success the native list holds every listed
   * event's handle in order (null when the list is absent or empty).  On
   * failure no list is left for the caller; `leaked` says the allocated
   * native array was abandoned without being freed, which happens on the
   * status and context exits.
   */
  method MakeEventWaitList(arg: Option<seq<WebCLObject>>, ctx1: Handle, rt: Runtime)
    returns (list: array?<Handle>, count: nat, failure: Option<ErrorCode>, leaked: bool)
    ensures failure == WaitListFailure(ViewsOf(arg, rt), ctx1)
    ensures failure.Some? ==> list == null && count == 0
    ensures failure.None? ==> count == (if arg.Some? then |arg.value| else 0)
    ensures failure.None? ==> (list == null <==> count == 0)
    ensures list != null ==> fresh(list) && list.Length == count && list[..] == AllHandles(Views(arg.value, rt))
    ensures leaked <==> failure.Some? && failure.value != InvalidEventWaitList
  {
    list, count, failure, leaked := null, 0, None, false;
    if arg.None? || |arg.value| == 0 {
      return;
    }
    var es := arg.value;
    ghost var vs := Views(es, rt);
    assert ViewsOf(arg, rt) == Some(vs);
    var a := new Handle[|es|];
    var kept, abort := ScanEvents(es, ctx1, rt, a);
    if abort.Some? {
      failure, leaked := abort, true;
      return;
    }
    if kept != |es| {
      failure := Some(InvalidEventWaitList);
      return;
    }
    WaitListAcceptsIffAllAcceptable(vs, ctx1);
    assert a[..] == a[..kept] == AllHandles(vs);
    list, count := a, kept;
  }

  /** Once a prefix aborts, the whole list aborts with the same code. */
  lemma {:induction false} ScanAbortPersists(vs: seq<EventView>, ctx1: Handle, k: nat)
    requires k <= |vs| && Scan(vs[..k], ctx1).Abort?
    ensures Scan(vs, ctx1) == Scan(vs[..k], ctx1)
    decreases |vs| - k
  {
    if k < |vs| {
      ScanPrefixStep(vs, ctx1, k);
      ScanAbortPersists(vs, ctx1, k + 1);
    } else {
      assert vs[..k] == vs;
    }
  }
}
