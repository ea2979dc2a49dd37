/**
 * Wrapper identity and lifetime: the common wrapper object, the process-wide
 * registry from native handle to wrapper (webcl.cc), the reference-count
 * release protocol the refcounted wrappers share, and the find-or-wrap
 * discovery every `getInfo` that returns an object uses.
 */
module Registry {
  import opened Wrappers
  import opened OpenCL
  import opened Common

  /**
   * A scripting-side wrapper.  `handle` is the cached native handle (the
   * `context`, `command_queue`, `memory` or event field of the wrapper class);
   * `isSubBuffer` is meaningful for buffers; `status` is an event's last-known
   * execution status; `webglContext` says whether a context holds the WebGL
   * rendering context it shares objects with.
   */
  class WebCLObject {
    const kind: ObjType
    var handle: Handle
    var isSubBuffer: bool
    var status: int
    var webglContext: bool

    /** Every wrapper constructor: tag set, no native handle yet. */
    constructor (k: ObjType)
      ensures kind == k && handle == NULL && !isSubBuffer && status == CL_COMPLETE && !webglContext
    {
      kind := k;
      handle := NULL;
      isSubBuffer := false;
      status := CL_COMPLETE;
      webglContext := false;
    }

    /**
     * `Destructor()`: for the refcounted kinds, query the reference count,
     * release once, and forget the handle and registry entry only if the count
     * was 1.  Every other kind has the base class's empty `Destructor`.
     */
    method Destructor(reg: Registry, rt: Runtime)
      modifies this`handle, reg`entries, rt`refCount, rt`calls
      ensures var st := DestroyStep(kind, old(handle), old(rt.RefCount(handle)));
        && handle == st.handle
        && rt.calls == old(rt.calls) + (if st.released then [Release(old(handle))] else [])
        && (!st.released ==> rt.refCount == old(rt.refCount))
        && (st.released ==> rt.refCount == if old(rt.RefCount(handle)) > 0
                                            then old(rt.refCount)[old(handle) := old(rt.RefCount(handle)) - 1]
                                            else old(rt.refCount))
        && reg.entries == (if st.unregistered && !reg.atExit then Without(old(reg.entries), this)
                           else old(reg.entries))
    {
      if Refcounted(kind) && handle != NULL {
        var count := rt.RefCount(handle);
        rt.ReleaseHandle(handle);
        if count == 1 {
          reg.Unregister(this);
          handle := NULL;
        }
      }
    }

    /**
     * The C++ destructor `~WebCLObject`: `Destructor()` runs from the base
     * class destructor, where the virtual call reaches the base version (the
     * derived part is already gone), and then the wrapper is unregistered.
     * So finalization forgets the wrapper without releasing the native handle.
     */
    method Finalize(reg: Registry)
      modifies reg`entries
      ensures reg.entries == if reg.atExit then old(reg.entries) else Without(old(reg.entries), this)
    {
      reg.Unregister(this);
    }
  }

  /** The wrapper kinds whose `Destructor` runs the reference-count protocol. */
  predicate Refcounted(k: ObjType)
  {
    k == ContextType || k == CommandQueueType || k == MemoryObjectType
  }

  /** What one `Destructor()` call does, given the count the query reported. */
  datatype Teardown = Teardown(handle: Handle, released: bool, unregistered: bool)

  function DestroyStep(k: ObjType, handle: Handle, count: nat): (t: Teardown)
    ensures t.released <==> Refcounted(k) && handle != NULL
    ensures t.unregistered <==> t.released && count == 1
    ensures t.handle == (if t.unregistered then NULL else handle)
  {
    if Refcounted(k) && handle != NULL then
      if count == 1 then Teardown(NULL, true, true) else Teardown(handle, true, false)
    else Teardown(handle, false, false)
  }

  /** Once the handle is cleared, further calls do nothing. */
  lemma DestroyAfterClearIsNoop(k: ObjType, handle: Handle, count: nat, later: nat)
    requires DestroyStep(k, handle, count).handle == NULL
    ensures DestroyStep(k, NULL, later) == Teardown(NULL, false, false)
  {
  }

  /**
   * `k` successive `Destructor()` calls on one wrapper whose native count
   * starts at `c`, with nobody else retaining or releasing: the handle left
   * and the number of native releases issued.
   */
  function ReleaseRun(kind: ObjType, h: Handle, c: nat, k: nat): (Handle, nat)
    decreases k
  {
    if k == 0 then (h, 0)
    else
      var st := DestroyStep(kind, h, c);
      var c' := if st.released && c > 0 then c - 1 else c;
      var (h', n) := ReleaseRun(kind, st.handle, c', k - 1);
      (h', n + (if st.released then 1 else 0))
  }

  /**
   * Releasing is idempotent only once the count has reached 1: a wrapper
   * whose native count is `c >= 1` issues one native release per call until
   * the call that sees 1, so `k` calls issue `min(k, c)` releases, and the
   * handle is cleared exactly when `k >= c`.  A count query that reports 0
   * never clears the handle, and every call releases again.
   */
  lemma {:induction false} ReleaseRunCount(kind: ObjType, h: Handle, c: nat, k: nat)
    requires Refcounted(kind) && h != NULL
    ensures ReleaseRun(kind, h, c, k).1 == (if c == 0 || k <= c then k else c)
    ensures ReleaseRun(kind, h, c, k).0 == (if c >= 1 && k >= c then NULL else h)
    decreases k
  {
    if k > 0 {
      if c == 1 {
        ReleaseRunFromNull(kind, c - 1, k - 1);
      } else if c == 0 {
        ReleaseRunCount(kind, h, 0, k - 1);
      } else {
        ReleaseRunCount(kind, h, c - 1, k - 1);
      }
    }
  }

  lemma {:induction false} ReleaseRunFromNull(kind: ObjType, c: nat, k: nat)
    ensures ReleaseRun(kind, NULL, c, k) == (NULL, 0)
    decreases k
  {
    if k > 0 {
      ReleaseRunFromNull(kind, c, k - 1);
    }
  }

  /**
   * `k` successive `Destructor()` calls on one wrapper, with nothing else
   * touching its native object: the run `ReleaseRun` describes.  `released`
   * is the number of native releases issued, all of the first handle; the
   * native count of that handle drops by one per release while positive;
   * the wrapper leaves the registry exactly when its handle was cleared.
   */
  method DestroyRepeatedly(w: WebCLObject, k: nat, reg: Registry, rt: Runtime) returns (released: nat)
    modifies w`handle, reg`entries, rt`refCount, rt`calls
    ensures (w.handle, released) == ReleaseRun(w.kind, old(w.handle), old(rt.RefCount(w.handle)), k)
    ensures Refcounted(w.kind) && old(w.handle) != NULL ==>
      released == (if old(rt.RefCount(w.handle)) == 0 || k <= old(rt.RefCount(w.handle)) then k
                   else old(rt.RefCount(w.handle)))
    ensures rt.calls == old(rt.calls) + seq(released, _ => Release(old(w.handle)))
    ensures rt.RefCount(old(w.handle)) == if old(rt.RefCount(w.handle)) == 0 then 0
                                         else old(rt.RefCount(w.handle)) - released
    ensures forall h :: h != old(w.handle) ==> rt.RefCount(h) == old(rt.RefCount(h))
    ensures reg.entries == if w.handle == NULL && old(w.handle) != NULL && !reg.atExit
                           then Without(old(reg.entries), w) else old(reg.entries)
  {
    ghost var h0, c0 := w.handle, rt.RefCount(w.handle);
    released := 0;
    var i := 0;
    while i < k
      invariant 0 <= i <= k
      invariant w.handle == h0 || w.handle == NULL
      invariant h0 == NULL ==> released == 0
      invariant ReleaseRun(w.kind, h0, c0, k)
                == (ReleaseRun(w.kind, w.handle, rt.RefCount(w.handle), k - i).0,
                    released + ReleaseRun(w.kind, w.handle, rt.RefCount(w.handle), k - i).1)
      invariant rt.calls == old(rt.calls) + seq(released, _ => Release(h0))
      invariant rt.RefCount(h0) == if c0 == 0 then 0 else c0 - released
      invariant c0 > 0 ==> released <= c0
      invariant w.handle != NULL && c0 > 0 ==> released < c0
      invariant forall h :: h != h0 ==> rt.RefCount(h) == old(rt.RefCount(h))
      invariant reg.entries == if w.handle == NULL && h0 != NULL && !reg.atExit
                               then Without(old(reg.entries), w) else old(reg.entries)
    {
      ghost var h, c := w.handle, rt.RefCount(w.handle);
      ghost var st := DestroyStep(w.kind, h, c);
      ghost var before := rt.calls;
      var releases := Refcounted(w.kind) && w.handle != NULL;
      w.Destructor(reg, rt);
      if releases {
        assert rt.calls == before + [Release(h0)];
        assert seq(released + 1, _ => Release(h0)) == seq(released, _ => Release(h0)) + [Release(h0)];
        released := released + 1;
      }
      if w.handle == NULL && h != NULL {
        ReleaseRunFromNull(w.kind, rt.RefCount(NULL), k - i - 1);
        ReleaseRunFromNull(w.kind, if st.released && c > 0 then c - 1 else c, k - i - 1);
      }
      if h == NULL {
        ReleaseRunFromNull(w.kind, c, k - i);
        ReleaseRunFromNull(w.kind, c, k - i - 1);
      }
      i := i + 1;
    }
    if Refcounted(w.kind) && h0 != NULL {
      ReleaseRunCount(w.kind, h0, c0, k);
    }
  }

  /** `m` with every entry that points at `w` removed (`Manager::remove`). */
  function Without(m: map<Handle, WebCLObject>, w: WebCLObject): (r: map<Handle, WebCLObject>)
    ensures forall h :: h in r <==> h in m && m[h] != w
    ensures forall h :: h in r ==> r[h] == m[h]
  {
    map h | h in m && m[h] != w :: m[h]
  }

  /**
   * The process-wide registry (`Manager` plus the `atExit` flag): at most one
   * wrapper per native handle, the most recently registered one.
   */
  class Registry {
    var entries: map<Handle, WebCLObject>
    var atExit: bool

    constructor ()
      ensures entries == map[] && !atExit
    {
      entries := map[];
      atExit := false;
    }

    /** `registerCLObj`: a null handle or wrapper is ignored; otherwise the handle now maps to `obj`. */
    method Register(clid: Handle, obj: WebCLObject?)
      modifies this`entries
      ensures entries == if clid == NULL || obj == null then old(entries) else old(entries)[clid := obj]
    {
      if clid != NULL && obj != null {
        entries := entries[clid := obj];
      }
    }

    /** `unregisterCLObj`: ignored during teardown or for null; otherwise every entry for `obj` goes. */
    method Unregister(obj: WebCLObject?)
      modifies this`entries
      ensures entries == if atExit || obj == null then old(entries) else Without(old(entries), obj)
    {
      if !atExit && obj != null {
        entries := Without(entries, obj);
      }
    }

    /** `findCLObj`: the registered wrapper for a handle; the kind argument plays no part. */
    function Find(clid: Handle, t: ObjType): (r: WebCLObject?)
      reads this
      ensures r != null <==> clid != NULL && clid in entries
      ensures r != null ==> entries[clid] == r
    {
      if clid != NULL && clid in entries then entries[clid] else null
    }

    /** `onExit` without its forced garbage collection: the registry is emptied. */
    method OnExit()
      modifies this`entries
      ensures entries == map[]
    {
      entries := map[];
    }

    /** `releaseAll(flag)`: record whether this is process teardown, then run `onExit`. */
    method ReleaseAll(flag: int)
      modifies this
      ensures atExit == (flag != 0) && entries == map[]
    {
      atExit := flag != 0;
      OnExit();
    }
  }

  /** One registry operation, as a value. */
  datatype RegistryOp = Reg(clid: Handle, obj: WebCLObject) | Unreg(obj: WebCLObject)

  /** The registry after a sequence of operations (teardown flag clear). */
  function Apply(m: map<Handle, WebCLObject>, ops: seq<RegistryOp>): map<Handle, WebCLObject>
    decreases |ops|
  {
    if ops == [] then m
    else
      var m' := Apply(m, ops[..|ops| - 1]);
      match ops[|ops| - 1]
      case Reg(h, w) => if h == NULL then m' else m'[h := w]
      case Unreg(w) => Without(m', w)
  }

  /** The wrapper most recently registered for `h` in `ops`, if any. */
  function LastRegistered(ops: seq<RegistryOp>, h: Handle): Option<WebCLObject>
    decreases |ops|
  {
    if ops == [] then None
    else if ops[|ops| - 1].Reg? && ops[|ops| - 1].clid == h then Some(ops[|ops| - 1].obj)
    else LastRegistered(ops[..|ops| - 1], h)
  }

  /**
   * After registrations and discoveries only, a non-null handle maps to the
   * wrapper registered for it last, or keeps its earlier entry.
   */
  lemma {:induction false} RegistrationsLastWins(m: map<Handle, WebCLObject>, ops: seq<RegistryOp>, h: Handle)
    requires forall i :: 0 <= i < |ops| ==> ops[i].Reg?
    requires h != NULL
    ensures LastRegistered(ops, h).Some? ==> h in Apply(m, ops) && Apply(m, ops)[h] == LastRegistered(ops, h).value
    ensures LastRegistered(ops, h).None? ==> (h in Apply(m, ops) <==> h in m)
    ensures LastRegistered(ops, h).None? && h in m ==> Apply(m, ops)[h] == m[h]
    decreases |ops|
  {
    if ops != [] {
      var init := ops[..|ops| - 1];
      assert forall i :: 0 <= i < |init| ==> init[i].Reg? by {
        forall i | 0 <= i < |init| ensures init[i].Reg? { assert init[i] == ops[i]; }
      }
      RegistrationsLastWins(m, init, h);
    }
  }

  /** After a wrapper is unregistered, no handle maps to it until it is registered again. */
  lemma UnregisterForgetsWrapper(m: map<Handle, WebCLObject>, ops: seq<RegistryOp>, w: WebCLObject, h: Handle)
    requires ops != [] && ops[|ops| - 1] == Unreg(w)
    ensures h in Apply(m, ops) ==> Apply(m, ops)[h] != w
  {
  }

  /** Does the registry hold `w`?  Used to state discovery's result. */
  predicate Holds(m: map<Handle, WebCLObject>, h: Handle, w: WebCLObject)
  {
    h in m && m[h] == w
  }

  /** `X::New(handle)`: a fresh wrapper of the kind, holding the handle, registered under it. */
  method Wrap(reg: Registry, kind: ObjType, h: Handle) returns (w: WebCLObject)
    modifies reg`entries
    ensures fresh(w) && w.kind == kind && w.handle == h && !w.isSubBuffer && !w.webglContext
    ensures reg.entries == if h == NULL then old(reg.entries) else old(reg.entries)[h := w]
  {
    w := new WebCLObject(kind);
    w.handle := h;
    reg.Register(h, w);
  }

  /**
   * Find-or-wrap, as every `getInfo` returning an object does it: null for a
   * null handle, the registered wrapper when there is one, else a new wrapper.
   * Afterwards a non-null handle is always held by the returned wrapper.
   */
  method Discover(reg: Registry, h: Handle, kind: ObjType) returns (w: WebCLObject?)
    modifies reg`entries
    ensures h == NULL ==> w == null && reg.entries == old(reg.entries)
    ensures h != NULL && h in old(reg.entries) ==> w == old(reg.entries[h]) && reg.entries == old(reg.entries)
    ensures h != NULL && h !in old(reg.entries) ==>
      w != null && fresh(w) && w.kind == kind && w.handle == h && reg.entries == old(reg.entries)[h := w]
    ensures h != NULL ==> w != null && Holds(reg.entries, h, w)
  {
    if h == NULL {
      return null;
    }
    w := reg.Find(h, kind);
    if w == null {
      w := Wrap(reg, kind, h);
    }
  }
}
