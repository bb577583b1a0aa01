/** The port-to-device mapping of vhci/vhci.c: enable, free, reset and resume-refresh, interleaved over all ports.
    A step ends where the driver waits for the T2, so commands of different ports overlap freely. */
module PortMap {

  const PORTS := 16
  const DEVICES := 16

  /** port_to_device (0 means unmapped), devices (by device id, 0 is NULL) and port_resume_skip_reset. */
  datatype Tables = Tables(ports: seq<nat>, devices: seq<nat>, skip: seq<nat>)

  /** What follows a device_destroy command. */
  datatype After = Return | Free(o: nat) | ResetPort(o: nat, refresh: bool)

  /** Where the operation on a port stands; USB core runs at most one per port. */
  datatype Pc =
    | Idle
    | Creating                                      // enable: device_create sent
    | MakingQueue(d: nat, o: nat, refresh: bool)    // mapped; the queue of endpoint 0 is being created
    | Rebuilding(d: nat, o: nat)                    // reset: mapped again; queues are being recreated
    | Dismantling(d: nat, o: nat, refresh: bool)    // still mapped; queues are being destroyed
    | Dropping(d: nat, next: After)                 // unmapped; device_destroy is being sent
    | Resetting(o: nat, refresh: bool)              // port_reset sent; o is NULL when the port had no device
    | Recreating(o: nat, refresh: bool)             // device_create sent for an existing device object

  /** `live`: ids the T2 has given out and not taken back. `heap`: device objects allocated and not freed.
      `crashed`: a NULL device was dereferenced or the device table indexed beyond its end. */
  datatype State = State(t: Tables, live: set<nat>, heap: set<nat>, pc: seq<Pc>, crashed: bool)

  datatype Step =
    | Enable(p: nat)
    | Created(p: nat, ok: bool, d: nat, alloc: bool, o: nat)
    | QueueMade(p: nat, ok: bool)
    | FreeDevice(p: nat)
    | Reset(p: nat)
    | Refresh(p: nat)
    | Dismantled(p: nat)
    | Destroyed(p: nat, ok: bool, gone: bool)
    | PortResetDone(p: nat, ok: bool)
    | Recreated(p: nat, ok: bool, d: nat)
    | Rebuilt(p: nat)
    | Leak(d: nat)                                  // the T2 makes a device for a request that timed out

  predicate Sized(s: State) {
    |s.t.ports| == PORTS && |s.t.devices| == DEVICES && |s.t.skip| == PORTS && |s.pc| == PORTS
  }

  /** The T2 hands out only nonzero ids that are not live. */
  predicate FreshId(s: State, d: nat) { d != 0 && d !in s.live }

  predicate Enabled(s: State, st: Step) {
    Sized(s) &&
    match st
    case Enable(p) => p < PORTS && s.pc[p] == Idle
    case Created(p, ok, d, alloc, o) => p < PORTS && s.pc[p] == Creating && (ok ==> FreshId(s, d)) && o != 0
        && o !in s.heap
    case QueueMade(p, _) => p < PORTS && s.pc[p].MakingQueue?
    case FreeDevice(p) => p < PORTS && s.pc[p] == Idle
    case Reset(p) => p < PORTS && s.pc[p] == Idle
    case Refresh(p) => p < PORTS && s.pc[p] == Idle
    case Dismantled(p) => p < PORTS && s.pc[p].Dismantling?
    case Destroyed(p, _, _) => p < PORTS && s.pc[p].Dropping?
    case PortResetDone(p, _) => p < PORTS && s.pc[p].Resetting?
    case Recreated(p, ok, d) => p < PORTS && s.pc[p].Recreating? && (ok ==> FreshId(s, d))
    case Rebuilt(p) => p < PORTS && s.pc[p].Rebuilding?
    case Leak(d) => FreshId(s, d)
  }

  /** The driver trusts the id it gets back when it recreates a device: only enable checks it against the table. */
  predicate InRange(st: Step) { st.Recreated? && st.ok ==> st.d < DEVICES }

  function MapDevice(t: Tables, p: nat, d: nat, o: nat): Tables
    requires p < |t.ports| && d < |t.devices|
  {
    t.(ports := t.ports[p := d], devices := t.devices[d := o])
  }

  function Unmap(t: Tables, p: nat, d: nat): Tables
    requires p < |t.ports| && d < |t.devices|
  {
    t.(ports := t.ports[p := 0], devices := t.devices[d := 0])
  }

  function Goto(s: State, p: nat, pc: Pc): State
    requires p < |s.pc|
  {
    s.(pc := s.pc[p := pc])
  }

  /** Unmap a port and go on to send device_destroy. */
  function Clear(s: State, p: nat, d: nat, next: After): State
    requires Sized(s) && p < PORTS
  {
    if d >= DEVICES then s.(crashed := true) else Goto(s.(t := Unmap(s.t, p, d)), p, Dropping(d, next))
  }

  /** The device object a mapped port refers to, as the C code reads it. */
  function DeviceOf(t: Tables, p: nat): nat
    requires p < |t.ports|
  {
    if t.ports[p] < |t.devices| then t.devices[t.ports[p]] else 0
  }

  function Dismantle(s: State, p: nat, refresh: bool): State
    requires Sized(s) && p < PORTS
  {
    var o := DeviceOf(s.t, p);
    if o == 0 then s.(crashed := true) else Goto(s, p, Dismantling(s.t.ports[p], o, refresh))
  }

  function Kfree(s: State, o: nat): State { s.(heap := s.heap - {o}) }

  function ApplyCreated(s: State, p: nat, ok: bool, d: nat, alloc: bool, o: nat): State
    requires Sized(s) && p < PORTS
  {
    if !ok then Goto(s, p, Idle)
    else
      var s := s.(live := s.live + {d});
      if d >= DEVICES || !alloc then Goto(s, p, Dropping(d, Return))
      else Goto(s.(heap := s.heap + {o}, t := MapDevice(s.t, p, d, o)), p, MakingQueue(d, o, false))
  }

  function ApplyQueueMade(s: State, p: nat, ok: bool): State
    requires Sized(s) && p < PORTS && s.pc[p].MakingQueue?
  {
    var d, o, refresh := s.pc[p].d, s.pc[p].o, s.pc[p].refresh;
    if ok then Goto(if refresh then s.(t := s.t.(skip := s.t.skip[p := 2])) else s, p, Idle)
    else if refresh then Clear(s, p, d, Free(o))
    else Clear(Kfree(s, o), p, d, Return)
  }

  function ApplyReset(s: State, p: nat): State
    requires Sized(s) && p < PORTS
  {
    if s.t.skip[p] > 0 then s.(t := s.t.(skip := s.t.skip[p := s.t.skip[p] - 1]))
    else if s.t.ports[p] != 0 then Dismantle(s, p, false)
    else Goto(s, p, Resetting(0, false))
  }

  function ApplyFree(s: State, p: nat): State
    requires Sized(s) && p < PORTS
  {
    var o := DeviceOf(s.t, p);
    if s.t.ports[p] == 0 then s
    else if o == 0 then s.(crashed := true)
    else Clear(s, p, s.t.ports[p], Free(o))
  }

  function ApplyDestroyed(s: State, p: nat, ok: bool, gone: bool): State
    requires Sized(s) && p < PORTS && s.pc[p].Dropping?
  {
    var next := s.pc[p].next;
    var s := if gone then s.(live := s.live - {s.pc[p].d}) else s;
    match next
    case Return => Goto(s, p, Idle)
    case Free(o) => Goto(Kfree(s, o), p, Idle)
    case ResetPort(o, refresh) =>
      if refresh && !ok then Goto(Kfree(s, o), p, Idle) else Goto(s, p, Resetting(o, refresh))
  }

  function ApplyPortReset(s: State, p: nat, ok: bool): State
    requires Sized(s) && p < PORTS && s.pc[p].Resetting?
  {
    var o, refresh := s.pc[p].o, s.pc[p].refresh;
    if o == 0 then Goto(s, p, Idle)
    else if refresh && !ok then Goto(Kfree(s, o), p, Idle)
    else Goto(s, p, Recreating(o, refresh))
  }

  /** A failed create frees the object on resume; a failed create on reset leaves it allocated for good. */
  function ApplyRecreated(s: State, p: nat, ok: bool, d: nat): State
    requires Sized(s) && p < PORTS && s.pc[p].Recreating?
  {
    var o, refresh := s.pc[p].o, s.pc[p].refresh;
    if !ok then Goto(if refresh then Kfree(s, o) else s, p, Idle)
    else
      var s := s.(live := s.live + {d});
      if d >= DEVICES then s.(crashed := true)
      else Goto(s.(t := MapDevice(s.t, p, d, o)), p, if refresh then MakingQueue(d, o, true) else Rebuilding(d, o))
  }

  function Apply(s: State, st: Step): State
    requires Enabled(s, st)
  {
    match st
    case Enable(p) => if s.t.ports[p] != 0 then s else Goto(s, p, Creating)
    case Created(p, ok, d, alloc, o) => ApplyCreated(s, p, ok, d, alloc, o)
    case QueueMade(p, ok) => ApplyQueueMade(s, p, ok)
    case FreeDevice(p) => ApplyFree(s, p)
    case Reset(p) => ApplyReset(s, p)
    case Refresh(p) => if s.t.ports[p] == 0 then s else Dismantle(s, p, true)
    case Dismantled(p) => Clear(s, p, s.pc[p].d, ResetPort(s.pc[p].o, s.pc[p].refresh))
    case Destroyed(p, ok, gone) => ApplyDestroyed(s, p, ok, gone)
    case PortResetDone(p, ok) => ApplyPortReset(s, p, ok)
    case Recreated(p, ok, d) => ApplyRecreated(s, p, ok, d)
    case Rebuilt(p) => Goto(s, p, Idle)
    case Leak(d) => s.(live := s.live + {d})
  }

  // ---------------------------------------------------------------- unique references

  /** The nonzero elements of `refs` are distinct and belong to `pool`. */
  predicate Unique(refs: seq<nat>, pool: set<nat>) {
    && (forall i :: 0 <= i < |refs| && refs[i] != 0 ==> refs[i] in pool)
    && (forall i, j :: 0 <= i < j < |refs| && refs[i] != 0 ==> refs[i] != refs[j])
  }

  lemma UniqueMove(refs: seq<nat>, pool: set<nat>, i: nat, j: nat)
    requires Unique(refs, pool) && i < |refs| && j < |refs| && refs[j] == 0 && i != j
    ensures Unique(refs[i := 0][j := refs[i]], pool)
  {
  }

  lemma UniqueAdd(refs: seq<nat>, pool: set<nat>, i: nat, x: nat)
    requires Unique(refs, pool) && i < |refs| && x !in pool
    ensures Unique(refs[i := x], pool + {x})
  {
  }

  lemma UniqueDrop(refs: seq<nat>, pool: set<nat>, i: nat)
    requires Unique(refs, pool) && i < |refs|
    ensures Unique(refs[i := 0], pool) && Unique(refs[i := 0], pool - {refs[i]})
  {
  }

  /** The object an operation holds while no table entry points to it. */
  function Held(pc: Pc): nat {
    match pc
    case Dropping(_, Free(o)) => o
    case Dropping(_, ResetPort(o, _)) => o
    case Resetting(o, _) => o
    case Recreating(o, _) => o
    case _ => 0
  }

  /** The id an operation is about to destroy. */
  function Dropped(pc: Pc): nat { if pc.Dropping? then pc.d else 0 }

  /** Every reference to an id: the mapping, then the pending destroys. */
  function Ids(s: State): (r: seq<nat>)
    requires Sized(s)
    ensures |r| == 2 * PORTS
  {
    s.t.ports + seq(PORTS, p requires 0 <= p < PORTS => Dropped(s.pc[p]))
  }

  /** Every reference to a device object: the table, then the running operations. */
  function Objects(s: State): (r: seq<nat>)
    requires Sized(s)
    ensures |r| == DEVICES + PORTS
  {
    s.t.devices + seq(PORTS, p requires 0 <= p < PORTS => Held(s.pc[p]))
  }

  // ---------------------------------------------------------------- the law

  predicate Mapped(t: Tables, d: nat) { exists p :: 0 <= p < |t.ports| && t.ports[p] == d }

  /** A mapped id has a device entry, and a device entry belongs to a mapped id. */
  predicate Paired(t: Tables) {
    && (forall p :: 0 <= p < |t.ports| && t.ports[p] != 0 ==> t.ports[p] < |t.devices| && t.devices[t.ports[p]] != 0)
    && (forall d :: 0 <= d < |t.devices| && t.devices[d] != 0 ==> d != 0 && Mapped(t, d))
  }

  predicate OperationLaw(t: Tables, p: nat, pc: Pc)
    requires p < |t.ports|
  {
    match pc
    case Idle => true
    case MakingQueue(d, o, _) => t.ports[p] == d && DeviceOf(t, p) == o && o != 0 && d != 0
    case Rebuilding(d, o) => t.ports[p] == d && DeviceOf(t, p) == o && o != 0 && d != 0
    case Dismantling(d, o, _) => t.ports[p] == d && DeviceOf(t, p) == o && o != 0 && d != 0
    case Dropping(d, next) => t.ports[p] == 0 && d != 0 && (next.ResetPort? ==> next.o != 0)
    case Recreating(o, _) => t.ports[p] == 0 && o != 0
    case _ => t.ports[p] == 0
  }

  predicate Law(s: State) {
    && Sized(s) && !s.crashed
    && Unique(Ids(s), s.live) && Unique(Objects(s), s.heap)
    && Paired(s.t)
    && forall p :: 0 <= p < PORTS ==> OperationLaw(s.t, p, s.pc[p])
  }

  // ---------------------------------------------------------------- every step keeps the law

  lemma PairedMap(t: Tables, p: nat, d: nat, o: nat)
    requires Paired(t) && p < |t.ports| && t.ports[p] == 0 && 0 < d < |t.devices| && o != 0
    ensures Paired(MapDevice(t, p, d, o))
  {
    var r := MapDevice(t, p, d, o);
    forall e | 0 <= e < |r.devices| && r.devices[e] != 0
      ensures e != 0 && Mapped(r, e)
    {
      if e == d {
        assert r.ports[p] == d;
      } else {
        var q :| 0 <= q < |t.ports| && t.ports[q] == e;
        assert r.ports[q] == e;
      }
    }
  }

  lemma PairedUnmap(t: Tables, p: nat)
    requires Paired(t) && p < |t.ports| && t.ports[p] != 0
    requires forall q :: 0 <= q < |t.ports| && q != p ==> t.ports[q] != t.ports[p]
    ensures Paired(Unmap(t, p, t.ports[p]))
  {
    var r := Unmap(t, p, t.ports[p]);
    forall e | 0 <= e < |r.devices| && r.devices[e] != 0
      ensures e != 0 && Mapped(r, e)
    {
      var q :| 0 <= q < |t.ports| && t.ports[q] == e;
      assert r.ports[q] == e;
    }
  }

  /** A port's own id is nobody else's: the other operations keep their law when it is unmapped. */
  lemma AloneAt(s: State, p: nat)
    requires Law(s) && p < PORTS && s.t.ports[p] != 0
    ensures forall q :: 0 <= q < PORTS && q != p ==> s.t.ports[q] != s.t.ports[p]
  {
    forall q | 0 <= q < PORTS && q != p
      ensures s.t.ports[q] != s.t.ports[p]
    {
      assert Ids(s)[q] == s.t.ports[q] && Ids(s)[p] == s.t.ports[p];
    }
  }

  lemma MappedIsLive(s: State, p: nat)
    requires Law(s) && p < PORTS && s.t.ports[p] != 0
    ensures s.t.ports[p] in s.live
  {
    assert Ids(s)[p] == s.t.ports[p];
  }

  lemma FreshIsUnused(s: State, d: nat)
    requires Law(s) && FreshId(s, d) && d < DEVICES
    ensures s.t.devices[d] == 0
  {
    if s.t.devices[d] != 0 {
      var q :| 0 <= q < PORTS && s.t.ports[q] == d;
      MappedIsLive(s, q);
    }
  }

  lemma MapKeeps(s: State, p: nat, d: nat, o: nat, pc: Pc)
    requires Law(s) && p < PORTS && FreshId(s, d) && d < DEVICES && o != 0
    requires pc in {MakingQueue(d, o, false), MakingQueue(d, o, true), Rebuilding(d, o)}
    requires (s.pc[p] == Creating && o !in s.heap) || (s.pc[p].Recreating? && s.pc[p].o == o)
    ensures Law(Goto(s.(live := s.live + {d}, heap := s.heap + {o}, t := MapDevice(s.t, p, d, o)), p, pc))
  {
    var r := Goto(s.(live := s.live + {d}, heap := s.heap + {o}, t := MapDevice(s.t, p, d, o)), p, pc);
    assert OperationLaw(s.t, p, s.pc[p]);
    PairedMap(s.t, p, d, o);
    assert Ids(r) == Ids(s)[p := d];
    UniqueAdd(Ids(s), s.live, p, d);
    FreshIsUnused(s, d);
    assert Objects(s)[d] == 0 && Objects(s)[DEVICES + p] == Held(s.pc[p]);
    if s.pc[p] == Creating {
      assert Objects(r) == Objects(s)[d := o];
      UniqueAdd(Objects(s), s.heap, d, o);
    } else {
      assert Objects(r) == Objects(s)[DEVICES + p := 0][d := o];
      UniqueMove(Objects(s), s.heap, DEVICES + p, d);
      assert o in s.heap;
    }
    forall q | 0 <= q < PORTS
      ensures OperationLaw(r.t, q, r.pc[q])
    {
      assert OperationLaw(s.t, q, s.pc[q]);
    }
  }

  lemma ClearKeeps(s: State, p: nat, next: After)
    requires Law(s) && p < PORTS && s.t.ports[p] != 0
    requires next.Return? || next.o == DeviceOf(s.t, p)
    ensures next.Return? ==> Law(Clear(Kfree(s, DeviceOf(s.t, p)), p, s.t.ports[p], next))
    ensures !next.Return? ==> Law(Clear(s, p, s.t.ports[p], next))
  {
    var d := s.t.ports[p];
    var o := DeviceOf(s.t, p);
    var r := Clear(if next.Return? then Kfree(s, o) else s, p, d, next);
    assert OperationLaw(s.t, p, s.pc[p]) && Held(s.pc[p]) == 0 && Dropped(s.pc[p]) == 0;
    AloneAt(s, p);
    PairedUnmap(s.t, p);
    assert Ids(r) == Ids(s)[p := 0][PORTS + p := d];
    UniqueMove(Ids(s), s.live, p, PORTS + p);
    if next.Return? {
      assert Objects(r) == Objects(s)[d := 0];
      UniqueDrop(Objects(s), s.heap, d);
    } else {
      assert Objects(r) == Objects(s)[d := 0][DEVICES + p := o];
      UniqueMove(Objects(s), s.heap, d, DEVICES + p);
    }
    UnmapOthers(s, p, next, r);
  }

  lemma UnmapOthers(s: State, p: nat, next: After, r: State)
    requires Law(s) && p < PORTS && s.t.ports[p] != 0
    requires next.Return? || next.o == DeviceOf(s.t, p)
    requires r.t == Unmap(s.t, p, s.t.ports[p]) && r.pc == s.pc[p := Dropping(s.t.ports[p], next)]
    ensures forall q :: 0 <= q < PORTS ==> OperationLaw(r.t, q, r.pc[q])
  {
    AloneAt(s, p);
    forall q | 0 <= q < PORTS
      ensures OperationLaw(r.t, q, r.pc[q])
    {
      assert OperationLaw(s.t, q, s.pc[q]);
    }
  }

  /** An operation moves on without touching the tables; `gone` ids leave `live`, a forgotten object may be freed. */
  lemma GotoKeeps(s: State, p: nat, pc: Pc, gone: bool, freed: bool)
    requires Law(s) && p < PORTS && !pc.Dropping? && OperationLaw(s.t, p, pc)
    requires Held(pc) in {0, Held(s.pc[p])} && (freed ==> Held(pc) == 0)
    ensures var live := if gone then s.live - {Dropped(s.pc[p])} else s.live;
            var heap := if freed then s.heap - {Held(s.pc[p])} else s.heap;
            Law(Goto(s.(live := live, heap := heap), p, pc))
  {
    var live := if gone then s.live - {Dropped(s.pc[p])} else s.live;
    var heap := if freed then s.heap - {Held(s.pc[p])} else s.heap;
    var r := Goto(s.(live := live, heap := heap), p, pc);
    assert Ids(r) == Ids(s)[PORTS + p := 0];
    assert Ids(s)[PORTS + p] == Dropped(s.pc[p]);
    UniqueDrop(Ids(s), s.live, PORTS + p);
    assert Objects(s)[DEVICES + p] == Held(s.pc[p]);
    assert Objects(r) == Objects(s)[DEVICES + p := Held(pc)];
    UniqueDrop(Objects(s), s.heap, DEVICES + p);
    if Held(pc) != 0 {
      assert Objects(r) == Objects(s);
    }
  }

  /** A new id is live and on its way out again. */
  lemma RejectKeeps(s: State, p: nat, d: nat)
    requires Law(s) && p < PORTS && FreshId(s, d) && s.pc[p] == Creating
    ensures Law(Goto(s.(live := s.live + {d}), p, Dropping(d, Return)))
  {
    var r := Goto(s.(live := s.live + {d}), p, Dropping(d, Return));
    assert OperationLaw(s.t, p, s.pc[p]);
    assert Ids(r) == Ids(s)[PORTS + p := d];
    UniqueAdd(Ids(s), s.live, PORTS + p, d);
    assert Objects(r) == Objects(s);
  }

  lemma StepKeeps(s: State, st: Step)
    requires Law(s) && Enabled(s, st) && InRange(st)
    ensures Law(Apply(s, st))
  {
    if !st.Leak? {
      assert OperationLaw(s.t, st.p, s.pc[st.p]);
    }
    match st
    case Enable(p) =>
      if s.t.ports[p] == 0 { GotoKeeps(s, p, Creating, false, false); }
    case Created(p, ok, d, alloc, o) =>
      if !ok {
        GotoKeeps(s, p, Idle, false, false);
      } else if d >= DEVICES || !alloc {
        RejectKeeps(s, p, d);
      } else {
        MapKeeps(s, p, d, o, MakingQueue(d, o, false));
      }
    case QueueMade(p, ok) =>
      if !ok {
        ClearKeeps(s, p, if s.pc[p].refresh then Free(s.pc[p].o) else Return);
      } else {
        GotoKeeps(s, p, Idle, false, false);
        assert forall q :: 0 <= q < PORTS ==> OperationLaw(Goto(s, p, Idle).t, q, Goto(s, p, Idle).pc[q]);
        SkipKeeps(Goto(s, p, Idle), p, 2);
      }
    case FreeDevice(p) =>
      if s.t.ports[p] != 0 { ClearKeeps(s, p, Free(DeviceOf(s.t, p))); }
    case Reset(p) => ResetKeeps(s, p);
    case Refresh(p) =>
      if s.t.ports[p] != 0 { GotoKeeps(s, p, Dismantling(s.t.ports[p], DeviceOf(s.t, p), true), false, false); }
    case Dismantled(p) => ClearKeeps(s, p, ResetPort(s.pc[p].o, s.pc[p].refresh));
    case Destroyed(p, ok, gone) => DestroyedKeeps(s, p, ok, gone);
    case PortResetDone(p, ok) =>
      if s.pc[p].o == 0 {
        GotoKeeps(s, p, Idle, false, false);
      } else if s.pc[p].refresh && !ok {
        GotoKeeps(s, p, Idle, false, true);
      } else {
        GotoKeeps(s, p, Recreating(s.pc[p].o, s.pc[p].refresh), false, false);
      }
    case Recreated(p, ok, d) => RecreatedKeeps(s, p, ok, d);
    case Rebuilt(p) => GotoKeeps(s, p, Idle, false, false);
    case Leak(d) => assert Ids(Apply(s, st)) == Ids(s) && Objects(Apply(s, st)) == Objects(s);
  }

  lemma SkipKeeps(s: State, p: nat, n: nat)
    requires Law(s) && p < PORTS
    ensures Law(s.(t := s.t.(skip := s.t.skip[p := n])))
  {
    var r := s.(t := s.t.(skip := s.t.skip[p := n]));
    assert Ids(r) == Ids(s) && Objects(r) == Objects(s);
    assert forall d :: 0 <= d < DEVICES && Mapped(s.t, d) ==> Mapped(r.t, d);
    forall q | 0 <= q < PORTS
      ensures OperationLaw(r.t, q, r.pc[q])
    {
      assert OperationLaw(s.t, q, s.pc[q]);
    }
  }

  lemma ResetKeeps(s: State, p: nat)
    requires Law(s) && p < PORTS && s.pc[p] == Idle
    ensures Law(ApplyReset(s, p))
  {
    if s.t.skip[p] > 0 {
      SkipKeeps(s, p, s.t.skip[p] - 1);
    } else if s.t.ports[p] != 0 {
      GotoKeeps(s, p, Dismantling(s.t.ports[p], DeviceOf(s.t, p), false), false, false);
    } else {
      GotoKeeps(s, p, Resetting(0, false), false, false);
    }
  }

  lemma DestroyedKeeps(s: State, p: nat, ok: bool, gone: bool)
    requires Law(s) && p < PORTS && s.pc[p].Dropping?
    ensures Law(ApplyDestroyed(s, p, ok, gone))
  {
    assert OperationLaw(s.t, p, s.pc[p]);
    match s.pc[p].next
    case Return => GotoKeeps(s, p, Idle, gone, false);
    case Free(_) => GotoKeeps(s, p, Idle, gone, true);
    case ResetPort(o, refresh) =>
      if refresh && !ok {
        GotoKeeps(s, p, Idle, gone, true);
      } else {
        GotoKeeps(s, p, Resetting(o, refresh), gone, false);
      }
  }

  lemma RecreatedKeeps(s: State, p: nat, ok: bool, d: nat)
    requires Law(s) && p < PORTS && s.pc[p].Recreating? && (ok ==> FreshId(s, d) && d < DEVICES)
    ensures Law(ApplyRecreated(s, p, ok, d))
  {
    var o, refresh := s.pc[p].o, s.pc[p].refresh;
    assert OperationLaw(s.t, p, s.pc[p]);
    if ok {
      assert Objects(s)[DEVICES + p] == o;
      assert s.heap + {o} == s.heap;
      MapKeeps(s, p, d, o, if refresh then MakingQueue(d, o, true) else Rebuilding(d, o));
    } else {
      GotoKeeps(s, p, Idle, false, refresh);
    }
  }

  // ---------------------------------------------------------------- theorems over every run

  predicate Legal(s: State, sts: seq<Step>)
    decreases |sts|
  {
    sts == [] || (Enabled(s, sts[0]) && InRange(sts[0]) && Legal(Apply(s, sts[0]), sts[1..]))
  }

  function Run(s: State, sts: seq<Step>): State
    requires Legal(s, sts)
    decreases |sts|
  {
    if sts == [] then s else Run(Apply(s, sts[0]), sts[1..])
  }

  lemma {:induction false} RunKeeps(s: State, sts: seq<Step>)
    requires Law(s) && Legal(s, sts)
    ensures Law(Run(s, sts))
    decreases |sts|
  {
    if sts != [] {
      StepKeeps(s, sts[0]);
      RunKeeps(Apply(s, sts[0]), sts[1..]);
    }
  }

  function Boot(): State {
    State(Tables(seq(PORTS, _ => 0), seq(DEVICES, _ => 0), seq(PORTS, _ => 0)), {}, {}, seq(PORTS, _ => Idle), false)
  }

  lemma BootLaw()
    ensures Law(Boot())
  {
  }

  /** After every run from boot: no two ports share an id, a mapped id is live and leads to an allocated device
      object, an entry belongs to a mapped port and to no other entry, and no NULL or out-of-range entry was used. */
  lemma MappingSafety(sts: seq<Step>)
    requires Legal(Boot(), sts)
    ensures var s := Run(Boot(), sts);
            && Sized(s) && !s.crashed && Paired(s.t)
            && (forall p, q :: 0 <= p < q < PORTS && s.t.ports[p] != 0 ==> s.t.ports[p] != s.t.ports[q])
            && (forall p :: 0 <= p < PORTS && s.t.ports[p] != 0 ==> s.t.ports[p] in s.live)
            && (forall d, e :: 0 <= d < e < DEVICES && s.t.devices[d] != 0 ==> s.t.devices[d] != s.t.devices[e])
            && (forall d :: 0 <= d < DEVICES && s.t.devices[d] != 0 ==> s.t.devices[d] in s.heap)
  {
    BootLaw();
    RunKeeps(Boot(), sts);
    ReadLaw(Run(Boot(), sts));
  }

  lemma ReadLaw(s: State)
    requires Law(s)
    ensures forall p, q :: 0 <= p < q < PORTS && s.t.ports[p] != 0 ==> s.t.ports[p] != s.t.ports[q]
    ensures forall p :: 0 <= p < PORTS && s.t.ports[p] != 0 ==> s.t.ports[p] in s.live
    ensures forall d, e :: 0 <= d < e < DEVICES && s.t.devices[d] != 0 ==> s.t.devices[d] != s.t.devices[e]
    ensures forall d :: 0 <= d < DEVICES && s.t.devices[d] != 0 ==> s.t.devices[d] in s.heap
  {
    assert forall p :: 0 <= p < PORTS ==> Ids(s)[p] == s.t.ports[p];
    assert forall d :: 0 <= d < DEVICES ==> Objects(s)[d] == s.t.devices[d];
  }

  /** Whenever a device_destroy is on its way, its id is live, no port maps it and no other operation destroys it. */
  predicate DestroysOnlyUnmapped(s: State)
    requires Sized(s)
  {
    forall p, q :: 0 <= p < PORTS && 0 <= q < PORTS && s.pc[p].Dropping? ==>
      && s.pc[p].d in s.live && s.t.ports[q] != s.pc[p].d
      && (p != q ==> Dropped(s.pc[q]) != s.pc[p].d)
  }

  /** In every run the T2 is never told to take back an id that a port still refers to, nor told twice. */
  lemma DestroyIsUnmapped(sts: seq<Step>)
    requires Legal(Boot(), sts)
    ensures Sized(Run(Boot(), sts)) && DestroysOnlyUnmapped(Run(Boot(), sts))
  {
    BootLaw();
    RunKeeps(Boot(), sts);
    var s := Run(Boot(), sts);
    forall p, q | 0 <= p < PORTS && 0 <= q < PORTS && s.pc[p].Dropping?
      ensures s.pc[p].d in s.live && s.t.ports[q] != s.pc[p].d && (p != q ==> Dropped(s.pc[q]) != s.pc[p].d)
    {
      assert OperationLaw(s.t, p, s.pc[p]);
      assert Ids(s)[PORTS + p] == s.pc[p].d && Ids(s)[q] == s.t.ports[q];
      assert Ids(s)[PORTS + q] == Dropped(s.pc[q]);
    }
  }

  /** Recreating a device stores through the id unchecked: the step goes wrong exactly for an id outside the table,
      where enable would have given the id back. */
  lemma RecreateTrustsTheId(s: State, p: nat, d: nat)
    requires Law(s) && Enabled(s, Recreated(p, true, d))
    ensures Apply(s, Recreated(p, true, d)).crashed <==> d >= DEVICES
    ensures !ApplyCreated(s, p, true, d, true, d).crashed
  {
  }

  lemma Prepend(s: State, st: Step, rest: seq<Step>)
    requires Enabled(s, st) && InRange(st) && Legal(Apply(s, st), rest)
    ensures Legal(s, [st] + rest) && Run(s, [st] + rest) == Run(Apply(s, st), rest)
  {
    assert ([st] + rest)[1..] == rest;
  }

  /** Port `p` is mapped to `d`, nothing else is live and no operation runs on it. */
  predicate OnlyMapped(s: State, p: nat, d: nat, o: nat) {
    && Sized(s) && p < PORTS && 0 < d < DEVICES && o != 0 && s.t.skip[p] == 0
    && s.t.ports[p] == d && s.t.devices[d] == o && s.pc[p] == Idle && s.live == {d}
  }

  /** Enabling the device, then its reset up to the request for a new id. */
  function EnableSteps(p: nat, d: nat, o: nat): seq<Step> {
    [Enable(p), Created(p, true, d, true, o), QueueMade(p, true)]
  }

  function ResetSteps(p: nat): seq<Step> {
    [Reset(p), Dismantled(p), Destroyed(p, true, true), PortResetDone(p, true)]
  }

  lemma EnableMaps(p: nat, d: nat, o: nat, rest: seq<Step>) returns (r: State)
    requires p < PORTS && 0 < d < DEVICES && o != 0
    ensures OnlyMapped(r, p, d, o)
    ensures Legal(r, rest) ==>
              Legal(Boot(), EnableSteps(p, d, o) + rest) && Run(Boot(), EnableSteps(p, d, o) + rest) == Run(r, rest)
  {
    var t := EnableSteps(p, d, o);
    var s1 := Apply(Boot(), t[0]);
    var s2 := Apply(s1, t[1]);
    r := Apply(s2, t[2]);
    if Legal(r, rest) {
      Prepend(s2, t[2], rest);
      Prepend(s1, t[1], [t[2]] + rest);
      Prepend(Boot(), t[0], [t[1]] + ([t[2]] + rest));
      assert t + rest == [t[0]] + ([t[1]] + ([t[2]] + rest));
    }
  }

  lemma ResetAsks(s: State, p: nat, d: nat, o: nat, next: nat)
    requires OnlyMapped(s, p, d, o) && next != 0
    ensures Legal(s, ResetSteps(p)) && Enabled(Run(s, ResetSteps(p)), Recreated(p, true, next))
  {
    var t := ResetSteps(p);
    var s1 := Apply(s, t[0]);
    assert s1.pc[p] == Dismantling(d, o, false);
    var s2 := Apply(s1, t[1]);
    var s3 := Apply(s2, t[2]);
    var s4 := Apply(s3, t[3]);
    assert s4.pc[p] == Recreating(o, false) && s4.live == {};
    Prepend(s3, t[3], []);
    Prepend(s2, t[2], [t[3]] + []);
    Prepend(s1, t[1], [t[2]] + ([t[3]] + []));
    Prepend(s, t[0], [t[1]] + ([t[2]] + ([t[3]] + [])));
    assert t == [t[0]] + ([t[1]] + ([t[2]] + ([t[3]] + [])));
  }

  /** On every port a run from boot reaches the point where the driver takes whatever id the T2 returns. */
  lemma ResetReachesCreate(p: nat, d: nat, o: nat, next: nat, steps: seq<Step>)
    requires p < PORTS && 0 < d < DEVICES && o != 0 && next != 0 && steps == EnableSteps(p, d, o) + ResetSteps(p)
    ensures Legal(Boot(), steps) && Enabled(Run(Boot(), steps), Recreated(p, true, next))
  {
    var r := EnableMaps(p, d, o, ResetSteps(p));
    ResetAsks(r, p, d, o, next);
  }

  // ---------------------------------------------------------------- what an operation leaves behind

  /** A new device: the port is mapped to the id the T2 gave, the entry is the new object; with an id beyond the table
      or without memory nothing is mapped and the id is on its way back. */
  lemma CreatedMaps(s: State, p: nat, d: nat, alloc: bool, o: nat)
    requires Enabled(s, Created(p, true, d, alloc, o))
    ensures var r := Apply(s, Created(p, true, d, alloc, o));
      if d < DEVICES && alloc
      then r.t.ports == s.t.ports[p := d] && r.t.devices == s.t.devices[d := o] && o in r.heap && d in r.live
      else r.t == s.t && r.pc[p] == Dropping(d, Return) && r.heap == s.heap
  {
  }

  /** A device created anew, on reset or resume: the port is mapped to the new id and keeps its object. */
  lemma RecreatedMaps(s: State, p: nat, d: nat)
    requires Enabled(s, Recreated(p, true, d)) && d < DEVICES
    ensures var r := Apply(s, Recreated(p, true, d)); var o := s.pc[p].o;
      && r.t.ports == s.t.ports[p := d] && r.t.devices == s.t.devices[d := o]
      && r.pc[p] == (if s.pc[p].refresh then MakingQueue(d, o, true) else Rebuilding(d, o))
      && r.heap == s.heap && r.live == s.live + {d}
  {
  }

  /** A successful refresh makes the next two resets of the port do nothing but count down. */
  lemma TwoResetsSkipped(s: State, p: nat)
    requires Law(s) && p < PORTS && s.pc[p].MakingQueue? && s.pc[p].refresh
    ensures var r := Apply(s, QueueMade(p, true));
      && r.pc == s.pc[p := Idle] && r.t == s.t.(skip := s.t.skip[p := 2])
      && var r1 := Apply(r, Reset(p));
         && r1 == r.(t := s.t.(skip := s.t.skip[p := 1]))
         && Apply(r1, Reset(p)) == r.(t := s.t.(skip := s.t.skip[p := 0]))
  {
  }

  // ---------------------------------------------------------------- nothing is lost

  /** Every element of `pool` is referred to. */
  predicate Covers(refs: seq<nat>, pool: set<nat>) { 0 !in pool && forall x :: x in pool ==> x in refs }

  lemma CoversSet(refs: seq<nat>, pool: set<nat>, i: nat, x: nat)
    requires Covers(refs, pool) && i < |refs|
    ensures forall y :: y in pool && y != refs[i] ==> y in refs[i := x]
    ensures x != 0 && refs[i] == 0 ==> Covers(refs[i := x], pool + {x})
    ensures Covers(refs[i := 0], pool - {refs[i]})
  {
    forall y | y in pool && y != refs[i]
      ensures y in refs[i := x] && y in refs[i := 0]
    {
      var k :| 0 <= k < |refs| && refs[k] == y;
      assert refs[i := x][k] == y && refs[i := 0][k] == y;
    }
    assert refs[i := x][i] == x;
  }

  lemma CoversMove(refs: seq<nat>, pool: set<nat>, i: nat, j: nat)
    requires Covers(refs, pool) && i < |refs| && j < |refs| && refs[j] == 0 && i != j
    ensures Covers(refs[i := 0][j := refs[i]], pool)
  {
    var moved := refs[i := 0][j := refs[i]];
    forall y | y in pool
      ensures y in moved
    {
      var k :| 0 <= k < |refs| && refs[k] == y;
      assert moved[if k == i then j else k] == y;
    }
  }

  /** Every live id is mapped or on its way back; every object is in the table or in the hands of an operation. */
  predicate NothingLost(s: State)
    requires Sized(s)
  {
    Covers(Ids(s), s.live) && Covers(Objects(s), s.heap)
  }

  /** The T2 does what it is told: it makes no devices for requests that timed out and takes back what is destroyed; and
      the create command of a reset does not fail. */
  predicate Clean(s: State, st: Step)
    requires Enabled(s, st)
  {
    && !st.Leak? && (st.Destroyed? ==> st.gone)
    && (st.Recreated? && !st.ok ==> s.pc[st.p].refresh)
  }

  lemma MapLosesNothing(s: State, p: nat, d: nat, o: nat, pc: Pc, r: State)
    requires Law(s) && NothingLost(s) && p < PORTS && FreshId(s, d) && d < DEVICES && o != 0
    requires pc in {MakingQueue(d, o, false), MakingQueue(d, o, true), Rebuilding(d, o)}
    requires (s.pc[p] == Creating && o !in s.heap) || (s.pc[p].Recreating? && s.pc[p].o == o)
    requires r == Goto(s.(live := s.live + {d}, heap := s.heap + {o}, t := MapDevice(s.t, p, d, o)), p, pc)
    ensures NothingLost(r)
  {
    assert OperationLaw(s.t, p, s.pc[p]);
    FreshIsUnused(s, d);
    assert Ids(r) == Ids(s)[p := d];
    CoversSet(Ids(s), s.live, p, d);
    assert Objects(s)[d] == 0 && Objects(s)[DEVICES + p] == Held(s.pc[p]);
    if s.pc[p] == Creating {
      assert Objects(r) == Objects(s)[d := o];
      CoversSet(Objects(s), s.heap, d, o);
    } else {
      assert Objects(r) == Objects(s)[DEVICES + p := 0][d := o];
      CoversMove(Objects(s), s.heap, DEVICES + p, d);
      assert r.heap == s.heap + {o} && Objects(r)[d] == o;
    }
  }

  lemma ClearLosesNothing(s: State, p: nat, next: After)
    requires Law(s) && NothingLost(s) && p < PORTS && s.t.ports[p] != 0
    requires next.Return? || next.o == DeviceOf(s.t, p)
    ensures next.Return? ==> NothingLost(Clear(Kfree(s, DeviceOf(s.t, p)), p, s.t.ports[p], next))
    ensures !next.Return? ==> NothingLost(Clear(s, p, s.t.ports[p], next))
  {
    var d := s.t.ports[p];
    var o := DeviceOf(s.t, p);
    var r := Clear(if next.Return? then Kfree(s, o) else s, p, d, next);
    ClearedRefs(s, p, next, r);
    CoversMove(Ids(s), s.live, p, PORTS + p);
    if next.Return? {
      CoversSet(Objects(s), s.heap, d, 0);
    } else {
      CoversMove(Objects(s), s.heap, d, DEVICES + p);
    }
  }

  lemma ClearedRefs(s: State, p: nat, next: After, r: State)
    requires Law(s) && p < PORTS && s.t.ports[p] != 0 && (next.Return? || next.o == DeviceOf(s.t, p))
    requires var m := if next.Return? then Kfree(s, DeviceOf(s.t, p)) else s; r == Clear(m, p, s.t.ports[p], next)
    ensures var d := s.t.ports[p]; var o := DeviceOf(s.t, p);
      && Sized(r) && d < DEVICES && Ids(s)[p] == d && Ids(s)[PORTS + p] == 0 && Objects(s)[d] == o
      && Objects(s)[DEVICES + p] == 0 && Ids(r) == Ids(s)[p := 0][PORTS + p := d]
      && Objects(r) == if next.Return? then Objects(s)[d := 0] else Objects(s)[d := 0][DEVICES + p := o]
  {
    assert OperationLaw(s.t, p, s.pc[p]) && Held(s.pc[p]) == 0 && Dropped(s.pc[p]) == 0;
  }

  /** An operation moves on; what it lets go of leaves `live` and `heap`. */
  lemma GotoLosesNothing(s: State, p: nat, pc: Pc, r: State)
    requires Sized(s) && NothingLost(s) && p < PORTS && !pc.Dropping? && Held(pc) in {0, Held(s.pc[p])}
    requires r.t == s.t && r.pc == s.pc[p := pc] && r.live == s.live - {Dropped(s.pc[p])}
    requires r.heap == if Held(pc) == 0 then s.heap - {Held(s.pc[p])} else s.heap
    ensures Sized(r) && NothingLost(r)
  {
    assert Ids(r) == Ids(s)[PORTS + p := 0];
    assert Ids(s)[PORTS + p] == Dropped(s.pc[p]);
    CoversSet(Ids(s), s.live, PORTS + p, 0);
    assert Objects(s)[DEVICES + p] == Held(s.pc[p]);
    assert Objects(r) == Objects(s)[DEVICES + p := Held(pc)];
    CoversSet(Objects(s), s.heap, DEVICES + p, 0);
    if Held(pc) != 0 {
      assert Objects(r) == Objects(s);
    }
  }

  lemma CreatedLosesNothing(s: State, p: nat, ok: bool, d: nat, alloc: bool, o: nat)
    requires Law(s) && NothingLost(s) && Enabled(s, Created(p, ok, d, alloc, o))
    ensures Sized(Apply(s, Created(p, ok, d, alloc, o))) && NothingLost(Apply(s, Created(p, ok, d, alloc, o)))
  {
    var r := Apply(s, Created(p, ok, d, alloc, o));
    if !ok {
      GotoLosesNothing(s, p, Idle, r);
    } else if d >= DEVICES || !alloc {
      assert Ids(r) == Ids(s)[PORTS + p := d];
      assert Ids(s)[PORTS + p] == 0;
      CoversSet(Ids(s), s.live, PORTS + p, d);
      assert Objects(r) == Objects(s);
    } else {
      MapLosesNothing(s, p, d, o, MakingQueue(d, o, false), r);
    }
  }

  lemma RecreatedLosesNothing(s: State, p: nat, ok: bool, d: nat)
    requires Law(s) && NothingLost(s) && Enabled(s, Recreated(p, ok, d)) && (ok ==> d < DEVICES)
    requires !ok ==> s.pc[p].refresh
    ensures Sized(Apply(s, Recreated(p, ok, d))) && NothingLost(Apply(s, Recreated(p, ok, d)))
  {
    var r := Apply(s, Recreated(p, ok, d));
    var o, refresh := s.pc[p].o, s.pc[p].refresh;
    assert OperationLaw(s.t, p, s.pc[p]);
    if ok {
      assert Objects(s)[DEVICES + p] == o;
      assert s.heap + {o} == s.heap;
      MapLosesNothing(s, p, d, o, if refresh then MakingQueue(d, o, true) else Rebuilding(d, o), r);
    } else {
      GotoLosesNothing(s, p, Idle, r);
    }
  }

  lemma SkipLosesNothing(s: State, r: State)
    requires Sized(s) && NothingLost(s) && Sized(r) && r == s.(t := s.t.(skip := r.t.skip))
    ensures NothingLost(r)
  {
    assert Ids(r) == Ids(s) && Objects(r) == Objects(s);
  }

  lemma QueueMadeLosesNothing(s: State, p: nat, ok: bool)
    requires Law(s) && NothingLost(s) && Enabled(s, QueueMade(p, ok))
    ensures Sized(Apply(s, QueueMade(p, ok))) && NothingLost(Apply(s, QueueMade(p, ok)))
  {
    assert OperationLaw(s.t, p, s.pc[p]);
    if ok {
      var m := Goto(s, p, Idle);
      GotoLosesNothing(s, p, Idle, m);
      SkipLosesNothing(m, Apply(s, QueueMade(p, ok)));
    } else {
      ClearLosesNothing(s, p, if s.pc[p].refresh then Free(s.pc[p].o) else Return);
    }
  }

  lemma ResetLosesNothing(s: State, p: nat)
    requires Law(s) && NothingLost(s) && Enabled(s, Reset(p))
    ensures Sized(Apply(s, Reset(p))) && NothingLost(Apply(s, Reset(p)))
  {
    var r := Apply(s, Reset(p));
    if s.t.skip[p] > 0 {
      SkipLosesNothing(s, r);
    } else {
      GotoLosesNothing(s, p, r.pc[p], r);
    }
  }

  /** The steps that change neither the mapping nor the table. */
  lemma OtherLosesNothing(s: State, st: Step)
    requires Law(s) && NothingLost(s) && Enabled(s, st) && Clean(s, st)
    requires st.Enable? || st.Refresh? || st.Destroyed? || st.PortResetDone? || st.Rebuilt?
    ensures Sized(Apply(s, st)) && NothingLost(Apply(s, st))
  {
    assert OperationLaw(s.t, st.p, s.pc[st.p]);
    StayOrGo(s, st.p, Apply(s, st));
  }

  lemma StepLosesNothing(s: State, st: Step)
    requires Law(s) && NothingLost(s) && Enabled(s, st) && InRange(st) && Clean(s, st)
    ensures Sized(Apply(s, st)) && NothingLost(Apply(s, st))
  {
    assert OperationLaw(s.t, st.p, s.pc[st.p]);
    match st
    case Created(p, ok, d, alloc, o) => CreatedLosesNothing(s, p, ok, d, alloc, o);
    case QueueMade(p, ok) => QueueMadeLosesNothing(s, p, ok);
    case FreeDevice(p) =>
      if s.t.ports[p] != 0 { ClearLosesNothing(s, p, Free(DeviceOf(s.t, p))); }
    case Reset(p) => ResetLosesNothing(s, p);
    case Dismantled(p) => ClearLosesNothing(s, p, ResetPort(s.pc[p].o, s.pc[p].refresh));
    case Recreated(p, ok, d) => RecreatedLosesNothing(s, p, ok, d);
    case Enable(_) => OtherLosesNothing(s, st);
    case Refresh(_) => OtherLosesNothing(s, st);
    case Destroyed(_, _, _) => OtherLosesNothing(s, st);
    case PortResetDone(_, _) => OtherLosesNothing(s, st);
    case Rebuilt(_) => OtherLosesNothing(s, st);
    case Leak(_) =>
  }

  lemma StayOrGo(s: State, p: nat, r: State)
    requires Sized(s) && NothingLost(s) && p < PORTS && Sized(r)
    requires r != s ==>
               && !r.pc[p].Dropping? && Held(r.pc[p]) in {0, Held(s.pc[p])} && r.t == s.t && r.pc == s.pc[p := r.pc[p]]
               && r.live == s.live - {Dropped(s.pc[p])}
               && r.heap == if Held(r.pc[p]) == 0 then s.heap - {Held(s.pc[p])} else s.heap
    ensures NothingLost(r)
  {
    if r != s {
      GotoLosesNothing(s, p, r.pc[p], r);
    }
  }

  predicate CleanRun(s: State, sts: seq<Step>)
    requires Legal(s, sts)
    decreases |sts|
  {
    sts == [] || (Clean(s, sts[0]) && CleanRun(Apply(s, sts[0]), sts[1..]))
  }

  lemma {:induction false} RunLosesNothing(s: State, sts: seq<Step>)
    requires Law(s) && NothingLost(s) && Legal(s, sts) && CleanRun(s, sts)
    ensures Sized(Run(s, sts)) && NothingLost(Run(s, sts))
    decreases |sts|
  {
    if sts != [] {
      StepKeeps(s, sts[0]);
      StepLosesNothing(s, sts[0]);
      RunLosesNothing(Apply(s, sts[0]), sts[1..]);
    }
  }

  /** After every such run from boot no id and no device object is lost: whatever failed on the way, the T2 was told to
      take the id back and the object was freed. */
  lemma NoLeaks(sts: seq<Step>)
    requires Legal(Boot(), sts) && CleanRun(Boot(), sts)
    ensures Sized(Run(Boot(), sts)) && NothingLost(Run(Boot(), sts))
  {
    BootLaw();
    RunLosesNothing(Boot(), sts);
  }

  /** The create command of a reset is the one failure that loses the device object for good. */
  lemma FailedResetLeaks(s: State, p: nat, d: nat)
    requires Law(s) && NothingLost(s) && Enabled(s, Recreated(p, false, d))
    ensures Sized(Apply(s, Recreated(p, false, d)))
    ensures NothingLost(Apply(s, Recreated(p, false, d))) <==> s.pc[p].refresh
  {
    var r := Apply(s, Recreated(p, false, d));
    var o := s.pc[p].o;
    assert OperationLaw(s.t, p, s.pc[p]);
    if s.pc[p].refresh {
      RecreatedLosesNothing(s, p, false, d);
    } else {
      assert Objects(s)[DEVICES + p] == o;
      assert o in r.heap;
      assert Objects(r) == Objects(s)[DEVICES + p := 0];
      forall k | 0 <= k < |Objects(r)|
        ensures Objects(r)[k] != o
      {
        assert k != DEVICES + p ==> Objects(s)[k] == Objects(r)[k];
      }
    }
  }

  // ---------------------------------------------------------------- the tables, updated in place

  const EIO := -5
  const ENOMEM := -12

  /** Uninterrupted operations, as compositions of the steps above. The last component tells which
      device_destroy was sent (0: none). */
  function EnableRun(s: State, p: nat, ok: bool, d: nat, o: nat, queue: bool): (Tables, nat)
    requires Sized(s) && p < PORTS
  {
    if s.t.ports[p] != 0 then (s.t, 0)
    else
      var a := ApplyCreated(Goto(s, p, Creating), p, ok, d, o != 0, o);
      var b := if a.pc[p].MakingQueue? then ApplyQueueMade(a, p, queue) else a;
      (b.t, Dropped(b.pc[p]))
  }

  function ResetRun(s: State, p: nat, gone: bool, ok: bool, d: nat): (Tables, nat)
    requires Sized(s) && p < PORTS && s.pc[p] == Idle
  {
    var a := ApplyReset(s, p);
    if !a.pc[p].Dismantling? then (a.t, 0)
    else
      var b := Clear(a, p, a.pc[p].d, ResetPort(a.pc[p].o, false));
      if !b.pc[p].Dropping? then (b.t, 0)
      else
        var e := ApplyPortReset(ApplyDestroyed(b, p, true, gone), p, true);
        (if e.pc[p].Recreating? then ApplyRecreated(e, p, ok, d).t else e.t, b.pc[p].d)
  }

  class DeviceTable {
    const ports: array<nat>         // port_to_device
    const devices: array<nat>       // devices, 0 is NULL
    const skip: array<nat>          // port_resume_skip_reset

    ghost predicate Valid() {
      && ports.Length == PORTS && devices.Length == DEVICES && skip.Length == PORTS
      && ports != devices && ports != skip && devices != skip
    }

    ghost function Contents(): Tables
      reads ports, devices, skip
    {
      Tables(ports[..], devices[..], skip[..])
    }

    constructor ()
      ensures Valid() && Contents() == Boot().t && fresh(ports) && fresh(devices) && fresh(skip)
    {
      ports := new nat[PORTS](_ => 0);
      devices := new nat[DEVICES](_ => 0);
      skip := new nat[PORTS](_ => 0);
    }

    /** bce_vhci_enable_device with the T2's answer (`ok`, `d`), the allocation (`o`, 0 on failure) and the
        outcome of the queue creation as inputs. */
    method EnableDevice(p: nat, ok: bool, d: nat, o: nat, queue: bool, ghost s: State)
      returns (status: int, destroyed: nat)
      requires Valid() && p < PORTS && Sized(s) && s.t == Contents() && d != 0
      modifies ports, devices
      ensures (Contents(), destroyed) == EnableRun(s, p, ok, d, o, queue)
      ensures status == 0 <==> ports[p] != 0
      ensures status == 0 && old(ports[p]) == 0 ==> ports[p] == d && devices[d % DEVICES] == o && destroyed == 0
      ensures status != 0 ==> status == (if !ok || d >= DEVICES then -5 else -12) && destroyed == if ok then d else 0
    {
      destroyed := 0;
      if ports[p] != 0 {
        return 0, 0;
      }
      if !ok {
        return EIO, 0;
      }
      if d >= DEVICES {
        return EIO, d;
      }
      if o == 0 {
        return ENOMEM, d;
      }
      ports[p] := d;
      devices[d] := o;
      if !queue {
        devices[d] := 0;
        ports[p] := 0;
        return ENOMEM, d;
      }
      status := 0;
    }

    /** bce_vhci_free_device. */
    method FreeDevice(p: nat, ghost s: State) returns (destroyed: nat, freed: nat)
      requires Valid() && p < PORTS && Law(s) && s.pc[p] == Idle && s.t == Contents()
      modifies ports, devices
      ensures Contents() == ApplyFree(s, p).t && ports[p] == 0
      ensures destroyed == old(ports[p]) && (destroyed != 0 ==> freed == old(devices[ports[p] % DEVICES]) != 0)
      ensures destroyed == Dropped(ApplyFree(s, p).pc[p]) && freed == Held(ApplyFree(s, p).pc[p])
    {
      destroyed, freed := ports[p], 0;
      if destroyed == 0 {
        return;
      }
      freed := devices[destroyed];
      devices[destroyed] := 0;
      ports[p] := 0;
    }

    /** bce_vhci_reset_device; the port reset itself and the recreation of the queues change no table. `overrun`: the
        new id would be stored beyond the end of the table. */
    method ResetDevice(p: nat, ok: bool, d: nat, ghost gone: bool, ghost s: State)
      returns (destroyed: nat, overrun: bool)
      requires Valid() && p < PORTS && Law(s) && s.pc[p] == Idle && s.t == Contents()
      modifies ports, devices, skip
      ensures (Contents(), destroyed) == ResetRun(s, p, gone, ok, d)
      ensures overrun <==> destroyed != 0 && ok && d >= DEVICES
      ensures old(skip[p]) > 0 ==> destroyed == 0 && ports[p] == old(ports[p]) && skip[p] == old(skip[p]) - 1
      ensures old(skip[p]) == 0 ==> destroyed == old(ports[p])
      ensures old(skip[p]) == 0 && old(ports[p]) != 0 && ok && d < DEVICES ==>
                ports[p] == d && devices[d] == old(devices[ports[p] % DEVICES])
      ensures old(skip[p]) == 0 && old(ports[p]) != 0 && !ok ==> ports[p] == 0
    {
      destroyed, overrun := 0, false;
      if skip[p] > 0 {
        skip[p] := skip[p] - 1;
        return;
      }
      destroyed := ports[p];
      if destroyed == 0 {
        return;
      }
      var o := devices[destroyed];
      devices[destroyed] := 0;
      ports[p] := 0;
      if ok {
        if d >= DEVICES {
          overrun := true;
          return;
        }
        devices[d] := o;
        ports[p] := d;
      }
    }
  }
}
