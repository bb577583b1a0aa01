/** The DMA interrupt of apple_bce.c against queue creation and destruction in queue.c: a pass harvests every
    completion queue, then runs the callbacks; SRCU keeps what it can still reach alive. */
module InterruptPass {
  import opened Arithmetic

  /** BCE_MAX_QUEUE_COUNT: the size of queues[] and of int_sq_list[]. */
  const MAX_QUEUES := 256

  /** Where a queue object is between bce_alloc_* and bce_free_*. */
  datatype Life =
    | Private                       // allocated and registered, not in queues[] yet
    | Published
    | Unpublished(seenBy: int)      // synchronize_srcu waits for this pass, or for none (-1)
    | QidFreed

  /** `tail` is completion_tail of a submission queue with elCount entries, `flagged` has_pending_completions. */
  datatype Object = Object(qid: nat, isSq: bool, life: Life, flagged: bool, elCount: nat, tail: nat)

  datatype Phase = Idle | Harvesting | Dispatching(next: nat)

  datatype Device = Device(
    objects: map<nat, Object>,      // live allocations, by address
    table: map<nat, nat>,           // queues[]
    usedQids: set<nat>,             // queue_ida
    phase: Phase,
    pass: nat,                      // number of the current or last pass
    cursor: set<nat>,               // the completion queue being polled, if any
    list: seq<nat>,                 // int_sq_list[0..ce]
    called: seq<nat>)               // callbacks run in this pass

  datatype Step =
    | Allocate(o: nat, qid: nat, isSq: bool, elCount: nat)  // bce_qid_alloc and bce_alloc_*, registered
    | Abandon(o: nat)                           // registration failed: bce_free_*, bce_qid_free
    | Publish(o: nat)
    | Unpublish(o: nat)
    | FreeQid(o: nat)                           // after synchronize_srcu returned
    | Free(o: nat)
    | StartPass                                 // srcu_read_lock
    | Poll(o: nat)                              // next completion queue of cq_list
    | Entry(qid: nat, index: nat)               // bce_handle_cq_completion
    | StartDispatch
    | Dispatch
    | EndPass                                   // srcu_read_unlock

  predicate Running(d: Device) { d.phase != Idle }

  /** The running pass may hold a pointer to this queue: it was published at some time during the pass. */
  predicate MaySee(d: Device, o: nat) {
    o in d.objects && (d.objects[o].life == Published || d.objects[o].life == Unpublished(d.pass))
  }

  predicate Enabled(d: Device, s: Step) {
    match s
    case Allocate(o, qid, _, _) => o !in d.objects && qid < MAX_QUEUES && qid !in d.usedQids
    case Abandon(o) => o in d.objects && d.objects[o].life == Private
    case Publish(o) => o in d.objects && d.objects[o].life == Private
    case Unpublish(o) => o in d.objects && d.objects[o].life == Published
    case FreeQid(o) =>
      && o in d.objects && d.objects[o].life.Unpublished?
      && !(Running(d) && d.objects[o].life.seenBy == d.pass)
    case Free(o) => o in d.objects && d.objects[o].life == QidFreed
    case StartPass => d.phase == Idle
    case Poll(o) => d.phase == Harvesting && MaySee(d, o) && !d.objects[o].isSq
    case Entry(_, _) => d.phase == Harvesting && d.cursor != {}
    case StartDispatch => d.phase == Harvesting
    case Dispatch => d.phase.Dispatching? && d.phase.next < |d.list| && d.list[d.phase.next] in d.objects
    case EndPass => d.phase.Dispatching? && d.phase.next == |d.list|
  }

  function SetLife(d: Device, o: nat, life: Life): Device
    requires o in d.objects
  {
    d.(objects := d.objects[o := d.objects[o].(life := life)])
  }

  function SetFlag(d: Device, o: nat, flagged: bool): Device
    requires o in d.objects
  {
    d.(objects := d.objects[o := d.objects[o].(flagged := flagged)])
  }

  /** One more record was stored. */
  function Stored(x: Object): Object { x.(tail := if x.tail + 1 < x.elCount then x.tail + 1 else 0) }

  /** bce_handle_cq_completion: which submission queue an entry wakes, and whether it is new to the list. */
  function HandleEntry(d: Device, qid: nat, index: nat): Device {
    if qid >= MAX_QUEUES || qid !in d.table then d
    else
      var o := d.table[qid];
      if o !in d.objects || !d.objects[o].isSq || d.objects[o].tail != index then d
      else
        var h := d.(objects := d.objects[o := Stored(d.objects[o])]);
        if d.objects[o].flagged then h else SetFlag(h, o, true).(list := d.list + [o])
  }

  function Apply(d: Device, s: Step): Device
    requires Enabled(d, s)
  {
    match s
    case Allocate(o, qid, isSq, elCount) =>
      d.(objects := d.objects[o := Object(qid, isSq, Private, false, elCount, 0)], usedQids := d.usedQids + {qid})
    case Abandon(o) => d.(objects := d.objects - {o}, usedQids := d.usedQids - {d.objects[o].qid})
    case Publish(o) => SetLife(d, o, Published).(table := d.table[d.objects[o].qid := o])
    case Unpublish(o) =>
      SetLife(d, o, Unpublished(if Running(d) then d.pass else -1)).(table := d.table - {d.objects[o].qid})
    case FreeQid(o) => SetLife(d, o, QidFreed).(usedQids := d.usedQids - {d.objects[o].qid})
    case Free(o) => d.(objects := d.objects - {o})
    case StartPass => d.(phase := Harvesting, pass := d.pass + 1, cursor := {}, list := [], called := [])
    case Poll(o) => d.(cursor := {o})
    case Entry(qid, index) => HandleEntry(d, qid, index)
    case StartDispatch => d.(phase := Dispatching(0), cursor := {})
    case Dispatch =>
      var o := d.list[d.phase.next];
      SetFlag(d, o, false).(phase := Dispatching(d.phase.next + 1), called := d.called + [o])
    case EndPass => d.(phase := Idle)
  }

  // ---------------------------------------------------------------- the law

  predicate Owns(x: Object) { x.life != QidFreed }

  /** Queue ids: reserved as long as an object owns them, and by one object at a time. */
  predicate QidLaw(d: Device) {
    && (forall o :: o in d.objects && Owns(d.objects[o]) ==>
          d.objects[o].qid < MAX_QUEUES && d.objects[o].qid in d.usedQids)
    && (forall o, p :: o in d.objects && p in d.objects && o != p && Owns(d.objects[o]) && Owns(d.objects[p])
          ==> d.objects[o].qid != d.objects[p].qid)
    && (forall o :: o in d.objects && d.objects[o].life.Unpublished? ==> d.objects[o].life.seenBy <= d.pass)
  }

  predicate TableLaw(d: Device) {
    && (forall q :: q in d.table ==> d.table[q] in d.objects && d.objects[d.table[q]].qid == q
                                     && d.objects[d.table[q]].life == Published)
    && (forall o :: o in d.objects && d.objects[o].life == Published ==> d.objects[o].qid in d.table)
  }

  function Served(d: Device): nat { if d.phase.Dispatching? then d.phase.next else 0 }

  /** The scratch list: distinct submission queues the pass may see; the ones still to be served are exactly
      the flagged ones, and the ones served were called back once each, in order. */
  ghost predicate ListLaw(d: Device) {
    && (Running(d) ==>
          && Served(d) <= |d.list|
          && d.called == d.list[..Served(d)]
          && (forall i :: 0 <= i < |d.list| ==> MaySee(d, d.list[i]) && d.objects[d.list[i]].isSq)
          && (forall i, j :: 0 <= i < j < |d.list| ==> d.list[i] != d.list[j])
          && (forall i :: 0 <= i < |d.list| ==> d.objects[d.list[i]].flagged == (i >= Served(d)))
          && (forall o :: o in d.objects && d.objects[o].flagged ==> o in d.list)
          && (forall o :: o in d.cursor ==> MaySee(d, o)))
    && (!Running(d) ==> forall o :: o in d.objects ==> !d.objects[o].flagged)
  }

  ghost predicate PassLaw(d: Device) { QidLaw(d) && TableLaw(d) && ListLaw(d) }

  lemma FlagKeeps(d: Device, o: nat, flagged: bool)
    requires QidLaw(d) && TableLaw(d) && o in d.objects
    ensures QidLaw(SetFlag(d, o, flagged)) && TableLaw(SetFlag(d, o, flagged))
  {
  }

  lemma StoredKeeps(d: Device, o: nat)
    requires PassLaw(d) && o in d.objects
    ensures PassLaw(d.(objects := d.objects[o := Stored(d.objects[o])]))
  {
    StoredIds(d, o);
    StoredList(d, o);
  }

  lemma StoredIds(d: Device, o: nat)
    requires QidLaw(d) && TableLaw(d) && o in d.objects
    ensures QidLaw(d.(objects := d.objects[o := Stored(d.objects[o])]))
    ensures TableLaw(d.(objects := d.objects[o := Stored(d.objects[o])]))
  {
  }

  lemma StoredList(d: Device, o: nat)
    requires ListLaw(d) && o in d.objects
    ensures ListLaw(d.(objects := d.objects[o := Stored(d.objects[o])]))
  {
    var r := d.(objects := d.objects[o := Stored(d.objects[o])]);
    assert forall p :: MaySee(r, p) <==> MaySee(d, p);
  }

  lemma EntryList(d: Device, o: nat)
    requires PassLaw(d) && d.phase == Harvesting && MaySee(d, o) && d.objects[o].isSq && !d.objects[o].flagged
    ensures ListLaw(SetFlag(d, o, true).(list := d.list + [o]))
  {
    var r := SetFlag(d, o, true).(list := d.list + [o]);
    assert o !in d.list;
    assert r.called == r.list[..0];
  }

  lemma EntryKeeps(d: Device, qid: nat, index: nat)
    requires PassLaw(d) && d.phase == Harvesting
    ensures PassLaw(HandleEntry(d, qid, index))
  {
    if qid < MAX_QUEUES && qid in d.table && d.objects[d.table[qid]].isSq && d.objects[d.table[qid]].tail == index {
      var o := d.table[qid];
      var h := d.(objects := d.objects[o := Stored(d.objects[o])]);
      StoredKeeps(d, o);
      if !d.objects[o].flagged {
        FlagKeeps(h, o, true);
        EntryList(h, o);
      }
    }
  }

  predicate LifeStep(s: Step) { s.Allocate? || s.Abandon? || s.Publish? || s.Unpublish? || s.FreeQid? || s.Free? }

  lemma LifeQids(d: Device, s: Step)
    requires PassLaw(d) && Enabled(d, s) && LifeStep(s)
    ensures QidLaw(Apply(d, s))
  {
    if s.Allocate? {
      AllocateQids(d, s);
    } else {
      OtherLifeQids(d, s);
    }
  }

  lemma AllocateQids(d: Device, s: Step)
    requires PassLaw(d) && Enabled(d, s) && s.Allocate?
    ensures QidLaw(Apply(d, s))
  {
  }

  lemma OtherLifeQids(d: Device, s: Step)
    requires PassLaw(d) && Enabled(d, s) && LifeStep(s) && !s.Allocate?
    ensures QidLaw(Apply(d, s))
  {
    match s
    case Abandon(_) =>
    case Publish(_) =>
    case Unpublish(_) =>
    case FreeQid(_) =>
    case Free(_) =>
  }

  lemma LifeTable(d: Device, s: Step)
    requires PassLaw(d) && Enabled(d, s) && LifeStep(s)
    ensures TableLaw(Apply(d, s))
  {
    match s
    case Publish(o) => PublishTable(d, o);
    case Unpublish(o) => UnpublishTable(d, o);
    case _ => OtherLifeTable(d, s);
  }

  lemma PublishTable(d: Device, o: nat)
    requires PassLaw(d) && Enabled(d, Publish(o))
    ensures TableLaw(Apply(d, Publish(o)))
  {
    forall q | q in d.table
      ensures q != d.objects[o].qid
    {
      assert d.table[q] != o && Owns(d.objects[d.table[q]]) && Owns(d.objects[o]);
    }
  }

  lemma UnpublishTable(d: Device, o: nat)
    requires PassLaw(d) && Enabled(d, Unpublish(o))
    ensures TableLaw(Apply(d, Unpublish(o)))
  {
    var r := Apply(d, Unpublish(o));
    forall p | p in r.objects && r.objects[p].life == Published
      ensures r.objects[p].qid in r.table
    {
      assert p != o && Owns(d.objects[p]) && Owns(d.objects[o]);
    }
  }

  lemma OtherLifeTable(d: Device, s: Step)
    requires PassLaw(d) && Enabled(d, s) && (s.Allocate? || s.Abandon? || s.FreeQid? || s.Free?)
    ensures TableLaw(Apply(d, s))
  {
  }

  /** A grace period protects everything the pass may see: its life goes on, its flag and kind stay. */
  lemma SeenSurvives(d: Device, s: Step, o: nat)
    requires PassLaw(d) && Enabled(d, s) && LifeStep(s) && Running(d) && MaySee(d, o)
    ensures var r := Apply(d, s);
      && MaySee(r, o) && r.objects[o].isSq == d.objects[o].isSq && r.objects[o].flagged == d.objects[o].flagged
  {
  }

  lemma NoNewFlags(d: Device, s: Step, o: nat)
    requires Enabled(d, s) && LifeStep(s) && o in Apply(d, s).objects && Apply(d, s).objects[o].flagged
    ensures o in d.objects && d.objects[o].flagged
  {
  }

  lemma LifeList(d: Device, s: Step)
    requires PassLaw(d) && Enabled(d, s) && LifeStep(s)
    ensures ListLaw(Apply(d, s))
  {
    var r := Apply(d, s);
    assert r.phase == d.phase && r.pass == d.pass && r.list == d.list && r.called == d.called && r.cursor == d.cursor;
    forall o | o in r.objects && r.objects[o].flagged
      ensures o in d.objects && d.objects[o].flagged
    {
      NoNewFlags(d, s, o);
    }
    if Running(d) {
      forall i | 0 <= i < |d.list|
        ensures MaySee(r, d.list[i]) && r.objects[d.list[i]].isSq && r.objects[d.list[i]].flagged == (i >= Served(d))
      {
        SeenSurvives(d, s, d.list[i]);
      }
      forall o | o in d.cursor
        ensures MaySee(r, o)
      {
        SeenSurvives(d, s, o);
      }
    }
  }

  lemma DispatchKeeps(d: Device)
    requires PassLaw(d) && Enabled(d, Dispatch)
    ensures PassLaw(Apply(d, Dispatch))
  {
    FlagKeeps(d, d.list[d.phase.next], false);
    DispatchList(d);
  }

  lemma DispatchList(d: Device)
    requires ListLaw(d) && Enabled(d, Dispatch)
    ensures ListLaw(Apply(d, Dispatch))
  {
    var r := Apply(d, Dispatch);
    assert r.list[..d.phase.next + 1] == d.list[..d.phase.next] + [d.list[d.phase.next]];
  }

  lemma PassKeeps(d: Device, s: Step)
    requires PassLaw(d) && Enabled(d, s) && (s.StartPass? || s.Poll? || s.StartDispatch? || s.EndPass?)
    ensures PassLaw(Apply(d, s))
  {
    var r := Apply(d, s);
    assert r.objects == d.objects && r.table == d.table && r.usedQids == d.usedQids && r.pass >= d.pass;
  }

  lemma StepKeeps(d: Device, s: Step)
    requires PassLaw(d) && Enabled(d, s)
    ensures PassLaw(Apply(d, s))
  {
    if LifeStep(s) {
      LifeQids(d, s);
      LifeTable(d, s);
      LifeList(d, s);
    } else {
      match s
      case Entry(qid, index) => EntryKeeps(d, qid, index);
      case Dispatch => DispatchKeeps(d);
      case _ => PassKeeps(d, s);
    }
  }

  predicate Legal(d: Device, steps: seq<Step>)
    decreases |steps|
  {
    steps == [] || (Enabled(d, steps[0]) && Legal(Apply(d, steps[0]), steps[1..]))
  }

  function Run(d: Device, steps: seq<Step>): Device
    requires Legal(d, steps)
    decreases |steps|
  {
    if steps == [] then d else Run(Apply(d, steps[0]), steps[1..])
  }

  lemma {:induction false} RunKeeps(d: Device, steps: seq<Step>)
    requires PassLaw(d) && Legal(d, steps)
    ensures PassLaw(Run(d, steps))
    decreases |steps|
  {
    if steps != [] {
      StepKeeps(d, steps[0]);
      RunKeeps(Apply(d, steps[0]), steps[1..]);
    }
  }

  const NEW_DEVICE := Device(map[], map[], {}, Idle, 0, {}, [], [])

  // ---------------------------------------------------------------- what a pass guarantees

  lemma {:induction false} SmallSet(s: set<nat>, n: nat)
    requires forall x :: x in s ==> x < n
    ensures |s| <= n
    decreases n
  {
    if n == 0 {
      assert s == {};
    } else {
      SmallSet(s - {n - 1}, n - 1);
    }
  }

  lemma {:induction false} DistinctQids(d: Device, list: seq<nat>)
    requires QidLaw(d)
    requires forall i :: 0 <= i < |list| ==> list[i] in d.objects && Owns(d.objects[list[i]])
    requires forall i, j :: 0 <= i < j < |list| ==> list[i] != list[j]
    ensures var qids := set i | 0 <= i < |list| :: d.objects[list[i]].qid; |qids| == |list|
  {
    var qids := set i | 0 <= i < |list| :: d.objects[list[i]].qid;
    if list == [] {
      assert qids == {};
    } else {
      var n := |list| - 1;
      var rest := list[..n];
      DistinctQids(d, rest);
      var qids' := set i | 0 <= i < |rest| :: d.objects[rest[i]].qid;
      var q := d.objects[list[n]].qid;
      assert q !in qids';
      assert qids == qids' + {q};
    }
  }

  /** int_sq_list holds distinct submission queues, no more than it has room for, of which the unserved are the
      flagged ones; everything the pass can reach is allocated and alone owns its queue id. */
  ghost predicate Reachable(d: Device) {
    && Served(d) <= |d.list| <= MAX_QUEUES
    && (forall i, j :: 0 <= i < j < |d.list| ==> d.list[i] != d.list[j])
    && (forall o :: o in d.objects ==> (d.objects[o].flagged <==> o in d.list[Served(d)..]))
    && (forall o :: o in d.list || o in d.cursor ==> AloneOwns(d, o))
  }

  predicate AloneOwns(d: Device, o: nat) {
    && o in d.objects && d.objects[o].qid in d.usedQids
    && forall p :: p in d.objects && p != o && Owns(d.objects[p]) ==> d.objects[p].qid != d.objects[o].qid
  }

  lemma SeenAloneOwns(d: Device, o: nat)
    requires QidLaw(d) && MaySee(d, o)
    ensures AloneOwns(d, o)
  {
  }

  lemma LawMeans(d: Device)
    requires PassLaw(d) && Running(d)
    ensures Reachable(d)
  {
    forall i | 0 <= i < |d.list|
      ensures d.list[i] in d.objects && Owns(d.objects[d.list[i]])
    {
      assert MaySee(d, d.list[i]);
    }
    DistinctQids(d, d.list);
    SmallSet(set i | 0 <= i < |d.list| :: d.objects[d.list[i]].qid, MAX_QUEUES);
    forall o | o in d.objects
      ensures d.objects[o].flagged <==> o in d.list[Served(d)..]
    {
      FlaggedIsUnserved(d, o);
    }
    forall o | o in d.list || o in d.cursor
      ensures AloneOwns(d, o)
    {
      SeenAloneOwns(d, o);
    }
  }

  /** Mid-pass this holds whatever is created or destroyed meanwhile: nothing the pass can reach is freed, and no
      such queue id is reused. */
  lemma PassSafety(steps: seq<Step>)
    requires Legal(NEW_DEVICE, steps)
    ensures Running(Run(NEW_DEVICE, steps)) ==> Reachable(Run(NEW_DEVICE, steps))
  {
    RunKeeps(NEW_DEVICE, steps);
    var d := Run(NEW_DEVICE, steps);
    if Running(d) {
      LawMeans(d);
    }
  }

  lemma FlaggedIsUnserved(d: Device, o: nat)
    requires PassLaw(d) && Running(d) && o in d.objects
    ensures d.objects[o].flagged <==> o in d.list[Served(d)..]
  {
    if d.objects[o].flagged {
      var i :| 0 <= i < |d.list| && d.list[i] == o;
      assert d.objects[d.list[i]].flagged == (i >= Served(d));
      assert d.list[Served(d)..][i - Served(d)] == o;
    }
    if o in d.list[Served(d)..] {
      var k :| 0 <= k < |d.list[Served(d)..]| && d.list[Served(d)..][k] == o;
      assert d.list[k + Served(d)] == o;
    }
  }

  // ---------------------------------------------------------------- who is called back

  /** A completion entry for the submission queue published as `qid`, with the index that queue expects. */
  predicate Fresh(d: Device, qid: nat, index: nat, o: nat) {
    && qid < MAX_QUEUES && qid in d.table && d.table[qid] == o
    && o in d.objects && d.objects[o].isSq && index == d.objects[o].tail
  }

  /** The submission queues for which such an entry came in the latest pass of the run; `so` is what came before. */
  function Woken(d: Device, steps: seq<Step>, so: set<nat>): set<nat>
    requires Legal(d, steps)
    decreases |steps|
  {
    if steps == [] then so
    else
      var now := match steps[0]
        case StartPass => {}
        case Entry(qid, index) =>
          if qid in d.table && Fresh(d, qid, index, d.table[qid]) then so + {d.table[qid]} else so
        case _ => so;
      Woken(Apply(d, steps[0]), steps[1..], now)
  }

  /** An entry with an index the queue does not expect, for an unknown qid or for a completion queue changes nothing. */
  lemma ForeignEntryIgnored(d: Device, qid: nat, index: nat)
    requires Enabled(d, Entry(qid, index)) && forall o :: !Fresh(d, qid, index, o)
    ensures Apply(d, Entry(qid, index)) == d
  {
    assert qid in d.table ==> !Fresh(d, qid, index, d.table[qid]);
  }

  /** Any other one flags its queue, puts it on the list unless it is there, and moves its index on by one. */
  lemma FreshEntryWakes(d: Device, qid: nat, index: nat, o: nat)
    requires PassLaw(d) && Enabled(d, Entry(qid, index)) && Fresh(d, qid, index, o)
    ensures var r := Apply(d, Entry(qid, index));
      && o in r.objects && r.objects[o].flagged && o in r.list
      && (d.objects[o].elCount > index ==> r.objects[o].tail == (index + 1) % d.objects[o].elCount)
      && (forall p :: p in r.list <==> p in d.list || p == o)
      && (forall p :: p in d.objects && p != o ==> p in r.objects && r.objects[p] == d.objects[p])
      && r.table == d.table && r.called == d.called && r.phase == d.phase
  {
    var r := Apply(d, Entry(qid, index));
    if d.objects[o].flagged {
      assert o in d.list;
      assert r.list == d.list;
    } else {
      assert r.list == d.list + [o];
    }
    StoredIndex(d.objects[o]);
  }

  lemma StoredIndex(x: Object)
    ensures x.elCount > x.tail ==> Stored(x).tail == (x.tail + 1) % x.elCount
    ensures Stored(x) == x.(tail := Stored(x).tail)
  {
    if x.tail + 1 == x.elCount {
      assert (x.tail + 1) % x.elCount == 0;
    }
  }

  lemma {:induction false} ListIsWoken(d: Device, steps: seq<Step>, so: set<nat>)
    requires PassLaw(d) && Legal(d, steps) && forall o :: o in d.list <==> o in so
    ensures forall o :: o in Run(d, steps).list <==> o in Woken(d, steps, so)
    decreases |steps|
  {
    if steps != [] {
      var s := steps[0];
      var r := Apply(d, s);
      StepKeeps(d, s);
      if s.StartPass? {
        ListIsWoken(r, steps[1..], {});
      } else if s.Entry? && s.qid in d.table && Fresh(d, s.qid, s.index, d.table[s.qid]) {
        FreshEntryWakes(d, s.qid, s.index, d.table[s.qid]);
        ListIsWoken(r, steps[1..], so + {d.table[s.qid]});
      } else {
        if s.Entry? {
          ForeignEntryIgnored(d, s.qid, s.index);
        }
        ListIsWoken(r, steps[1..], so);
      }
    }
  }

  /** When a pass is about to end, the submission queues called back are exactly those for which a fresh completion
      entry came in this pass, each of them once, and no flag is left. */
  lemma PassServesAll(steps: seq<Step>)
    requires Legal(NEW_DEVICE, steps) && Enabled(Run(NEW_DEVICE, steps), EndPass)
    ensures var d := Run(NEW_DEVICE, steps);
      && (forall o :: o in d.called <==> o in Woken(NEW_DEVICE, steps, {}))
      && (forall i, j :: 0 <= i < j < |d.called| ==> d.called[i] != d.called[j])
      && (forall o :: o in d.objects ==> !d.objects[o].flagged)
  {
    RunKeeps(NEW_DEVICE, steps);
    ListIsWoken(NEW_DEVICE, steps, {});
    AllServed(Run(NEW_DEVICE, steps));
  }

  lemma AllServed(d: Device)
    requires PassLaw(d) && Enabled(d, EndPass)
    ensures d.called == d.list && forall o :: o in d.objects ==> !d.objects[o].flagged
  {
    assert d.list[..|d.list|] == d.list;
    PassKeeps(d, EndPass);
  }

  // ---------------------------------------------------------------- the polling loop, in place

  /** One element of a completion queue; `pending` is BCE_COMPLETION_FLAG_PENDING. */
  datatype Element = Element(pending: bool, qid: nat, index: nat)

  predicate InRun(i: nat, start: nat, count: nat, n: nat)
    requires n > 0
  {
    exists k :: 0 <= k < count && i == Wrap(start, k, n)
  }

  function Wrap(start: nat, k: nat, n: nat): nat
    requires n > 0
  {
    (start + k) % n
  }

  /** The entries of a poll, one after the other. */
  function HandleAll(d: Device, es: seq<Element>): Device
    decreases |es|
  {
    if es == [] then d else HandleAll(HandleEntry(d, es[0].qid, es[0].index), es[1..])
  }

  lemma {:induction false} HandleAllAppend(d: Device, es: seq<Element>, e: Element)
    ensures HandleAll(d, es + [e]) == HandleEntry(HandleAll(d, es), e.qid, e.index)
    decreases |es|
  {
    if es == [] {
      assert es + [e] == [e];
      assert [e][1..] == [];
    } else {
      HandleAllAppend(HandleEntry(d, es[0].qid, es[0].index), es[1..], e);
      assert (es + [e])[1..] == es[1..] + [e];
    }
  }

  class CompletionQueue {
    const elements: array<Element>
    var index: nat

    constructor (elCount: nat)
      requires elCount > 0
      ensures index == 0 && elements.Length == elCount && fresh(elements)
      ensures forall i :: 0 <= i < elCount ==> !elements[i].pending
    {
      elements := new Element[elCount](i => Element(false, 0, 0));
      index := 0;
    }

    /** bce_poll_cq: handles the unbroken run of pending elements that starts at the index, in ring order, and
        hands each of them back to the device; all others stay as they are. `d` and `r` are the queues before and
        after. */
    method Poll(d: Device) returns (got: seq<Element>, r: Device)
      requires index < elements.Length
      modifies this, elements
      ensures r == HandleAll(d, got)
      ensures |got| <= elements.Length && index == Wrap(old(index), |got|, elements.Length)
      ensures forall k :: 0 <= k < |got| ==>
                got[k] == old(elements[Wrap(index, k, elements.Length)]) && got[k].pending
      ensures !elements[index].pending
      ensures forall i :: 0 <= i < elements.Length ==>
                if InRun(i, old(index), |got|, elements.Length)
                then elements[i] == old(elements[i]).(pending := false) else elements[i] == old(elements[i])
    {
      got, r := [], d;
      var n := elements.Length;
      WrapZero(index, n);
      while elements[index].pending
        invariant index < n && |got| <= n && index == Wrap(old(index), |got|, n)
        invariant r == HandleAll(d, got)
        invariant forall k :: 0 <= k < |got| ==> got[k] == old(elements[Wrap(index, k, n)]) && got[k].pending
        invariant forall i :: 0 <= i < n ==>
                    if InRun(i, old(index), |got|, n)
                    then elements[i] == old(elements[i]).(pending := false) else elements[i] == old(elements[i])
        decreases n - |got|
      {
        if |got| == n {
          EverySlot(old(index), index, n);
          assert false;
        }
        ghost var was := got;
        var e := elements[index];
        assert !InRun(index, old(index), |got|, n);
        r := HandleEntry(r, e.qid, e.index);
        HandleAllAppend(d, got, e);
        got := got + [e];
        elements[index] := e.(pending := false);
        InRunStep(old(index), |was|, n);
        WrapStep(old(index), |was|, n);
        index := (index + 1) % n;
      }
    }
  }

  lemma WrapZero(start: nat, n: nat)
    requires start < n
    ensures Wrap(start, 0, n) == start
  {
  }

  lemma WrapStep(start: nat, k: nat, n: nat)
    requires n > 0
    ensures (Wrap(start, k, n) + 1) % n == Wrap(start, k + 1, n)
  {
    ModStep(start + k, n);
  }

  lemma InRunStep(start: nat, count: nat, n: nat)
    requires n > 0
    ensures forall i: nat :: InRun(i, start, count + 1, n) <==> InRun(i, start, count, n) || i == Wrap(start, count, n)
  {
    forall i: nat
      ensures InRun(i, start, count + 1, n) <==> InRun(i, start, count, n) || i == Wrap(start, count, n)
    {
      if i == Wrap(start, count, n) {
        assert 0 <= count < count + 1;
      }
      if InRun(i, start, count, n) {
        var k :| 0 <= k < count && i == Wrap(start, k, n);
        assert k < count + 1;
      }
    }
  }

  /** A full lap covers every slot. */
  lemma EverySlot(start: nat, i: nat, n: nat)
    requires start < n && i < n
    ensures InRun(i, start, n, n)
  {
    var k := if i >= start then i - start else i + n - start;
    assert Wrap(start, k, n) == i;
  }
}
