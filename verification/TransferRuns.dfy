/** Runs of a transfer queue: every interleaving of submitters, cancellers, T2 events,
    DMA completions, giveback callers, the flush and reset workers, pause and resume. */
module TransferRuns {
  import opened TransferModel

  /** One lock-held region, or one call into the USB core. */
  datatype Action =
    | Submit(id: nat, dirIn: bool, length: nat, linkStatus: int, granted: seq<bool>)
    | Deliver(msg: Message, memory: bool, granted: seq<bool>)
    | Harvested(out: bool, cs: seq<Completion>, granted: seq<bool>)
    | Cancel(id: nat, status: int)
    | PopGiveback
    | HandBack(k: nat)
    | StartFlush
    | ResetCounters
    | CancelEverything
    | Destroy
    | StallReported
    | PauseStart(src: PauseSource)
    | PauseDropEvents
    | PauseEnd(ok: bool)
    | ResumeStart(src: PauseSource)
    | ResumeFail
    | ResumeGo(granted: seq<bool>)
    | ResumeEnd
    | ResetStart
    | ResetDropEvents
    | ResetEnd
    | SuspendStart
    | SuspendEnd

  /** How often an URB is on the endpoint list. */
  function Listed(urbs: seq<Vurb>, id: nat): nat {
    if urbs == [] then 0
    else Listed(urbs[..|urbs| - 1], id) + if urbs[|urbs| - 1].id == id then 1 else 0
  }

  /** How often an URB is on a list of URBs going back. */
  function Going(ds: seq<Done>, id: nat): nat {
    if ds == [] then 0
    else Going(ds[..|ds| - 1], id) + if ds[|ds| - 1].id == id then 1 else 0
  }

  /** In how many places an URB is: the endpoint list, the giveback list, the flush list,
      the hands of a caller, the USB core. */
  function Places(q: Queue, id: nat): nat {
    Listed(q.core.urbs, id) + Going(q.core.giveback, id) + Going(q.flushGiveback, id) + Going(q.inHand, id)
        + Going(q.given, id)
  }

  predicate Waiting(u: Vurb) { u.state == WaitingForCompletion }

  /** What the callers, the workqueue, the locks and the device guarantee about a step. */
  predicate Enabled(q: Queue, a: Action) {
    match a
    case Submit(id, dirIn, length, _, _) =>
      Places(q, id) == 0 && (q.core.cfg.control || dirIn == q.core.cfg.dirIn) && length < U32_RANGE
    case Harvested(out, cs, _) => |cs| <= |Owed(q.core.dma, out)|
    case PopGiveback => q.core.giveback != []
    case HandBack(k) => k < |q.inHand|
    case StartFlush => q.flushQueued && !q.flushRunning
    case ResetCounters => q.flushRunning
    case PauseStart(_) => q.holder == Nobody
    case PauseDropEvents => q.holder.Pausing?
    case PauseEnd(_) => q.holder.Pausing?
    case ResumeStart(_) => q.holder == Nobody
    case ResumeFail => q.holder.Resuming?
    case ResumeGo(_) =>
      q.holder.Resuming? && (q.core.cfg.control || q.core.cfg.dirIn || forall u :: u in q.core.urbs ==> !Waiting(u))
    case ResumeEnd => q.holder.Resumed?
    case ResetStart => q.holder == Nobody
    case ResetDropEvents => q.holder == Resetting(false)
    case ResetEnd => q.holder == Resetting(true)
    case SuspendStart => q.holder == Nobody
    case SuspendEnd => q.holder == Suspending
    case _ => true
  }

  function Granted(q: Core, granted: seq<bool>): Core { q.(dma := q.dma.(grants := granted)) }

  function Inactive(q: Queue): Queue { q.(core := q.core.(flags := q.core.flags.(active := false))) }

  /** bce_vhci_transfer_queue_pause up to its first command, or all of it when no command is needed. */
  function DoPauseStart(q: Queue, src: PauseSource): Queue {
    if src in q.pausedBy then q
    else if q.pausedBy != {} then q.(pausedBy := q.pausedBy + {src})
    else Inactive(q).(holder := Pausing(src))
  }

  /** bce_vhci_transfer_queue_resume up to SET_STATE ACTIVE, or all of it when none is sent. */
  function DoResumeStart(q: Queue, src: PauseSource): Queue {
    if src !in q.pausedBy then q
    else if q.pausedBy - {src} != {} then q.(pausedBy := q.pausedBy - {src})
    else q.(holder := Resuming(src))
  }

  function Apply(q: Queue, a: Action): Queue
    requires Enabled(q, a)
  {
    match a
    case Submit(id, dirIn, length, linkStatus, granted) =>
      q.(core := UrbCreate(Granted(q.core, granted), InternalWq in q.pausedBy, id, dirIn, length, linkStatus).q)
    case Deliver(msg, memory, granted) =>
      q.(core := Event(Granted(q.core, granted), InternalWq in q.pausedBy, msg, memory))
    case Harvested(out, cs, granted) => q.(core := CompletionHandler(Granted(q.core, granted), out, cs))
    case Cancel(id, status) => RequestCancel(q, id, status).0
    case PopGiveback => GivebackPop(q)
    case HandBack(k) => HandOver(q, k)
    case StartFlush => q.(flushQueued := false, flushRunning := true)
    case ResetCounters => FlushReset(q)
    case CancelEverything => q.(core := CancelAll(q.core))
    case Destroy => DestroySplice(q)
    case StallReported => q.(core := q.core.(flags := Stalled(q.core.flags)))
    case PauseStart(src) => DoPauseStart(q, src)
    case PauseDropEvents => q.(core := q.core.(evq := []))
    case PauseEnd(ok) =>
      q.(holder := Nobody, pausedBy := if ok then q.pausedBy + {q.holder.src} else q.pausedBy)
    case ResumeStart(src) => DoResumeStart(q, src)
    case ResumeFail => q.(holder := Nobody)
    case ResumeGo(granted) =>
      q.(core := ResumeActivate(Granted(q.core, granted)), holder := Resumed(q.holder.src))
    case ResumeEnd => q.(holder := Nobody, pausedBy := q.pausedBy - {q.holder.src})
    case ResetStart => if q.core.flags.stalled then Inactive(q).(holder := Resetting(false)) else q
    case ResetDropEvents =>
      q.(core := q.core.(evq := []), pausedBy := q.pausedBy + {InternalWq}, holder := Resetting(true))
    case ResetEnd => q.(core := q.core.(flags := q.core.flags.(stalled := false)), holder := Nobody)
    case SuspendStart => (if q.pausedBy == {} then Inactive(q) else q).(holder := Suspending)
    case SuspendEnd => q.(holder := Nobody, pausedBy := q.pausedBy + {Suspend})
  }

  predicate Legal(q: Queue, acts: seq<Action>)
    decreases |acts|
  {
    acts == [] || (Enabled(q, acts[0]) && Legal(Apply(q, acts[0]), acts[1..]))
  }

  function Run(q: Queue, acts: seq<Action>): Queue
    requires Legal(q, acts)
    decreases |acts|
  {
    if acts == [] then q else Run(Apply(q, acts[0]), acts[1..])
  }
}
