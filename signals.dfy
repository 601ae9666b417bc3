/**
 * The process-level flags of the run loop and the signal handlers that set
 * them (`signal_drain`, `signal_resume`, `signal_handler`). SIGUSR1 starts
 * draining, SIGUSR2 resumes; SIGINT and SIGTERM set the stop event the first
 * time and exit the process the second time. Signals are applied one at a time,
 * between poll cycles.
 */
module Signals {
  import opened Wrappers

  datatype Sig = SigInt | SigTerm | SigUsr1 | SigUsr2

  predicate IsStop(s: Sig) {
    s == SigInt || s == SigTerm
  }

  /** `drain`, `event.is_set()`, and whether `sys.exit(-1)` was reached. */
  datatype Flags = Flags(drain: bool, stopping: bool, exited: bool)

  const Initial: Flags := Flags(false, false, false)

  /** The handler that `run` installs for s, applied to the flags. */
  function AfterSignal(f: Flags, s: Sig): (r: Flags)
    ensures r.stopping == (f.stopping || IsStop(s))
    ensures r.exited == (f.exited || (f.stopping && IsStop(s)))
    ensures IsStop(s) ==> r.drain == f.drain
  {
    match s
    case SigUsr1 => f.(drain := true)
    case SigUsr2 => f.(drain := false)
    case _ => if f.stopping then f.(exited := true) else f.(stopping := true)
  }

  /** The flags after a sequence of signals, delivered in order. */
  function Replay(f: Flags, sigs: seq<Sig>): Flags
    decreases |sigs|
  {
    if sigs == [] then f else Replay(AfterSignal(f, sigs[0]), sigs[1..])
  }

  function StopCount(sigs: seq<Sig>): nat {
    if sigs == [] then 0 else (if IsStop(sigs[0]) then 1 else 0) + StopCount(sigs[1..])
  }

  /** The last drain-related signal, if any. */
  function LastDrainSignal(sigs: seq<Sig>): (r: Option<Sig>)
    ensures r.Some? ==> r.value == SigUsr1 || r.value == SigUsr2
  {
    if sigs == [] then None
    else
      var later := LastDrainSignal(sigs[1..]);
      if later.Some? then later
      else if sigs[0] == SigUsr1 || sigs[0] == SigUsr2 then Some(sigs[0])
      else None
  }

  /** The stop event is set by the first stop signal; the process exits on the second. */
  lemma {:induction false} ReplayStops(f: Flags, sigs: seq<Sig>)
    ensures Replay(f, sigs).stopping == (f.stopping || StopCount(sigs) >= 1)
    ensures Replay(f, sigs).exited ==
      (f.exited || (f.stopping && StopCount(sigs) >= 1) || StopCount(sigs) >= 2)
    decreases |sigs|
  {
    if sigs != [] {
      ReplayStops(AfterSignal(f, sigs[0]), sigs[1..]);
    }
  }

  /** Draining is decided by the last SIGUSR1 or SIGUSR2; stop signals leave it alone. */
  lemma {:induction false} ReplayDrain(f: Flags, sigs: seq<Sig>)
    ensures Replay(f, sigs).drain ==
      (match LastDrainSignal(sigs) case None => f.drain case Some(s) => s == SigUsr1)
    decreases |sigs|
  {
    if sigs != [] {
      ReplayDrain(AfterSignal(f, sigs[0]), sigs[1..]);
    }
  }

  /** From a fresh start, the process exits exactly when it received at least two stop signals. */
  lemma ExitsOnSecondStop(sigs: seq<Sig>)
    ensures Replay(Initial, sigs).exited <==> StopCount(sigs) >= 2
    ensures Replay(Initial, sigs).stopping <==> StopCount(sigs) >= 1
  {
    ReplayStops(Initial, sigs);
  }

  /** The flags `run` keeps in globals, as one object the handlers update. */
  class Controller {
    var drain: bool
    var stopping: bool
    var exited: bool

    function View(): Flags
      reads this
    {
      Flags(drain, stopping, exited)
    }

    /** `drain = False` and a fresh, unset `threading.Event()`. */
    constructor ()
      ensures View() == Initial
    {
      drain, stopping, exited := false, false, false;
    }

    method Signal(s: Sig)
      modifies this
      ensures View() == AfterSignal(old(View()), s)
    {
      match s
      case SigUsr1 =>
        drain := true;
      case SigUsr2 =>
        drain := false;
      case _ =>
        if stopping {
          exited := true;
        } else {
          stopping := true;
        }
    }
  }
}
