/** What every install operation is exposed to: the outcome of one atomic disk action, and the
    exceptions the operation code raises and handles. */
module InstallCore {

  /** What the environment does to the next atomic action (a rename, a link, an unlink, a check run).
      `Crash`: the process dies before the action. `FailBefore` and `FailAfter`: an interrupt or an
      operating system error surfaces instead of the action, or right after it took effect.
      `Reject`: a check run finds a problem; any other action just proceeds. */
  datatype Fault = Proceed | Crash | FailBefore | FailAfter | Reject

  datatype Exn = NeedsOperator | VerifyFailed | SmokeFailed | StagingLost | Interrupted

  /** How a piece of operation code ended: normally, with the process gone, or with an exception. */
  datatype Status = Done | Halted | Raised(exn: Exn) {
    predicate IsFailure() {
      !Done?
    }

    function PropagateFailure(): Status
      requires IsFailure()
    {
      this
    }
  }

  function Next(faults: seq<Fault>): Fault {
    if faults == [] then Proceed else faults[0]
  }

  function Rest(faults: seq<Fault>): (rest: seq<Fault>)
    ensures Reject in rest ==> Reject in faults
  {
    if faults == [] then [] else faults[1..]
  }

  /** The action takes effect. */
  predicate Happens(faults: seq<Fault>) {
    Next(faults) in {Proceed, FailAfter, Reject}
  }

  function Verdict(faults: seq<Fault>): Status {
    match Next(faults)
    case Crash => Halted
    case FailBefore | FailAfter => Raised(Interrupted)
    case Proceed | Reject => Done
  }

  /** The next action fails before it takes effect. */
  predicate FailsAtOnce(faults: seq<Fault>) {
    Next(faults) == FailBefore
  }

  /** Nothing interrupts the run; its checks may still fail. */
  predicate Calm(faults: seq<Fault>) {
    forall i :: 0 <= i < |faults| ==> faults[i] in {Proceed, Reject}
  }
}
