/** What the runner makes of core's answers about a stop, an operation or an instance, and why every
    report and fact it sends is one the system model lets a truthful Controller send. */
module Observations {
  import opened Facts
  import opened Ledger
  import opened Calls
  import opened Joint

  datatype Instance = Instance(id: Token, lifecycle: string, process: string, cleanup: string, room: string, port: int, operation: Token)
  datatype StatusAnswer = Seen(instance: Instance) | StatusError(code: Token, stage: Token) | StatusLost
  datatype OperationAnswer = Found(instance: Token, kind: JobKind, status: string, code: Token, stage: Token) | OperationError(code: Token, stage: Token) | OperationLost

  // The job as the cycle holds it; `proved` is whether the machine proof of a v1.0.2 create still holds.
  datatype Held = Held(kind: JobKind, instance: Token, operation: Token, capability: Capability, proved: bool)

  predicate Reclaimed(i: Instance) {
    ReclaimedStatus(i.lifecycle, i.process, i.cleanup)
  }

  predicate IdentityFailure(code: Token) {
    code == "IDENTITY_UNVERIFIED" || code == "NOT_FOUND"
  }

  predicate TerminalFailure(code: Token) {
    code == "IDENTITY_UNVERIFIED" || code == "CLEANUP_FAILED" || code == "STOP_FAILED"
  }

  function Failed(job: Held, code: Token, stage: Token): Report {
    Report(JFailedWithEffect, job.instance, job.operation, code, stage, None, "")
  }

  function Lost(job: Held): Report {
    Failed(job, "IDENTITY_UNVERIFIED", "recover")
  }

  // An error core answered with while the runner looked at a job.
  function OnError(job: Held, code: Token, stage: Token): Option<Report> {
    if job.kind.Stop? && (TerminalFailure(code) || IdentityFailure(code))
    then Some(Failed(job, if code == "NOT_FOUND" then "IDENTITY_UNVERIFIED" else code, stage))
    else if job.kind.Create? && IdentityFailure(code) then Some(Lost(job))
    else None
  }

  // observe, once the operation is known to be over.
  function Settled(job: Held, op: OperationAnswer, i: Instance, join: Option<JoinInfo>, joinError: Token): Option<Report>
    requires op.Found?
  {
    if job.kind.Stop? && Reclaimed(i) then Some(Report(JSucceeded, job.instance, job.operation, "", "", None, ""))
    else if job.kind.Stop? && (i.cleanup == "failed" || i.process == "unknown") then
      Some(Failed(job, if i.cleanup == "failed" then "CLEANUP_FAILED" else "IDENTITY_UNVERIFIED", "cleanup"))
    else if op.status == "succeeded" then
      if job.kind.Create? && (i.process == "unknown" || i.lifecycle == "failed" || i.process == "stopped") then
        Some(Failed(job, if i.process == "unknown" then "IDENTITY_UNVERIFIED" else "INSTANCE_FAILED", "recover"))
      else if job.kind.Create? && i.lifecycle == "active" && i.process == "running" && i.room == "ready" then
        Some(Report(JSucceeded, job.instance, job.operation, "", "", join, joinError))
      else None
    else if op.status == "failed" || op.status == "cancelled" then Some(Failed(job, op.code, op.stage))
    else None
  }

  // observe
  function Observe(job: Held, op: OperationAnswer, status: StatusAnswer, join: Option<JoinInfo>, joinError: Token): Option<Report> {
    if job.operation == "" || job.instance == "" then None
    else if job.kind.Create? && job.capability.ContentValidationV102? && !job.proved then
      Some(Report(JUnknown, job.instance, job.operation, "LOCAL_IDENTITY_DRIFT", "reconcile", None, ""))
    else match op
      case OperationError(code, stage) => OnError(job, code, stage)
      case OperationLost => None
      case Found(instance, kind, running, _, _) =>
        if instance != job.instance || kind != job.kind then Some(Lost(job))
        else if running == "running" then None
        else match status
          case StatusError(code, stage) => OnError(job, code, stage)
          case StatusLost => None
          case Seen(i) => if i.id != job.instance then Some(Lost(job)) else Settled(job, op, i, join, joinError)
  }

  // reconcileActive: the fact about an allocation with no open job. A lost answer is no fact at all.
  function FactOf(instance: Token, running: bool, status: StatusAnswer, join: Option<JoinInfo>, joinError: Token): Option<Fact> {
    match status
    case StatusLost => None
    case StatusError(code, stage) =>
      if IdentityFailure(code) then Some(Fact(instance, IdentityUnverified, "", "", "", 0, "", None, "")) else None
    case Seen(i) =>
      if i.id != instance then Some(Fact(instance, IdentityUnverified, "", "", "", 0, "", None, ""))
      else if Reclaimed(i) then Some(Fact(instance, Outcome.Gone, i.lifecycle, i.process, i.cleanup, i.port, "", None, ""))
      else if i.process == "unknown" then Some(Fact(instance, IdentityUnverified, i.lifecycle, i.process, i.cleanup, i.port, "", None, ""))
      else if i.lifecycle == "active" && i.process == "running" then
        var joins := running && i.room == "ready";
        Some(Fact(instance, Active, i.lifecycle, i.process, i.cleanup, i.port, i.room,
                  if joins then join else None, if joins then joinError else ""))
      else Some(Fact(instance, Uncertain, i.lifecycle, i.process, i.cleanup, i.port, "", None, ""))
  }

  // ---- Truthfulness ----

  // Core shows an instance as fully reclaimed only when it is.
  predicate CoreIsTrue(w: World, status: StatusAnswer) {
    status.Seen? && Reclaimed(status.instance) ==> status.instance.id in w.reclaimed
  }

  // The runner's picture of the job agrees with the Platform's row, or has what core just answered for its key.
  predicate HeldOf(w: World, j: Id, job: Held) {
    && j in w.db.jobs && w.db.jobs[j].kind == job.kind && w.db.jobs[j].capability == job.capability
    && (job.kind.Create? ==> j in w.byKey && w.byKey[j] == job.instance)
    && (job.kind.Stop? ==> w.db.jobs[j].instance == job.instance)
  }

  // The operation is the job's own, and over.
  predicate OwnOperation(job: Held, op: OperationAnswer) {
    op.Found? && op.instance == job.instance && op.kind == job.kind && op.status != "running"
  }

  // Core shows the job's own instance.
  predicate OwnInstance(job: Held, status: StatusAnswer) {
    status.Seen? && status.instance.id == job.instance
  }

  predicate GoneWhole(i: Instance) {
    i.lifecycle == "reclaimed" && i.process == "stopped" && i.cleanup == "complete"
  }

  predicate Playable(i: Instance) {
    i.lifecycle == "active" && i.process == "running" && i.room == "ready"
  }

  // A stop is reported as succeeded exactly on a full reclaim of its own instance behind its own finished operation, whatever
  // that operation says of itself; a create exactly for its own succeeded operation and its own playable instance, with the
  // entry as given, while the machine proof of an upgraded job holds. No observation ever rejects, or names other IDs.
  lemma SuccessNeedsProof(job: Held, op: OperationAnswer, status: StatusAnswer, join: Option<JoinInfo>, joinError: Token)
    ensures var r := Observe(job, op, status, join, joinError);
            && (r.Some? ==> !r.value.state.JRejectedNoEffect? && r.value.instance == job.instance && r.value.operation == job.operation)
            && (r.Some? && r.value.state.JSucceeded? <==>
                  && job.instance != "" && job.operation != "" && OwnOperation(job, op) && OwnInstance(job, status)
                  && match job.kind
                     case Stop => GoneWhole(status.instance)
                     case Create => op.status == "succeeded" && Playable(status.instance) && (job.capability.ContentValidationV102? ==> job.proved))
            && (r.Some? && r.value.state.JSucceeded? ==>
                  r.value == if job.kind.Stop? then Report(JSucceeded, job.instance, job.operation, "", "", None, "")
                             else Report(JSucceeded, job.instance, job.operation, "", "", join, joinError))
  {
  }

  // Whatever else is reported of a stop, case by case; all other answers leave it open.
  lemma StopObserved(job: Held, op: OperationAnswer, status: StatusAnswer, join: Option<JoinInfo>, joinError: Token)
    requires job.kind.Stop? && job.instance != "" && job.operation != ""
    requires !(OwnOperation(job, op) && OwnInstance(job, status) && GoneWhole(status.instance))
    ensures var r := Observe(job, op, status, join, joinError);
            var failed := (code, stage) => Some(Report(JFailedWithEffect, job.instance, job.operation, code, stage, None, ""));
            match op
            case OperationLost => r == None
            case OperationError(code, stage) =>
              r == if code == "NOT_FOUND" then failed("IDENTITY_UNVERIFIED", stage)
                   else if code in {"IDENTITY_UNVERIFIED", "CLEANUP_FAILED", "STOP_FAILED"} then failed(code, stage) else None
            case Found(instance, kind, running, opCode, opStage) =>
              if instance != job.instance || kind.Create? then r == failed("IDENTITY_UNVERIFIED", "recover")
              else if running == "running" then r == None
              else match status
                case StatusLost => r == None
                case StatusError(code, stage) =>
                  r == if code == "NOT_FOUND" then failed("IDENTITY_UNVERIFIED", stage)
                       else if code in {"IDENTITY_UNVERIFIED", "CLEANUP_FAILED", "STOP_FAILED"} then failed(code, stage) else None
                case Seen(i) =>
                  r == if i.id != job.instance then failed("IDENTITY_UNVERIFIED", "recover")
                       else if i.cleanup == "failed" then failed("CLEANUP_FAILED", "cleanup")
                       else if i.process == "unknown" then failed("IDENTITY_UNVERIFIED", "cleanup")
                       else if running in {"failed", "cancelled"} then failed(opCode, opStage) else None
  {
  }

  // The same of a create. One whose machine proof no longer holds is in doubt, before core is asked.
  lemma CreateObserved(job: Held, op: OperationAnswer, status: StatusAnswer, join: Option<JoinInfo>, joinError: Token)
    requires job.kind.Create? && job.instance != "" && job.operation != ""
    requires !(OwnOperation(job, op) && op.status == "succeeded" && OwnInstance(job, status) && Playable(status.instance)
               && (job.capability.ContentValidationV102? ==> job.proved))
    ensures var r := Observe(job, op, status, join, joinError);
            var failed := (code, stage) => Some(Report(JFailedWithEffect, job.instance, job.operation, code, stage, None, ""));
            if job.capability.ContentValidationV102? && !job.proved then
              r == Some(Report(JUnknown, job.instance, job.operation, "LOCAL_IDENTITY_DRIFT", "reconcile", None, ""))
            else match op
              case OperationLost => r == None
              case OperationError(code, _) => r == if code in {"IDENTITY_UNVERIFIED", "NOT_FOUND"} then failed("IDENTITY_UNVERIFIED", "recover") else None
              case Found(instance, kind, running, opCode, opStage) =>
                if instance != job.instance || kind.Stop? then r == failed("IDENTITY_UNVERIFIED", "recover")
                else if running == "running" then r == None
                else match status
                  case StatusLost => r == None
                  case StatusError(code, _) => r == if code in {"IDENTITY_UNVERIFIED", "NOT_FOUND"} then failed("IDENTITY_UNVERIFIED", "recover") else None
                  case Seen(i) =>
                    r == if i.id != job.instance then failed("IDENTITY_UNVERIFIED", "recover")
                         else if running == "succeeded" then
                           if i.process == "unknown" then failed("IDENTITY_UNVERIFIED", "recover")
                           else if i.lifecycle == "failed" || i.process == "stopped" then failed("INSTANCE_FAILED", "recover") else None
                         else if running in {"failed", "cancelled"} then failed(opCode, opStage) else None
  {
  }

  // Before a job has both of core's IDs there is nothing to observe.
  lemma NothingToObserve(job: Held, op: OperationAnswer, status: StatusAnswer, join: Option<JoinInfo>, joinError: Token)
    requires job.instance == "" || job.operation == ""
    ensures Observe(job, op, status, join, joinError) == None
  {
  }

  // What is made of core's word about an instance with no open job: nothing of a lost answer or of an error that says nothing of
  // its identity; else what the instance shows, with an entry only where a running allocation's room is ready.
  lemma FactSeen(instance: Token, running: bool, status: StatusAnswer, join: Option<JoinInfo>, joinError: Token)
    ensures var f := FactOf(instance, running, status, join, joinError);
            match status
            case StatusLost => f == None
            case StatusError(code, _) =>
              f == if code in {"IDENTITY_UNVERIFIED", "NOT_FOUND"} then Some(Fact(instance, IdentityUnverified, "", "", "", 0, "", None, "")) else None
            case Seen(i) =>
              && f.Some? && f.value.instance == instance
              && (f.value.outcome.Gone? <==> i.id == instance && GoneWhole(i))
              && (f.value.outcome.Active? <==> i.id == instance && i.lifecycle == "active" && i.process == "running")
              && (f.value.outcome.IdentityUnverified? <==> i.id != instance || i.process == "unknown")
              && (i.id == instance ==> (f.value.lifecycle, f.value.process, f.value.cleanup, f.value.port) == (i.lifecycle, i.process, i.cleanup, i.port))
              && f.value.room == (if f.value.outcome.Active? then i.room else "")
              && (f.value.join, f.value.joinError) == (if running && f.value.outcome.Active? && i.room == "ready" then (join, joinError) else (None, ""))
  {
  }

  lemma ObservationsAreTruthful(w: World, node: Id, j: Id, job: Held, op: OperationAnswer, status: StatusAnswer,
                                join: Option<JoinInfo>, joinError: Token, stop: Id, next: Id)
    requires HeldOf(w, j, job) && CoreIsTrue(w, status)
    ensures var r := Observe(job, op, status, join, joinError);
            r.Some? ==> Truthful(w, CReport(node, j, r.value, stop, next))
  {
    SuccessNeedsProof(job, op, status, join, joinError);
    hide Observe;
  }

  lemma FactsAreTruthful(w: World, node: Id, a: Id, instance: Token, running: bool, status: StatusAnswer,
                         join: Option<JoinInfo>, joinError: Token, stop: Id, next: Id)
    requires CoreIsTrue(w, status)
    ensures var f := FactOf(instance, running, status, join, joinError);
            f.Some? ==> f.value.instance == instance && Truthful(w, CFact(node, a, f.value, stop, next))
    ensures status.StatusLost? ==> FactOf(instance, running, status, join, joinError).None?
  {
  }
}
