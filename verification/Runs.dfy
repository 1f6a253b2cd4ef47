/** Whole runs of service calls: what they keep, how states follow one another, and that a
    repeated request is answered as it was the first time. */
module Runs {
  import opened Common
  import opened Records
  import opened StoreModel
  import opened Steps
  import opened Digest
  import opened Invariants
  import opened Paths
  import opened ServiceEffects
  import opened RecoveryRules
  import opened RecoverySteps
  import opened DeliverySteps
  import opened FeedbackRules
  import opened FeedbackSteps
  import opened IdempotencySteps
  import opened PublicationRules
  import opened PublicationSteps
  import Rules = DeliveryRules

  // ---------------------------------------------------------------- calls and runs

  /** One service call, with everything the outside supplies to it. */
  datatype Call =
    | RunCall(planId: Id, at: Timestamp, runPorts: RunPorts)
    | RequestCall(retry: RetryRequest, ports: Ports)
    | MoveCall(move: DeadLetterMove, ports: Ports)
    | PrepareCall(replay: ReplayRequest, requestedAt: Timestamp, ports: Ports)
    | ProgressCall(deliveryId: Id, startedAt: Timestamp, answer: Result<BackendResult, TransportError>, finishedAt: Timestamp)
    | FeedbackCall(command: FeedbackCommand, key: Option<Id>, ports: Ports)
    | SignalCall(signal: BackendSignal, answer: Result<BackendResult, TransportError>, ports: Ports)
    | TimeoutCall(timeout: TimeoutSignal, ports: Ports)
    | AcceptCall(publication: PublicationCommand, key: Option<Id>, ports: Ports)
    | FactCall(fact: OutboxFact, ports: Ports)

  /** A call by an actor under a trace, with the failpoints armed when it is made. */
  datatype Turn = Turn(call: Call, actor: Actor, trace: Id, faults: Faults)

  /** How a recovery call ends. */
  function RecoveryExit(c: Committed, t: Turn): Exit {
    match t.call
    case RunCall(id, at, ports) =>
      if id in c.plans then RunPlan(c, c.plans[id], t.actor, t.trace, at, ports, t.faults).exit else NeverBegan
    case RequestCall(r, ports) => RequestRetry(c, r, t.actor, t.trace, ports, t.faults).exit
    case MoveCall(m, ports) => MoveToDeadLetter(c, m, t.actor, t.trace, ports, t.faults).exit
    case PrepareCall(r, at, ports) => PrepareReplay(c, r, t.actor, t.trace, at, ports, t.faults).exit
    case _ => NeverBegan
  }

  /** How a report on a dispatched delivery ends. */
  function ReportExit(c: Committed, t: Turn): Exit {
    match t.call
    case FeedbackCall(m, key, ports) => RecordFeedback(c, m, key, t.actor, t.trace, ports, t.faults).exit
    case SignalCall(m, answer, ports) => RecordSignal(c, m, answer, t.actor, t.trace, ports, t.faults).exit
    case TimeoutCall(m, ports) => RecordTimeout(c, m, t.actor, t.trace, ports, t.faults).exit
    case _ => NeverBegan
  }

  /** How accepting a publication or dispatching a delivery ends. */
  function ForwardExit(c: Committed, t: Turn): Exit {
    match t.call
    case ProgressCall(id, s, answer, f) => ProgressOne(c, id, t.actor, t.trace, s, answer, f, t.faults).exit
    case AcceptCall(m, key, ports) => Accept(c, m, key, t.actor, t.trace, ports, t.faults).exit
    case FactCall(f, ports) => AcceptFact(c, f, t.actor, t.trace, ports, t.faults).exit
    case _ => NeverBegan
  }

  predicate IsReport(call: Call) {
    call.FeedbackCall? || call.SignalCall? || call.TimeoutCall?
  }

  predicate IsForward(call: Call) {
    call.ProgressCall? || call.AcceptCall? || call.FactCall?
  }

  function ExitOf(c: Committed, t: Turn): Exit {
    if IsReport(t.call) then ReportExit(c, t) else if IsForward(t.call) then ForwardExit(c, t) else RecoveryExit(c, t)
  }

  function Taken(c: Committed, t: Turn): Committed {
    After(c, ExitOf(c, t))
  }

  function Run(c: Committed, turns: seq<Turn>): Committed
    decreases |turns|
  {
    if turns == [] then c else Taken(Run(c, turns[..|turns| - 1]), turns[|turns| - 1])
  }

  // ---------------------------------------------------------------- every commit is lawful

  ghost predicate LawfulExit(c: Committed, exit: Exit, credit: Option<Id>) {
    exit.Commits? ==> Lawful(c, exit.staged, credit)
  }

  /** The delivery a turn may dispatch for the first time. */
  function CreditOf(t: Turn): Option<Id> {
    if t.call.ProgressCall? then Some(t.call.deliveryId) else None
  }

  lemma ExitKeeps(c: Committed, exit: Exit)
    requires Inv(c) && LawfulExit(c, exit, None)
    ensures Inv(After(c, exit)) && Follows(c, After(c, exit))
  {
    MoveKeeps(c, Move(exit, None, None));
  }

  lemma FinishLawful<T>(c: Committed, body: Body<T>, faults: Faults, credit: Option<Id>)
    requires body.Ok? ==> Lawful(c, body.value.0, credit)
    ensures LawfulExit(c, Finish(body, faults).exit, credit)
  {
  }

  lemma RunCallLawful(c: Committed, p: RetryPlan, actor: Actor, trace: Id, at: Timestamp, ports: RunPorts, faults: Faults)
    requires Inv(c) && Get(c.plans, p.retryPlanId) == Some(p)
    ensures LawfulExit(c, RunPlan(c, p, actor, trace, at, ports, faults).exit, None)
  {
    var body := RunPlanBody(c, p, actor, trace, at, ports, faults);
    if body.Ok? {
      RunPlanLawful(c, p, actor, trace, at, ports, faults);
    }
    FinishLawful(c, body, faults, None);
  }

  lemma RequestCallLawful(c: Committed, r: RetryRequest, actor: Actor, trace: Id, ports: Ports, faults: Faults)
    requires Inv(c)
    ensures LawfulExit(c, RequestRetry(c, r, actor, trace, ports, faults).exit, None)
  {
    var body := RequestBody(c, r, actor, trace, ports, faults);
    if body.Ok? {
      RequestLawful(c, r, actor, trace, ports, faults);
    }
    FinishLawful(c, body, faults, None);
  }

  lemma MoveCallLawful(c: Committed, m: DeadLetterMove, actor: Actor, trace: Id, ports: Ports, faults: Faults)
    requires Inv(c)
    ensures LawfulExit(c, MoveToDeadLetter(c, m, actor, trace, ports, faults).exit, None)
  {
    var body := MoveBody(c, m, actor, trace, ports, faults);
    if body.Ok? {
      MoveLawful(c, m, actor, trace, ports, faults);
    }
    FinishLawful(c, body, faults, None);
  }

  lemma PrepareCallLawful(c: Committed, r: ReplayRequest, actor: Actor, trace: Id, at: Timestamp, ports: Ports, faults: Faults)
    requires Inv(c)
    ensures LawfulExit(c, PrepareReplay(c, r, actor, trace, at, ports, faults).exit, None)
  {
    var body := ReplayBody(c, r, actor, trace, ports, faults);
    if body.Ok? {
      PrepareLawful(c, r, actor, trace, ports, faults);
    }
    FinishLawful(c, body, faults, None);
  }

  lemma ProgressCallLawful(c: Committed, id: Id, actor: Actor, trace: Id, s: Timestamp,
                           answer: Result<BackendResult, TransportError>, f: Timestamp, faults: Faults)
    requires Inv(c)
    ensures LawfulExit(c, ProgressOne(c, id, actor, trace, s, answer, f, faults).exit, Some(id))
  {
    var body := ProgressBody(c, id, actor, trace, s, answer, f, faults);
    if body.Ok? {
      ProgressLawful(c, id, actor, trace, s, answer, f, faults);
    }
    FinishLawful(c, body, faults, Some(id));
  }

  lemma ConflictCallLawful<T>(c: Committed, scope: Scope, key: Id, existing: Anchor, incoming: string, actor: Actor, trace: Id,
                              ports: Ports, faults: Faults)
    ensures LawfulExit(c, RecordConflict<T>(scope, key, existing, incoming, actor, trace, ports, faults).exit, None)
  {
    var body := ConflictBody<T>(scope, key, existing, incoming, actor, trace, ports, faults);
    if body.Ok? {
      ConflictLawful<T>(c, scope, key, existing, incoming, actor, trace, ports, faults);
    }
    FinishLawful(c, body, faults, None);
  }

  lemma FeedbackCallLawful(c: Committed, m: FeedbackCommand, key: Option<Id>, actor: Actor, trace: Id, ports: Ports, faults: Faults)
    requires Inv(c)
    ensures LawfulExit(c, RecordFeedback(c, m, key, actor, trace, ports, faults).exit, None)
  {
    if key.Some? {
      match FindAnchor(c, CommandScope(m), key.value) {
        case Some(a) =>
          ConflictCallLawful<FeedbackReceipt>(c, CommandScope(m), key.value, a, RequestDigest(m.canonical), actor, trace, ports, faults);
        case None =>
          var body := RecordBody(c, m, key.value, actor, trace, ports, faults);
          if body.Ok? {
            RecordLawful(c, m, key.value, actor, trace, ports, faults);
          }
          FinishLawful(c, body, faults, None);
      }
    }
  }

  lemma SignalCallLawful(c: Committed, m: BackendSignal, answer: Result<BackendResult, TransportError>, actor: Actor, trace: Id,
                         ports: Ports, faults: Faults)
    requires Inv(c)
    ensures LawfulExit(c, RecordSignal(c, m, answer, actor, trace, ports, faults).exit, None)
  {
    match FindAnchor(c, SignalScope(m), m.idempotencyKey) {
      case Some(a) =>
        ConflictCallLawful<SignalReceipt>(c, SignalScope(m), m.idempotencyKey, a, RequestDigest(m.canonical), actor, trace, ports, faults);
      case None =>
        var body := SignalBody(c, m, answer, actor, trace, ports, faults);
        if body.Ok? {
          SignalLawful(c, m, answer, actor, trace, ports, faults);
        }
        FinishLawful(c, body, faults, None);
    }
  }

  lemma TimeoutCallLawful(c: Committed, m: TimeoutSignal, actor: Actor, trace: Id, ports: Ports, faults: Faults)
    requires Inv(c)
    ensures LawfulExit(c, RecordTimeout(c, m, actor, trace, ports, faults).exit, None)
  {
    match FindAnchor(c, TimeoutScope(m), m.idempotencyKey) {
      case Some(a) =>
        ConflictCallLawful<TimeoutReceipt>(c, TimeoutScope(m), m.idempotencyKey, a, RequestDigest(m.canonical), actor, trace, ports, faults);
      case None =>
        var body := TimeoutBody(c, m, actor, trace, ports, faults);
        if body.Ok? {
          TimeoutLawful(c, m, actor, trace, ports, faults);
        }
        FinishLawful(c, body, faults, None);
    }
  }

  lemma RuleCallLawful(c: Committed, material: Result<Material, DomainError>, scope: Scope, key: Id, digest: string, actor: Actor,
                       trace: Id, ports: Ports, faults: Faults)
    requires scope.action.AcceptPublication? || scope.action.ConsumeCommittedOutboxFact?
    ensures LawfulExit(c, Rule(c, material, scope, key, digest, actor, trace, ports, faults).exit, None)
  {
    match FindAnchor(c, scope, key) {
      case Some(a) => ConflictCallLawful<Ruling>(c, scope, key, a, digest, actor, trace, ports, faults);
      case None =>
        if material.Ok? && StartPending(material.value).Ok? {
          var m, a := material.value, StartPending(material.value).value;
          var body := DecideBody(c, m, a, scope, key, digest, actor, trace, ports, faults);
          if body.Ok? {
            DecideLawful(c, m, a, scope, key, digest, actor, trace, ports, faults);
          }
          FinishLawful(c, body, faults, None);
        }
    }
  }

  lemma AcceptCallLawful(c: Committed, m: PublicationCommand, key: Option<Id>, actor: Actor, trace: Id, ports: Ports, faults: Faults)
    ensures LawfulExit(c, Accept(c, m, key, actor, trace, ports, faults).exit, None)
  {
    if key.Some? {
      RuleCallLawful(c, MaterialFromCommand(m, actor, trace), AcceptScope(m), key.value, RequestDigest(m.canonical), actor, trace,
                     ports, faults);
    }
  }

  lemma FactCallLawful(c: Committed, f: OutboxFact, actor: Actor, trace: Id, ports: Ports, faults: Faults)
    ensures LawfulExit(c, AcceptFact(c, f, actor, trace, ports, faults).exit, None)
  {
    RuleCallLawful(c, MaterialFromFact(f, actor, trace), FactScope(f), f.idempotencyKey, RequestDigest(f.canonical), actor, trace,
                   ports, faults);
  }

  lemma RecoveryLawful(c: Committed, t: Turn)
    requires Inv(c)
    ensures LawfulExit(c, RecoveryExit(c, t), None)
  {
    hide RunPlan, RequestRetry, MoveToDeadLetter, PrepareReplay;
    match t.call {
      case RunCall(id, at, ports) =>
        if id in c.plans {
          RunCallLawful(c, c.plans[id], t.actor, t.trace, at, ports, t.faults);
        }
      case RequestCall(r, ports) => RequestCallLawful(c, r, t.actor, t.trace, ports, t.faults);
      case MoveCall(m, ports) => MoveCallLawful(c, m, t.actor, t.trace, ports, t.faults);
      case PrepareCall(r, at, ports) => PrepareCallLawful(c, r, t.actor, t.trace, at, ports, t.faults);
      case _ =>
    }
  }

  lemma ReportLawful(c: Committed, t: Turn)
    requires Inv(c)
    ensures LawfulExit(c, ReportExit(c, t), None)
  {
    hide RecordFeedback, RecordSignal, RecordTimeout, Inv;
    match t.call {
      case FeedbackCall(m, key, ports) => FeedbackCallLawful(c, m, key, t.actor, t.trace, ports, t.faults);
      case SignalCall(m, answer, ports) => SignalCallLawful(c, m, answer, t.actor, t.trace, ports, t.faults);
      case TimeoutCall(m, ports) => TimeoutCallLawful(c, m, t.actor, t.trace, ports, t.faults);
      case _ =>
    }
  }

  lemma ForwardLawful(c: Committed, t: Turn)
    requires Inv(c)
    ensures LawfulExit(c, ForwardExit(c, t), CreditOf(t))
  {
    hide ProgressOne, Accept, AcceptFact, Inv;
    match t.call {
      case ProgressCall(id, s, answer, f) => ProgressCallLawful(c, id, t.actor, t.trace, s, answer, f, t.faults);
      case AcceptCall(m, key, ports) => AcceptCallLawful(c, m, key, t.actor, t.trace, ports, t.faults);
      case FactCall(f, ports) => FactCallLawful(c, f, t.actor, t.trace, ports, t.faults);
      case _ =>
    }
  }

  lemma TurnLawful(c: Committed, t: Turn)
    requires Inv(c)
    ensures LawfulExit(c, ExitOf(c, t), CreditOf(t))
  {
    hide ReportExit, ForwardExit, RecoveryExit, Inv;
    if IsReport(t.call) {
      ReportLawful(c, t);
    } else if IsForward(t.call) {
      ForwardLawful(c, t);
    } else {
      RecoveryLawful(c, t);
    }
  }

  // ---------------------------------------------------------------- runs are lawful paths

  /** The plan a turn runs, if it runs one. */
  function PlanOf(t: Turn): Option<Id> {
    if t.call.RunCall? then Some(t.call.planId) else None
  }

  function MoveOf(c: Committed, t: Turn): Move {
    Move(ExitOf(c, t), CreditOf(t), PlanOf(t))
  }

  /** How the calls of a run ended, in order. */
  function Moves(c: Committed, turns: seq<Turn>): seq<Move>
    decreases |turns|
  {
    if turns == [] then []
    else
      var front := turns[..|turns| - 1];
      Moves(c, front) + [MoveOf(Run(c, front), turns[|turns| - 1])]
  }

  lemma RunCallLowers(c: Committed, p: RetryPlan, actor: Actor, trace: Id, at: Timestamp, ports: RunPorts, faults: Faults)
    requires Get(c.plans, p.retryPlanId) == Some(p) && Get(c.planVersions, p.retryPlanId) == Some(p.version)
    requires p.deliveryId in c.deliveries ==> Rules.WellFormed(c.deliveries[p.deliveryId])
    requires RunPlan(c, p, actor, trace, at, ports, faults).exit.Commits?
    ensures Lowers(c, RunPlan(c, p, actor, trace, at, ports, faults).exit.staged, p.retryPlanId)
  {
    if HasRemaining(p) {
      var d := c.deliveries[p.deliveryId];
      var after, attempted, entry := AttemptShape(c, p, d, actor, trace, at, ports, faults);
    } else {
      var after, entry := ExhaustShape(c, p, actor, trace, at, ports.auditId, faults);
    }
  }

  lemma TurnLowers(c: Committed, t: Turn)
    requires Inv(c) && t.call.RunCall? && ExitOf(c, t).Commits?
    ensures Lowers(c, ExitOf(c, t).staged, t.call.planId)
  {
    hide Inv, RunPlan, ReportExit, ForwardExit, Rules.WellFormed;
    var id := t.call.planId;
    StoredPlan(c, id);
    if c.plans[id].deliveryId in c.deliveries {
      StoredDelivery(c, c.plans[id].deliveryId);
    }
    RunCallLowers(c, c.plans[id], t.actor, t.trace, t.call.at, t.call.runPorts, t.faults);
  }

  lemma MoveOfLawful(c: Committed, t: Turn)
    requires Inv(c)
    ensures LawfulMove(c, MoveOf(c, t))
  {
    hide ExitOf, Inv;
    TurnLawful(c, t);
    if t.call.RunCall? && ExitOf(c, t).Commits? {
      TurnLowers(c, t);
    }
  }

  lemma {:induction false} RunIsPath(c: Committed, turns: seq<Turn>)
    requires Inv(c)
    ensures LawfulPath(c, Moves(c, turns)) && Path(c, Moves(c, turns)) == Run(c, turns)
    decreases |turns|
  {
    hide ExitOf, Inv, LawfulMove, After;
    if turns != [] {
      var front := turns[..|turns| - 1];
      RunIsPath(c, front);
      PathKeeps(c, Moves(c, front));
      MoveOfLawful(Run(c, front), turns[|turns| - 1]);
      OneMoveMore(c, Moves(c, front), MoveOf(Run(c, front), turns[|turns| - 1]));
    }
  }

  lemma OneMoveMore(c: Committed, moves: seq<Move>, m: Move)
    requires LawfulPath(c, moves) && LawfulMove(Path(c, moves), m)
    ensures LawfulPath(c, moves + [m]) && Path(c, moves + [m]) == After(Path(c, moves), m.exit)
  {
    assert (moves + [m])[..|moves + [m]| - 1] == moves;
  }

  /** Every run of service calls, with any answers, identifiers and failures, keeps the invariant:
      attempts and histories sound, versions and all four indexes exact, recovery chains intact,
      anchors bound; and the final state follows from the first. */
  lemma RunKeeps(c: Committed, turns: seq<Turn>)
    requires Inv(c)
    ensures Inv(Run(c, turns)) && Follows(c, Run(c, turns))
  {
    hide Run, Moves, Path, Inv, Follows;
    RunIsPath(c, turns);
    PathKeeps(c, Moves(c, turns));
  }
}
