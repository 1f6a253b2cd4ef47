/** What one service call does to the bus: how its transaction ends, what it returns and
    which armed failpoints it uses up. */
module Steps {
  import opened Common
  import opened Records
  import opened StoreModel

  /** Failures armed in the audit repository and in the unit of work; each is used once. */
  datatype Faults = Faults(append: Option<RepositoryError>, commit: Option<UnitOfWorkError>)

  const NO_FAULTS: Faults := Faults(None, None)

  /** What the outside answers during one call: two clock readings and the next identifiers, if any. */
  datatype Ports = Ports(now: Timestamp, later: Timestamp, auditId: Option<Id>, anchorId: Option<Id>)

  /** How a call leaves the store. */
  datatype Exit =
    | NeverBegan
    | Commits(staged: Staged)
    | RollsBack
    | LeavesOpen
    | Appends(entry: AuditEntry)

  datatype Step<T> = Step(exit: Exit, outcome: Result<T, ServiceError>, faults: Faults)

  /** Why a call stops before its commit. */
  datatype Stop = RollBack(error: ServiceError) | LeaveOpen(error: ServiceError) | AppendFault(cause: RepositoryError)

  /** The staged set a call is about to commit and what it will then return. */
  type Body<T> = Result<(Staged, Result<T, ServiceError>), Stop>

  function After(c: Committed, exit: Exit): Committed {
    match exit
    case Commits(s) => Overlay(c, s)
    case Appends(e) => AppendAccess(c, e)
    case _ => c
  }

  // What a call's end does to the two tables retries are counted in.

  lemma DeliveriesAfter(c: Committed, exit: Exit)
    ensures After(c, exit).deliveries == match exit case Commits(s) => c.deliveries + s.deliveries case _ => c.deliveries
  {
  }

  lemma PlansAfter(c: Committed, exit: Exit)
    ensures After(c, exit).plans == match exit case Commits(s) => c.plans + s.plans case _ => c.plans
  {
  }

  // What a commit lays over the tables, a few at a time.

  lemma PublicationTables(c: Committed, s: Staged)
    ensures var after := Overlay(c, s);
      && after.publications == c.publications + s.publications
      && after.materials == c.materials + s.materials
  {
    hide PlanIndex, DeadLetterIndex, ReadyIndex, SortedKeys, NextAfter;
  }

  lemma ReportTables(c: Committed, s: Staged)
    ensures var after := Overlay(c, s);
      && after.deliveries == c.deliveries + s.deliveries
      && after.feedbacks == c.feedbacks + s.feedbacks
      && after.anchors == c.anchors + s.anchors
  {
    hide PlanIndex, DeadLetterIndex, ReadyIndex, SortedKeys, NextAfter;
  }

  lemma RecoveryTables(c: Committed, s: Staged)
    ensures var after := Overlay(c, s);
      && after.deadLetters == c.deadLetters + s.deadLetters
      && after.replays == c.replays + s.replays
      && after.failureMaterials == c.failureMaterials + s.failureMaterials
  {
    hide PlanIndex, DeadLetterIndex, ReadyIndex, SortedKeys, NextAfter;
  }

  lemma LogTables(c: Committed, s: Staged)
    ensures var after := Overlay(c, s);
      && after.conflicts == c.conflicts + s.conflicts
      && after.audits == c.audits + s.audits
  {
    hide PlanIndex, DeadLetterIndex, ReadyIndex, SortedKeys, NextAfter;
  }

  /** The committed state and the failures still armed. */
  datatype State = State(committed: Committed, faults: Faults)

  function Next<T>(st: State, step: Step<T>): State {
    State(After(st.committed, step.exit), step.faults)
  }

  /** Ends a call: stopped calls roll back or are left open, the rest commit unless the commit is made to fail. */
  function Finish<T>(body: Body<T>, faults: Faults): Step<T> {
    match body
    case Err(RollBack(e)) => Step(RollsBack, Err(e), faults)
    case Err(LeaveOpen(e)) => Step(LeavesOpen, Err(e), faults)
    case Err(AppendFault(e)) => Step(RollsBack, Err(FromRepository(e)), faults.(append := None))
    case Ok((s, outcome)) =>
      if faults.commit.Some? then Step(LeavesOpen, Err(FromUnitOfWork(faults.commit.value)), faults.(commit := None))
      else Step(Commits(s), outcome, faults)
  }

  /** A call refused before it opens a transaction. */
  function Refuse<T>(error: ServiceError, faults: Faults): Step<T> {
    Step(NeverBegan, Err(error), faults)
  }

  // ---------------------------------------------------------------- the steps inside a transaction

  function Checked<T>(r: Result<T, DomainError>): Result<T, Stop> {
    match r
    case Ok(v) => Ok(v)
    case Err(e) => Err(RollBack(FromDomain(e)))
  }

  function Staging(o: Outcome): Result<Staged, Stop> {
    match o
    case Ok((s, _)) => Ok(s)
    case Err(e) => Err(RollBack(FromRepository(e)))
  }

  /** Staging whose uniqueness violation has its own code. */
  function StagingUnique(o: Outcome, code: string): Result<Staged, Stop> {
    match o
    case Ok((s, _)) => Ok(s)
    case Err(e) => Err(RollBack(UniqueError(e, code)))
  }

  /** A uniqueness violation under its own code. */
  function UniqueError(e: RepositoryError, code: string): ServiceError {
    if e == UniqueViolation then ConflictError(code, None) else FromRepository(e)
  }

  /** The next identifier; when there is none the call leaves through an early return. */
  function NextId(id: Option<Id>): Result<Id, Stop> {
    if id.Some? then Ok(id.value) else Err(LeaveOpen(IdsExhausted))
  }

  function NextIdOrRollBack(id: Option<Id>): Result<Id, Stop> {
    if id.Some? then Ok(id.value) else Err(RollBack(IdsExhausted))
  }

  function Append(s: Staged, faults: Faults, e: AuditEntry): Result<Staged, Stop> {
    if faults.append.Some? then Err(AppendFault(faults.append.value)) else Ok(s.(audits := s.audits + [e]))
  }

  /** Draws the next audit identifier and logs the entry under it. */
  function Log(s: Staged, auditId: Option<Id>, entry: AuditEntry, faults: Faults): Result<(Staged, Id), Stop> {
    var id :- NextId(auditId);
    var logged :- Append(s, faults, entry.(auditRef := id));
    Ok((logged, id))
  }

  /** An entry before its identifier is drawn. */
  function Unsigned(subject: Subject, action: Action, actor: Actor, at: Timestamp, trace: Id): AuditEntry {
    AuditEntry("", subject, action, actor, at, trace)
  }
}
