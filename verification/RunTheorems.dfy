/** What holds over every run of service calls: attempts are conserved and sound, retries end, histories
    are traces, final states are final, recovery records stay chained, lookups stay scans, and decisions
    appear whole. */
module RunTheorems {
  import opened Common
  import opened Records
  import opened StoreModel
  import opened Budgets
  import opened Indexes
  import opened Invariants
  import opened Paths
  import opened Runs
  import opened RecoveryRules
  import Rules = DeliveryRules

  /** Attempt conservation over every run: a delivery gains exactly one attempt for each unit of
      retry budget spent on it and one for its first dispatch, which commits at most once. */
  lemma AttemptsConserved(c: Committed, turns: seq<Turn>, id: Id)
    requires Inv(c) && id in c.deliveries
    ensures var end := Run(c, turns);
      && id in end.deliveries
      && end.deliveries[id].attemptCount - Spent(end.plans, id) ==
         c.deliveries[id].attemptCount - Spent(c.plans, id) + FirstDispatches(Moves(c, turns), id)
      && FirstDispatches(Moves(c, turns), id) <= 1
  {
    hide Run, Moves, Path, Spent;
    RunIsPath(c, turns);
    PathConserves(c, Moves(c, turns), id);
    PathKeeps(c, Moves(c, turns));
    StoredDelivery(c, id);
    StoredDelivery(Path(c, Moves(c, turns)), id);
  }

  /** A delivery never attempted, whose plans are untouched, makes at most one attempt more than
      its whole retry budget. */
  lemma AttemptsBounded(c: Committed, turns: seq<Turn>, id: Id)
    requires Inv(c) && id in c.deliveries && c.deliveries[id].attempts == [] && Spent(c.plans, id) == 0
    ensures id in Run(c, turns).deliveries
    ensures Run(c, turns).deliveries[id].attemptCount <= 1 + Budget(Run(c, turns).plans, id)
  {
    hide Run, Moves, Path, Spent;
    StoredDelivery(c, id);
    AttemptsConserved(c, turns, id);
    SpentWithinBudget(Run(c, turns).plans, id);
  }

  /** Over any run a plan commits at most as many runs as it had left: its remaining attempts and,
      while scheduled, one more that exhausts it. */
  lemma RetriesEnd(c: Committed, turns: seq<Turn>, id: Id)
    requires Inv(c) && id in c.plans
    ensures id in Run(c, turns).plans
    ensures CommittedRuns(Moves(c, turns), id) + RunsLeft(Run(c, turns).plans[id]) <= RunsLeft(c.plans[id])
  {
    hide Run, Moves, Path, Spent;
    RunIsPath(c, turns);
    PathRetriesEnd(c, Moves(c, turns), id);
  }

  /** The committed history of a delivery stays a trace of the lifecycle from Scheduled to its status, with
      one dispatch per attempt and at most four entries per attempt. */
  lemma HistoriesAreTraces(c: Committed, turns: seq<Turn>, id: Id)
    requires Inv(c) && id in c.deliveries && Rules.Traced(c.deliveries[id])
    ensures var end := Run(c, turns);
      && id in end.deliveries
      && var d := end.deliveries[id];
         && Rules.Trace(id, Scheduled, d.history, d.status)
         && Rules.Starts(d.history) == d.attemptCount && |d.history| <= 4 * d.attemptCount
  {
    hide Run, Moves, Path, Spent;
    RunKeeps(c, turns);
    StoredDelivery(c, id);
    StoredDelivery(Run(c, turns), id);
    Rules.TracedEvolves(c.deliveries[id], Run(c, turns).deliveries[id]);
  }

  /** A delivery seeded fresh is traced. */
  lemma FreshIsTraced(d: Delivery)
    requires d.status == Scheduled && d.history == [] && d.attempts == []
    ensures Rules.Traced(d)
  {
  }

  /** Once completed or dead-lettered, a delivery is never changed by any later call. */
  lemma TerminalForever(c: Committed, turns: seq<Turn>, id: Id)
    requires Inv(c) && id in c.deliveries && Rules.IsTerminal(c.deliveries[id].status)
    ensures id in Run(c, turns).deliveries && Run(c, turns).deliveries[id] == c.deliveries[id]
  {
    hide Run, Moves, Path, Spent;
    RunKeeps(c, turns);
    Rules.TerminalIsFinal(c.deliveries[id], Run(c, turns).deliveries[id]);
  }

  /** In every state of every run the attempts of every delivery are in order. */
  lemma AttemptsStayInOrder(c: Committed, turns: seq<Turn>, id: Id)
    requires Inv(c) && id in Run(c, turns).deliveries
    ensures Run(c, turns).deliveries[id].deliveryId == id && Rules.InOrder(Run(c, turns).deliveries[id])
  {
    hide Run, Rules.InOrder, Rules.WellFormed;
    RunKeeps(c, turns);
    StoredDelivery(Run(c, turns), id);
    Rules.WellFormedInOrder(Run(c, turns).deliveries[id]);
  }

  /** In every state of every run the recovery records are chained: a dead letter's delivery is dead-lettered
      and its history reference is the failure just before; linked material points back to an entry of its
      delivery; a ready replay carries its dead letter's chain, which still resolves. */
  lemma RecoveryChainsIntact(c: Committed, turns: seq<Turn>)
    requires Inv(c)
    ensures var end := Run(c, turns);
      && DeadLettersOk(end.deadLetters, end.deliveries)
      && MaterialsOk(end.failureMaterials, end.deadLetters)
      && ReplaysOk(end.replays, end.deadLetters, end.audits)
  {
    hide Run, DeadLettersOk, MaterialsOk, ReplaysOk;
    RunKeeps(c, turns);
  }

  /** In every state of every run each of the four indexes answers exactly what a scan would find. */
  lemma LookupsStayScans(c: Committed, turns: seq<Turn>)
    requires Inv(c)
    ensures LookupsAreScans(Run(c, turns))
  {
    hide Run, LookupsAreScans;
    RunKeeps(c, turns);
    AgreeingLookups(Run(c, turns));
  }

  /** All or nothing: a publication appears only together with its material, a terminal decision, the
      decision's audit entry and its anchor. */
  lemma DecisionsAppearWhole(c: Committed, t: Turn, id: Id)
    requires Inv(c) && id in Taken(c, t).publications && id !in c.publications
    ensures DecidedTogether(c, Taken(c, t), id)
  {
    hide ExitOf;
    MoveOfLawful(c, t);
    MoveDecides(c, MoveOf(c, t), id);
  }
}
