/** The money of the live engine: session results are balance deltas that add up to the result of the run. */
module SessionMoney {
  import opened Market
  import opened EngineModel

  function TotalPnl(history: seq<Session>): real {
    if history == [] then 0.0 else TotalPnl(history[..|history|-1]) + history[|history|-1].pnl
  }

  lemma TotalPnlAppend(history: seq<Session>, s: Session)
    ensures TotalPnl(history + [s]) == TotalPnl(history) + s.pnl
  {
  }

  ghost predicate Numbered(history: seq<Session>) {
    forall i :: 0 <= i < |history| ==> history[i].number == i + 1
  }

  /** The baseline of the current session is the run's start plus the results of the sessions that ended. */
  ghost predicate Partitioned(m: Money) {
    && m.runStart.Some? && m.sessionStart.Some? && m.last.Some?
    && m.sessionStart.value == m.runStart.value + TotalPnl(m.history)
    && Numbered(m.history)
  }

  /** Between a session's end and the next grid the last balance is the baseline. */
  ghost predicate Banked(m: Money) {
    Partitioned(m) && (!m.gridLogged ==> m.last == m.sessionStart)
  }

  /** While no grid is logged the balance stands still, and the read that ends a session succeeds. */
  predicate Steady(e: Engine, m: Move) {
    match m
    case Poll(_) => true
    case Begin(y) =>
      !e.money.gridLogged && y.close.Some? && y.summary.Some? ==> Some(y.summary.value.balance) == e.money.last
    case Handle(w, a) =>
      w.signal.CloseAll? && OutcomeOf(e.breaker, a.attempt) == Flat ==> a.attempt.balance.Some?
  }

  ghost predicate SteadyRun(c: EngineConfig, e: Engine, moves: seq<Move>) {
    moves == [] || (SteadyRun(c, e, moves[..|moves|-1]) && Steady(Play(c, e, moves[..|moves|-1]), moves[|moves|-1]))
  }

  lemma EndKeepsBanked(c: EngineConfig, m: Money, reason: string, a: Attempt)
    requires c.hasSummary && Partitioned(m) && a.open.Some? && a.balance.Some?
    ensures Banked(SessionEnded(c, m, reason, a)) && SessionEnded(c, m, reason, a).runStart == m.runStart
  {
    TotalPnlAppend(m.history, Session(|m.history| + 1, reason, |a.open.value|, SessionPnl(c, m, a)));
  }

  /** What a cycle with a good read does to the money. */
  lemma CycleMovesBaseline(c: EngineConfig, e: Engine, y: CycleAnswers)
    requires c.hasSummary && y.close.Some? && y.summary.Some? && e.money.sessionStart.Some?
    ensures var m, m' := e.money, StartCycle(c, e, y).0.money;
      && m'.runStart == m.runStart && m'.history == m.history && m'.last == Some(y.summary.value.balance)
      && m'.gridLogged == (m.gridLogged || y.anchored)
      && m'.sessionStart == if !m.gridLogged && y.anchored then Some(y.summary.value.balance) else m.sessionStart
  {
  }

  lemma OtherMovesKeepMoney(c: EngineConfig, e: Engine, m: Move)
    requires match m
      case Poll(_) => true
      case Begin(y) => y.close.None? || (c.hasSummary && y.summary.None?)
      case Handle(w, a) => w.signal.CloseAll? ==> OutcomeOf(e.breaker, a.attempt) != Flat
    ensures var m' := Step(c, e, m).money; m' == e.money.(readFailures := m'.readFailures)
  {
  }

  lemma StepKeepsBanked(c: EngineConfig, e: Engine, m: Move)
    requires c.hasSummary && Banked(e.money) && Steady(e, m)
    ensures Banked(Step(c, e, m).money) && Step(c, e, m).money.runStart == e.money.runStart
  {
    if m.Begin? && m.cycle.close.Some? && m.cycle.summary.Some? {
      hide StartCycle;
      CycleMovesBaseline(c, e, m.cycle);
    } else if m.Handle? && m.wanted.signal.CloseAll? && OutcomeOf(e.breaker, m.answers.attempt) == Flat {
      hide SessionEnded;
      EndKeepsBanked(c, e.money, m.wanted.signal.reason, m.answers.attempt);
    } else {
      OtherMovesKeepMoney(c, e, m);
      hide Step;
    }
  }

  /**
   Session deltas partition the run: through failed close-alls, close-alls that find nothing and new grids, the
   baseline is the run's start plus all booked sessions, so the run's result is their sum plus the current session's
   delta.
   */
  lemma {:induction false} SessionsPartitionTheRun(c: EngineConfig, e: Engine, moves: seq<Move>)
    requires c.hasSummary && Banked(e.money) && SteadyRun(c, e, moves)
    ensures var m := Play(c, e, moves).money;
      && Banked(m) && m.runStart == e.money.runStart
      && m.last.value - m.runStart.value == TotalPnl(m.history) + (m.last.value - m.sessionStart.value)
  {
    if moves != [] {
      SessionsPartitionTheRun(c, e, moves[..|moves|-1]);
      StepKeepsBanked(c, Play(c, e, moves[..|moves|-1]), moves[|moves|-1]);
    }
  }

  // ---- When the books stop adding up

  /** The grid that follows a session's end keeps the partition if and only if it reads the balance that was booked. */
  lemma NextGridKeepsPartitionIff(c: EngineConfig, e: Engine, y: CycleAnswers)
    requires c.hasSummary && Partitioned(e.money) && !e.money.gridLogged
    requires y.close.Some? && y.summary.Some? && y.anchored
    ensures Partitioned(StartCycle(c, e, y).0.money) <==> Some(y.summary.value.balance) == e.money.sessionStart
  {
    hide StartCycle;
    CycleMovesBaseline(c, e, y);
  }

  lemma EndWithoutRead(c: EngineConfig, m: Money, reason: string, a: Attempt)
    requires Partitioned(m) && a.open.Some? && a.balance.None?
    ensures var m' := SessionEnded(c, m, reason, a);
      && m'.runStart == m.runStart && m'.sessionStart == m.sessionStart && !m'.gridLogged && Numbered(m'.history)
      && TotalPnl(m'.history) == TotalPnl(m.history) + a.tally
  {
    TotalPnlAppend(m.history, Session(|m.history| + 1, reason, |a.open.value|, a.tally));
  }

  /**
   When the read that ends a session fails, the books still add up after the next grid exactly if the strategy's own
   tally was the balance delta.
   */
  lemma MissedReadBreaksUnlessTallied(c: EngineConfig, e: Engine, reason: string, a: Attempt, y: CycleAnswers)
    requires c.hasSummary && Partitioned(e.money)
    requires OutcomeOf(e.breaker, a) == Flat && a.balance.None?
    requires y.close.Some? && y.summary.Some? && y.anchored
    ensures var after := StartCycle(c, CloseAllTrades(c, e, reason, a), y).0.money;
      Partitioned(after) <==> a.tally == y.summary.value.balance - e.money.sessionStart.value
  {
    EndWithoutRead(c, e.money, reason, a);
    assert CloseAllTrades(c, e, reason, a).money == SessionEnded(c, e.money, reason, a);
    hide StartCycle, CloseAllTrades, SessionEnded, TotalPnl;
    CycleMovesBaseline(c, CloseAllTrades(c, e, reason, a), y);
  }

  /** The result of the session that a cycle with a good read tells the strategy. */
  lemma CycleTells(c: EngineConfig, e: Engine, y: CycleAnswers)
    requires c.hasSummary && y.close.Some? && y.summary.Some? && e.money.sessionStart.Some?
    ensures var t, t' := e.desk.trace, StartCycle(c, e, y).0.desk.trace;
      && |t'| == |t| + 3 && t'[..|t|] == t && t'[|t| + 2].TellRealized?
      && t'[|t| + 2].session == y.summary.value.balance - e.money.sessionStart.value
  {
  }

  lemma BaselineAfterAttempt(c: EngineConfig, e: Engine, reason: string, a: Attempt)
    requires c.hasSummary
    ensures CloseAllTrades(c, e, reason, a).money.sessionStart ==
      if OutcomeOf(e.breaker, a) == Flat && a.balance.Some? then a.balance else e.money.sessionStart
  {
  }

  /**
   After any close-all the next good read is told to the strategy as a result counted from the old baseline, so that
   a session that ended is carried into the next, if and only if the close-all did not end flat with its balance read
   (it found nothing open, failed, or missed the read), or the session had earned nothing.
   */
  lemma CarriesOldSessionIff(c: EngineConfig, e: Engine, reason: string, a: Attempt, y: CycleAnswers)
    requires c.hasSummary && e.money.sessionStart.Some? && y.close.Some? && y.summary.Some?
    ensures var e1 := CloseAllTrades(c, e, reason, a);
      var told := StartCycle(c, e1, y).0.desk.trace;
      && |told| == |e1.desk.trace| + 3 && told[|e1.desk.trace| + 2].TellRealized?
      && (told[|e1.desk.trace| + 2].session == y.summary.value.balance - e.money.sessionStart.value <==>
            !(OutcomeOf(e.breaker, a) == Flat && a.balance.Some?) || a.balance == e.money.sessionStart)
  {
    hide StartCycle, CloseAllTrades, OutcomeOf;
    BaselineAfterAttempt(c, e, reason, a);
    CycleTells(c, CloseAllTrades(c, e, reason, a), y);
  }

  // ---- Reading the balance

  predicate FailedRead(m: Move) {
    m.Begin? && m.cycle.close.Some? && m.cycle.summary.None?
  }

  predicate GoodRead(m: Move) {
    m.Begin? && m.cycle.close.Some? && m.cycle.summary.Some?
  }

  /** The failed balance reads since the last good one. */
  function ReadsMissed(before: nat, moves: seq<Move>): nat {
    if moves == [] then before
    else if GoodRead(moves[|moves|-1]) then 0
    else ReadsMissed(before, moves[..|moves|-1]) + if FailedRead(moves[|moves|-1]) then 1 else 0
  }

  /** The third failed read in a row stops the engine, and a cycle whose read fails handles no signal. */
  lemma {:induction false} ThreeMissedReadsStop(c: EngineConfig, e: Engine, moves: seq<Move>)
    requires c.hasSummary && e.money.readFailures < MAX_BALANCE_READ_FAILURES
    ensures var e1 := Play(c, e, moves);
      && e1.money.readFailures == ReadsMissed(e.money.readFailures, moves)
      && (e1.money.readFailures >= MAX_BALANCE_READ_FAILURES ==> !e1.breaker.running)
      && forall y :: FailedRead(Begin(y)) ==> !StartCycle(c, e1, y).1
  {
    if moves != [] {
      ThreeMissedReadsStop(c, e, moves[..|moves|-1]);
    }
  }
}
