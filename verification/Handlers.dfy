/**
 * The settlement handler and what it calls, statement by statement. Every method is a
 * run of the protocol from the point it starts at to the point it ends at, and hands on
 * what it was told on the way. For an order no other activity concerns, and a database
 * that answers, each also says how it leaves that order.
 */
module Handlers {
  import opened Types
  import opened Split
  import opened Contract
  import opened OrderStates
  import opened ProductGate
  import opened Protocol
  import opened Safety
  import opened Mirrors
  import opened Backend
  import Serial

  // -------------------------------------------------------------- invoking the contract

  /** How one `invokeSettle` call comes back: a result, or one of the errors it throws. */
  datatype InvokeResult =
    | Succeeded(tx: nat)
    | FailedOnChain(tx: nat)
    | SimulationError
    | SubmissionError
    | TimeoutError(tx: nat)
    | NetworkError

  /** Where the settlement handler goes after each way an attempt can come back. */
  function AfterInvoke(job: Payment, list: seq<Recipient>, attempt: nat, result: InvokeResult): Option<Pc> {
    match result
    case Succeeded(tx) =>
      Some(Recording(job.order, CreateRow(BaseTotal(job.cents), list, OnChain(tx), true), Handler(job)))
    case FailedOnChain(tx) => Some(Settling(job, Fail(Some(OnChain(tx)), false)))
    case SimulationError => FailSafe(job).next
    case SubmissionError => FailSafe(job).next
    case TimeoutError(_) => None
    case NetworkError => Some(Retry(job, list, attempt))
  }

  /** A result names a transaction with exactly these arguments, and its true status. */
  ghost predicate ResultHolds(s: State, job: Payment, list: seq<Recipient>, result: InvokeResult) {
    var terms := Terms(job.order, BaseTotal(job.cents), list);
    && (result.Succeeded? ==> result.tx in s.txs && s.txs[result.tx] == Tx(terms, Confirmed))
    && (result.FailedOnChain? ==> result.tx in s.txs && s.txs[result.tx] == Tx(terms, Reverted))
  }

  // ------------------------------------------------------- signs in what a handler was told

  predicate ConcernsOrder(pc: Pc, o: OrderId) {
    (pc.Settling? && pc.job.order == o) || (pc.Recording? && pc.order == o)
  }

  /**
   * The answers that fail an order when the database answers: shares the service does not
   * accept, a missing trustline, a low float, a failed simulation, a rejected submission,
   * a transaction that failed on chain, the third network error, and, while a settlement
   * is recorded, a row that exists already or a product without collaborators.
   */
  predicate Refuses(s: State, pc: Pc, answer: Answer) {
    match pc
    case Settling(_, at) =>
      (match at
       case LoadShares(product, _) =>
         answer != Throw && (product !in s.products || !ServiceChecks(s.products[product].collaborators))
       case CheckTrustlines(_, _) => answer == Bad
       case CheckFloat(_) => answer == Bad
       case GetAccount(_, attempt) => answer == Throw && attempt == 2
       case Simulate(_, attempt) => answer == Bad || (answer == Throw && attempt == 2)
       case Send(_, attempt) =>
         answer == Bad || answer == Absent || answer.Rows? || ((answer == Throw || answer == Lost) && attempt == 2)
       case Poll(_, attempt, _, _) => answer == Bad || (answer == Throw && attempt == 2)
       case _ => false)
    case Recording(o, at, _) =>
      answer != Throw &&
      (match at
       case CreateRow(_, _, _, _) => o in s.rows
       case ReloadShares(_, product, _) => product !in s.products || s.products[product].collaborators == []
       case _ => false)
    case _ => false
  }

  predicate Refusal(line: Line, o: OrderId) {
    ConcernsOrder(line.pc, o) && Refuses(line.seen, line.pc, line.answer)
  }

  predicate IsPoll(line: Line, o: OrderId) {
    line.pc.Settling? && line.pc.job.order == o && line.pc.settle.Poll?
  }

  /** The thirtieth poll for a submission brought no outcome. */
  predicate LastPoll(line: Line, o: OrderId) {
    && IsPoll(line, o) && line.pc.settle.polls == 29
    && line.answer != Good && line.answer != Bad && line.answer != Throw
  }

  /** `is_settled` answered yes. */
  predicate ProbeYes(line: Line, o: OrderId) {
    line.pc.Settling? && line.pc.job.order == o && line.pc.settle.ProbeMarker? && line.answer == Good
  }

  /** What a handler was told that decides how its order ends. */
  datatype Signs = Signs(refused: bool, timedOut: bool, settled: bool, confirmed: set<nat>, reverted: set<nat>)

  const QUIET := Signs(false, false, false, {}, {})

  ghost function SignsOf(told: seq<Line>, o: OrderId): Signs {
    Signs(exists line :: line in told && Refusal(line, o),
          exists line :: line in told && LastPoll(line, o),
          exists line :: line in told && ProbeYes(line, o),
          set line | line in told && IsPoll(line, o) && line.answer == Good :: line.pc.settle.tx,
          set line | line in told && IsPoll(line, o) && line.answer == Bad :: line.pc.settle.tx)
  }

  function Join(a: Signs, b: Signs): Signs {
    Signs(a.refused || b.refused, a.timedOut || b.timedOut, a.settled || b.settled,
          a.confirmed + b.confirmed, a.reverted + b.reverted)
  }

  lemma SignsJoin(a: seq<Line>, b: seq<Line>, o: OrderId)
    ensures SignsOf(a + b, o) == Join(SignsOf(a, o), SignsOf(b, o))
  {
  }

  ghost function LineSigns(line: Line, o: OrderId): Signs {
    Signs(Refusal(line, o), LastPoll(line, o), ProbeYes(line, o),
          if IsPoll(line, o) && line.answer == Good then {line.pc.settle.tx} else {},
          if IsPoll(line, o) && line.answer == Bad then {line.pc.settle.tx} else {})
  }

  lemma OneLine(line: Line, o: OrderId)
    ensures SignsOf([line], o) == LineSigns(line, o)
  {
    assert forall other :: other in [line] <==> other == line;
  }

  lemma NothingTold(o: OrderId)
    ensures SignsOf([], o) == QUIET
  {
  }

  lemma Onward(before: seq<Line>, a: seq<Line>, b: seq<Line>)
    ensures before + a + b == before + (a + b)
  {
  }

  // --------------------------------------------------------------- attempts in what was told

  function AttemptOf(at: SettlePc): Option<nat> {
    match at
    case GetAccount(_, attempt) => Some(attempt)
    case Simulate(_, attempt) => Some(attempt)
    case Send(_, attempt) => Some(attempt)
    case Poll(_, attempt, _, _) => Some(attempt)
    case _ => None
  }

  /** The line belongs to an attempt to have this list paid. */
  predicate OfAttempt(line: Line, job: Payment, list: seq<Recipient>, attempt: nat) {
    line.pc.Settling? && line.pc.job == job && AttemptOf(line.pc.settle) == Some(attempt) && line.pc.settle.list == list
  }

  predicate IsAttempt(line: Line) {
    line.pc.Settling? && AttemptOf(line.pc.settle).Some?
  }

  /** A call of this attempt failed, or its answer was lost. */
  ghost predicate Troubled(told: seq<Line>, job: Payment, list: seq<Recipient>, attempt: nat) {
    exists line :: line in told && OfAttempt(line, job, list, attempt)
                   && (line.answer == Throw || (line.answer == Lost && line.pc.settle.Send?))
  }

  /** The simulation of this attempt went through. */
  ghost predicate Simulated(told: seq<Line>, job: Payment, list: seq<Recipient>, attempt: nat) {
    exists line :: line in told && line.pc == Settling(job, Simulate(list, attempt))
                   && line.answer != Throw && line.answer != Bad
  }

  /** One attempt: every line is its own, and nothing is sent that was not simulated. */
  ghost predicate OneAttempt(told: seq<Line>, job: Payment, list: seq<Recipient>, attempt: nat) {
    && (forall line :: line in told ==> OfAttempt(line, job, list, attempt))
    && (forall line :: line in told && line.pc.settle.Send? ==> Simulated(told, job, list, attempt))
  }

  /** At most three attempts, each after trouble in the one before, each simulated before it is sent. */
  ghost predicate Attempts(told: seq<Line>, job: Payment, list: seq<Recipient>) {
    forall line :: line in told && IsAttempt(line) ==> AttemptDue(told, line, job, list)
  }

  ghost predicate AttemptDue(told: seq<Line>, line: Line, job: Payment, list: seq<Recipient>)
    requires IsAttempt(line)
  {
    var attempt := AttemptOf(line.pc.settle).value;
    && attempt < 3 && OfAttempt(line, job, list, attempt)
    && (attempt > 0 ==> Troubled(told, job, list, attempt - 1))
    && (line.pc.settle.Send? ==> Simulated(told, job, list, attempt))
  }

  lemma AttemptsOn(a: seq<Line>, b: seq<Line>, job: Payment, list: seq<Recipient>, attempt: nat)
    requires Attempts(a, job, list) && OneAttempt(b, job, list, attempt) && attempt < 3
    requires attempt > 0 ==> Troubled(a, job, list, attempt - 1)
    ensures Attempts(a + b, job, list)
  {
    forall line | line in a + b && IsAttempt(line) ensures AttemptDue(a + b, line, job, list) {
      if line in a {
        assert AttemptDue(a, line, job, list);
        DueLonger(a, b, line, job, list);
      } else {
        assert OfAttempt(line, job, list, attempt);
        SimulatedIn(a, b, job, list, attempt);
        if attempt > 0 {
          TroubledIn(a, b, job, list, attempt - 1);
        }
      }
    }
  }

  lemma DueLonger(a: seq<Line>, b: seq<Line>, line: Line, job: Payment, list: seq<Recipient>)
    requires IsAttempt(line) && AttemptDue(a, line, job, list)
    ensures AttemptDue(a + b, line, job, list)
  {
    var attempt := AttemptOf(line.pc.settle).value;
    SimulatedIn(a, b, job, list, attempt);
    if attempt > 0 {
      TroubledIn(a, b, job, list, attempt - 1);
    }
  }

  lemma TroubledIn(a: seq<Line>, b: seq<Line>, job: Payment, list: seq<Recipient>, attempt: nat)
    ensures Troubled(a, job, list, attempt) || Troubled(b, job, list, attempt) ==> Troubled(a + b, job, list, attempt)
  {
  }

  lemma SimulatedIn(a: seq<Line>, b: seq<Line>, job: Payment, list: seq<Recipient>, attempt: nat)
    ensures Simulated(a, job, list, attempt) || Simulated(b, job, list, attempt)
            ==> Simulated(a + b, job, list, attempt)
  {
  }

  ghost predicate NoAttempts(told: seq<Line>) {
    forall line :: line in told ==> !IsAttempt(line)
  }

  /** Statements around the attempts do not disturb them. */
  lemma AttemptsAmong(a: seq<Line>, b: seq<Line>, job: Payment, list: seq<Recipient>)
    requires (Attempts(a, job, list) && NoAttempts(b)) || (NoAttempts(a) && Attempts(b, job, list))
    ensures Attempts(a + b, job, list)
  {
    forall line | line in a + b && IsAttempt(line) ensures AttemptDue(a + b, line, job, list) {
      if line in a && !NoAttempts(a) {
        DueLonger(a, b, line, job, list);
      } else {
        assert AttemptDue(b, line, job, list);
        DueAfter(a, b, line, job, list);
      }
    }
  }

  lemma DueAfter(a: seq<Line>, b: seq<Line>, line: Line, job: Payment, list: seq<Recipient>)
    requires IsAttempt(line) && AttemptDue(b, line, job, list)
    ensures AttemptDue(a + b, line, job, list)
  {
    var attempt := AttemptOf(line.pc.settle).value;
    SimulatedIn(a, b, job, list, attempt);
    if attempt > 0 {
      TroubledIn(a, b, job, list, attempt - 1);
    }
  }

  // ------------------------------------------------------------------ results of attempts

  predicate FailsOrder(result: InvokeResult, attempt: nat) {
    || result.FailedOnChain? || result.SimulationError? || result.SubmissionError?
    || (result.NetworkError? && attempt == 2)
  }

  function ResultSigns(result: InvokeResult, attempt: nat): Signs {
    Signs(FailsOrder(result, attempt), result.TimeoutError?, false,
          if result.Succeeded? then {result.tx} else {}, if result.FailedOnChain? then {result.tx} else {})
  }

  /** What every attempt promises about its result, and about what it was told. */
  ghost predicate Returned(told: seq<Line>, t: State, job: Payment, list: seq<Recipient>, attempt: nat,
                           result: InvokeResult) {
    && ResultHolds(t, job, list, result) && SignsOf(told, job.order) == ResultSigns(result, attempt)
    && OneAttempt(told, job, list, attempt)
    && (result == NetworkError ==> Troubled(told, job, list, attempt))
  }

  // --------------------------------------------------------------------------- polling

  /** Where the handler goes when a poll brings no outcome. */
  function AfterPoll(job: Payment, list: seq<Recipient>, attempt: nat, tx: nat, polls: nat): Option<Pc> {
    if polls < 30 then Some(Settling(job, Poll(list, attempt, tx, polls))) else None
  }

  function PollResult(tx: nat, answer: Answer): Option<InvokeResult> {
    match answer
    case Good => Some(Succeeded(tx))
    case Bad => Some(FailedOnChain(tx))
    case Throw => Some(NetworkError)
    case _ => None
  }

  /** After this many polls: the outcome as it was heard, or none yet. */
  ghost predicate Polled(told: seq<Line>, s: State, job: Payment, list: seq<Recipient>, attempt: nat, polls: nat,
                         outcome: Option<InvokeResult>)
  {
    && (forall line :: line in told ==> OfAttempt(line, job, list, attempt) && line.pc.settle.Poll?)
    && (match outcome
        case Some(result) => Returned(told, s, job, list, attempt, result) && !result.TimeoutError?
        case None => SignsOf(told, job.order) == Signs(false, polls == 30, false, {}, {}))
  }

  /** One `getTransaction` call: `None` while there is no outcome. */
  method GetTransaction(w: World, h: nat, job: Payment, list: seq<Recipient>, attempt: nat, tx: nat, polls: nat)
    returns (outcome: Option<InvokeResult>, ghost line: Line)
    requires w.Valid() && w.At(h, Settling(job, Poll(list, attempt, tx, polls))) && polls < 30
    modifies w
    ensures w.Valid() && old(w.log) <= w.log && Kept(old(w.st), w.st, w.pinned)
    ensures w.Told(h) == old(w.Told(h)) + [line] && Polled([line], w.st, job, list, attempt, polls + 1, outcome)
    ensures w.Reached(h, if outcome.Some? then AfterInvoke(job, list, attempt, outcome.value)
                         else AfterPoll(job, list, attempt, tx, polls + 1))
  {
    ghost var pc := Settling(job, Poll(list, attempt, tx, polls));
    var answer, seen := w.Ask(h);
    outcome, line := PollResult(tx, answer), Line(pc, answer, seen);
    PollHeard(seen, w.st, job, list, attempt, tx, polls, answer, h);
    PollDecided(seen, h, job, list, attempt, tx, polls, answer);
  }

  lemma PollHeard(seen: State, t: State, job: Payment, list: seq<Recipient>, attempt: nat, tx: nat, polls: nat,
                  answer: Answer, h: nat)
    requires polls < 30 && t.txs == seen.txs && Truthful(seen, Settling(job, Poll(list, attempt, tx, polls)), answer)
    requires Local(seen, h, Settling(job, Poll(list, attempt, tx, polls)))
    ensures var line := Line(Settling(job, Poll(list, attempt, tx, polls)), answer, seen);
      Polled([line], t, job, list, attempt, polls + 1, PollResult(tx, answer))
  {
    var line := Line(Settling(job, Poll(list, attempt, tx, polls)), answer, seen);
    OneLine(line, job.order);
    assert line in [line];
    PollHolds(seen, t, job, list, attempt, tx, polls, answer, h);
  }

  lemma PollHolds(seen: State, t: State, job: Payment, list: seq<Recipient>, attempt: nat, tx: nat, polls: nat,
                  answer: Answer, h: nat)
    requires t.txs == seen.txs && Truthful(seen, Settling(job, Poll(list, attempt, tx, polls)), answer)
    requires Local(seen, h, Settling(job, Poll(list, attempt, tx, polls)))
    ensures PollResult(tx, answer).Some? ==> ResultHolds(t, job, list, PollResult(tx, answer).value)
  {
  }

  lemma PollDecided(s: State, h: nat, job: Payment, list: seq<Recipient>, attempt: nat, tx: nat, polls: nat,
                    answer: Answer)
    requires polls < 30
    ensures var outcome := PollResult(tx, answer);
      Decide(s, h, Settling(job, Poll(list, attempt, tx, polls)), answer).next
      == if outcome.Some? then AfterInvoke(job, list, attempt, outcome.value)
         else AfterPoll(job, list, attempt, tx, polls + 1)
  {
  }

  /** One more poll, after some that brought no outcome. */
  lemma PolledOn(told: seq<Line>, line: Line, s: State, t: State, job: Payment, list: seq<Recipient>, attempt: nat,
                 polls: nat, outcome: Option<InvokeResult>)
    requires polls < 30 && Polled(told, s, job, list, attempt, polls, None)
    requires Polled([line], t, job, list, attempt, polls + 1, outcome)
    ensures Polled(told + [line], t, job, list, attempt, polls + 1, outcome)
  {
    SignsJoin(told, [line], job.order);
    TroubledIn(told, [line], job, list, attempt);
    assert line in [line];
  }

  /** At most thirty polls, and exactly thirty before it gives up. */
  method PollTransaction(w: World, h: nat, job: Payment, list: seq<Recipient>, attempt: nat, tx: nat)
    returns (result: InvokeResult, ghost told: seq<Line>)
    requires w.Valid() && w.At(h, Settling(job, Poll(list, attempt, tx, 0)))
    modifies w
    ensures w.Valid() && old(w.log) <= w.log && Kept(old(w.st), w.st, w.pinned)
    ensures w.Told(h) == old(w.Told(h)) + told && |told| <= 30 && (result.TimeoutError? ==> |told| == 30)
    ensures Returned(told, w.st, job, list, attempt, result)
    ensures forall line :: line in told ==> line.pc.Settling? && line.pc.settle.Poll?
    ensures w.Reached(h, AfterInvoke(job, list, attempt, result))
  {
    var polls, outcome := 0, None;
    told := [];
    NothingTold(job.order);
    while polls < POLL_MAX_ATTEMPTS && outcome.None?
      invariant w.Valid() && old(w.log) <= w.log && Kept(old(w.st), w.st, w.pinned)
      invariant polls == |told| <= 30 && w.Told(h) == old(w.Told(h)) + told
      invariant Polled(told, w.st, job, list, attempt, polls, outcome)
      invariant w.Reached(h, if outcome.Some? then AfterInvoke(job, list, attempt, outcome.value)
                             else AfterPoll(job, list, attempt, tx, polls))
    {
      ghost var before, line := w.st, Line(Settling(job, ReadOrder), Good, w.st);
      outcome, line := GetTransaction(w, h, job, list, attempt, tx, polls);
      KeptTransitive(old(w.st), before, w.st, w.pinned);
      PolledOn(told, line, before, w.st, job, list, attempt, polls, outcome);
      Onward(old(w.Told(h)), told, [line]);
      told := told + [line];
      polls := polls + 1;
    }
    result := if outcome.Some? then outcome.value else TimeoutError(tx);
  }

  // ------------------------------------------------------------------- one attempt

  /** Where preparing an attempt leads: to its failure, or to the submission. */
  function AfterPrepare(job: Payment, list: seq<Recipient>, attempt: nat, failure: Option<InvokeResult>): Option<Pc> {
    match failure
    case Some(result) => AfterInvoke(job, list, attempt, result)
    case None => Some(Settling(job, Send(list, attempt)))
  }

  /** What preparing an attempt was told. */
  ghost predicate Prepared(told: seq<Line>, job: Payment, list: seq<Recipient>, attempt: nat,
                           failure: Option<InvokeResult>)
  {
    && (forall line :: line in told ==> OfAttempt(line, job, list, attempt) && !line.pc.settle.Send?)
    && (match failure
        case Some(result) =>
          && (result == NetworkError || result == SimulationError)
          && SignsOf(told, job.order) == ResultSigns(result, attempt)
          && (result == NetworkError ==> Troubled(told, job, list, attempt))
        case None => SignsOf(told, job.order) == QUIET && Simulated(told, job, list, attempt))
  }

  /** Loads the account and simulates: `None` when the transaction is ready to send. */
  method Prepare(w: World, h: nat, job: Payment, list: seq<Recipient>, attempt: nat)
    returns (failure: Option<InvokeResult>, ghost told: seq<Line>)
    requires w.Valid() && w.At(h, Settling(job, GetAccount(list, attempt))) && attempt < 3
    modifies w
    ensures w.Valid() && old(w.log) <= w.log && Kept(old(w.st), w.st, w.pinned)
    ensures w.Told(h) == old(w.Told(h)) + told && Prepared(told, job, list, attempt, failure)
    ensures w.Reached(h, AfterPrepare(job, list, attempt, failure))
  {
    var account, seen := w.Ask(h);
    ghost var line := Line(Settling(job, GetAccount(list, attempt)), account, seen);
    OneLine(line, job.order);
    if account == Throw {
      return Some(NetworkError), [line];
    }
    ghost var before, more := w.st, line;
    failure, more := SimulateTransaction(w, h, job, list, attempt);
    told := [line] + [more];
    KeptTransitive(old(w.st), before, w.st, w.pinned);
    PreparedOn(line, more, job, list, attempt, failure);
    Onward(old(w.Told(h)), [line], [more]);
  }

  lemma PreparedOn(line: Line, more: Line, job: Payment, list: seq<Recipient>, attempt: nat,
                   failure: Option<InvokeResult>)
    requires line.pc == Settling(job, GetAccount(list, attempt)) && line.answer != Throw
    requires Prepared([more], job, list, attempt, failure)
    ensures Prepared([line] + [more], job, list, attempt, failure)
  {
    SignsJoin([line], [more], job.order);
    OneLine(line, job.order);
    TroubledIn([line], [more], job, list, attempt);
    SimulatedIn([line], [more], job, list, attempt);
  }

  method SimulateTransaction(w: World, h: nat, job: Payment, list: seq<Recipient>, attempt: nat)
    returns (failure: Option<InvokeResult>, ghost line: Line)
    requires w.Valid() && w.At(h, Settling(job, Simulate(list, attempt))) && attempt < 3
    modifies w
    ensures w.Valid() && old(w.log) <= w.log && Kept(old(w.st), w.st, w.pinned)
    ensures w.Told(h) == old(w.Told(h)) + [line] && Prepared([line], job, list, attempt, failure)
    ensures w.Reached(h, AfterPrepare(job, list, attempt, failure))
  {
    var simulation, seen := w.Ask(h);
    line := Line(Settling(job, Simulate(list, attempt)), simulation, seen);
    failure := match simulation
      case Throw => Some(NetworkError)
      case Bad => Some(SimulationError)
      case _ => None;
    SimulationHeard(job, list, attempt, simulation, seen, failure);
  }

  lemma SimulationHeard(job: Payment, list: seq<Recipient>, attempt: nat, answer: Answer, seen: State,
                        failure: Option<InvokeResult>)
    requires attempt < 3
    requires failure == match answer
                        case Throw => Some(NetworkError)
                        case Bad => Some(SimulationError)
                        case _ => None
    ensures Prepared([Line(Settling(job, Simulate(list, attempt)), answer, seen)], job, list, attempt, failure)
  {
    var line := Line(Settling(job, Simulate(list, attempt)), answer, seen);
    OneLine(line, job.order);
    assert line in [line];
  }

  /** The transactions were submitted with these terms. */
  ghost predicate SentTerms(s: State, job: Payment, list: seq<Recipient>, sent: set<nat>) {
    forall x :: x in sent ==> x in s.txs && s.txs[x].terms == Terms(job.order, BaseTotal(job.cents), list)
  }

  /** The order's record is as before; only `sent` was submitted for it, one transaction at most. */
  ghost predicate Unsettled(s: State, t: State, o: OrderId, sent: set<nat>) {
    SameOrder(s, t, o) && SameRow(s, t, o) && TxsOf(t, o) <= TxsOf(s, o) + sent
  }

  lemma KeptUnsettled(s: State, t: State, u: State, pinned: set<OrderId>, o: OrderId, sent: set<nat>)
    requires o in pinned && Unsettled(s, t, o, sent) && Kept(t, u, pinned)
    ensures Unsettled(s, u, o, sent)
  {
  }

  /** What one attempt, or a part of it, does to the state: it submits at most once. */
  ghost predicate SubmitsOnce(w: World, s: State, t: State, job: Payment, list: seq<Recipient>, sent: set<nat>) {
    && Kept(s, t, w.pinned - {job.order}) && |sent| <= 1 && SentTerms(t, job, list, sent)
    && (job.order in w.pinned ==> Unsettled(s, t, job.order, sent))
  }

  lemma SubmitsNothing(w: World, s: State, t: State, job: Payment, list: seq<Recipient>)
    requires Kept(s, t, w.pinned)
    ensures SubmitsOnce(w, s, t, job, list, {})
  {
    KeptFewer(s, t, w.pinned, w.pinned - {job.order});
  }

  lemma SubmitsLater(w: World, s: State, mid: State, t: State, job: Payment, list: seq<Recipient>, sent: set<nat>)
    requires Kept(s, mid, w.pinned) && SubmitsOnce(w, mid, t, job, list, sent)
    ensures SubmitsOnce(w, s, t, job, list, sent)
  {
    KeptFewer(s, mid, w.pinned, w.pinned - {job.order});
    KeptTransitive(s, mid, t, w.pinned - {job.order});
  }

  lemma SubmitsEarlier(w: World, s: State, mid: State, t: State, job: Payment, list: seq<Recipient>, sent: set<nat>)
    requires SubmitsOnce(w, s, mid, job, list, sent) && Kept(mid, t, w.pinned) && SentTerms(t, job, list, sent)
    ensures SubmitsOnce(w, s, t, job, list, sent)
  {
    KeptFewer(mid, t, w.pinned, w.pinned - {job.order});
    KeptTransitive(s, mid, t, w.pinned - {job.order});
    if job.order in w.pinned {
      KeptUnsettled(s, mid, t, w.pinned, job.order, sent);
    }
  }

  function AfterSend(job: Payment, list: seq<Recipient>, attempt: nat, answer: Answer, tx: nat): Option<Pc> {
    match answer
    case Good => Some(Settling(job, Poll(list, attempt, tx, 0)))
    case Known(known) => Some(Settling(job, Poll(list, attempt, known, 0)))
    case Lost => Some(Retry(job, list, attempt))
    case Throw => Some(Retry(job, list, attempt))
    case _ => FailSafe(job).next
  }

  /** `tx` is the transaction to poll, if there is one. */
  method SendOnce(w: World, h: nat, job: Payment, list: seq<Recipient>, attempt: nat)
    returns (answer: Answer, ghost tx: nat, ghost sent: set<nat>, ghost line: Line)
    requires w.Valid() && w.At(h, Settling(job, Send(list, attempt)))
    modifies w
    ensures w.Valid() && old(w.log) <= w.log && SubmitsOnce(w, old(w.st), w.st, job, list, sent)
    ensures w.Told(h) == old(w.Told(h)) + [line]
    ensures line.pc == Settling(job, Send(list, attempt)) && line.answer == answer
    ensures w.Reached(h, AfterSend(job, list, attempt, answer, tx))
  {
    answer, sent, line := w.SendTransaction(h, job, list, attempt);
    tx := if answer == Good then w.st.acts[h].settle.tx else 0;
  }

  /** What sending and polling was told, after the simulation. */
  ghost predicate SentAndPolled(told: seq<Line>, t: State, job: Payment, list: seq<Recipient>, attempt: nat,
                                result: InvokeResult)
  {
    && ResultHolds(t, job, list, result) && SignsOf(told, job.order) == ResultSigns(result, attempt)
    && (forall line :: line in told ==> OfAttempt(line, job, list, attempt))
    && (result == NetworkError ==> Troubled(told, job, list, attempt))
  }

  method SendAndPoll(w: World, h: nat, job: Payment, list: seq<Recipient>, attempt: nat)
    returns (result: InvokeResult, ghost sent: set<nat>, ghost told: seq<Line>)
    requires w.Valid() && w.At(h, Settling(job, Send(list, attempt))) && attempt < 3
    modifies w
    ensures w.Valid() && old(w.log) <= w.log && SubmitsOnce(w, old(w.st), w.st, job, list, sent)
    ensures w.Told(h) == old(w.Told(h)) + told && SentAndPolled(told, w.st, job, list, attempt, result)
    ensures w.Reached(h, AfterInvoke(job, list, attempt, result))
  {
    ghost var start, tx, line := w.st, 0, Line(Settling(job, ReadOrder), Good, w.st);
    var response;
    response, tx, sent, line := SendOnce(w, h, job, list, attempt);
    OneLine(line, job.order);
    assert line in [line];
    told := [line];
    match response {
      case Good => result, told := PollSubmitted(w, h, job, list, attempt, start, sent, line, old(w.Told(h)));
      case Known(_) => result, told := PollSubmitted(w, h, job, list, attempt, start, sent, line, old(w.Told(h)));
      case Lost => result := NetworkError;
      case Throw => result := NetworkError;
      case _ => result := SubmissionError;
    }
  }

  /** Polls for the transaction just submitted: `start` and `before` are from before the submission. */
  method PollSubmitted(w: World, h: nat, job: Payment, list: seq<Recipient>, attempt: nat, ghost start: State,
                       ghost sent: set<nat>, ghost line: Line, ghost before: seq<Line>)
    returns (result: InvokeResult, ghost told: seq<Line>)
    requires w.Valid() && h in w.st.acts && w.st.acts[h].Settling? && w.st.acts[h].settle.Poll?
    requires w.At(h, Settling(job, Poll(list, attempt, w.st.acts[h].settle.tx, 0)))
    requires SubmitsOnce(w, start, w.st, job, list, sent) && w.Told(h) == before + [line]
    requires line.pc == Settling(job, Send(list, attempt)) && (line.answer == Good || line.answer.Known?)
    modifies w
    ensures w.Valid() && old(w.log) <= w.log && SubmitsOnce(w, start, w.st, job, list, sent)
    ensures w.Told(h) == before + told && SentAndPolled(told, w.st, job, list, attempt, result)
    ensures w.Reached(h, AfterInvoke(job, list, attempt, result))
  {
    ghost var past, sentState, polls := w.Past(), w.st, [];
    result, polls := PollTransaction(w, h, job, list, attempt, w.st.acts[h].settle.tx);
    told := [line] + polls;
    Onward(before, [line], polls);
    w.TermsStay(past);
    SubmitsEarlier(w, start, sentState, w.st, job, list, sent);
    PolledAfter(line, polls, w.st, job, list, attempt, result);
  }

  lemma PolledAfter(line: Line, polls: seq<Line>, t: State, job: Payment, list: seq<Recipient>, attempt: nat,
                    result: InvokeResult)
    requires line.pc == Settling(job, Send(list, attempt)) && (line.answer == Good || line.answer.Known?)
    requires Returned(polls, t, job, list, attempt, result)
    ensures SentAndPolled([line] + polls, t, job, list, attempt, result)
  {
    SignsJoin([line], polls, job.order);
    OneLine(line, job.order);
    TroubledIn([line], polls, job, list, attempt);
  }

  /** `sent` is the transactions submitted for the order: at most one, whatever comes back. */
  method InvokeSettle(w: World, h: nat, job: Payment, list: seq<Recipient>, attempt: nat)
    returns (result: InvokeResult, ghost sent: set<nat>, ghost told: seq<Line>)
    requires w.Valid() && w.At(h, Settling(job, GetAccount(list, attempt))) && attempt < 3
    modifies w
    ensures w.Valid() && old(w.log) <= w.log && SubmitsOnce(w, old(w.st), w.st, job, list, sent)
    ensures w.Told(h) == old(w.Told(h)) + told && Returned(told, w.st, job, list, attempt, result)
    ensures w.Reached(h, AfterInvoke(job, list, attempt, result))
  {
    ghost var start := w.st;
    var prepared;
    prepared, told := Prepare(w, h, job, list, attempt);
    ghost var before, more := w.st, [];
    sent := {};
    if prepared.Some? {
      SubmitsNothing(w, start, w.st, job, list);
      return prepared.value, sent, told;
    }
    result, sent, more := SendAndPoll(w, h, job, list, attempt);
    SubmitsLater(w, start, before, w.st, job, list, sent);
    ReturnedOn(told, more, w.st, job, list, attempt, result);
    Onward(old(w.Told(h)), told, more);
    told := told + more;
  }

  lemma ReturnedOn(told: seq<Line>, more: seq<Line>, t: State, job: Payment, list: seq<Recipient>, attempt: nat,
                   result: InvokeResult)
    requires Prepared(told, job, list, attempt, None) && SentAndPolled(more, t, job, list, attempt, result)
    ensures Returned(told + more, t, job, list, attempt, result)
  {
    SignsJoin(told, more, job.order);
    TroubledIn(told, more, job, list, attempt);
    SimulatedIn(told, more, job, list, attempt);
  }

  // ------------------------------------------------------------- recording a settlement

  /** The order is SETTLED under this hash, with the row that handler `h` computed for it, and announced. */
  ghost predicate Recorded(s: State, t: State, o: OrderId, total: int, list: seq<Recipient>, hash: Hash, direct: bool,
                           h: nat) {
    && o !in s.rows && o in t.rows && t.rows[o] == NewRow(total, list, hash, direct, h) && o in t.emitted
    && (o in s.orders ==> o in t.orders && t.orders[o] == s.orders[o].(status := Settled, txHash := Some(hash)))
  }

  /** Nothing but, perhaps, a refusal was told; of a reliable database it was told exactly when `refused`. */
  ghost predicate OnlyRefusal(w: World, told: seq<Line>, o: OrderId, refused: bool) {
    && NoAttempts(told) && SignsOf(told, o).(refused := false) == QUIET
    && (w.reliable ==> SignsOf(told, o).refused == refused)
  }

  lemma RefusalsJoin(w: World, a: seq<Line>, b: seq<Line>, o: OrderId, first: bool, second: bool)
    requires OnlyRefusal(w, a, o, first) && OnlyRefusal(w, b, o, second)
    ensures OnlyRefusal(w, a + b, o, first || second)
  {
    SignsJoin(a, b, o);
  }

  lemma QuietLine(w: World, line: Line, o: OrderId)
    requires !IsAttempt(line) && LineSigns(line, o) == QUIET
    ensures OnlyRefusal(w, [line], o, false)
  {
    OneLine(line, o);
  }

  /** `false` is the error of a row that exists already, or of the database. */
  method RecordSettlementSuccess(w: World, h: nat, o: OrderId, total: int, list: seq<Recipient>, hash: Hash,
                                 direct: bool, ghost caller: Caller)
    returns (ok: bool, ghost told: seq<Line>)
    requires w.Valid() && w.At(h, Recording(o, CreateRow(total, list, hash, direct), caller))
    modifies w
    ensures w.Valid() && old(w.log) <= w.log && Kept(old(w.st), w.st, w.pinned - {o})
    ensures w.Told(h) == old(w.Told(h)) + told && OnlyRefusal(w, told, o, !ok)
    ensures NoNewTx(old(w.st), w.st, w.pinned)
    ensures o in w.pinned && w.reliable ==> ok == (o !in old(w.st).rows)
    ensures o in w.pinned && w.reliable && ok ==> Recorded(old(w.st), w.st, o, total, list, hash, direct, h)
    ensures o in w.pinned && w.reliable && !ok ==> SameOrder(old(w.st), w.st, o) && SameRow(old(w.st), w.st, o)
    ensures w.Reached(h, if ok then OnReturn(caller) else OnError(caller))
  {
    ghost var start := w.st;
    var fee, pool, amounts := SplitForRows(total, list);
    var row := Row(total, fee, list, amounts, hash, direct, h);
    ghost var line, more := Line(Settling(Payment(o, 0), ReadOrder), Good, start), [];
    ok, line := w.Create(h, o, row);
    told := [line];
    OneLine(line, o);
    if !ok {
      KeptFewer(start, w.st, w.pinned, w.pinned - {o});
      return;
    }
    ghost var created := w.st;
    ok, more := SettleAndAnnounce(w, h, o, hash, caller);
    KeptTransitive(start, created, w.st, w.pinned - {o});
    RefusalsJoin(w, told, more, o, false, false);
    Onward(old(w.Told(h)), told, more);
    told := told + more;
  }

  method SettleAndAnnounce(w: World, h: nat, o: OrderId, hash: Hash, ghost caller: Caller)
    returns (ok: bool, ghost told: seq<Line>)
    requires w.Valid() && w.At(h, Recording(o, MarkSettled(hash), caller))
    modifies w
    ensures w.Valid() && old(w.log) <= w.log && Kept(old(w.st), w.st, w.pinned - {o})
    ensures w.Told(h) == old(w.Told(h)) + told && OnlyRefusal(w, told, o, false)
    ensures NoNewTx(old(w.st), w.st, w.pinned)
    ensures w.reliable ==> ok
    ensures ok ==> o in w.st.emitted
    ensures ok && o in w.pinned ==> Updated(old(w.st), w.st, o, Settled, Put(hash))
    ensures w.Reached(h, if ok then OnReturn(caller) else OnError(caller))
  {
    ghost var start, line := w.st, Line(Settling(Payment(o, 0), ReadOrder), Good, w.st);
    ok, line := w.Update(h, o, Settled, Put(hash));
    told := [line];
    ghost var before, settled := old(w.Told(h)), w.st;
    QuietRecord(w, line, o);
    KeptFewer(start, settled, if ok then w.pinned - {o} else w.pinned, w.pinned - {o});
    if ok {
      line := w.Announce(h, o);
      AnnouncedLater(w, told, line, start, settled, w.st, o, hash);
      Onward(before, told, [line]);
      told := told + [line];
    }
  }

  /** Only two of the statements that record a settlement can be told a refusal. */
  lemma QuietRecord(w: World, line: Line, o: OrderId)
    requires line.pc.Recording? && !line.pc.record.CreateRow? && !line.pc.record.ReloadShares?
    ensures OnlyRefusal(w, [line], o, false)
  {
    QuietLine(w, line, o);
  }

  lemma AnnouncedLater(w: World, told: seq<Line>, line: Line, s: State, mid: State, t: State, o: OrderId, hash: Hash)
    requires Kept(s, mid, w.pinned - {o}) && Kept(mid, t, w.pinned) && NoNewTx(s, mid, w.pinned)
    requires OnlyRefusal(w, told, o, false) && line.pc.Recording? && line.pc.record.Announce?
    requires o in w.pinned ==> Updated(s, mid, o, Settled, Put(hash))
    ensures Kept(s, t, w.pinned - {o}) && NoNewTx(s, t, w.pinned) && OnlyRefusal(w, told + [line], o, false)
    ensures o in w.pinned ==> Updated(s, t, o, Settled, Put(hash))
  {
    KeptFewer(mid, t, w.pinned, w.pinned - {o});
    KeptTransitive(s, mid, t, w.pinned - {o});
    QuietRecord(w, line, o);
    RefusalsJoin(w, told, [line], o, false, false);
  }

  /** How `recordRecoveredSettlement` ends. */
  datatype Rebuild = RowCreated | OrderMissing | NoShares | Threw

  /** The handler read the product's collaborators while it recorded the order, and these are their shares. */
  ghost predicate SharesRead(told: seq<Line>, o: OrderId, product: ProductId, list: seq<Recipient>) {
    exists line :: line in told && ReadsShares(line, o, product, list)
  }

  predicate ReadsShares(line: Line, o: OrderId, product: ProductId, list: seq<Recipient>) {
    && line.pc.Recording? && line.pc.order == o && line.pc.record.ReloadShares? && line.pc.record.product == product
    && line.answer != Throw
    && product in line.seen.products && line.seen.products[product].collaborators != []
    && list == ToRecipients(line.seen.products[product].collaborators)
  }

  lemma SharesIn(a: seq<Line>, b: seq<Line>, o: OrderId, product: ProductId, list: seq<Recipient>)
    ensures SharesRead(a, o, product, list) || SharesRead(b, o, product, list) ==> SharesRead(a + b, o, product, list)
  {
  }

  /** The order is SETTLED with a row for its own price and its product's collaborators, as they were read. */
  ghost predicate Rebuilt(told: seq<Line>, s: State, t: State, o: OrderId, hash: Hash, h: nat) {
    o in s.orders && exists list ::
      SharesRead(told, o, s.orders[o].product, list)
      && Recorded(s, t, o, BaseTotal(s.orders[o].cents), list, hash, false, h)
  }

  ghost predicate RebuildHolds(told: seq<Line>, s: State, t: State, o: OrderId, hash: Hash, h: nat, result: Rebuild) {
    match result
    case RowCreated => Rebuilt(told, s, t, o, hash, h)
    case NoShares => Updated(s, t, o, SettlementFailed, Keep)
    case OrderMissing => o !in s.orders
    case Threw => o in s.rows && SameOrder(s, t, o) && SameRow(s, t, o)
  }

  /** What rebuilding the row of an order promises. */
  ghost predicate Rebuilds(w: World, told: seq<Line>, s: State, t: State, h: nat, o: OrderId, hash: Hash,
                           result: Rebuild)
  {
    && Kept(s, t, w.pinned - {o}) && NoNewTx(s, t, w.pinned)
    && OnlyRefusal(w, told, o, result == NoShares || result == Threw)
    && (o in w.pinned && o in s.orders && w.reliable ==>
          && RebuildHolds(told, s, t, o, hash, h, result)
          && (SellableProduct(s, s.orders[o].product) ==> result == if o in s.rows then Threw else RowCreated))
  }

  lemma RebuiltLater(a: seq<Line>, b: seq<Line>, s: State, mid: State, t: State, o: OrderId, hash: Hash, h: nat)
    requires o in s.orders && o in mid.orders && SameRow(s, mid, o) && Rebuilt(b, mid, t, o, hash, h)
    requires s.orders[o].product == mid.orders[o].product && s.orders[o].cents == mid.orders[o].cents
    requires mid.orders[o].(status := Settled, txHash := None) == s.orders[o].(status := Settled, txHash := None)
    ensures Rebuilt(a + b, s, t, o, hash, h)
  {
    var list :| SharesRead(b, o, mid.orders[o].product, list)
             && Recorded(mid, t, o, BaseTotal(mid.orders[o].cents), list, hash, false, h);
    SharesIn(a, b, o, s.orders[o].product, list);
    SettledAlike(s.orders[o], mid.orders[o], hash);
    assert Recorded(s, t, o, BaseTotal(s.orders[o].cents), list, hash, false, h);
  }

  lemma SettledAlike(a: Order, b: Order, hash: Hash)
    requires a.(status := Settled, txHash := None) == b.(status := Settled, txHash := None)
    ensures a.(status := Settled, txHash := Some(hash)) == b.(status := Settled, txHash := Some(hash))
  {
  }

  /** A read came before the rebuilding. */
  lemma RebuildsLater(w: World, a: seq<Line>, b: seq<Line>, s: State, mid: State, t: State, h: nat, o: OrderId,
                      hash: Hash, result: Rebuild)
    requires Kept(s, mid, w.pinned) && OnlyRefusal(w, a, o, false) && Rebuilds(w, b, mid, t, h, o, hash, result)
    ensures Rebuilds(w, a + b, s, t, h, o, hash, result)
  {
    KeptFewer(s, mid, w.pinned, w.pinned - {o});
    KeptTransitive(s, mid, t, w.pinned - {o});
    RefusalsJoin(w, a, b, o, false, result == NoShares || result == Threw);
    if o in w.pinned && o in s.orders && w.reliable && result == RowCreated {
      RebuiltLater(a, b, s, mid, t, o, hash, h);
    }
  }

  method RecordRecoveredSettlement(w: World, h: nat, o: OrderId, hash: Hash, ghost caller: Caller)
    returns (result: Rebuild, ghost told: seq<Line>)
    requires w.Valid() && w.At(h, Recording(o, ReloadOrder(hash), caller))
    modifies w
    ensures w.Valid() && old(w.log) <= w.log && w.Told(h) == old(w.Told(h)) + told
    ensures w.reliable && o in w.pinned && o in old(w.st).orders ==> result != OrderMissing
    ensures Rebuilds(w, told, old(w.st), w.st, h, o, hash, result)
    ensures w.Reached(h, if result == Threw then OnError(caller) else OnReturn(caller))
  {
    ghost var start := w.st;
    var answer, seen := w.Ask(h);
    ghost var line, more, loaded := Line(Recording(o, ReloadOrder(hash), caller), answer, seen), [], w.st;
    told := [line];
    QuietLine(w, line, o);
    KeptFewer(start, w.st, w.pinned, w.pinned - {o});
    if answer == Throw {
      RefusedOrNot(w, told, o);
      return Threw, told;
    }
    if o !in seen.orders {
      return OrderMissing, told;
    }
    result, more := RebuildRow(w, h, o, hash, seen.orders[o].product, seen.orders[o].cents, caller);
    RebuildsLater(w, told, more, start, loaded, w.st, h, o, hash, result);
    Onward(old(w.Told(h)), told, more);
    told := told + more;
  }

  /** When the database fails, nothing is said about refusals. */
  lemma RefusedOrNot(w: World, told: seq<Line>, o: OrderId)
    requires OnlyRefusal(w, told, o, false) && !w.reliable
    ensures OnlyRefusal(w, told, o, true)
  {
  }

  /** The line that reloads the collaborators, as a refusal or as shares read. */
  lemma SharesHeard(w: World, line: Line, o: OrderId, hash: Hash, product: ProductId, cents: nat, caller: Caller)
    requires line.pc == Recording(o, ReloadShares(hash, product, cents), caller)
    ensures var collaborators :=
        if product in line.seen.products then line.seen.products[product].collaborators else [];
      && OnlyRefusal(w, [line], o, line.answer != Throw && collaborators == [])
      && (line.answer != Throw && collaborators != [] ==> SharesRead([line], o, product, ToRecipients(collaborators)))
  {
    OneLine(line, o);
    assert line in [line];
  }

  lemma SharesDecided(s: State, h: nat, o: OrderId, hash: Hash, product: ProductId, cents: nat, caller: Caller,
                      answer: Answer)
    ensures var collaborators := if product in s.products then s.products[product].collaborators else [];
      Decide(s, h, Recording(o, ReloadShares(hash, product, cents), caller), answer).next
      == if answer == Throw then OnError(caller)
         else if collaborators == [] then Some(Recording(o, FailUnshared, caller))
         else Some(Recording(o, CreateRow(BaseTotal(cents), ToRecipients(collaborators), hash, false), caller))
  {
  }

  method ReloadCollaborators(w: World, h: nat, o: OrderId, hash: Hash, product: ProductId, cents: nat,
                             ghost caller: Caller)
    returns (ok: bool, collaborators: seq<Collaborator>, ghost line: Line)
    requires w.Valid() && w.At(h, Recording(o, ReloadShares(hash, product, cents), caller))
    modifies w
    ensures w.Valid() && old(w.log) <= w.log && Kept(old(w.st), w.st, w.pinned)
    ensures w.Told(h) == old(w.Told(h)) + [line] && (w.reliable ==> ok)
    ensures OnlyRefusal(w, [line], o, ok && collaborators == [])
    ensures ok && collaborators != [] ==> SharesRead([line], o, product, ToRecipients(collaborators))
    ensures ok && w.pinned != {} && SellableProduct(old(w.st), product) ==> collaborators != []
    ensures w.Reached(h, if !ok then OnError(caller)
                         else if collaborators == [] then Some(Recording(o, FailUnshared, caller))
                         else
                           var list := ToRecipients(collaborators);
                           Some(Recording(o, CreateRow(BaseTotal(cents), list, hash, false), caller)))
  {
    var answer, seen := w.Ask(h);
    ok, line := answer != Throw, Line(Recording(o, ReloadShares(hash, product, cents), caller), answer, seen);
    collaborators := if product in seen.products then seen.products[product].collaborators else [];
    SharesHeard(w, line, o, hash, product, cents, caller);
    SharesDecided(seen, h, o, hash, product, cents, caller, answer);
  }

  method FailUnsharedOrder(w: World, h: nat, o: OrderId, ghost caller: Caller)
    returns (result: Rebuild, ghost line: Line)
    requires w.Valid() && w.At(h, Recording(o, FailUnshared, caller))
    modifies w
    ensures w.Valid() && old(w.log) <= w.log && Kept(old(w.st), w.st, w.pinned - {o})
    ensures w.Told(h) == old(w.Told(h)) + [line] && OnlyRefusal(w, [line], o, false)
    ensures NoNewTx(old(w.st), w.st, w.pinned)
    ensures result == NoShares || (result == Threw && !w.reliable)
    ensures result == NoShares && o in w.pinned ==> Updated(old(w.st), w.st, o, SettlementFailed, Keep)
    ensures w.Reached(h, if result == Threw then OnError(caller) else OnReturn(caller))
  {
    ghost var start := w.st;
    var marked;
    marked, line := w.Update(h, o, SettlementFailed, Keep);
    QuietLine(w, line, o);
    KeptFewer(start, w.st, if marked then w.pinned - {o} else w.pinned, w.pinned - {o});
    result := if marked then NoShares else Threw;
  }

  /** The product and price of the order, as far as it exists and is not another activity's. */
  ghost predicate Describes(w: World, s: State, o: OrderId, product: ProductId, cents: nat) {
    o in w.pinned && o in s.orders ==> s.orders[o].product == product && s.orders[o].cents == cents
  }

  method RebuildRow(w: World, h: nat, o: OrderId, hash: Hash, product: ProductId, cents: nat, ghost caller: Caller)
    returns (result: Rebuild, ghost told: seq<Line>)
    requires w.Valid() && w.At(h, Recording(o, ReloadShares(hash, product, cents), caller))
    requires Describes(w, w.st, o, product, cents)
    modifies w
    ensures w.Valid() && old(w.log) <= w.log && w.Told(h) == old(w.Told(h)) + told
    ensures Rebuilds(w, told, old(w.st), w.st, h, o, hash, result) && result != OrderMissing
    ensures w.Reached(h, if result == Threw then OnError(caller) else OnReturn(caller))
  {
    ghost var start, line, more := w.st, Line(Recovering(FindStuck), Good, w.st), [];
    var ok, collaborators;
    ok, collaborators, line := ReloadCollaborators(w, h, o, hash, product, cents, caller);
    ghost var loaded := w.st;
    told := [line];
    if !ok {
      KeptFewer(start, w.st, w.pinned, w.pinned - {o});
      RefusedOrNot(w, told, o);
      result := Threw;
    } else if collaborators == [] {
      result, line := FailUnsharedOrder(w, h, o, caller);
      UnsharedFailed(w, told, line, start, loaded, w.st, h, o, hash, product, cents, result);
      Onward(old(w.Told(h)), told, [line]);
      told := told + [line];
    } else {
      var list := ToRecipients(collaborators);
      result, more := RecordShares(w, h, o, hash, cents, list, caller);
      SharesRecorded(w, told, more, start, loaded, w.st, h, o, hash, product, cents, list, result);
      Onward(old(w.Told(h)), told, more);
      told := told + more;
    }
  }

  lemma UnsharedFailed(w: World, told: seq<Line>, line: Line, s: State, mid: State, t: State, h: nat, o: OrderId,
                       hash: Hash, product: ProductId, cents: nat, result: Rebuild)
    requires Kept(s, mid, w.pinned) && Kept(mid, t, w.pinned - {o}) && NoNewTx(mid, t, w.pinned)
    requires OnlyRefusal(w, told, o, true) && OnlyRefusal(w, [line], o, false) && Describes(w, s, o, product, cents)
    requires result == NoShares || (result == Threw && !w.reliable)
    requires result == NoShares && o in w.pinned ==> Updated(mid, t, o, SettlementFailed, Keep)
    requires w.reliable && o in w.pinned ==> !SellableProduct(s, product)
    ensures Rebuilds(w, told + [line], s, t, h, o, hash, result)
  {
    KeptFewer(s, mid, w.pinned, w.pinned - {o});
    KeptTransitive(s, mid, t, w.pinned - {o});
    RefusalsJoin(w, told, [line], o, true, false);
  }

  /** The row was to be created with these shares, and was, or existed already. */
  ghost predicate RecordsShares(w: World, told: seq<Line>, s: State, t: State, h: nat, o: OrderId, hash: Hash,
                                cents: nat, list: seq<Recipient>, result: Rebuild)
  {
    && Kept(s, t, w.pinned - {o}) && NoNewTx(s, t, w.pinned)
    && (result == RowCreated || result == Threw) && OnlyRefusal(w, told, o, result == Threw)
    && (o in w.pinned && w.reliable ==>
          && (result == Threw <==> o in s.rows)
          && (result == RowCreated ==> Recorded(s, t, o, BaseTotal(cents), list, hash, false, h))
          && (result == Threw ==> SameOrder(s, t, o) && SameRow(s, t, o)))
  }

  method RecordShares(w: World, h: nat, o: OrderId, hash: Hash, cents: nat, list: seq<Recipient>, ghost caller: Caller)
    returns (result: Rebuild, ghost told: seq<Line>)
    requires w.Valid() && w.At(h, Recording(o, CreateRow(BaseTotal(cents), list, hash, false), caller))
    modifies w
    ensures w.Valid() && old(w.log) <= w.log && w.Told(h) == old(w.Told(h)) + told
    ensures RecordsShares(w, told, old(w.st), w.st, h, o, hash, cents, list, result)
    ensures w.Reached(h, if result == Threw then OnError(caller) else OnReturn(caller))
  {
    var ok;
    ok, told := RecordSettlementSuccess(w, h, o, BaseTotal(cents), list, hash, false, caller);
    result := if ok then RowCreated else Threw;
  }

  lemma SharesRecorded(w: World, told: seq<Line>, more: seq<Line>, s: State, mid: State, t: State, h: nat, o: OrderId,
                       hash: Hash, product: ProductId, cents: nat, list: seq<Recipient>, result: Rebuild)
    requires Kept(s, mid, w.pinned) && RecordsShares(w, more, mid, t, h, o, hash, cents, list, result)
    requires OnlyRefusal(w, told, o, false) && SharesRead(told, o, product, list) && Describes(w, s, o, product, cents)
    ensures Rebuilds(w, told + more, s, t, h, o, hash, result)
  {
    KeptFewer(s, mid, w.pinned, w.pinned - {o});
    KeptTransitive(s, mid, t, w.pinned - {o});
    RefusalsJoin(w, told, more, o, false, result == Threw);
    SharesIn(told, more, o, product, list);
    if o in w.pinned && o in s.orders && w.reliable && result == RowCreated {
      assert Recorded(s, t, o, BaseTotal(s.orders[o].cents), list, hash, false, h);
    }
  }

  // -------------------------------------------------------------- the settlement handler

  /** How the handler ends; `Interrupted` when the database fails for good. */
  datatype Ending = Rejected | Failed | Completed | StillPending | Interrupted

  /**
   * The record of a completed order: the row that was there already; or a row for the
   * shares that were paid, under the hash that was polled; or one for a payout found on
   * chain, under the hash known before, or rebuilt from the shares read again.
   */
  ghost predicate CompletedAs(told: seq<Line>, list: seq<Recipient>, s: State, t: State, job: Payment, h: nat) {
    var o := job.order; var confirmed := SignsOf(told, o).confirmed;
    o in s.orders && o in t.orders &&
    if o in s.rows then
      SameRow(s, t, o) && t.orders[o] == s.orders[o].(status := Settled, txHash := Some(s.rows[o].txHash))
    else if confirmed != {} then
      forall tx :: tx in confirmed ==> Recorded(s, t, o, BaseTotal(job.cents), list, OnChain(tx), true, h)
    else if s.orders[o].txHash.Some? then
      Recorded(s, t, o, BaseTotal(job.cents), list, s.orders[o].txHash.value, false, h)
    else Rebuilt(told, s, t, o, Placeholder(o), h)
  }

  /** A failed order keeps its row, and its hash unless a transaction of its own was told to have failed. */
  ghost predicate FailedAs(told: seq<Line>, s: State, t: State, o: OrderId) {
    var reverted := SignsOf(told, o).reverted;
    && o in s.orders && o in t.orders && SameRow(s, t, o)
    && t.orders[o] == s.orders[o].(status := SettlementFailed, txHash := t.orders[o].txHash)
    && (reverted == {} ==> t.orders[o].txHash == s.orders[o].txHash)
    && (forall tx :: tx in reverted ==> t.orders[o].txHash == Some(OnChain(tx)))
  }

  /** How the handler leaves its order. */
  ghost predicate Ends(told: seq<Line>, list: seq<Recipient>, s: State, t: State, job: Payment, h: nat, ending: Ending)
  {
    var o := job.order;
    match ending
    case Rejected =>
      && o in s.orders && o in t.orders && SameRow(s, t, o)
      && !CanTransition(s.orders[o].status, SettlementPending) && t.orders[o] == s.orders[o]
    case Failed => FailedAs(told, s, t, o)
    case Completed => CompletedAs(told, list, s, t, job, h)
    case StillPending =>
      && o in s.orders && o in t.orders && SameRow(s, t, o)
      && t.orders[o] == s.orders[o].(status := SettlementPending)
    case Interrupted => false
  }

  /** No other activity concerns the handler's order, and the database answers. */
  predicate Undisturbed(w: World, s: State, o: OrderId) {
    o in w.pinned && o in s.orders && w.reliable
  }

  /**
   * What the handler promises about its ending: the order is failed exactly when it was
   * refused, and pending exactly after a poll that timed out.
   */
  ghost predicate Closed(w: World, told: seq<Line>, list: seq<Recipient>, s: State, t: State, job: Payment, h: nat,
                         ending: Ending)
  {
    && Kept(s, t, w.pinned - {job.order}) && h !in t.acts
    && (w.reliable ==> (ending == Failed <==> SignsOf(told, job.order).refused))
    && (ending == StillPending <==> SignsOf(told, job.order).timedOut)
    && (Undisturbed(w, s, job.order) ==> Ends(told, list, s, t, job, h, ending))
  }

  /** At most three transactions were submitted for the order, all to pay this list, and `sent` holds them. */
  ghost predicate FewSubmitted(w: World, s: State, t: State, job: Payment, list: seq<Recipient>, sent: set<nat>) {
    && |sent| <= 3 && SentTerms(t, job, list, sent)
    && (job.order in w.pinned ==> TxsOf(t, job.order) <= TxsOf(s, job.order) + sent)
  }

  lemma NoneSubmitted(w: World, s: State, t: State, job: Payment, list: seq<Recipient>)
    requires NoNewTx(s, t, w.pinned)
    ensures FewSubmitted(w, s, t, job, list, {})
  {
  }

  lemma SubmittedEarlier(w: World, s: State, mid: State, t: State, job: Payment, list: seq<Recipient>, sent: set<nat>)
    requires NoNewTx(s, mid, w.pinned) && FewSubmitted(w, mid, t, job, list, sent)
    ensures FewSubmitted(w, s, t, job, list, sent)
  {
  }

  /** The order is as it was, but for its status. */
  ghost predicate AlikeButStatus(w: World, s: State, mid: State, o: OrderId) {
    Undisturbed(w, s, o) ==>
      && o in mid.orders && SameRow(s, mid, o)
      && mid.orders[o].(status := SettlementPending) == s.orders[o].(status := SettlementPending)
  }

  lemma EndsLater(a: seq<Line>, b: seq<Line>, list: seq<Recipient>, s: State, mid: State, t: State, job: Payment,
                  h: nat, ending: Ending)
    requires job.order in s.orders && job.order in mid.orders && SameRow(s, mid, job.order)
    requires var o := job.order;
      mid.orders[o].(status := SettlementPending) == s.orders[o].(status := SettlementPending)
    requires ending != Rejected && Ends(b, list, mid, t, job, h, ending)
    requires SignsOf(a, job.order).confirmed == SignsOf(a, job.order).reverted == {}
    ensures Ends(a + b, list, s, t, job, h, ending)
  {
    var o := job.order;
    SignsJoin(a, b, o);
    if ending == Completed {
      assert s.orders[o].txHash == mid.orders[o].txHash;
      if o !in s.rows && SignsOf(b, o).confirmed == {} && s.orders[o].txHash.None? {
        PendingAlike(s.orders[o], mid.orders[o]);
        RebuiltLater(a, b, s, mid, t, o, Placeholder(o), h);
      }
    }
  }

  lemma PendingAlike(a: Order, b: Order)
    requires a.(status := SettlementPending) == b.(status := SettlementPending)
    ensures a.(status := Settled, txHash := None) == b.(status := Settled, txHash := None)
  {
  }

  /** Nothing decisive was told: no refusal of a reliable database, and nothing of a transaction. */
  ghost predicate Undecided(w: World, told: seq<Line>, o: OrderId) {
    var signs := SignsOf(told, o);
    (w.reliable ==> !signs.refused) && !signs.timedOut && signs.confirmed == signs.reverted == {}
  }

  /** What a part of the handler promises is what the whole promises, if what came before left it open. */
  lemma ClosedLater(w: World, a: seq<Line>, b: seq<Line>, list: seq<Recipient>, s: State, mid: State, t: State,
                    job: Payment, h: nat, ending: Ending)
    requires Kept(s, mid, w.pinned - {job.order}) && AlikeButStatus(w, s, mid, job.order)
    requires Undecided(w, a, job.order) && ending != Rejected && Closed(w, b, list, mid, t, job, h, ending)
    ensures Closed(w, a + b, list, s, t, job, h, ending)
  {
    KeptTransitive(s, mid, t, w.pinned - {job.order});
    SignsJoin(a, b, job.order);
    if Undisturbed(w, s, job.order) {
      EndsLater(a, b, list, s, mid, t, job, h, ending);
    }
  }

  lemma ClosedAfterRead(w: World, a: seq<Line>, b: seq<Line>, list: seq<Recipient>, s: State, mid: State, t: State,
                        job: Payment, h: nat, ending: Ending)
    requires Kept(s, mid, w.pinned) && Undecided(w, a, job.order) && ending != Rejected
    requires Closed(w, b, list, mid, t, job, h, ending)
    ensures Closed(w, a + b, list, s, t, job, h, ending)
  {
    KeptFewer(s, mid, w.pinned, w.pinned - {job.order});
    ClosedLater(w, a, b, list, s, mid, t, job, h, ending);
  }

  /** The order was to be marked failed, under this hash if there is one, and was if the database answered. */
  ghost predicate MarkedFailed(w: World, told: seq<Line>, s: State, t: State, o: OrderId, hash: Option<Hash>, h: nat,
                               ending: Ending)
  {
    MarksFailed(w, told, s, t, o, hash, ending) && h !in t.acts
  }

  ghost predicate MarksFailed(w: World, told: seq<Line>, s: State, t: State, o: OrderId, hash: Option<Hash>,
                              ending: Ending)
  {
    && Kept(s, t, w.pinned - {o}) && NoNewTx(s, t, w.pinned)
    && NoAttempts(told) && SignsOf(told, o) == QUIET
    && (ending == Failed || (ending == Interrupted && !w.reliable))
    && (o in w.pinned && w.reliable ==>
          Updated(s, t, o, SettlementFailed, if hash.Some? then Put(hash.value) else Keep))
  }

  /** Marks the order failed; the catch-all handler tries once more when `last` is not set. */
  method MarkFailed(w: World, h: nat, job: Payment, hash: Option<Hash>, last: bool)
    returns (ending: Ending, ghost told: seq<Line>)
    requires w.Valid() && w.At(h, Settling(job, Fail(hash, last)))
    modifies w
    ensures w.Valid() && old(w.log) <= w.log && w.Told(h) == old(w.Told(h)) + told
    ensures MarkedFailed(w, told, old(w.st), w.st, job.order, hash, h, ending)
  {
    ghost var start, before, line := w.st, w.Told(h), Line(Recovering(FindStuck), Good, w.st);
    ending, line := MarkOnce(w, h, job, hash, last);
    told := [line];
    if ending == Interrupted && !last {
      ghost var tried := w.st;
      ending, line := MarkOnce(w, h, job, None, true);
      MarkedTwice(w, told, [line], start, tried, w.st, job.order, hash, h, ending);
      Onward(before, told, [line]);
      told := told + [line];
    }
  }

  method MarkOnce(w: World, h: nat, job: Payment, hash: Option<Hash>, last: bool)
    returns (ending: Ending, ghost line: Line)
    requires w.Valid() && w.At(h, Settling(job, Fail(hash, last)))
    modifies w
    ensures w.Valid() && old(w.log) <= w.log && w.Told(h) == old(w.Told(h)) + [line]
    ensures h in w.st.acts ==> ending == Interrupted && !last && w.At(h, Settling(job, Fail(None, true)))
    ensures h !in w.st.acts <==> ending == Failed || last
    ensures MarksFailed(w, [line], old(w.st), w.st, job.order, hash, ending)
  {
    ghost var start, others := w.st, w.pinned - {job.order};
    var ok;
    ok, line := w.Update(h, job.order, SettlementFailed, if hash.Some? then Put(hash.value) else Keep);
    OneLine(line, job.order);
    KeptFewer(start, w.st, if ok then others else w.pinned, others);
    ending := if ok then Failed else Interrupted;
  }

  lemma MarkedTwice(w: World, a: seq<Line>, b: seq<Line>, s: State, mid: State, t: State, o: OrderId,
                    hash: Option<Hash>, h: nat, ending: Ending)
    requires MarksFailed(w, a, s, mid, o, hash, Interrupted) && MarksFailed(w, b, mid, t, o, None, ending)
    ensures MarksFailed(w, a + b, s, t, o, hash, ending)
  {
    KeptTransitive(s, mid, t, w.pinned - {o});
    SignsJoin(a, b, o);
  }

  /** The order was refused, and then marked failed. */
  lemma RefusedAndFailed(w: World, a: seq<Line>, b: seq<Line>, list: seq<Recipient>, s: State, mid: State, t: State,
                         job: Payment, hash: Option<Hash>, h: nat, ending: Ending)
    requires Kept(s, mid, w.pinned - {job.order}) && AlikeButStatus(w, s, mid, job.order)
    requires MarkedFailed(w, b, mid, t, job.order, hash, h, ending)
    requires var signs := SignsOf(a, job.order);
      && (w.reliable ==> signs.refused) && !signs.timedOut
      && (hash == None ==> signs.reverted == {})
      && (hash.Some? ==> hash.value.OnChain? && signs.reverted == {hash.value.tx})
    ensures Closed(w, a + b, list, s, t, job, h, ending)
  {
    KeptTransitive(s, mid, t, w.pinned - {job.order});
    SignsJoin(a, b, job.order);
    if Undisturbed(w, s, job.order) {
      FailedRecord(s.orders[job.order], mid.orders[job.order], hash);
    }
  }

  lemma FailedRecord(a: Order, b: Order, hash: Option<Hash>)
    requires a.(status := SettlementPending) == b.(status := SettlementPending)
    ensures b.(status := SettlementFailed, txHash := if hash.Some? then hash else b.txHash)
         == a.(status := SettlementFailed, txHash := if hash.Some? then hash else a.txHash)
  {
  }

  /** The database failed, and the order was given up, as far as that could be written. */
  lemma InterruptedAndFailed(w: World, a: seq<Line>, b: seq<Line>, list: seq<Recipient>, s: State, mid: State, t: State,
                             job: Payment, hash: Option<Hash>, h: nat, ending: Ending)
    requires Kept(s, mid, w.pinned - {job.order}) && !w.reliable && !SignsOf(a, job.order).timedOut
    requires MarkedFailed(w, b, mid, t, job.order, hash, h, ending)
    ensures Closed(w, a + b, list, s, t, job, h, ending)
  {
    KeptTransitive(s, mid, t, w.pinned - {job.order});
    SignsJoin(a, b, job.order);
  }

  /** A part of the handler that submits nothing and only restores or fails. */
  ghost predicate Concluded(w: World, told: seq<Line>, list: seq<Recipient>, s: State, t: State, job: Payment, h: nat,
                            ending: Ending)
  {
    && Closed(w, told, list, s, t, job, h, ending) && ending != Rejected
    && NoNewTx(s, t, w.pinned) && NoAttempts(told) && !SignsOf(told, job.order).settled
  }

  /** Records a payout: the row, the status and the announcement, or else the failure. */
  method RecordSuccess(w: World, h: nat, job: Payment, list: seq<Recipient>, hash: Hash, direct: bool)
    returns (ending: Ending, ghost told: seq<Line>)
    requires w.Valid()
    requires w.At(h, Recording(job.order, CreateRow(BaseTotal(job.cents), list, hash, direct), Handler(job)))
    modifies w
    ensures w.Valid() && old(w.log) <= w.log && w.Told(h) == old(w.Told(h)) + told
    ensures RowOrFailure(w, told, old(w.st), w.st, job, list, hash, direct, h, ending)
  {
    ghost var start, more := w.st, [];
    var ok;
    ok, told := RecordSettlementSuccess(w, h, job.order, BaseTotal(job.cents), list, hash, direct, Handler(job));
    if ok {
      return Completed, told;
    }
    ghost var before := w.st;
    ending, more := MarkFailed(w, h, job, None, true);
    NotRecorded(w, told, more, start, before, w.st, job, list, hash, direct, h, ending);
    Onward(old(w.Told(h)), told, more);
    told := told + more;
  }

  /** The order got its row and is SETTLED; or the row existed, and it is failed. */
  ghost predicate RowOrFailure(w: World, told: seq<Line>, s: State, t: State, job: Payment, list: seq<Recipient>,
                               hash: Hash, direct: bool, h: nat, ending: Ending)
  {
    var o := job.order;
    && Kept(s, t, w.pinned - {o}) && NoNewTx(s, t, w.pinned) && h !in t.acts
    && OnlyRefusal(w, told, o, ending == Failed)
    && (ending == Completed || ending == Failed || (ending == Interrupted && !w.reliable))
    && (Undisturbed(w, s, o) ==>
          && (ending == Completed <==> o !in s.rows)
          && (ending == Completed ==> Recorded(s, t, o, BaseTotal(job.cents), list, hash, direct, h))
          && (ending == Failed ==> Updated(s, t, o, SettlementFailed, Keep)))
  }

  lemma NotRecorded(w: World, a: seq<Line>, b: seq<Line>, s: State, mid: State, t: State, job: Payment,
                    list: seq<Recipient>, hash: Hash, direct: bool, h: nat, ending: Ending)
    requires Kept(s, mid, w.pinned - {job.order}) && NoNewTx(s, mid, w.pinned) && OnlyRefusal(w, a, job.order, true)
    requires job.order in w.pinned && w.reliable ==> job.order in s.rows
    requires job.order in w.pinned && w.reliable ==> SameOrder(s, mid, job.order) && SameRow(s, mid, job.order)
    requires MarkedFailed(w, b, mid, t, job.order, None, h, ending)
    ensures RowOrFailure(w, a + b, s, t, job, list, hash, direct, h, ending)
  {
    KeptTransitive(s, mid, t, w.pinned - {job.order});
    SignsJoin(a, b, job.order);
  }

  // ------------------------------------------------------------------ acting on a result

  /** What acting on the outcome of the last attempt promises. */
  ghost predicate Conclusion(w: World, told: seq<Line>, s: State, t: State, job: Payment, list: seq<Recipient>,
                             result: InvokeResult, h: nat, ending: Ending)
  {
    match result
    case Succeeded(tx) => RowOrFailure(w, told, s, t, job, list, OnChain(tx), true, h, ending)
    case FailedOnChain(tx) => MarkedFailed(w, told, s, t, job.order, Some(OnChain(tx)), h, ending)
    case TimeoutError(_) => t == s && h !in t.acts && told == [] && ending == StillPending
    case _ => MarkedFailed(w, told, s, t, job.order, None, h, ending)
  }

  /** Acts on the outcome of the last attempt. */
  method ConcludeInvoke(w: World, h: nat, job: Payment, list: seq<Recipient>, attempt: nat, result: InvokeResult)
    returns (ending: Ending, ghost told: seq<Line>)
    requires w.Valid() && w.Reached(h, AfterInvoke(job, list, attempt, result))
    requires result == NetworkError ==> attempt == 2
    modifies w
    ensures w.Valid() && old(w.log) <= w.log && w.Told(h) == old(w.Told(h)) + told
    ensures Conclusion(w, told, old(w.st), w.st, job, list, result, h, ending)
  {
    match result {
      case Succeeded(tx) => ending, told := RecordSuccess(w, h, job, list, OnChain(tx), true);
      case FailedOnChain(tx) => ending, told := MarkFailed(w, h, job, Some(OnChain(tx)), false);
      case SimulationError => ending, told := MarkFailed(w, h, job, None, true);
      case SubmissionError => ending, told := MarkFailed(w, h, job, None, true);
      case TimeoutError(_) => ending, told := StillPending, [];
      case NetworkError => ending, told := MarkFailed(w, h, job, None, false);
    }
  }

  lemma ConclusionCloses(w: World, a: seq<Line>, b: seq<Line>, list: seq<Recipient>, s: State, mid: State, t: State,
                         job: Payment, attempt: nat, result: InvokeResult, h: nat, ending: Ending)
    requires Kept(s, mid, w.pinned - {job.order}) && Conclusion(w, b, mid, t, job, list, result, h, ending)
    requires job.order in w.pinned ==>
               && SameOrder(s, mid, job.order) && SameRow(s, mid, job.order)
               && Serial.StatusIs(s, job.order, SettlementPending)
    requires SignsOf(a, job.order) == ResultSigns(result, attempt) && (result == NetworkError ==> attempt == 2)
    ensures Closed(w, a + b, list, s, t, job, h, ending) && ending != Rejected
    ensures NoNewTx(mid, t, w.pinned) && NoAttempts(b) && !SignsOf(a + b, job.order).settled
  {
    SignsJoin(a, b, job.order);
    match result {
      case Succeeded(tx) => SuccessCloses(w, a, b, list, s, mid, t, job, tx, h, ending);
      case FailedOnChain(tx) => RefusedAndFailed(w, a, b, list, s, mid, t, job, Some(OnChain(tx)), h, ending);
      case TimeoutError(_) => TimeoutCloses(w, a, list, s, t, job, h);
      case _ => RefusedAndFailed(w, a, b, list, s, mid, t, job, None, h, ending);
    }
  }

  lemma TimeoutCloses(w: World, a: seq<Line>, list: seq<Recipient>, s: State, t: State, job: Payment, h: nat)
    requires Kept(s, t, w.pinned - {job.order}) && h !in t.acts
    requires job.order in w.pinned ==>
               && SameOrder(s, t, job.order) && SameRow(s, t, job.order)
               && Serial.StatusIs(s, job.order, SettlementPending)
    requires SignsOf(a, job.order).timedOut && !SignsOf(a, job.order).refused
    ensures Closed(w, a + [], list, s, t, job, h, StillPending)
  {
    assert a + [] == a;
  }

  lemma SuccessCloses(w: World, a: seq<Line>, b: seq<Line>, list: seq<Recipient>, s: State, mid: State, t: State,
                      job: Payment, tx: nat, h: nat, ending: Ending)
    requires Kept(s, mid, w.pinned - {job.order})
    requires RowOrFailure(w, b, mid, t, job, list, OnChain(tx), true, h, ending)
    requires job.order in w.pinned ==> SameOrder(s, mid, job.order) && SameRow(s, mid, job.order)
    requires SignsOf(a, job.order) == Signs(false, false, false, {tx}, {})
    ensures Closed(w, a + b, list, s, t, job, h, ending)
  {
    KeptTransitive(s, mid, t, w.pinned - {job.order});
    SignsJoin(a, b, job.order);
  }

  /** Up to three attempts; only network errors are tried again. */
  method SettleWithRetries(w: World, h: nat, job: Payment, list: seq<Recipient>)
    returns (ending: Ending, ghost sent: set<nat>, ghost told: seq<Line>)
    requires w.Valid() && w.At(h, Settling(job, GetAccount(list, 0)))
    requires job.order in w.pinned ==> Serial.StatusIs(w.st, job.order, SettlementPending)
    modifies w
    ensures w.Valid() && old(w.log) <= w.log && w.Told(h) == old(w.Told(h)) + told
    ensures Closed(w, told, list, old(w.st), w.st, job, h, ending) && ending != Rejected
    ensures FewSubmitted(w, old(w.st), w.st, job, list, sent)
    ensures Attempts(told, job, list) && !SignsOf(told, job.order).settled
  {
    ghost var start, before := w.st, w.Told(h);
    var attempt, result;
    attempt, result, sent, told := InvokeUpToThrice(w, h, job, list);
    ghost var invoked, past, more := w.st, w.Past(), [];
    ending, more := ConcludeInvoke(w, h, job, list, attempt, result);
    w.TermsStay(past);
    ConclusionCloses(w, told, more, list, start, invoked, w.st, job, attempt, result, h, ending);
    AttemptsAmong(told, more, job, list);
    Onward(before, told, more);
    told := told + more;
  }

  /** What the attempts did to the state so far. */
  ghost predicate SubmitsFew(w: World, s: State, t: State, job: Payment, list: seq<Recipient>, sent: set<nat>, n: nat) {
    && Kept(s, t, w.pinned - {job.order}) && |sent| <= n && SentTerms(t, job, list, sent)
    && (job.order in w.pinned ==> Unsettled(s, t, job.order, sent))
  }

  lemma SubmitsMore(w: World, s: State, mid: State, t: State, job: Payment, list: seq<Recipient>, sent: set<nat>,
                    more: set<nat>, n: nat)
    requires SubmitsFew(w, s, mid, job, list, sent, n) && SubmitsOnce(w, mid, t, job, list, more)
    requires SentTerms(t, job, list, sent)
    ensures SubmitsFew(w, s, t, job, list, sent + more, n + 1)
  {
    KeptTransitive(s, mid, t, w.pinned - {job.order});
    UnionSize(sent, more);
  }

  lemma {:induction false} UnionSize(a: set<nat>, b: set<nat>)
    ensures |a + b| <= |a| + |b|
  {
    if b != {} {
      var x :| x in b;
      UnionSize(a, b - {x});
      assert a + b == (a + (b - {x})) + {x};
    } else {
      assert a + b == a;
    }
  }

  /** The attempts so far, from the first to this one. */
  ghost predicate Tried(w: World, told: seq<Line>, s: State, t: State, job: Payment, list: seq<Recipient>,
                        attempt: nat, result: InvokeResult, sent: set<nat>)
  {
    && attempt < 3 && SignsOf(told, job.order) == ResultSigns(result, attempt) && Attempts(told, job, list)
    && (result == NetworkError ==> Troubled(told, job, list, attempt))
    && SubmitsFew(w, s, t, job, list, sent, attempt + 1)
  }

  lemma TriedAgain(w: World, told: seq<Line>, more: seq<Line>, s: State, mid: State, t: State, job: Payment,
                   list: seq<Recipient>, attempt: nat, result: InvokeResult, sent: set<nat>, again: set<nat>)
    requires attempt < 2 && Tried(w, told, s, mid, job, list, attempt, NetworkError, sent)
    requires Returned(more, t, job, list, attempt + 1, result) && SubmitsOnce(w, mid, t, job, list, again)
    requires SentTerms(t, job, list, sent)
    ensures Tried(w, told + more, s, t, job, list, attempt + 1, result, sent + again)
  {
    SubmitsMore(w, s, mid, t, job, list, sent, again, attempt + 1);
    AttemptsOn(told, more, job, list, attempt + 1);
    SignsAfterRetry(told, more, job.order, result, attempt);
    TroubledIn(told, more, job, list, attempt + 1);
  }

  /** A network error that is tried again leaves no sign. */
  lemma SignsAfterRetry(told: seq<Line>, more: seq<Line>, o: OrderId, result: InvokeResult, attempt: nat)
    requires attempt < 2 && SignsOf(told, o) == ResultSigns(NetworkError, attempt)
    requires SignsOf(more, o) == ResultSigns(result, attempt + 1)
    ensures SignsOf(told + more, o) == ResultSigns(result, attempt + 1)
  {
    SignsJoin(told, more, o);
  }

  lemma TriedOnce(w: World, told: seq<Line>, s: State, t: State, job: Payment, list: seq<Recipient>,
                  result: InvokeResult, sent: set<nat>)
    requires Returned(told, t, job, list, 0, result) && SubmitsOnce(w, s, t, job, list, sent)
    ensures Tried(w, told, s, t, job, list, 0, result, sent)
  {
    FirstAttempt(told, job, list);
  }

  /** The attempts up to the last one needed: `result` is what it returned. */
  method InvokeUpToThrice(w: World, h: nat, job: Payment, list: seq<Recipient>)
    returns (attempt: nat, result: InvokeResult, ghost sent: set<nat>, ghost told: seq<Line>)
    requires w.Valid() && w.At(h, Settling(job, GetAccount(list, 0)))
    modifies w
    ensures w.Valid() && old(w.log) <= w.log && w.Told(h) == old(w.Told(h)) + told
    ensures Tried(w, told, old(w.st), w.st, job, list, attempt, result, sent)
    ensures result.NetworkError? ==> attempt == 2
    ensures w.Reached(h, AfterInvoke(job, list, attempt, result))
  {
    ghost var start, before := w.st, w.Told(h);
    attempt := 0;
    result, sent, told := InvokeFirst(w, h, job, list);
    while MayRetry(result, attempt)
      invariant w.Valid() && old(w.log) <= w.log && w.Told(h) == before + told
      invariant w.Reached(h, AfterInvoke(job, list, attempt, result))
      invariant Tried(w, told, start, w.st, job, list, attempt, result, sent)
      decreases 3 - attempt
    {
      result, sent, told := InvokeAgain(w, h, job, list, attempt, result, start, before, told, sent);
      attempt := attempt + 1;
    }
  }

  /** A network error of one of the first two attempts. */
  predicate MayRetry(result: InvokeResult, attempt: nat)
    ensures MayRetry(result, attempt) <==> result.NetworkError? && attempt < 2
  {
    result.NetworkError? && attempt < MAX_RETRIES - 1
  }

  method InvokeFirst(w: World, h: nat, job: Payment, list: seq<Recipient>)
    returns (result: InvokeResult, ghost sent: set<nat>, ghost told: seq<Line>)
    requires w.Valid() && w.At(h, Settling(job, GetAccount(list, 0)))
    modifies w
    ensures w.Valid() && old(w.log) <= w.log && w.Told(h) == old(w.Told(h)) + told
    ensures Tried(w, told, old(w.st), w.st, job, list, 0, result, sent)
    ensures w.Reached(h, AfterInvoke(job, list, 0, result))
  {
    result, sent, told := InvokeSettle(w, h, job, list, 0);
    TriedOnce(w, told, old(w.st), w.st, job, list, result, sent);
  }

  /** The attempt after a network error. */
  method InvokeAgain(w: World, h: nat, job: Payment, list: seq<Recipient>, attempt: nat, ghost last: InvokeResult,
                     ghost start: State, ghost before: seq<Line>, ghost told: seq<Line>, ghost sent: set<nat>)
    returns (result: InvokeResult, ghost sentNow: set<nat>, ghost toldNow: seq<Line>)
    requires w.Valid() && last.NetworkError? && attempt < 2 && w.Reached(h, AfterInvoke(job, list, attempt, last))
    requires w.Told(h) == before + told && Tried(w, told, start, w.st, job, list, attempt, last, sent)
    modifies w
    ensures w.Valid() && old(w.log) <= w.log && w.Told(h) == before + toldNow
    ensures Tried(w, toldNow, start, w.st, job, list, attempt + 1, result, sentNow)
    ensures w.Reached(h, AfterInvoke(job, list, attempt + 1, result))
  {
    ghost var mid, past, again, more := w.st, w.Past(), {}, [];
    result, again, more := InvokeSettle(w, h, job, list, attempt + 1);
    w.TermsStay(past);
    TriedAgain(w, told, more, start, mid, w.st, job, list, attempt, result, sent, again);
    Onward(before, told, more);
    sentNow, toldNow := sent + again, told + more;
  }

  lemma FirstAttempt(told: seq<Line>, job: Payment, list: seq<Recipient>)
    requires OneAttempt(told, job, list, 0)
    ensures Attempts(told, job, list)
  {
    forall line | line in told && IsAttempt(line) ensures AttemptDue(told, line, job, list) {
      assert OfAttempt(line, job, list, 0);
    }
  }

  // ------------------------------------------------- an order that is settled on chain already

  method FindSettlementRow(w: World, h: nat, job: Payment, known: Option<Hash>, list: seq<Recipient>)
    returns (ok: bool, rowHash: Option<Hash>, ghost line: Line)
    requires w.Valid() && w.At(h, Settling(job, FindRow(known, list)))
    modifies w
    ensures w.Valid() && old(w.log) <= w.log && Kept(old(w.st), w.st, w.pinned)
    ensures w.Told(h) == old(w.Told(h)) + [line] && OnlyRefusal(w, [line], job.order, false)
    ensures (w.reliable ==> ok) && (ok ==> (rowHash.Some? <==> job.order in w.st.rows))
    ensures ok && rowHash.Some? ==> w.st.rows[job.order].txHash == rowHash.value
    ensures w.Reached(h, if ok then AfterFindRow(job, rowHash, known, list) else FailSafe(job).next)
  {
    var answer, seen := w.Ask(h);
    ok, line := answer != Throw, Line(Settling(job, FindRow(known, list)), answer, seen);
    rowHash := if job.order in seen.rows then Some(seen.rows[job.order].txHash) else None;
    QuietLine(w, line, job.order);
  }

  /** The hash the handler read with the order is still the order's. */
  predicate StillKnown(w: World, s: State, o: OrderId, known: Option<Hash>) {
    o in w.pinned && o in s.orders ==> s.orders[o].txHash == known
  }

  /** The order's payout can be recorded: there is a row, a hash, or a product with collaborators. */
  predicate Restorable(s: State, o: OrderId) {
    o in s.orders && (o in s.rows || s.orders[o].txHash.Some? || SellableProduct(s, s.orders[o].product))
  }

  /** The order is settled on chain already: its records are restored instead. */
  method RecoverAlreadySettled(w: World, h: nat, job: Payment, known: Option<Hash>, list: seq<Recipient>)
    returns (ending: Ending, ghost told: seq<Line>)
    requires w.Valid() && w.At(h, Settling(job, FindRow(known, list))) && StillKnown(w, w.st, job.order, known)
    modifies w
    ensures w.Valid() && old(w.log) <= w.log && w.Told(h) == old(w.Told(h)) + told
    ensures Concluded(w, told, list, old(w.st), w.st, job, h, ending) && ending != StillPending
    ensures Undisturbed(w, old(w.st), job.order) && Restorable(old(w.st), job.order) ==> ending == Completed
  {
    ghost var start, before, line, more := w.st, w.Told(h), Line(Recovering(FindStuck), Good, w.st), [];
    w.OrderExists(h);
    var ok, rowHash;
    ok, rowHash, line := FindSettlementRow(w, h, job, known, list);
    ghost var found := w.st;
    told := [line];
    if !ok {
      ending, more := Abandon(w, h, job, told, list, start);
    } else {
      ending, more := RestoreRecords(w, h, job, rowHash, known, list);
      ConcludedLater(w, told, more, list, start, found, w.st, job, h, ending);
    }
    Onward(before, told, more);
    told := told + more;
  }

  /** Where the handler goes with the row's hash, if there is a row. */
  function AfterFindRow(job: Payment, rowHash: Option<Hash>, known: Option<Hash>, list: seq<Recipient>): Option<Pc> {
    if rowHash.Some? then Some(Settling(job, AdoptRow(rowHash.value)))
    else if known.Some?
    then Some(Recording(job.order, CreateRow(BaseTotal(job.cents), list, known.value, false), Handler(job)))
    else Some(Settling(job, MarkEarly))
  }

  method RestoreRecords(w: World, h: nat, job: Payment, rowHash: Option<Hash>, known: Option<Hash>,
                        list: seq<Recipient>)
    returns (ending: Ending, ghost told: seq<Line>)
    requires w.Valid() && w.Reached(h, AfterFindRow(job, rowHash, known, list))
    requires StillKnown(w, w.st, job.order, known) && (rowHash.Some? <==> job.order in w.st.rows)
    requires rowHash.Some? ==> w.st.rows[job.order].txHash == rowHash.value
    modifies w
    ensures w.Valid() && old(w.log) <= w.log && w.Told(h) == old(w.Told(h)) + told
    ensures Concluded(w, told, list, old(w.st), w.st, job, h, ending) && ending != StillPending
    ensures Undisturbed(w, old(w.st), job.order) && Restorable(old(w.st), job.order) ==> ending == Completed
  {
    if rowHash.Some? {
      ending, told := AdoptExisting(w, h, job, rowHash.value, list);
    } else if known.Some? {
      ending, told := RecordKnown(w, h, job, list, known.value);
    } else {
      ending, told := SettleThenRebuild(w, h, job, list);
    }
  }

  lemma ConcludedLater(w: World, a: seq<Line>, b: seq<Line>, list: seq<Recipient>, s: State, mid: State, t: State,
                       job: Payment, h: nat, ending: Ending)
    requires Kept(s, mid, w.pinned) && OnlyRefusal(w, a, job.order, false)
    requires Concluded(w, b, list, mid, t, job, h, ending)
    ensures Concluded(w, a + b, list, s, t, job, h, ending)
  {
    ClosedAfterRead(w, a, b, list, s, mid, t, job, h, ending);
    SignsJoin(a, b, job.order);
  }

  /** The database failed: the order is given up, as far as that can be written. */
  method Abandon(w: World, h: nat, job: Payment, ghost told: seq<Line>, ghost list: seq<Recipient>, ghost start: State)
    returns (ending: Ending, ghost more: seq<Line>)
    requires w.Valid() && w.At(h, Settling(job, Fail(None, true))) && Kept(start, w.st, w.pinned)
    requires OnlyRefusal(w, told, job.order, false) && !w.reliable
    modifies w
    ensures w.Valid() && old(w.log) <= w.log && w.Told(h) == old(w.Told(h)) + more
    ensures Concluded(w, told + more, list, start, w.st, job, h, ending)
    ensures ending == Failed || ending == Interrupted
  {
    ghost var before := w.st;
    ending, more := MarkFailed(w, h, job, None, true);
    KeptFewer(start, before, w.pinned, w.pinned - {job.order});
    InterruptedAndFailed(w, told, more, list, start, before, w.st, job, None, h, ending);
    SignsJoin(told, more, job.order);
  }

  method AdoptExisting(w: World, h: nat, job: Payment, hash: Hash, ghost list: seq<Recipient>)
    returns (ending: Ending, ghost told: seq<Line>)
    requires w.Valid() && w.At(h, Settling(job, AdoptRow(hash)))
    requires job.order in w.st.rows && w.st.rows[job.order].txHash == hash
    modifies w
    ensures w.Valid() && old(w.log) <= w.log && w.Told(h) == old(w.Told(h)) + told
    ensures Concluded(w, told, list, old(w.st), w.st, job, h, ending)
    ensures ending == Completed || ((ending == Failed || ending == Interrupted) && !w.reliable)
  {
    ghost var start, before, line, more := w.st, w.Told(h), Line(Recovering(FindStuck), Good, w.st), [];
    var ok;
    ok, line := w.Update(h, job.order, Settled, Put(hash));
    told := [line];
    QuietLine(w, line, job.order);
    if ok {
      ending := Completed;
    } else {
      ending, more := Abandon(w, h, job, told, list, start);
      Onward(before, told, more);
      told := told + more;
    }
  }

  method RecordKnown(w: World, h: nat, job: Payment, list: seq<Recipient>, hash: Hash)
    returns (ending: Ending, ghost told: seq<Line>)
    requires w.Valid()
    requires w.At(h, Recording(job.order, CreateRow(BaseTotal(job.cents), list, hash, false), Handler(job)))
    requires StillKnown(w, w.st, job.order, Some(hash)) && job.order !in w.st.rows
    modifies w
    ensures w.Valid() && old(w.log) <= w.log && w.Told(h) == old(w.Told(h)) + told
    ensures Concluded(w, told, list, old(w.st), w.st, job, h, ending) && ending != StillPending
    ensures Undisturbed(w, old(w.st), job.order) ==> ending == Completed
  {
    ghost var start := w.st;
    ending, told := RecordSuccess(w, h, job, list, hash, false);
    KnownCloses(w, told, list, start, w.st, job, hash, h, ending);
  }

  lemma KnownCloses(w: World, told: seq<Line>, list: seq<Recipient>, s: State, t: State, job: Payment, hash: Hash,
                    h: nat, ending: Ending)
    requires RowOrFailure(w, told, s, t, job, list, hash, false, h, ending)
    requires StillKnown(w, s, job.order, Some(hash)) && job.order !in s.rows
    ensures Concluded(w, told, list, s, t, job, h, ending)
    ensures Undisturbed(w, s, job.order) ==> ending == Completed
  {
  }

  /** Neither a row nor a hash: the order is marked first, and the row rebuilt under a placeholder. */
  method SettleThenRebuild(w: World, h: nat, job: Payment, ghost list: seq<Recipient>)
    returns (ending: Ending, ghost told: seq<Line>)
    requires w.Valid() && w.At(h, Settling(job, MarkEarly))
    requires StillKnown(w, w.st, job.order, None) && job.order !in w.st.rows
    modifies w
    ensures w.Valid() && old(w.log) <= w.log && w.Told(h) == old(w.Told(h)) + told
    ensures Concluded(w, told, list, old(w.st), w.st, job, h, ending) && ending != StillPending
    ensures Undisturbed(w, old(w.st), job.order) && Restorable(old(w.st), job.order) ==> ending == Completed
  {
    ghost var start, before, line, more := w.st, w.Told(h), Line(Recovering(FindStuck), Good, w.st), [];
    var ok;
    ok, line := w.Update(h, job.order, Settled, Keep);
    ghost var marked := w.st;
    told := [line];
    QuietLine(w, line, job.order);
    if !ok {
      ending, more := Abandon(w, h, job, told, list, start);
    } else {
      ending, more := RebuildMarked(w, h, job, list);
      RebuiltCloses(w, told, more, list, start, marked, w.st, job, h, ending);
    }
    Onward(before, told, more);
    told := told + more;
  }

  /** The row of an order that is SETTLED already was rebuilt; or there was nobody to pay, and it is failed. */
  ghost predicate RebuiltOrFailed(w: World, told: seq<Line>, s: State, t: State, job: Payment, h: nat, ending: Ending) {
    var o := job.order;
    && Kept(s, t, w.pinned - {o}) && NoNewTx(s, t, w.pinned) && h !in t.acts
    && OnlyRefusal(w, told, o, ending == Failed)
    && (ending == Completed || ending == Failed || ending == Interrupted)
    && (Undisturbed(w, s, o) && o !in s.rows ==>
          && ending != Interrupted
          && (SellableProduct(s, s.orders[o].product) ==> ending == Completed)
          && (ending == Completed ==> Rebuilt(told, s, t, o, Placeholder(o), h))
          && (ending == Failed ==> Updated(s, t, o, SettlementFailed, Keep)))
  }

  method RebuildMarked(w: World, h: nat, job: Payment, ghost list: seq<Recipient>)
    returns (ending: Ending, ghost told: seq<Line>)
    requires w.Valid() && w.At(h, Recording(job.order, ReloadOrder(Placeholder(job.order)), Handler(job)))
    modifies w
    ensures w.Valid() && old(w.log) <= w.log && w.Told(h) == old(w.Told(h)) + told
    ensures RebuiltOrFailed(w, told, old(w.st), w.st, job, h, ending)
  {
    ghost var start, before, more := w.st, w.Told(h), [];
    var result;
    result, told := RecordRecoveredSettlement(w, h, job.order, Placeholder(job.order), Handler(job));
    ghost var rebuilt := w.st;
    match result {
      case RowCreated => ending := Completed;
      case NoShares => ending := Failed;
      case OrderMissing => ending := Interrupted;
      case Threw =>
        ending, more := MarkFailed(w, h, job, None, true);
        ThrewAndFailed(w, told, more, start, rebuilt, w.st, job, h, ending);
        Onward(before, told, more);
        told := told + more;
    }
  }

  lemma ThrewAndFailed(w: World, a: seq<Line>, b: seq<Line>, s: State, mid: State, t: State, job: Payment, h: nat,
                       ending: Ending)
    requires Rebuilds(w, a, s, mid, h, job.order, Placeholder(job.order), Threw)
    requires MarkedFailed(w, b, mid, t, job.order, None, h, ending)
    ensures RebuiltOrFailed(w, a + b, s, t, job, h, ending)
  {
    KeptTransitive(s, mid, t, w.pinned - {job.order});
    SignsJoin(a, b, job.order);
  }

  lemma RebuiltCloses(w: World, a: seq<Line>, b: seq<Line>, list: seq<Recipient>, s: State, mid: State, t: State,
                      job: Payment, h: nat, ending: Ending)
    requires Kept(s, mid, w.pinned - {job.order}) && NoNewTx(s, mid, w.pinned) && OnlyRefusal(w, a, job.order, false)
    requires job.order in w.pinned ==> Updated(s, mid, job.order, Settled, Keep)
    requires StillKnown(w, s, job.order, None) && job.order !in s.rows
    requires StillSellable(s, mid, w.pinned)
    requires RebuiltOrFailed(w, b, mid, t, job, h, ending)
    ensures Concluded(w, a + b, list, s, t, job, h, ending) && ending != StillPending
    ensures Undisturbed(w, s, job.order) && Restorable(s, job.order) ==> ending == Completed
  {
    var o := job.order;
    KeptTransitive(s, mid, t, w.pinned - {o});
    SignsJoin(a, b, o);
    if Undisturbed(w, s, o) && ending == Completed {
      RebuiltLater(a, b, s, mid, t, o, Placeholder(o), h);
    }
  }

  // ---------------------------------------------------------- checks before an attempt

  predicate AtSettle(line: Line, job: Payment) {
    line.pc.Settling? && line.pc.job == job
  }

  /** The collaborators were read, passed the service's checks, and these are their shares. */
  ghost predicate SharesLoaded(told: seq<Line>, job: Payment, product: ProductId, list: seq<Recipient>) {
    exists line :: line in told && LoadsShares(line, job, product, list)
  }

  predicate LoadsShares(line: Line, job: Payment, product: ProductId, list: seq<Recipient>) {
    && AtSettle(line, job) && line.pc.settle.LoadShares? && line.pc.settle.product == product && line.answer != Throw
    && product in line.seen.products && ServiceChecks(line.seen.products[product].collaborators)
    && list == ToRecipients(line.seen.products[product].collaborators)
  }

  /** No recipient was found without a trustline. */
  ghost predicate TrustChecked(told: seq<Line>, job: Payment, list: seq<Recipient>) {
    exists line :: line in told && AtSettle(line, job) && line.pc.settle.CheckTrustlines? && line.pc.settle.list == list
                   && line.answer != Bad
  }

  /** `is_settled` did not answer yes. */
  ghost predicate MarkerChecked(told: seq<Line>, job: Payment, list: seq<Recipient>) {
    exists line :: line in told && AtSettle(line, job) && line.pc.settle.ProbeMarker? && line.pc.settle.list == list
                   && line.answer != Good
  }

  /** The float was not found too low; or it was, and the order could not be failed. */
  ghost predicate FloatChecked(told: seq<Line>, job: Payment, list: seq<Recipient>) {
    exists line :: line in told && AtSettle(line, job)
                   && ((line.pc.settle.CheckFloat? && line.pc.settle.list == list && line.answer != Bad)
                       || (line.pc.settle.FailLow? && line.pc.settle.list == list && line.answer == Throw))
  }

  lemma ChecksIn(a: seq<Line>, b: seq<Line>, job: Payment, product: ProductId, list: seq<Recipient>)
    ensures SharesLoaded(a, job, product, list) || SharesLoaded(b, job, product, list)
            ==> SharesLoaded(a + b, job, product, list)
    ensures TrustChecked(a, job, list) || TrustChecked(b, job, list) ==> TrustChecked(a + b, job, list)
    ensures MarkerChecked(a, job, list) || MarkerChecked(b, job, list) ==> MarkerChecked(a + b, job, list)
    ensures FloatChecked(a, job, list) || FloatChecked(b, job, list) ==> FloatChecked(a + b, job, list)
  {
  }

  ghost predicate HasAttempt(told: seq<Line>) {
    exists line :: line in told && IsAttempt(line)
  }

  lemma AttemptIn(a: seq<Line>, b: seq<Line>)
    ensures HasAttempt(a + b) <==> HasAttempt(a) || HasAttempt(b)
    ensures NoAttempts(a) <==> !HasAttempt(a)
  {
  }

  /**
   * What every part of the handler from the checks on promises: how it leaves the order,
   * what it submits, and that it does not submit when `is_settled` said yes, in which
   * case an order that can be restored is completed.
   */
  ghost predicate Promised(w: World, told: seq<Line>, list: seq<Recipient>, s: State, t: State, job: Payment, h: nat,
                          ending: Ending, sent: set<nat>)
  {
    && Closed(w, told, list, s, t, job, h, ending) && ending != Rejected
    && FewSubmitted(w, s, t, job, list, sent) && Attempts(told, job, list)
    && (SignsOf(told, job.order).settled ==>
          && sent == {} && !HasAttempt(told)
          && (Undisturbed(w, s, job.order) && Restorable(s, job.order) ==> ending == Completed))
  }

  /** Something undecided came before. */
  lemma PromisedLater(w: World, a: seq<Line>, b: seq<Line>, list: seq<Recipient>, s: State, mid: State, t: State,
                     job: Payment, h: nat, ending: Ending, sent: set<nat>)
    requires Kept(s, mid, w.pinned - {job.order}) && NoNewTx(s, mid, w.pinned) && StillSellable(s, mid, w.pinned)
    requires AlikeButStatus(w, s, mid, job.order)
    requires Undecided(w, a, job.order) && NoAttempts(a) && !SignsOf(a, job.order).settled
    requires Promised(w, b, list, mid, t, job, h, ending, sent)
    ensures Promised(w, a + b, list, s, t, job, h, ending, sent)
  {
    ClosedLater(w, a, b, list, s, mid, t, job, h, ending);
    SubmittedEarlier(w, s, mid, t, job, list, sent);
    AttemptsAmong(a, b, job, list);
    SignsJoin(a, b, job.order);
    AttemptIn(a, b);
    if Undisturbed(w, s, job.order) && Restorable(s, job.order) {
      StillRestorable(w, s, mid, job.order);
    }
  }

  lemma StillRestorable(w: World, s: State, mid: State, o: OrderId)
    requires Undisturbed(w, s, o) && AlikeButStatus(w, s, mid, o) && StillSellable(s, mid, w.pinned) && Restorable(s, o)
    ensures Restorable(mid, o)
  {
    assert mid.orders[o].product == s.orders[o].product && mid.orders[o].txHash == s.orders[o].txHash;
  }

  lemma PromisedAfterRead(w: World, a: seq<Line>, b: seq<Line>, list: seq<Recipient>, s: State, mid: State, t: State,
                         job: Payment, h: nat, ending: Ending, sent: set<nat>)
    requires Kept(s, mid, w.pinned)
    requires Undecided(w, a, job.order) && NoAttempts(a) && !SignsOf(a, job.order).settled
    requires Promised(w, b, list, mid, t, job, h, ending, sent)
    ensures Promised(w, a + b, list, s, t, job, h, ending, sent)
  {
    KeptFewer(s, mid, w.pinned, w.pinned - {job.order});
    PromisedLater(w, a, b, list, s, mid, t, job, h, ending, sent);
  }

  /** A refusal, and the order marked failed. */
  lemma StoppedByRefusal(w: World, a: seq<Line>, b: seq<Line>, list: seq<Recipient>, s: State, mid: State, t: State,
                         job: Payment, h: nat, ending: Ending)
    requires Kept(s, mid, w.pinned) && OnlyRefusal(w, a, job.order, true)
    requires MarkedFailed(w, b, mid, t, job.order, None, h, ending)
    ensures Promised(w, a + b, list, s, t, job, h, ending, {}) && ending != Completed && !HasAttempt(a + b)
  {
    KeptFewer(s, mid, w.pinned, w.pinned - {job.order});
    RefusedAndFailed(w, a, b, list, s, mid, t, job, None, h, ending);
    StopsQuietly(w, a, b, list, s, mid, t, job);
  }

  /** The database failed, and the order was given up. */
  lemma StoppedByError(w: World, a: seq<Line>, b: seq<Line>, list: seq<Recipient>, s: State, mid: State, t: State,
                       job: Payment, h: nat, ending: Ending)
    requires Kept(s, mid, w.pinned) && OnlyRefusal(w, a, job.order, false) && !w.reliable
    requires MarkedFailed(w, b, mid, t, job.order, None, h, ending)
    ensures Promised(w, a + b, list, s, t, job, h, ending, {}) && ending != Completed && !HasAttempt(a + b)
  {
    KeptFewer(s, mid, w.pinned, w.pinned - {job.order});
    InterruptedAndFailed(w, a, b, list, s, mid, t, job, None, h, ending);
    StopsQuietly(w, a, b, list, s, mid, t, job);
  }

  lemma StopsQuietly(w: World, a: seq<Line>, b: seq<Line>, list: seq<Recipient>, s: State, mid: State, t: State,
                     job: Payment)
    requires Kept(s, mid, w.pinned) && NoNewTx(mid, t, w.pinned) && NoAttempts(a) && NoAttempts(b)
    requires !SignsOf(a, job.order).settled && !SignsOf(b, job.order).settled
    ensures FewSubmitted(w, s, t, job, list, {}) && Attempts(a + b, job, list) && !HasAttempt(a + b)
    ensures !SignsOf(a + b, job.order).settled
  {
    SignsJoin(a, b, job.order);
    AttemptIn(a + b, []);
  }

  /** The handler stops: at a refusal, or, with the last attempt to mark the order failed, at an error. */
  method GiveUp(w: World, h: nat, job: Payment, last: bool, ghost told: seq<Line>, ghost list: seq<Recipient>,
                ghost start: State)
    returns (ending: Ending, ghost more: seq<Line>)
    requires w.Valid() && w.At(h, Settling(job, Fail(None, last))) && Kept(start, w.st, w.pinned)
    requires OnlyRefusal(w, told, job.order, !last) && (last ==> !w.reliable)
    modifies w
    ensures w.Valid() && old(w.log) <= w.log && w.Told(h) == old(w.Told(h)) + more
    ensures Promised(w, told + more, list, start, w.st, job, h, ending, {})
    ensures ending != Completed && !HasAttempt(told + more)
  {
    ghost var before := w.st;
    ending, more := MarkFailed(w, h, job, None, last);
    if last {
      StoppedByError(w, told, more, list, start, before, w.st, job, h, ending);
    } else {
      StoppedByRefusal(w, told, more, list, start, before, w.st, job, h, ending);
    }
  }

  // ------------------------------------------------------------------------- the float

  method FloatIsLow(w: World, h: nat, job: Payment, list: seq<Recipient>) returns (low: bool, ghost line: Line)
    requires w.Valid() && w.At(h, Settling(job, CheckFloat(list)))
    modifies w
    ensures w.Valid() && old(w.log) <= w.log && Kept(old(w.st), w.st, w.pinned)
    ensures w.Told(h) == old(w.Told(h)) + [line] && OnlyRefusal(w, [line], job.order, low)
    ensures line.pc == Settling(job, CheckFloat(list)) && (low <==> line.answer == Bad)
    ensures w.Reached(h, Some(Settling(job, if low then FailLow(list) else GetAccount(list, 0))))
  {
    var answer, seen := w.Ask(h);
    low, line := answer == Bad, Line(Settling(job, CheckFloat(list)), answer, seen);
    OneLine(line, job.order);
  }

  /** The float is too low: the order is failed, or, when that cannot be written, settled all the same. */
  method FailOrSettle(w: World, h: nat, job: Payment, list: seq<Recipient>)
    returns (ending: Ending, ghost sent: set<nat>, ghost told: seq<Line>)
    requires w.Valid() && w.At(h, Settling(job, FailLow(list)))
    requires job.order in w.pinned ==> Serial.StatusIs(w.st, job.order, SettlementPending)
    modifies w
    ensures w.Valid() && old(w.log) <= w.log && w.Told(h) == old(w.Told(h)) + told
    ensures w.reliable ==> MarkedFailed(w, told, old(w.st), w.st, job.order, None, h, ending) && sent == {}
    ensures !w.reliable ==> Promised(w, told, list, old(w.st), w.st, job, h, ending, sent)
    ensures !SignsOf(told, job.order).settled && (HasAttempt(told) ==> FloatChecked(told, job, list))
  {
    ghost var start, before, line, more := w.st, w.Told(h), Line(Recovering(FindStuck), Good, w.st), [];
    sent := {};
    var ok;
    ok, line := w.Update(h, job.order, SettlementFailed, Keep);
    ghost var updated := w.st;
    told := [line];
    QuietLine(w, line, job.order);
    if ok {
      FailedLow(w, told, list, start, w.st, job, h);
      return Failed, sent, told;
    }
    ending, sent, more := SettleWithRetries(w, h, job, list);
    PromisedAfterRead(w, told, more, list, start, updated, w.st, job, h, ending, sent);
    SignsJoin(told, more, job.order);
    assert line in told && FloatChecked(told, job, list);
    ChecksIn(told, more, job, ProductId(""), list);
    Onward(before, told, more);
    told := told + more;
  }

  lemma FailedLow(w: World, told: seq<Line>, list: seq<Recipient>, s: State, t: State, job: Payment, h: nat)
    requires Kept(s, t, w.pinned - {job.order}) && NoNewTx(s, t, w.pinned) && h !in t.acts
    requires OnlyRefusal(w, told, job.order, false)
    requires job.order in w.pinned ==> Updated(s, t, job.order, SettlementFailed, Keep)
    requires SignsOf(told, job.order) == QUIET
    ensures MarkedFailed(w, told, s, t, job.order, None, h, Failed)
    ensures !w.reliable ==> Promised(w, told, list, s, t, job, h, Failed, {})
    ensures !HasAttempt(told)
  {
    NoneSubmitted(w, s, t, job, list);
  }

  method FundAndSettle(w: World, h: nat, job: Payment, list: seq<Recipient>)
    returns (ending: Ending, ghost sent: set<nat>, ghost told: seq<Line>)
    requires w.Valid() && w.At(h, Settling(job, CheckFloat(list)))
    requires job.order in w.pinned ==> Serial.StatusIs(w.st, job.order, SettlementPending)
    modifies w
    ensures w.Valid() && old(w.log) <= w.log && w.Told(h) == old(w.Told(h)) + told
    ensures Promised(w, told, list, old(w.st), w.st, job, h, ending, sent) && !SignsOf(told, job.order).settled
    ensures HasAttempt(told) ==> FloatChecked(told, job, list)
  {
    ghost var start, before, line, more := w.st, w.Told(h), Line(Recovering(FindStuck), Good, w.st), [];
    var low;
    low, line := FloatIsLow(w, h, job, list);
    ghost var checked := w.st;
    told := [line];
    if low {
      ending, sent, more := FailOrSettle(w, h, job, list);
      LowFloat(w, told, more, list, start, checked, w.st, job, h, ending, sent);
    } else {
      ending, sent, more := SettleWithRetries(w, h, job, list);
      PromisedAfterRead(w, told, more, list, start, checked, w.st, job, h, ending, sent);
      assert line in told && FloatChecked(told, job, list);
    }
    SignsJoin(told, more, job.order);
    ChecksIn(told, more, job, ProductId(""), list);
    AttemptIn(told, more);
    Onward(before, told, more);
    told := told + more;
  }

  lemma LowFloat(w: World, a: seq<Line>, b: seq<Line>, list: seq<Recipient>, s: State, mid: State, t: State,
                 job: Payment, h: nat, ending: Ending, sent: set<nat>)
    requires Kept(s, mid, w.pinned) && OnlyRefusal(w, a, job.order, true) && !SignsOf(b, job.order).settled
    requires w.reliable ==> MarkedFailed(w, b, mid, t, job.order, None, h, ending) && sent == {}
    requires !w.reliable ==> Promised(w, b, list, mid, t, job, h, ending, sent)
    ensures Promised(w, a + b, list, s, t, job, h, ending, sent)
  {
    if w.reliable {
      StoppedByRefusal(w, a, b, list, s, mid, t, job, h, ending);
    } else {
      PromisedAfterRead(w, a, b, list, s, mid, t, job, h, ending, sent);
    }
  }

  // ------------------------------------------------------------------------- the marker

  method IsSettled(w: World, h: nat, job: Payment, known: Option<Hash>, list: seq<Recipient>)
    returns (settled: bool, ghost line: Line)
    requires w.Valid() && w.At(h, Settling(job, ProbeMarker(known, list)))
    modifies w
    ensures w.Valid() && old(w.log) <= w.log && Kept(old(w.st), w.st, w.pinned)
    ensures w.Told(h) == old(w.Told(h)) + [line] && SignsOf([line], job.order) == QUIET.(settled := settled)
    ensures line.pc == Settling(job, ProbeMarker(known, list)) && (settled <==> line.answer == Good)
    ensures settled ==> job.order in w.st.chain.markers
    ensures w.Reached(h, Some(Settling(job, if settled then FindRow(known, list) else CheckFloat(list))))
  {
    var answer, seen := w.Ask(h);
    settled, line := answer == Good, Line(Settling(job, ProbeMarker(known, list)), answer, seen);
    OneLine(line, job.order);
  }

  method ProbeAndSettle(w: World, h: nat, job: Payment, known: Option<Hash>, list: seq<Recipient>)
    returns (ending: Ending, ghost sent: set<nat>, ghost told: seq<Line>)
    requires w.Valid() && w.At(h, Settling(job, ProbeMarker(known, list))) && StillKnown(w, w.st, job.order, known)
    requires job.order in w.pinned ==> Serial.StatusIs(w.st, job.order, SettlementPending)
    modifies w
    ensures w.Valid() && old(w.log) <= w.log && w.Told(h) == old(w.Told(h)) + told
    ensures Promised(w, told, list, old(w.st), w.st, job, h, ending, sent)
    ensures HasAttempt(told) ==> FloatChecked(told, job, list) && MarkerChecked(told, job, list)
  {
    ghost var start, before, line, more := w.st, w.Told(h), Line(Recovering(FindStuck), Good, w.st), [];
    w.OrderExists(h);
    var settled;
    settled, line := IsSettled(w, h, job, known, list);
    ghost var probed := w.st;
    told, sent := [line], {};
    if settled {
      ending, more := RecoverAlreadySettled(w, h, job, known, list);
      FoundSettled(w, told, more, list, start, probed, w.st, job, h, ending);
    } else {
      ending, sent, more := FundAndSettle(w, h, job, list);
      PromisedAfterRead(w, told, more, list, start, probed, w.st, job, h, ending, sent);
      assert line in told && MarkerChecked(told, job, list);
    }
    ChecksIn(told, more, job, ProductId(""), list);
    AttemptIn(told, more);
    Onward(before, told, more);
    told := told + more;
  }

  /** `is_settled` said yes, and the records were restored. */
  lemma FoundSettled(w: World, a: seq<Line>, b: seq<Line>, list: seq<Recipient>, s: State, mid: State, t: State,
                     job: Payment, h: nat, ending: Ending)
    requires Kept(s, mid, w.pinned) && SignsOf(a, job.order) == QUIET.(settled := true) && NoAttempts(a)
    requires Concluded(w, b, list, mid, t, job, h, ending) && ending != StillPending
    requires Undisturbed(w, mid, job.order) && Restorable(mid, job.order) ==> ending == Completed
    ensures Promised(w, a + b, list, s, t, job, h, ending, {}) && !HasAttempt(a + b)
  {
    ClosedAfterRead(w, a, b, list, s, mid, t, job, h, ending);
    NoneSubmitted(w, s, t, job, list);
    AttemptIn(a, b);
    SignsJoin(a, b, job.order);
    if Undisturbed(w, s, job.order) && Restorable(s, job.order) {
      StillRestorable(w, s, mid, job.order);
    }
  }

  // -------------------------------------------------------------- trustlines and shares

  /** The pre-checks proceed when a read fails: only a definite answer stops the handler. */
  method MissingTrustline(w: World, h: nat, job: Payment, known: Option<Hash>, list: seq<Recipient>)
    returns (missing: bool, ghost line: Line)
    requires w.Valid() && w.At(h, Settling(job, CheckTrustlines(known, list)))
    modifies w
    ensures w.Valid() && old(w.log) <= w.log && Kept(old(w.st), w.st, w.pinned)
    ensures w.Told(h) == old(w.Told(h)) + [line] && OnlyRefusal(w, [line], job.order, missing)
    ensures line.pc == Settling(job, CheckTrustlines(known, list)) && (missing <==> line.answer == Bad)
    ensures w.Reached(h, Some(Settling(job, if missing then Fail(None, false) else ProbeMarker(known, list))))
  {
    var answer, seen := w.Ask(h);
    missing, line := answer == Bad, Line(Settling(job, CheckTrustlines(known, list)), answer, seen);
    OneLine(line, job.order);
  }

  method TrustAndSettle(w: World, h: nat, job: Payment, known: Option<Hash>, list: seq<Recipient>)
    returns (ending: Ending, ghost sent: set<nat>, ghost told: seq<Line>)
    requires w.Valid() && w.At(h, Settling(job, CheckTrustlines(known, list))) && StillKnown(w, w.st, job.order, known)
    requires job.order in w.pinned ==> Serial.StatusIs(w.st, job.order, SettlementPending)
    modifies w
    ensures w.Valid() && old(w.log) <= w.log && w.Told(h) == old(w.Told(h)) + told
    ensures Promised(w, told, list, old(w.st), w.st, job, h, ending, sent)
    ensures HasAttempt(told) ==>
              FloatChecked(told, job, list) && MarkerChecked(told, job, list) && TrustChecked(told, job, list)
  {
    ghost var start, before, line, more := w.st, w.Told(h), Line(Recovering(FindStuck), Good, w.st), [];
    w.OrderExists(h);
    var missing;
    missing, line := MissingTrustline(w, h, job, known, list);
    ghost var checked := w.st;
    told, sent := [line], {};
    if missing {
      ending, more := GiveUp(w, h, job, false, told, list, start);
    } else {
      ending, sent, more := ProbeAndSettle(w, h, job, known, list);
      PromisedAfterRead(w, told, more, list, start, checked, w.st, job, h, ending, sent);
      assert line in told && TrustChecked(told, job, list);
      ChecksIn(told, more, job, ProductId(""), list);
      AttemptIn(told, more);
    }
    Onward(before, told, more);
    told := told + more;
  }

  /** `None` for shares the service does not accept. */
  method LoadCollaborators(w: World, h: nat, job: Payment, product: ProductId, known: Option<Hash>)
    returns (ok: bool, shares: Option<seq<Recipient>>, ghost line: Line)
    requires w.Valid() && w.At(h, Settling(job, LoadShares(product, known)))
    modifies w
    ensures w.Valid() && old(w.log) <= w.log && Kept(old(w.st), w.st, w.pinned)
    ensures w.Told(h) == old(w.Told(h)) + [line] && OnlyRefusal(w, [line], job.order, ok && shares.None?)
    ensures (w.reliable ==> ok) && (ok && shares.Some? ==> SharesLoaded([line], job, product, shares.value))
    ensures w.Reached(h, if !ok then FailSafe(job).next
                         else if shares.None? then Some(Settling(job, Fail(None, false)))
                         else Some(Settling(job, CheckTrustlines(known, shares.value))))
  {
    var answer, seen := w.Ask(h);
    ok, line := answer != Throw, Line(Settling(job, LoadShares(product, known)), answer, seen);
    var collaborators := if product in seen.products then seen.products[product].collaborators else [];
    shares := if ServiceChecks(collaborators) then Some(ToRecipients(collaborators)) else None;
    OneLine(line, job.order);
    assert line in [line];
  }

  /** Everything an attempt has to wait for was checked, for the shares of this product as they were read. */
  ghost predicate Cleared(told: seq<Line>, job: Payment, product: ProductId, list: seq<Recipient>) {
    && SharesLoaded(told, job, product, list) && TrustChecked(told, job, list)
    && MarkerChecked(told, job, list) && FloatChecked(told, job, list)
  }

  /** Loads the collaborators, makes the checks that save a doomed attempt, and settles. */
  method CheckAndSettle(w: World, h: nat, job: Payment, product: ProductId, known: Option<Hash>)
    returns (ending: Ending, ghost list: seq<Recipient>, ghost sent: set<nat>, ghost told: seq<Line>)
    requires w.Valid() && w.At(h, Settling(job, LoadShares(product, known))) && StillKnown(w, w.st, job.order, known)
    requires job.order in w.pinned ==> Serial.StatusIs(w.st, job.order, SettlementPending)
    modifies w
    ensures w.Valid() && old(w.log) <= w.log && w.Told(h) == old(w.Told(h)) + told
    ensures Promised(w, told, list, old(w.st), w.st, job, h, ending, sent)
    ensures HasAttempt(told) ==> Cleared(told, job, product, list)
    ensures ending == Completed ==> SharesLoaded(told, job, product, list)
  {
    ghost var start, before, line, more := w.st, w.Told(h), Line(Recovering(FindStuck), Good, w.st), [];
    w.OrderExists(h);
    var ok, shares;
    ok, shares, line := LoadCollaborators(w, h, job, product, known);
    ghost var loaded := w.st;
    told, sent, list := [line], {}, if shares.Some? then shares.value else [];
    if !ok || shares.None? {
      ending, more := GiveUp(w, h, job, !ok, told, list, start);
    } else {
      ending, sent, more := TrustAndSettle(w, h, job, known, shares.value);
      PromisedAfterRead(w, told, more, list, start, loaded, w.st, job, h, ending, sent);
      ClearedOnceLoaded(told, more, job, product, list);
    }
    Onward(before, told, more);
    told := told + more;
  }

  lemma ClearedOnceLoaded(a: seq<Line>, b: seq<Line>, job: Payment, product: ProductId, list: seq<Recipient>)
    requires SharesLoaded(a, job, product, list) && !HasAttempt(a)
    requires HasAttempt(b) ==> FloatChecked(b, job, list) && MarkerChecked(b, job, list) && TrustChecked(b, job, list)
    ensures SharesLoaded(a + b, job, product, list) && (HasAttempt(a + b) ==> Cleared(a + b, job, product, list))
  {
    ChecksIn(a, b, job, product, list);
    AttemptIn(a, b);
  }

  // ------------------------------------------------------------------ the whole handler

  method BeginSettlement(w: World, h: nat, job: Payment, product: ProductId, known: Option<Hash>)
    returns (ending: Ending, ghost list: seq<Recipient>, ghost sent: set<nat>, ghost told: seq<Line>)
    requires w.Valid() && w.At(h, Settling(job, MarkPending(product, known))) && StillKnown(w, w.st, job.order, known)
    modifies w
    ensures w.Valid() && old(w.log) <= w.log && w.Told(h) == old(w.Told(h)) + told
    ensures Promised(w, told, list, old(w.st), w.st, job, h, ending, sent)
    ensures HasAttempt(told) ==> Cleared(told, job, product, list)
    ensures ending == Completed ==> SharesLoaded(told, job, product, list)
  {
    ghost var start, before, line, more := w.st, w.Told(h), Line(Recovering(FindStuck), Good, w.st), [];
    w.OrderExists(h);
    var ok;
    ok, line := w.Update(h, job.order, SettlementPending, Keep);
    ghost var marked := w.st;
    told, list, sent := [line], [], {};
    QuietLine(w, line, job.order);
    if ok {
      ending, list, sent, more := CheckAndSettle(w, h, job, product, known);
      PromisedLater(w, told, more, list, start, marked, w.st, job, h, ending, sent);
      ChecksIn(told, more, job, product, list);
      AttemptIn(told, more);
    } else {
      ending, more := GiveUp(w, h, job, true, told, list, start);
    }
    Onward(before, told, more);
    told := told + more;
  }

  /** What the handler promises, for what it was told and the list it was to pay. */
  ghost predicate Handled(w: World, told: seq<Line>, list: seq<Recipient>, s: State, t: State, job: Payment, h: nat,
                          ending: Ending, sent: set<nat>)
  {
    && Closed(w, told, list, s, t, job, h, ending)
    && FewSubmitted(w, s, t, job, list, sent) && Attempts(told, job, list)
    && (SignsOf(told, job.order).settled ==> sent == {} && !HasAttempt(told))
    && (Undisturbed(w, s, job.order) ==>
          && (ending == Rejected <==> !CanTransition(s.orders[job.order].status, SettlementPending))
          && (ending == Completed ==> job.order in t.chain.markers)
          && (SignsOf(told, job.order).settled && Restorable(s, job.order) ==> ending == Completed)
          && (HasAttempt(told) ==> Cleared(told, job, s.orders[job.order].product, list))
          && (ending == Completed ==> SharesLoaded(told, job, s.orders[job.order].product, list)))
  }

  /**
   * The whole handler. An order whose status does not allow it is left alone. Any other
   * is failed exactly when an answer that `Refuses` lists was heard, stays pending exactly
   * when the thirtieth poll brought no outcome, and is completed otherwise, with its row
   * and hash as `CompletedAs` says. When `is_settled` said yes nothing is submitted, and
   * an order that can be restored is completed. Otherwise at most three transactions are
   * submitted, for the shares that were read, after every check, each after a simulation.
   */
  method HandlePaymentReceived(w: World, h: nat, job: Payment)
    returns (ending: Ending, ghost list: seq<Recipient>, ghost sent: set<nat>, ghost told: seq<Line>)
    requires w.Valid() && w.At(h, Settling(job, ReadOrder))
    modifies w
    ensures w.Valid() && old(w.log) <= w.log && w.Told(h) == old(w.Told(h)) + told
    ensures Handled(w, told, list, old(w.st), w.st, job, h, ending, sent)
  {
    ghost var start, before, more := w.st, w.Told(h), [];
    w.OrderExists(h);
    var answer, seen := w.Ask(h);
    ghost var read, line := w.st, Line(Settling(job, ReadOrder), answer, seen);
    told, list, sent := [line], [], {};
    QuietLine(w, line, job.order);
    if answer == Throw {
      ending, more := GiveUp(w, h, job, true, told, list, start);
      HandledByError(w, told + more, list, start, w.st, job, h, ending);
    } else if job.order !in seen.orders || !CanTransition(seen.orders[job.order].status, SettlementPending) {
      ending := Rejected;
      LeftAlone(w, told, start, read, job, h);
    } else {
      var order := seen.orders[job.order];
      ending, list, sent, more := BeginSettlement(w, h, job, order.product, order.txHash);
      w.SettledIsMarked(job.order);
      HandledFrom(w, told, more, list, start, read, w.st, job, h, order, ending, sent);
    }
    Onward(before, told, more);
    told := told + more;
  }

  lemma LeftAlone(w: World, told: seq<Line>, s: State, t: State, job: Payment, h: nat)
    requires Kept(s, t, w.pinned) && h !in t.acts && OnlyRefusal(w, told, job.order, false)
    requires Undisturbed(w, s, job.order) ==> !CanTransition(s.orders[job.order].status, SettlementPending)
    ensures Handled(w, told + [], [], s, t, job, h, Rejected, {})
  {
    KeptFewer(s, t, w.pinned, w.pinned - {job.order});
    NoneSubmitted(w, s, t, job, []);
    assert told + [] == told;
  }

  /** The first read failed. */
  lemma HandledByError(w: World, told: seq<Line>, list: seq<Recipient>, s: State, t: State, job: Payment, h: nat,
                       ending: Ending)
    requires Promised(w, told, list, s, t, job, h, ending, {}) && !w.reliable
    ensures Handled(w, told, list, s, t, job, h, ending, {})
  {
  }

  /** The order was read as it was, and its status allowed the settlement. */
  lemma HandledFrom(w: World, a: seq<Line>, b: seq<Line>, list: seq<Recipient>, s: State, mid: State, t: State,
                    job: Payment, h: nat, order: Order, ending: Ending, sent: set<nat>)
    requires Kept(s, mid, w.pinned) && OnlyRefusal(w, a, job.order, false) && MarkedIfSettled(t, job.order)
    requires CanTransition(order.status, SettlementPending)
    requires Undisturbed(w, s, job.order) ==> s.orders[job.order] == order
    requires Promised(w, b, list, mid, t, job, h, ending, sent)
    requires HasAttempt(b) ==> Cleared(b, job, order.product, list)
    requires ending == Completed ==> SharesLoaded(b, job, order.product, list)
    ensures Handled(w, a + b, list, s, t, job, h, ending, sent)
  {
    PromisedAfterRead(w, a, b, list, s, mid, t, job, h, ending, sent);
    ChecksIn(a, b, job, order.product, list);
    AttemptIn(a, b);
    if Undisturbed(w, s, job.order) && ending == Completed {
      CompletedIsSettled(a + b, list, s, t, job, h);
    }
  }

  predicate MarkedIfSettled(s: State, o: OrderId) {
    o in s.orders && s.orders[o].status == Settled ==> o in s.chain.markers
  }

  lemma CompletedIsSettled(told: seq<Line>, list: seq<Recipient>, s: State, t: State, job: Payment, h: nat)
    requires CompletedAs(told, list, s, t, job, h)
    ensures t.orders[job.order].status == Settled
  {
  }
}
