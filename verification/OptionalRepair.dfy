/** The maintenance of optional artifacts: a gate that a cancelled caller hands over to the thread it leaves behind, and
    a cursor that sweeps the candidates in rounds. */
module OptionalRepair {
  import opened Wrappers

  // ---------- the gate ----------

  /** A caller between its operations, waiting for one of its thread operations (running or just finished), or gone
      while a task of its own, which may not have had its first step yet, waits for that operation to release the
      gate. */
  datatype Caller = Between | Waiting(running: bool) | Deferred(running: bool, started: bool)

  /** `orphans` are thread operations nobody waits for; `acquired` and `released` count the gate's history. */
  datatype Gate = Gate(held: bool, callers: map<nat, Caller>, orphans: nat, acquired: nat, released: nat)

  datatype Event =
    | Acquire(c: nat)
    | StartOperation(c: nat)
    | OperationEnds(c: nat)
    | Resume(c: nat)
    | Cancelled(c: nat)
    | Leave(c: nat)
    | ReleaseStarts(c: nat)
    | DeferredRelease(c: nat)
    | ReleaseCancelled(c: nat)
    | OrphanEnds

  predicate At(g: Gate, c: nat, caller: Caller) {
    c in g.callers && g.callers[c] == caller
  }

  /** A cancellation of the caller strikes at the only await, whether the operation is still running or has just ended.
      The end of the event loop cancels the releasing task, or the operation's task that it waits for. */
  predicate Enabled(g: Gate, e: Event) {
    match e
    case Acquire(c) => c !in g.callers && !g.held
    case StartOperation(c) => At(g, c, Between)
    case OperationEnds(c) => c in g.callers && Running(g.callers[c])
    case Resume(c) => At(g, c, Waiting(false))
    case Cancelled(c) => c in g.callers && g.callers[c].Waiting?
    case Leave(c) => At(g, c, Between)
    case ReleaseStarts(c) => c in g.callers && g.callers[c].Deferred? && !g.callers[c].started
    case DeferredRelease(c) => At(g, c, Deferred(false, true))
    case ReleaseCancelled(c) => c in g.callers && g.callers[c].Deferred?
    case OrphanEnds => g.orphans > 0
  }

  function Released(g: Gate, c: nat): Gate {
    g.(held := false, callers := g.callers - {c}, released := g.released + 1)
  }

  /** A task cancelled before its first step never enters the block that would release the gate; afterwards it catches
      the cancellation and releases the gate at once. The thread runs on in both cases. */
  function Apply(g: Gate, e: Event): Gate
    requires Enabled(g, e)
  {
    match e
    case Acquire(c) => g.(held := true, callers := g.callers[c := Between], acquired := g.acquired + 1)
    case StartOperation(c) => g.(callers := g.callers[c := Waiting(true)])
    case OperationEnds(c) => g.(callers := g.callers[c := g.callers[c].(running := false)])
    case Resume(c) => g.(callers := g.callers[c := Between])
    case Cancelled(c) => g.(callers := g.callers[c := Deferred(g.callers[c].running, false)])
    case Leave(c) => Released(g, c)
    case ReleaseStarts(c) => g.(callers := g.callers[c := g.callers[c].(started := true)])
    case DeferredRelease(c) => Released(g, c)
    case ReleaseCancelled(c) =>
      var caller := g.callers[c];
      (if caller.started then Released(g, c) else g.(callers := g.callers - {c}))
      .(orphans := g.orphans + if caller.running then 1 else 0)
    case OrphanEnds => g.(orphans := g.orphans - 1)
  }

  predicate ValidRun(g: Gate, es: seq<Event>)
    decreases |es|
  {
    es == [] || (Enabled(g, es[0]) && ValidRun(Apply(g, es[0]), es[1..]))
  }

  function Run(g: Gate, es: seq<Event>): Gate
    requires ValidRun(g, es)
    decreases |es|
  {
    if es == [] then g else Run(Apply(g, es[0]), es[1..])
  }

  const IDLE := Gate(false, map[], 0, 0, 0)

  predicate Running(caller: Caller) {
    !caller.Between? && caller.running
  }

  ghost predicate Busy(g: Gate) {
    g.orphans > 0 || exists c :: c in g.callers && Running(g.callers[c])
  }

  /** Whoever is not finished owns the gate, and there is only one such caller. */
  ghost predicate GateInv(g: Gate) {
    && g.acquired == g.released + (if g.held then 1 else 0)
    && (forall c :: c in g.callers ==> g.held)
    && (forall c, d :: c in g.callers && d in g.callers ==> c == d)
  }

  /** Held by nobody: no later acquisition can succeed. */
  predicate Stuck(g: Gate) {
    g.held && g.callers == map[]
  }

  lemma IdleKeepsGateInv()
    ensures GateInv(IDLE) && !Stuck(IDLE) && !Busy(IDLE)
  {
  }

  lemma StepKeepsGateInv(g: Gate, e: Event)
    requires GateInv(g) && Enabled(g, e)
    ensures GateInv(Apply(g, e))
    ensures Stuck(g) ==> Stuck(Apply(g, e))
    ensures !Stuck(g) ==> (Stuck(Apply(g, e)) <==> e.ReleaseCancelled? && !g.callers[e.c].started)
  {
    var t := Apply(g, e);
    if !e.OrphanEnds? {
      if e.c in t.callers {
        assert t.callers != map[];
      } else {
        assert t.callers == g.callers - {e.c} == map[];
      }
    }
  }

  /** Under every interleaving of callers and cancellations the gate is released at most once for each acquisition, and
      the next acquisition waits for that. */
  lemma {:induction false} GateIsReleasedAtMostOnce(g: Gate, es: seq<Event>)
    requires GateInv(g) && ValidRun(g, es)
    ensures var t := Run(g, es);
      && GateInv(t) && t.released <= t.acquired <= t.released + 1
      && (!t.held <==> t.acquired == t.released)
    decreases |es|
  {
    if es != [] {
      StepKeepsGateInv(g, es[0]);
      GateIsReleasedAtMostOnce(Apply(g, es[0]), es[1..]);
    }
  }

  // ---------- when the promise of the gate fails ----------

  /** Some release task is cancelled before its first step. */
  predicate CancelsUnstarted(g: Gate, es: seq<Event>)
    requires ValidRun(g, es)
    decreases |es|
  {
    es != [] && ((es[0].ReleaseCancelled? && !g.callers[es[0].c].started) || CancelsUnstarted(Apply(g, es[0]), es[1..]))
  }

  /** Some release task, or the operation it waits for, is cancelled while the thread is still at work. */
  predicate CancelsRunning(g: Gate, es: seq<Event>)
    requires ValidRun(g, es)
    decreases |es|
  {
    es != [] &&
    ((es[0].ReleaseCancelled? && g.callers[es[0].c] == Deferred(true, true)) ||
     CancelsRunning(Apply(g, es[0]), es[1..]))
  }

  ghost predicate ReleasedWhileBusy(g: Gate, es: seq<Event>)
    requires ValidRun(g, es)
    decreases |es|
  {
    es != [] &&
    var t := Apply(g, es[0]);
    (g.held && !t.held && Busy(t)) || ReleasedWhileBusy(t, es[1..])
  }

  lemma {:induction false} StuckStaysStuck(g: Gate, es: seq<Event>)
    requires GateInv(g) && Stuck(g) && ValidRun(g, es)
    ensures Stuck(Run(g, es)) && !CancelsRunning(g, es) && !ReleasedWhileBusy(g, es)
    decreases |es|
  {
    if es != [] {
      StepKeepsGateInv(g, es[0]);
      StuckStaysStuck(Apply(g, es[0]), es[1..]);
    }
  }

  /** A gate that is held always has a caller or a task that owes its release, exactly unless a release task was
      cancelled before its first step; then it is held by nobody and can never be acquired again. */
  lemma {:induction false} GateIsStuckIff(g: Gate, es: seq<Event>)
    requires GateInv(g) && !Stuck(g) && ValidRun(g, es)
    ensures Stuck(Run(g, es)) <==> CancelsUnstarted(g, es)
    decreases |es|
  {
    if es != [] {
      var t := Apply(g, es[0]);
      StepKeepsGateInv(g, es[0]);
      if Stuck(t) {
        StuckStaysStuck(t, es[1..]);
      } else {
        GateIsStuckIff(t, es[1..]);
      }
    }
  }

  lemma StepOfIdleThreads(g: Gate, e: Event)
    requires GateInv(g) && g.orphans == 0 && Enabled(g, e)
    ensures var t := Apply(g, e);
      && (g.held && !t.held && Busy(t) <==> e.ReleaseCancelled? && g.callers[e.c] == Deferred(true, true))
      && (t.orphans > 0 ==> Stuck(t) || (e.ReleaseCancelled? && g.callers[e.c] == Deferred(true, true)))
  {
    var t := Apply(g, e);
    if !e.OrphanEnds? && !e.Acquire? {
      assert g.callers - {e.c} == map[];
    }
  }

  /** The gate is released while a thread operation runs exactly when a started release is cancelled while its operation
      runs. */
  lemma {:induction false} ReleasedWhileBusyIff(g: Gate, es: seq<Event>)
    requires GateInv(g) && g.orphans == 0 && ValidRun(g, es)
    ensures ReleasedWhileBusy(g, es) <==> CancelsRunning(g, es)
    decreases |es|
  {
    if es != [] {
      var t := Apply(g, es[0]);
      StepKeepsGateInv(g, es[0]);
      StepOfIdleThreads(g, es[0]);
      if t.orphans == 0 {
        ReleasedWhileBusyIff(t, es[1..]);
      } else if Stuck(t) {
        StuckStaysStuck(t, es[1..]);
      }
    }
  }

  /** The worker stops: its maintenance is cancelled during an operation, then the end of the event loop cancels the
      task that was to release the gate, and another caller starts a second operation beside the first. */
  lemma TwoOperationsAtOnce() returns (es: seq<Event>)
    ensures ValidRun(IDLE, es) && ReleasedWhileBusy(IDLE, es)
    ensures var t := Run(IDLE, es); t.orphans == 1 && At(t, 1, Waiting(true))
  {
    es := [];
    es := Extend(es, IDLE, Acquire(0), Gate(true, map[0 := Between], 0, 1, 0));
    es := Extend(es, Gate(true, map[0 := Between], 0, 1, 0), StartOperation(0),
                 Gate(true, map[0 := Waiting(true)], 0, 1, 0));
    es := Extend(es, Gate(true, map[0 := Waiting(true)], 0, 1, 0), Cancelled(0),
                 Gate(true, map[0 := Deferred(true, false)], 0, 1, 0));
    es := Extend(es, Gate(true, map[0 := Deferred(true, false)], 0, 1, 0), ReleaseStarts(0),
                 Gate(true, map[0 := Deferred(true, true)], 0, 1, 0));
    es := Extend(es, Gate(true, map[0 := Deferred(true, true)], 0, 1, 0), ReleaseCancelled(0),
                 Gate(false, map[], 1, 1, 1));
    es := Extend(es, Gate(false, map[], 1, 1, 1), Acquire(1), Gate(true, map[1 := Between], 1, 2, 1));
    es := Extend(es, Gate(true, map[1 := Between], 1, 2, 1), StartOperation(1),
                 Gate(true, map[1 := Waiting(true)], 1, 2, 1));
  }

  lemma {:induction false} Snoc(g: Gate, es: seq<Event>, e: Event)
    requires ValidRun(g, es) && Enabled(Run(g, es), e)
    ensures ValidRun(g, es + [e]) && Run(g, es + [e]) == Apply(Run(g, es), e)
    ensures ReleasedWhileBusy(g, es) ==> ReleasedWhileBusy(g, es + [e])
    ensures var t := Apply(Run(g, es), e); Run(g, es).held && !t.held && Busy(t) ==> ReleasedWhileBusy(g, es + [e])
    decreases |es|
  {
    if es == [] {
      assert ([] + [e])[1..] == [];
    } else {
      Snoc(Apply(g, es[0]), es[1..], e);
      assert (es + [e])[1..] == es[1..] + [e];
    }
  }

  lemma Extend(es: seq<Event>, g: Gate, e: Event, next: Gate) returns (fs: seq<Event>)
    requires ValidRun(IDLE, es) && Run(IDLE, es) == g && Enabled(g, e) && Apply(g, e) == next
    ensures ValidRun(IDLE, fs) && Run(IDLE, fs) == next
    ensures ReleasedWhileBusy(IDLE, es) || (g.held && !next.held && Busy(next)) ==> ReleasedWhileBusy(IDLE, fs)
  {
    Snoc(IDLE, es, e);
    fs := es + [e];
  }

  // ---------- the sweep ----------

  /** The candidates are 0 to n-1 in the order of the query, the cursor is the last one attempted or -1. A query that
      finds nothing after the cursor is repeated from the start. */
  function First(n: nat, cursor: int): (r: nat)
    requires -1 <= cursor < n || cursor == -1
    ensures r <= n && (n > 0 ==> r < n)
  {
    if cursor + 1 >= n then 0 else cursor + 1
  }

  function Last(n: nat, limit: nat, cursor: int): (r: nat)
    requires -1 <= cursor < n || cursor == -1
    ensures r <= n
  {
    if First(n, cursor) + limit <= n then First(n, cursor) + limit else n
  }

  function Next(n: nat, limit: nat, cursor: int): (r: int)
    requires (-1 <= cursor < n || cursor == -1) && limit > 0
    ensures -1 <= r < n || r == -1
  {
    if n == 0 then -1 else Last(n, limit, cursor) - 1
  }

  /** Candidate `i` is attempted within k rounds. */
  predicate Attempted(n: nat, limit: nat, cursor: int, k: nat, i: nat)
    requires (-1 <= cursor < n || cursor == -1) && limit > 0
    decreases k
  {
    k > 0 && ((First(n, cursor) <= i < Last(n, limit, cursor)) || Attempted(n, limit, Next(n, limit, cursor), k - 1, i))
  }

  /** The rounds it takes to come past the candidate at distance d: d / limit + 1. */
  function RoundsFor(d: nat, limit: nat): (r: nat)
    requires limit > 0
    ensures r > 0
  {
    if d < limit then 1 else 1 + RoundsFor(d - limit, limit)
  }

  lemma {:induction false} MoreRoundsAttemptMore(n: nat, limit: nat, cursor: int, k: nat, m: nat, i: nat)
    requires (-1 <= cursor < n || cursor == -1) && limit > 0 && k <= m && Attempted(n, limit, cursor, k, i)
    ensures Attempted(n, limit, cursor, m, i)
    decreases k
  {
    if !(First(n, cursor) <= i < Last(n, limit, cursor)) {
      MoreRoundsAttemptMore(n, limit, Next(n, limit, cursor), k - 1, m - 1, i);
    }
  }

  /** From where the next round starts, whatever lies ahead is reached without wrapping around. */
  lemma {:induction false} ReachesAhead(n: nat, limit: nat, cursor: int, i: nat)
    requires -1 <= cursor < n && limit > 0 && First(n, cursor) <= i < n
    ensures Attempted(n, limit, cursor, RoundsFor(i - First(n, cursor), limit), i)
    decreases i - First(n, cursor)
  {
    if i >= First(n, cursor) + limit {
      ReachesAhead(n, limit, Next(n, limit, cursor), i);
    }
  }

  /** After the rounds that finish the tail, the sweep starts again from the front. */
  lemma {:induction false} WrapsAround(n: nat, limit: nat, cursor: int, k: nat, i: nat)
    requires -1 <= cursor < n && 0 < n && limit > 0 && Attempted(n, limit, n - 1, k, i)
    ensures Attempted(n, limit, cursor, RoundsFor(n - 1 - First(n, cursor), limit) + k, i)
    decreases n - First(n, cursor)
  {
    if First(n, cursor) + limit < n {
      WrapsAround(n, limit, Next(n, limit, cursor), k, i);
    } else {
      assert Next(n, limit, cursor) == n - 1;
    }
  }

  lemma {:induction false} RoundsGrow(a: nat, b: nat, limit: nat)
    requires limit > 0 && a <= b
    ensures RoundsFor(a, limit) <= RoundsFor(b, limit)
  {
    if a >= limit {
      RoundsGrow(a - limit, b - limit, limit);
    }
  }

  lemma {:induction false} RoundsAddUp(a: nat, b: nat, limit: nat)
    requires limit > 0
    ensures RoundsFor(a, limit) + RoundsFor(b, limit) <= RoundsFor(a + b, limit) + 1
  {
    if a < limit {
      RoundsGrow(b, a + b, limit);
    } else {
      RoundsAddUp(a - limit, b, limit);
    }
  }

  /** Over a stable set of n candidates, wherever the cursor is, one round more than a full sweep needs attempts every
      candidate. */
  lemma EveryCandidateIsAttempted(n: nat, limit: nat, cursor: int, i: nat)
    requires -1 <= cursor < n && limit > 0 && i < n
    ensures Attempted(n, limit, cursor, RoundsFor(n - 1, limit) + 1, i)
  {
    var first := First(n, cursor);
    if i >= first {
      ReachesAhead(n, limit, cursor, i);
      RoundsGrow(i - first, n - 1, limit);
      MoreRoundsAttemptMore(n, limit, cursor, RoundsFor(i - first, limit), RoundsFor(n - 1, limit) + 1, i);
    } else {
      ReachesAhead(n, limit, n - 1, i);
      WrapsAround(n, limit, cursor, RoundsFor(i, limit), i);
      RoundsAddUp(n - 1 - first, i, limit);
      RoundsGrow(n - 1 - first + i, n - 1, limit);
      MoreRoundsAttemptMore(n, limit, cursor, RoundsFor(n - 1 - first, limit) + RoundsFor(i, limit),
                            RoundsFor(n - 1, limit) + 1, i);
    }
  }

  // ---------- the service ----------

  datatype Outcome = Repaired | Postponed | Unavailable | Raised

  /** What is reported of the attempts, in order: nothing of those that raised. */
  function Reported(found: seq<nat>, outcomes: seq<Outcome>): seq<(nat, Outcome)>
    requires |outcomes| >= |found|
  {
    if found == [] then []
    else
      var k := |found| - 1;
      Reported(found[..k], outcomes) + if outcomes[k] == Raised then [] else [(found[k], outcomes[k])]
  }

  class OptionalRepairService {
    const batchSize: nat
    var candidates: seq<nat>
    var cursor: int
    var attempts: seq<nat>

    ghost predicate Valid()
      reads this
    {
      batchSize > 0 && (-1 <= cursor < |candidates| || cursor == -1)
    }

    constructor (batchSize: nat, candidates: seq<nat>)
      requires batchSize > 0
      ensures Valid() && this.batchSize == batchSize && this.candidates == candidates && cursor == -1 && attempts == []
    {
      this.batchSize, this.candidates := batchSize, candidates;
      cursor, attempts := -1, [];
    }

    /** The query after the cursor. */
    method ListCandidates(limit: nat) returns (found: seq<nat>)
      requires Valid()
      ensures var first := cursor + 1;
        found == candidates[first..if first + limit <= |candidates| then first + limit else |candidates|]
    {
      var first := cursor + 1;
      found := candidates[first..if first + limit <= |candidates| then first + limit else |candidates|];
    }

    /** One round, with the outcome of each attempt: a failed attempt does not stop it, a failed query ends it. When the
        query from the start fails, the cursor has been reset already. */
    method RepairRound(limit: Option<nat>, queryFails: bool, secondQueryFails: bool, outcomes: seq<Outcome>)
      returns (messages: seq<(nat, Outcome)>)
      requires Valid() && |outcomes| >= batchSize
      modifies this`cursor, this`attempts
      ensures Valid()
      ensures var bound := Bounded(limit);
        if bound == 0 || queryFails then cursor == old(cursor) && attempts == old(attempts) && messages == []
        else if secondQueryFails && old(cursor) != -1 && old(cursor) + 1 >= |candidates| then
          cursor == -1 && attempts == old(attempts) && messages == []
        else
          var found := candidates[First(|candidates|, old(cursor))..Last(|candidates|, bound, old(cursor))];
          && cursor == Next(|candidates|, bound, old(cursor))
          && attempts == old(attempts) + found && messages == Reported(found, outcomes)
    {
      messages := [];
      var bound := Bounded(limit);
      if bound == 0 || queryFails {
        return;
      }
      var found, failed := FindCandidates(bound, secondQueryFails);
      if !failed {
        messages := Attempt(found, outcomes);
      }
    }

    /** The query after the cursor, and the one from the start when there is nothing. */
    method FindCandidates(bound: nat, secondQueryFails: bool) returns (found: seq<nat>, failed: bool)
      requires Valid() && bound > 0
      modifies this`cursor
      ensures failed <==> secondQueryFails && old(cursor) != -1 && old(cursor) + 1 >= |candidates|
      ensures failed ==> cursor == -1
      ensures !failed ==>
        var (first, last) := (First(|candidates|, old(cursor)), Last(|candidates|, bound, old(cursor)));
        found == candidates[first..last] && cursor + 1 == first
    {
      failed := false;
      found := ListCandidates(bound);
      if found == [] && cursor != -1 {
        cursor := -1;
        if secondQueryFails {
          return found, true;
        }
        found := ListCandidates(bound);
      }
    }

    /** The candidates one after another, the cursor with them. */
    method Attempt(found: seq<nat>, outcomes: seq<Outcome>) returns (messages: seq<(nat, Outcome)>)
      requires |outcomes| >= |found|
      modifies this`cursor, this`attempts
      ensures cursor == old(cursor) + |found| && attempts == old(attempts) + found
      ensures messages == Reported(found, outcomes)
    {
      messages := [];
      for k := 0 to |found|
        invariant cursor == old(cursor) + k && attempts == old(attempts) + found[..k]
        invariant messages == Reported(found[..k], outcomes)
      {
        assert found[..k + 1][..k] == found[..k];
        cursor := cursor + 1;
        attempts := attempts + [found[k]];
        if outcomes[k] != Raised {
          messages := messages + [(found[k], outcomes[k])];
        }
      }
      assert found[..|found|] == found;
    }

    /** The smaller of the two. */
    function Bounded(limit: Option<nat>): (bound: nat)
      ensures bound <= batchSize && (limit.Some? ==> bound <= limit.value)
      ensures bound == batchSize || limit == Some(bound)
    {
      if limit.None? then batchSize else if limit.value < batchSize then limit.value else batchSize
    }
  }
}
