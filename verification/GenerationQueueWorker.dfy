/** The queue worker: one claimed item at a time, with any number of other threads working on the same row at each
    await. Every change it makes is an event of the submission protocol. */
module GenerationQueueWorker {
  import opened Wrappers
  import opened SubmissionQueue

  /** How a durable write ends: stored, stored with its answer lost, or not stored. */
  datatype Write = Stored | AnswerLost | NotStored

  /** How the `/prompt` request ends: never sent, accepted, or without a usable answer. */
  datatype Request = NotSent | Accepted(prompt: nat) | NoAnswer(prompt: nat)

  /** One `run_once`: what fails, and what other threads do while it awaits. */
  datatype Attempt = Attempt(
    claimFails: bool, beforeStart: seq<Event>, setupFails: bool, beforeBegin: seq<Event>, begin: Write,
    duringCall: seq<Event>, request: Request, beforeConfirm: seq<Event>, confirm: Write, execution: seq<Event>,
    failureSaved: bool, quarantineSaved: bool, releaseSaved: bool)
  {
    /** Nobody else touches the row, from the claim to its release. */
    predicate Undisturbed() {
      beforeStart == [] && beforeBegin == [] && duringCall == [] && beforeConfirm == [] && execution == []
    }

    /** The submission begins for certain, and the request is sent. */
    predicate Sends() {
      begin == Stored && !request.NotSent?
    }

    predicate Alone() {
      NoWorkers(beforeStart) && NoWorkers(beforeBegin) && NoWorkers(duringCall) && NoWorkers(beforeConfirm) &&
        NoWorkers(execution)
    }
  }

  /** The worker named in an event, if it is a worker's. */
  function Actor(e: Event): Option<nat> {
    match e
    case Claim(w) => Some(w)
    case Begin(w, _) => Some(w)
    case Call(w, _) => Some(w)
    case Confirm(w, _) => Some(w)
    case Quarantine(w, _) => Some(w)
    case FailBeforeStart(w, _) => Some(w)
    case CancelBeforeStart(w) => Some(w)
    case Leave(w, _) => Some(w)
    case _ => None
  }

  /** Other threads: whatever they can do of `es`, in order. */
  function Play(w: World, es: seq<Event>, me: nat): World
    decreases |es|
  {
    if es == [] then w
    else if Enabled(w, es[0]) && Actor(es[0]) != Some(me) then Play(Apply(w, es[0]), es[1..], me)
    else Play(w, es[1..], me)
  }

  function Mine(w: World, me: nat): Option<Pc> {
    if me in w.workers then Some(w.workers[me]) else None
  }

  lemma {:induction false} PlayKeeps(w: World, es: seq<Event>, me: nat)
    requires OnceInv(w)
    ensures OnceInv(Play(w, es, me))
    ensures Mine(Play(w, es, me), me) == Mine(w, me)
    ensures w.calls <= Play(w, es, me).calls
    ensures w.row.submission != Ready ==> Play(w, es, me).row.submission != Ready
    ensures Accounted(w.row) ==> Accounted(Play(w, es, me).row)
    ensures NoWorkers(es) ==> Play(w, es, me).calls == w.calls
    decreases |es|
  {
    if es != [] {
      assert forall i :: 0 <= i < |es[1..]| ==> es[1..][i] == es[i + 1];
      if Enabled(w, es[0]) && Actor(es[0]) != Some(me) {
        StepKeepsOnceInv(w, es[0]);
        OthersLeaveMeAlone(w, es[0], me);
        PlayKeeps(Apply(w, es[0]), es[1..], me);
      } else {
        PlayKeeps(w, es[1..], me);
      }
    }
  }

  lemma OthersLeaveMeAlone(w: World, e: Event, me: nat)
    requires Enabled(w, e) && Actor(e) != Some(me)
    ensures Mine(Apply(w, e), me) == Mine(w, me)
  {
  }

  /** No other worker is about. */
  predicate NoWorkers(es: seq<Event>) {
    forall i :: 0 <= i < |es| ==> Actor(es[i]) == None
  }

  // ---------- what an attempt does ----------

  function ClaimedBy(w: World, me: nat): World {
    w.(row := Claimed(w.row, me), workers := w.workers[me := Holding])
  }

  /** The attempt on a claimed item comes to its `/prompt` call: its setup succeeds, nobody asks for a cancellation
      before it starts, the item can still be begun then, the begin is stored and answered, and the request is sent. */
  predicate Calls(w: World, a: Attempt, me: nat) {
    var started := Play(w, a.beforeStart, me);
    !a.setupFails && !started.row.cancelRequested && CanBegin(Play(started, a.beforeBegin, me).row, me) && a.Sends()
  }

  /** The row after the call, if nobody else touched it: submitted under the answered prompt ID if that was stored, and
      otherwise quarantined if that was. */
  function AfterCall(begun: Row, a: Attempt): Row
    requires !a.request.NotSent?
  {
    if a.request.Accepted? && a.confirm != NotStored then
      begun.(gen := Queued, job := Queued, prompt := Some(a.request.prompt), submission := Submitted)
    else MadeAmbiguous(begun, a.quarantineSaved)
  }

  function MadeAmbiguous(begun: Row, saved: bool): Row {
    if saved then begun.(submission := Ambiguous, worker := None, code := Undetermined) else begun
  }

  function FailedBeforeStart(r: Row, saved: bool): Row {
    if saved then r.(gen := Failed, job := Failed, code := OtherCode) else r
  }

  /** The row after a submission that nobody else disturbed. */
  function AfterSubmit(w: World, a: Attempt): Row {
    var begun := w.row.(submission := Submitting, token := Some(w.tokens));
    match a.begin
    case NotStored => FailedBeforeStart(w.row, a.failureSaved)
    case AnswerLost => FailedBeforeStart(begun, a.failureSaved)
    case Stored => if a.request.NotSent? then MadeAmbiguous(begun, a.quarantineSaved) else AfterCall(begun, a)
  }

  /** The worker must stop: something unclear could not be recorded. */
  predicate FailsClosed(a: Attempt) {
    a.begin == Stored && !a.quarantineSaved && !(a.request.Accepted? && a.confirm == Stored)
  }

  /** One attempt of the worker, on all rows: it claims the first claimable one, and calls `/prompt` exactly if the
      attempt comes to that. */
  ghost predicate Attempted(me: nat, before: seq<World>, after: seq<World>, a: Attempt, closedBefore: bool,
                            closedAfter: bool, claimed: Option<nat>, called: bool) {
    && |after| == |before| && (closedBefore ==> closedAfter)
    && (claimed.Some? <==> !a.claimFails && exists i :: 0 <= i < |before| && Claimable(before[i].row))
    && (claimed.None? ==> after == before && closedAfter == closedBefore && !called)
    && (claimed.Some? ==>
          && claimed.value < |before| && Claimable(before[claimed.value].row)
          && (forall i :: 0 <= i < claimed.value ==> !Claimable(before[i].row))
          && (forall i :: 0 <= i < |before| && i != claimed.value ==> after[i] == before[i])
          && Settled(me, before[claimed.value], after[claimed.value], a, closedBefore, closedAfter, called))
  }

  /** What the attempt leaves on its item. */
  ghost predicate Settled(me: nat, before: World, after: World, a: Attempt, closedBefore: bool, closedAfter: bool,
                          called: bool) {
    && (called <==> Calls(ClaimedBy(before, me), a, me))
    && (called ==> after.calls == 1 && (Accounted(after.row) || closedAfter))
    && (a.Alone() ==> after.calls == before.calls + if called then 1 else 0)
    && (a.Undisturbed() ==> SettledAlone(me, before, after, a, closedBefore, closedAfter))
  }

  /** Undisturbed, the item fails before the start, or its row is what the submission leaves; the claim is released. */
  ghost predicate SettledAlone(me: nat, before: World, after: World, a: Attempt, closedBefore: bool,
                               closedAfter: bool) {
    var w := ClaimedBy(before, me);
    var row := if a.setupFails then FailedBeforeStart(w.row, a.failureSaved) else AfterSubmit(w, a);
    && closedAfter == (closedBefore || (!a.setupFails && FailsClosed(a)))
    && after.row == if a.releaseSaved && !closedAfter then ReleaseClaim(row, me) else row
  }

  /** A prompt that was accepted and whose confirmation was stored, with nobody else at the row: exactly that prompt
      ID is on it, and it is SUBMITTED and QUEUED. */
  lemma AcceptedPromptIsRecorded(me: nat, before: seq<World>, after: seq<World>, a: Attempt, closed: bool,
                                 closedAfter: bool, k: nat, called: bool)
    requires Attempted(me, before, after, a, closed, closedAfter, Some(k), called) && a.Undisturbed() && !a.setupFails
    requires a.begin == Stored && a.request.Accepted? && a.confirm == Stored
    ensures called && closedAfter == closed && after[k].calls == before[k].calls + 1
    ensures after[k].row == before[k].row.(
      gen := Queued, job := Queued, prompt := Some(a.request.prompt), submission := Submitted,
      token := Some(before[k].tokens), worker := if a.releaseSaved && !closed then None else Some(me))
  {
    assert Settled(me, before[k], after[k], a, closed, closedAfter, called);
    assert Play(ClaimedBy(before[k], me), [], me) == ClaimedBy(before[k], me);
    assert a.Alone();
  }

  class GenerationQueueWorker {
    const workerId: nat
    var rows: seq<World>
    var failClosed: bool

    ghost predicate Valid()
      reads this
    {
      forall i :: 0 <= i < |rows| ==> OnceInv(rows[i]) && workerId !in rows[i].workers
    }

    ghost predicate Busy(k: nat, pc: Pc)
      reads this
    {
      k < |rows| && (forall i :: 0 <= i < |rows| ==> OnceInv(rows[i]) && (i != k ==> workerId !in rows[i].workers)) &&
      Mine(rows[k], workerId) == Some(pc)
    }

    constructor (workerId: nat, rows: seq<World>)
      requires forall i :: 0 <= i < |rows| ==> OnceInv(rows[i]) && workerId !in rows[i].workers
      ensures Valid() && this.workerId == workerId && this.rows == rows && !failClosed
    {
      this.workerId, this.rows, failClosed := workerId, rows, false;
    }

    /** The first claimable row in queue order, claimed for this worker. */
    method ClaimNext() returns (claimed: Option<nat>)
      requires Valid()
      modifies this`rows
      ensures claimed.None? ==> Valid() && rows == old(rows) && forall i :: 0 <= i < |rows| ==> !Claimable(rows[i].row)
      ensures claimed.Some? ==>
        && |rows| == old(|rows|) && Busy(claimed.value, Holding) && Claimable(old(rows)[claimed.value].row)
        && (forall i :: 0 <= i < claimed.value ==> !Claimable(old(rows)[i].row))
        && rows == old(rows)[claimed.value := Apply(old(rows)[claimed.value], Claim(workerId))]
    {
      for i := 0 to |rows|
        invariant rows == old(rows)
        invariant forall j :: 0 <= j < i ==> !Claimable(rows[j].row)
      {
        if Claimable(rows[i].row) {
          StepKeepsOnceInv(rows[i], Claim(workerId));
          rows := rows[i := Apply(rows[i], Claim(workerId))];
          return Some(i);
        }
      }
      claimed := None;
    }

    method Others(k: nat, es: seq<Event>, ghost pc: Pc)
      requires Busy(k, pc)
      modifies this`rows
      ensures Busy(k, pc) && rows == old(rows)[k := Play(old(rows)[k], es, workerId)]
      ensures old(rows)[k].calls <= rows[k].calls
      ensures NoWorkers(es) ==> rows[k].calls == old(rows)[k].calls
      ensures old(rows)[k].row.submission != Ready ==> rows[k].row.submission != Ready
    {
      PlayKeeps(rows[k], es, workerId);
      rows := rows[k := Play(rows[k], es, workerId)];
    }

    /** One event of this worker on its item. */
    method Act(k: nat, e: Event, ghost pc: Pc)
      requires Busy(k, pc) && Enabled(rows[k], e) && Actor(e) == Some(workerId)
      modifies this`rows
      ensures rows == old(rows)[k := Apply(old(rows)[k], e)]
      ensures k < |rows| && OnceInv(rows[k])
      ensures forall i :: 0 <= i < |rows| ==> OnceInv(rows[i]) && (i != k ==> workerId !in rows[i].workers)
    {
      StepKeepsOnceInv(rows[k], e);
      rows := rows[k := Apply(rows[k], e)];
    }

    /** The row is this worker's own, in the middle of its submission. */
    predicate Submits(r: Row, token: nat) {
      r.worker == Some(workerId) && r.submission == Submitting && r.token == Some(token)
    }

    /** `_quarantine_submission`: an outcome that cannot be recorded stops the worker. */
    method QuarantineSubmission(k: nat, saved: bool, ghost pc: Pc)
      requires Busy(k, pc) && Started(pc)
      modifies this
      ensures Valid() && |rows| == old(|rows|) && (forall i :: 0 <= i < |rows| && i != k ==> rows[i] == old(rows)[i])
      ensures rows[k].calls == old(rows)[k].calls
      ensures Accounted(rows[k].row) || failClosed
      ensures old(failClosed) ==> failClosed
      ensures var r := old(rows)[k].row;
        r.worker == Some(workerId) ==> rows[k].row == if r.submission == Submitted then r else MadeAmbiguous(r, saved)
      ensures failClosed == (old(failClosed) || !saved || old(rows)[k].row.worker != Some(workerId))
    {
      if !saved || MarkAmbiguous(rows[k].row, workerId).None? {
        failClosed := true;
      }
      Act(k, Quarantine(workerId, saved), pc);
    }

    /** Before the submission began: an exception or a cancellation ends the item without a call. */
    method EndBeforeStart(k: nat, cancelled: bool, saved: bool, ghost pc: Pc)
      requires Busy(k, pc) && (pc == Failing || pc == Holding) &&
        (cancelled ==> pc == Holding && rows[k].row.cancelRequested)
      modifies this`rows
      ensures Valid() && |rows| == old(|rows|) && (forall i :: 0 <= i < |rows| && i != k ==> rows[i] == old(rows)[i])
      ensures rows[k].calls == old(rows)[k].calls
      ensures cancelled && !old(rows)[k].row.gen.Terminal() ==> rows[k].row.gen == Cancelled
      ensures !cancelled && !old(rows)[k].row.gen.Terminal() ==>
        rows[k].row == FailedBeforeStart(old(rows)[k].row, saved)
    {
      Act(k, if cancelled then CancelBeforeStart(workerId) else FailBeforeStart(workerId, saved), pc);
    }

    /** The part of `_run_job` around the request: begin durably, call once, confirm durably; anything unclear in
        between is quarantined. */
    method Submit(k: nat, a: Attempt) returns (called: bool)
      requires Busy(k, Holding)
      modifies this
      ensures Valid() && |rows| == old(|rows|) && (forall i :: 0 <= i < |rows| && i != k ==> rows[i] == old(rows)[i])
      ensures old(failClosed) ==> failClosed
      ensures called <==> CanBegin(old(rows)[k].row, workerId) && a.Sends()
      ensures a.duringCall == [] && a.beforeConfirm == [] && CanBegin(old(rows)[k].row, workerId) ==>
        rows[k].row == AfterSubmit(old(rows)[k], a) && failClosed == (old(failClosed) || FailsClosed(a))
      ensures called ==> rows[k].calls == 1 && (Accounted(rows[k].row) || failClosed)
      ensures a.Alone() ==> rows[k].calls == old(rows)[k].calls + if called then 1 else 0
    {
      called := false;
      if a.begin == NotStored || !CanBegin(rows[k].row, workerId) {
        EndBeforeStart(k, false, a.failureSaved, Holding);
        return;
      }
      var token := rows[k].tokens;
      Act(k, Begin(workerId, a.begin == Stored), Holding);
      if a.begin == AnswerLost {
        EndBeforeStart(k, false, a.failureSaved, Failing);
        return;
      }
      called := SendPrompt(k, a, token);
    }

    /** The request itself, once. */
    method SendPrompt(k: nat, a: Attempt, token: nat) returns (called: bool)
      requires Busy(k, Begun(token))
      modifies this
      ensures Valid() && |rows| == old(|rows|) && (forall i :: 0 <= i < |rows| && i != k ==> rows[i] == old(rows)[i])
      ensures old(failClosed) ==> failClosed
      ensures called == !a.request.NotSent?
      ensures a.duringCall == [] && a.beforeConfirm == [] && Submits(old(rows)[k].row, token) ==>
        && rows[k].row == (if called then AfterCall(old(rows)[k].row, a)
                           else MadeAmbiguous(old(rows)[k].row, a.quarantineSaved))
        && failClosed == (old(failClosed) || (!a.quarantineSaved && !(a.request.Accepted? && a.confirm == Stored)))
      ensures called ==> rows[k].calls == 1 && (Accounted(rows[k].row) || failClosed)
      ensures a.Alone() ==> rows[k].calls == old(rows)[k].calls + if called then 1 else 0
    {
      called := false;
      Others(k, a.duringCall, Begun(token));
      if a.request == NotSent {
        QuarantineSubmission(k, a.quarantineSaved, Begun(token));
        return;
      }
      called := true;
      Act(k, Call(workerId, a.request.prompt), Begun(token));
      Others(k, a.beforeConfirm, Called(token, a.request.prompt));
      Confirmation(k, a, token);
    }

    method Confirmation(k: nat, a: Attempt, token: nat)
      requires !a.request.NotSent? && Busy(k, Called(token, a.request.prompt))
      modifies this
      ensures Valid() && |rows| == old(|rows|) && (forall i :: 0 <= i < |rows| && i != k ==> rows[i] == old(rows)[i])
      ensures old(failClosed) ==> failClosed
      ensures (Accounted(rows[k].row) || failClosed) && rows[k].calls == old(rows)[k].calls
      ensures var confirmed := MarkSubmitted(old(rows)[k].row, workerId, token, a.request.prompt);
        a.request.Accepted? && a.confirm == Stored && confirmed.Some? ==>
          rows[k].row == confirmed.value && failClosed == old(failClosed)
      ensures Submits(old(rows)[k].row, token) ==>
        && rows[k].row == AfterCall(old(rows)[k].row, a)
        && failClosed == (old(failClosed) || (!a.quarantineSaved && !(a.request.Accepted? && a.confirm == Stored)))
    {
      var pc := Called(token, a.request.prompt);
      var confirmed := MarkSubmitted(rows[k].row, workerId, token, a.request.prompt);
      if a.request.NoAnswer? || a.confirm == NotStored || confirmed.None? {
        QuarantineSubmission(k, a.quarantineSaved, pc);
        return;
      }
      Act(k, Confirm(workerId, a.confirm == Stored), pc);
      if a.confirm == AnswerLost {
        QuarantineSubmission(k, a.quarantineSaved, pc);
      }
    }

    /** What follows a recorded submission, whoever records it, and the release of the claim. */
    method Finish(k: nat, a: Attempt)
      requires Valid() && k < |rows|
      modifies this`rows
      ensures Valid() && |rows| == old(|rows|) && (forall i :: 0 <= i < |rows| && i != k ==> rows[i] == old(rows)[i])
      ensures NoWorkers(a.execution) ==> rows[k].calls == old(rows)[k].calls
      ensures old(rows)[k].calls <= rows[k].calls <= 1
      ensures Accounted(old(rows)[k].row) ==> Accounted(rows[k].row)
      ensures var row := Play(old(rows)[k], a.execution, workerId).row;
        rows[k].row == if a.releaseSaved && !failClosed then ReleaseClaim(row, workerId) else row
    {
      PlayKeeps(rows[k], a.execution, workerId);
      var w := Play(rows[k], a.execution, workerId);
      if a.releaseSaved && !failClosed {
        StepKeepsOnceInv(w, Leave(workerId, true));
        w := Apply(w, Leave(workerId, true));
      }
      rows := rows[k := w];
    }

    /** `run_once` touches only the first claimable row, and makes at most one `/prompt` call, exactly when the attempt
        comes to it. Whatever other workers do to the row meanwhile, it then accounts for the call unless this worker
        stops fail-closed; undisturbed, an accepted and stored prompt ID is on the row. */
    method RunOnce(a: Attempt) returns (claimed: Option<nat>, called: bool)
      requires Valid()
      modifies this
      ensures Valid()
      ensures Attempted(workerId, old(rows), rows, a, old(failClosed), failClosed, claimed, called)
    {
      called := false;
      if a.claimFails {
        return None, false;
      }
      claimed := ClaimNext();
      if claimed.Some? {
        called := Execute(claimed.value, a);
      }
    }

    /** What follows the claim. */
    method Execute(k: nat, a: Attempt) returns (called: bool)
      requires Busy(k, Holding) && !rows[k].row.gen.Terminal()
      modifies this
      ensures Valid() && |rows| == old(|rows|) && (forall i :: 0 <= i < |rows| && i != k ==> rows[i] == old(rows)[i])
      ensures called <==> Calls(old(rows)[k], a, workerId)
      ensures called ==> rows[k].calls == 1 && (Accounted(rows[k].row) || failClosed)
      ensures a.Alone() ==> rows[k].calls == old(rows)[k].calls + if called then 1 else 0
      ensures var w := old(rows)[k];
        a.Undisturbed() && CanBegin(w.row, workerId) ==>
          var row := if a.setupFails then FailedBeforeStart(w.row, a.failureSaved) else AfterSubmit(w, a);
          && failClosed == (old(failClosed) || (!a.setupFails && FailsClosed(a)))
          && rows[k].row == if a.releaseSaved && !failClosed then ReleaseClaim(row, workerId) else row
      ensures old(failClosed) ==> failClosed
    {
      called := false;
      Others(k, a.beforeStart, Holding);
      if a.setupFails {
        EndBeforeStart(k, false, a.failureSaved, Holding);
      } else if rows[k].row.cancelRequested {
        EndBeforeStart(k, true, true, Holding);
      } else {
        Others(k, a.beforeBegin, Holding);
        called := Submit(k, a);
      }
      Finish(k, a);
    }

    /** `run`: one attempt after another, until one fails closed; no attempt, and so no call, comes after it. `trail`
        holds the rows before and after each. */
    method Run(attempts: seq<Attempt>)
      returns (made: nat, closedAfter: seq<bool>, claims: seq<Option<nat>>, calls: seq<bool>,
               ghost trail: seq<seq<World>>)
      requires Valid()
      modifies this
      ensures Valid() && made <= |attempts| && |closedAfter| == |claims| == |calls| == made && |trail| == made + 1
      ensures trail[0] == old(rows) && trail[made] == rows
      ensures forall i :: 0 <= i < made ==>
        Attempted(workerId, trail[i], trail[i + 1], attempts[i], false, closedAfter[i], claims[i], calls[i])
      ensures forall i :: 0 <= i < made - 1 ==> !closedAfter[i]
      ensures failClosed == if made == 0 then old(failClosed) else closedAfter[made - 1]
      ensures made < |attempts| ==> failClosed
      ensures old(failClosed) ==> made == 0
    {
      made, closedAfter, claims, calls, trail := 0, [], [], [], [rows];
      while made < |attempts| && !failClosed
        invariant Valid() && made <= |attempts| && |closedAfter| == |claims| == |calls| == made && |trail| == made + 1
        invariant trail[0] == old(rows) && trail[made] == rows
        invariant forall i :: 0 <= i < made ==>
          Attempted(workerId, trail[i], trail[i + 1], attempts[i], false, closedAfter[i], claims[i], calls[i])
        invariant old(failClosed) ==> made == 0
        invariant forall i :: 0 <= i < made - 1 ==> !closedAfter[i]
        invariant failClosed == if made == 0 then old(failClosed) else closedAfter[made - 1]
      {
        hide Attempted;
        var claimed, called := RunOnce(attempts[made]);
        claims, calls, closedAfter := claims + [claimed], calls + [called], closedAfter + [failClosed];
        trail := trail + [rows];
        made := made + 1;
      }
    }
  }
}
