/** One Generation on its way to ComfyUI: the repository transactions on its queue row, and every interleaving of
    claiming workers, cancelling services, expiring leases, crashes, lost responses and failed writes. */
module SubmissionQueue {
  import opened Wrappers

  datatype GenStatus = Pending | Queued | Running | Completed | Failed | Cancelled
  {
    predicate Terminal() { Completed? || Failed? || Cancelled? }
  }

  /** The transition table of persisted statuses. */
  predicate ValidTransition(current: GenStatus, target: GenStatus) {
    current == target ||
    match current
    case Pending => target == Queued || target.Terminal()
    case Queued => target == Running || target.Terminal()
    case Running => target.Terminal()
    case _ => false
  }

  datatype Submission = Ready | Submitting | Submitted | Ambiguous

  /** The error code of Generation and Job, as far as an operator's resolution looks at it: an outcome recorded as
      undetermined, the mark of an older migration, or anything else. */
  datatype AuditCode = NoCode | Undetermined | MigrationCode | OtherCode

  /** The Generation, Job and queue-entry columns of one item; both prompt ID columns and both error codes are always
      written together. */
  datatype Row = Row(
    gen: GenStatus, job: GenStatus, submission: Submission, token: Option<nat>, prompt: Option<nat>,
    worker: Option<nat>, cancelRequested: bool, code: AuditCode)

  // ---------- the repository transactions ----------

  predicate Claimable(r: Row) {
    r.gen == Pending && r.job == Pending && !r.cancelRequested && r.submission == Ready && r.prompt == None
  }

  function Claimed(r: Row, worker: nat): Row {
    r.(worker := Some(worker))
  }

  predicate CanBegin(r: Row, worker: nat) {
    r.worker == Some(worker) && r.submission == Ready && !r.cancelRequested && r.gen == Pending && r.job == Pending
  }

  function BeginSubmission(r: Row, token: nat): Row {
    r.(submission := Submitting, token := Some(token))
  }

  /** A repeated call with the same prompt is accepted without a change. */
  function MarkSubmitted(r: Row, worker: nat, token: nat, prompt: nat): Option<Row> {
    if r.worker != Some(worker) then None
    else if r.submission == Submitted then (if r.prompt == Some(prompt) then Some(r) else None)
    else if r.submission != Submitting || r.token != Some(token) then None
    else Some(r.(gen := Queued, job := Queued, prompt := Some(prompt), submission := Submitted))
  }

  function MarkAmbiguous(r: Row, worker: nat): Option<Row> {
    if r.worker != Some(worker) then None
    else if r.submission == Submitted then Some(r)
    else Some(r.(submission := Ambiguous, worker := None, code := Undetermined))
  }

  function ReleaseClaim(r: Row, worker: nat): Row {
    if r.worker == Some(worker) then r.(worker := None) else r
  }

  function RequestCancel(r: Row): Row {
    if r.gen.Terminal() then r else r.(cancelRequested := true)
  }

  /** No guard on the submission state: only terminal statuses stop it. */
  function MarkCancelled(r: Row): Row {
    if r.gen.Completed? || r.gen.Failed? || r.job.Completed? || r.job.Failed? || r.gen.Cancelled? then r
    else r.(gen := Cancelled, job := Cancelled, worker := None, cancelRequested := true)
  }

  /** The recovery cancels without a look at the queue entry. */
  function CancelGeneration(r: Row): Row {
    if r.gen.Completed? || r.gen.Failed? || r.job.Completed? || r.job.Failed? then r
    else r.(gen := Cancelled, job := Cancelled)
  }

  function FailGeneration(r: Row): Option<Row> {
    if r.gen != r.job || r.gen.Terminal() then None else Some(r.(gen := Failed, job := Failed, code := OtherCode))
  }

  /** A submission whose lease ran out is quarantined without an audit code. */
  function ReconcileExpired(r: Row): Row {
    var cancelled := r.cancelRequested && r.submission == Ready && r.gen == Pending && r.job == Pending &&
      r.prompt == None;
    r.(gen := if cancelled then Cancelled else r.gen, job := if cancelled then Cancelled else r.job,
       submission := if r.submission == Submitting then Ambiguous else r.submission, worker := None)
  }

  function FailUnfinished(r: Row): Row {
    r.(gen := if r.gen.Terminal() then r.gen else Failed,
       job := if r.job.Terminal() then r.job else Failed,
       worker := None, code := if r.gen.Terminal() && r.job.Terminal() then r.code else OtherCode)
  }

  /** An operator may resolve a quarantined row only with a supported audit code, and a failed one only if a migration
      had failed it. */
  predicate Resolvable(r: Row) {
    && r.submission == Ambiguous && (r.code == Undetermined || r.code == MigrationCode)
    && !r.gen.Completed? && !r.job.Completed? && !r.gen.Cancelled? && !r.job.Cancelled?
    && (r.gen.Failed? || r.job.Failed? ==> r.code == MigrationCode)
  }

  function LinkAmbiguous(r: Row, prompt: nat): Row {
    r.(gen := Queued, job := Queued, prompt := Some(prompt), submission := Submitted, worker := None, code := OtherCode)
  }

  function FailAmbiguous(r: Row): Row {
    r.(gen := Failed, job := Failed, worker := None, code := OtherCode)
  }

  predicate CanSettle(r: Row, target: GenStatus) {
    (target == Running || target == Completed || target == Failed) && r.prompt.Some? &&
    ValidTransition(r.gen, target) && ValidTransition(r.job, target)
  }

  // ---------- the threads around the row ----------

  /** A worker holding the item: not begun, begun with a token, `/prompt` called, or only able to record a failure
      because the begin transaction raised after it had committed. */
  datatype Pc = Holding | Begun(token: nat) | Called(token: nat, prompt: nat) | Failing

  /** `calls` counts the `/prompt` calls ever made for this Generation and `reported` says that ComfyUI reported its
      prompt cancelled or interrupted. `marks` and `pendingMarks` count service threads that have read the row and are
      about to mark it cancelled, with and without a cancel request of their own on record; `overdue` counts recoveries
      that have read it as pending without a prompt for too long and are about to fail it. */
  datatype World = World(
    row: Row, calls: nat, reported: bool, workers: map<nat, Pc>, marks: nat, pendingMarks: nat, overdue: nat,
    tokens: nat)

  datatype Event =
    | Claim(w: nat)
    | Begin(w: nat, returned: bool)
    | Call(w: nat, prompt: nat)
    | Confirm(w: nat, returned: bool)
    | Quarantine(w: nat, saved: bool)
    | FailBeforeStart(w: nat, saved: bool)
    | CancelBeforeStart(w: nat)
    | Leave(w: nat, released: bool)
    | Cancel
    | ReadsCancelled
    | Marks
    | ReadsPending
    | PendingMarks
    | Expire
    | Settle(target: GenStatus)
    | ReportCancelled
    | MarkReported
    | CancelReported
    | Link(prompt: nat)
    | FailUnlinked
    | ReadsOverdue
    | FailsOverdue
    | NotFound
    | StatelessRestore

  predicate Unstarted(r: Row) {
    r.gen == Pending && r.worker == None && r.submission == Ready
  }

  predicate Enabled(w: World, e: Event) {
    match e
    case Claim(id) => id !in w.workers && Claimable(w.row)
    case Begin(id, _) => id in w.workers && w.workers[id] == Holding && CanBegin(w.row, id)
    case Call(id, _) => id in w.workers && w.workers[id].Begun?
    case Confirm(id, _) =>
      id in w.workers && w.workers[id].Called? &&
        MarkSubmitted(w.row, id, w.workers[id].token, w.workers[id].prompt).Some?
    case Quarantine(id, _) => id in w.workers && (w.workers[id].Begun? || w.workers[id].Called?)
    case FailBeforeStart(id, _) => id in w.workers && (w.workers[id].Holding? || w.workers[id].Failing?)
    case CancelBeforeStart(id) => id in w.workers && w.workers[id].Holding? && w.row.cancelRequested
    case ReadsCancelled => w.row.cancelRequested && w.row.submission == Ready && w.row.prompt == None
    case Marks => w.marks > 0
    case ReadsPending => Unstarted(w.row)
    case PendingMarks => w.pendingMarks > 0
    case Settle(target) => CanSettle(w.row, target)
    case ReportCancelled => w.row.prompt.Some?
    case MarkReported => w.reported
    case CancelReported => w.reported && w.row.prompt.Some?
    case Link(_) => Resolvable(w.row)
    case FailUnlinked => Resolvable(w.row)
    case ReadsOverdue => w.row.gen == Pending && w.row.prompt == None
    case FailsOverdue => w.overdue > 0
    case NotFound => w.row.prompt.Some?
    case _ => true
  }

  function Apply(w: World, e: Event): World
    requires Enabled(w, e)
  {
    match e
    case Claim(id) => w.(row := Claimed(w.row, id), workers := w.workers[id := Holding])
    case Begin(id, returned) =>
      w.(row := BeginSubmission(w.row, w.tokens), tokens := w.tokens + 1,
         workers := w.workers[id := if returned then Begun(w.tokens) else Failing])
    case Call(id, prompt) => w.(calls := w.calls + 1, workers := w.workers[id := Called(w.workers[id].token, prompt)])
    case Confirm(id, returned) =>
      w.(row := MarkSubmitted(w.row, id, w.workers[id].token, w.workers[id].prompt).value,
         workers := if returned then w.workers - {id} else w.workers)
    case Quarantine(id, saved) =>
      var marked := MarkAmbiguous(w.row, id);
      w.(row := if saved && marked.Some? then marked.value else w.row, workers := w.workers - {id})
    case FailBeforeStart(id, saved) =>
      var failed := FailGeneration(w.row);
      w.(row := if saved && failed.Some? then failed.value else w.row, workers := w.workers - {id})
    case CancelBeforeStart(id) => w.(row := MarkCancelled(w.row), workers := w.workers - {id})
    case Leave(id, released) =>
      w.(row := if released then ReleaseClaim(w.row, id) else w.row, workers := w.workers - {id})
    case Cancel =>
      var row := RequestCancel(w.row);
      w.(row := row, marks := if Unstarted(row) then w.marks + 1 else w.marks)
    case ReadsCancelled => w.(marks := w.marks + 1)
    case Marks => w.(row := MarkCancelled(w.row), marks := w.marks - 1)
    case ReadsPending => w.(pendingMarks := w.pendingMarks + 1)
    case PendingMarks => w.(row := MarkCancelled(w.row), pendingMarks := w.pendingMarks - 1)
    case Expire => w.(row := ReconcileExpired(w.row))
    case Settle(target) =>
      w.(row := w.row.(gen := target, job := target, code := if target == Failed then OtherCode else w.row.code))
    case ReportCancelled => w.(reported := true)
    case MarkReported => w.(row := MarkCancelled(w.row))
    case CancelReported => w.(row := CancelGeneration(w.row))
    case Link(prompt) => w.(row := LinkAmbiguous(w.row, prompt))
    case FailUnlinked => w.(row := FailAmbiguous(w.row))
    case ReadsOverdue => w.(overdue := w.overdue + 1)
    case FailsOverdue =>
      var failed := FailGeneration(w.row);
      w.(row := if failed.Some? then failed.value else w.row, overdue := w.overdue - 1)
    case NotFound => w.(row := FailUnfinished(w.row))
    case StatelessRestore => w.(row := FailUnfinished(w.row))
  }

  predicate ValidRun(w: World, es: seq<Event>)
    decreases |es|
  {
    es == [] || (Enabled(w, es[0]) && ValidRun(Apply(w, es[0]), es[1..]))
  }

  function Run(w: World, es: seq<Event>): World
    requires ValidRun(w, es)
    decreases |es|
  {
    if es == [] then w else Run(Apply(w, es[0]), es[1..])
  }

  const ENQUEUED :=
    World(Row(Pending, Pending, Ready, None, None, None, false, NoCode), 0, false, map[], 0, 0, 0, 0)

  // ---------- at most one /prompt call ----------

  predicate Started(pc: Pc) {
    pc.Begun? || pc.Called?
  }

  /** Leaving READY is a one-way street that at most one worker takes. */
  ghost predicate OnceInv(w: World) {
    && w.row.gen == w.row.job
    && w.calls <= 1
    && (w.row.submission == Submitted <==> w.row.prompt.Some?)
    && (w.row.submission == Ready ==> w.calls == 0)
    && (w.row.prompt == None ==> w.row.gen != Queued && w.row.gen != Running)
    && (forall id :: id in w.workers && Started(w.workers[id]) ==>
          w.row.submission != Ready && w.calls == if w.workers[id].Begun? then 0 else 1)
    && (forall id1, id2 ::
          id1 in w.workers && id2 in w.workers && Started(w.workers[id1]) && Started(w.workers[id2]) ==> id1 == id2)
    && (w.row.submission == Submitting ==>
          forall id :: id in w.workers && Started(w.workers[id]) && w.row.worker == Some(id) ==>
            w.row.token == Some(w.workers[id].token))
  }

  /** Quarantined for an operator, or reconcilable by its prompt ID. */
  predicate Accounted(r: Row) {
    r.prompt.Some? || r.submission == Ambiguous
  }

  predicate ByWorker(e: Event) {
    e.Claim? || e.Begin? || e.Call? || e.Confirm? || e.Quarantine? || e.FailBeforeStart? || e.CancelBeforeStart? ||
      e.Leave?
  }

  /** What a step does to the facts of `AtMostOnePromptCall`. */
  ghost predicate OnceStep(w: World, t: World) {
    && OnceInv(t) && w.calls <= t.calls && (w.row.submission != Ready ==> t.row.submission != Ready)
    && (Accounted(w.row) ==> Accounted(t.row))
  }

  lemma BeginKeepsOnceInv(w: World, e: Event)
    requires OnceInv(w) && Enabled(w, e) && (e.Begin? || e.Call?)
    ensures OnceStep(w, Apply(w, e))
  {
  }

  lemma AnswerKeepsOnceInv(w: World, e: Event)
    requires OnceInv(w) && Enabled(w, e) && (e.Confirm? || e.Quarantine?)
    ensures OnceStep(w, Apply(w, e))
  {
  }

  lemma WorkerKeepsOnceInv(w: World, e: Event)
    requires OnceInv(w) && Enabled(w, e)
    requires e.Claim? || e.FailBeforeStart? || e.CancelBeforeStart? || e.Leave?
    ensures OnceStep(w, Apply(w, e))
  {
  }

  lemma OtherThreadsKeepOnceInv(w: World, e: Event)
    requires OnceInv(w) && Enabled(w, e)
    requires !ByWorker(e)
    ensures OnceStep(w, Apply(w, e))
  {
  }

  lemma StepKeepsOnceInv(w: World, e: Event)
    requires OnceInv(w) && Enabled(w, e)
    ensures OnceInv(Apply(w, e))
    ensures w.calls <= Apply(w, e).calls
    ensures w.row.submission != Ready ==> Apply(w, e).row.submission != Ready
    ensures Accounted(w.row) ==> Accounted(Apply(w, e).row)
  {
    hide OnceInv, Enabled, Apply, Accounted;
    match e
    case Begin(_, _) => BeginKeepsOnceInv(w, e);
    case Call(_, _) => BeginKeepsOnceInv(w, e);
    case Confirm(_, _) => AnswerKeepsOnceInv(w, e);
    case Quarantine(_, _) => AnswerKeepsOnceInv(w, e);
    case Claim(_) => WorkerKeepsOnceInv(w, e);
    case FailBeforeStart(_, _) => WorkerKeepsOnceInv(w, e);
    case CancelBeforeStart(_) => WorkerKeepsOnceInv(w, e);
    case Leave(_, _) => WorkerKeepsOnceInv(w, e);
    case _ => OtherThreadsKeepOnceInv(w, e);
  }

  /** However many workers claim the item, and whatever crashes, timeouts, lost answers, failed writes, expired leases
      and cancellations interleave: at most one `/prompt` call is ever made. A row that is still READY never had one,
      and a row that had one is submitting, ambiguous or carries its prompt ID. */
  lemma {:induction false} AtMostOnePromptCall(w: World, es: seq<Event>)
    requires OnceInv(w) && ValidRun(w, es)
    ensures var t := Run(w, es);
      && OnceInv(t)
      && t.calls <= 1
      && (t.row.submission == Ready ==> t.calls == 0)
      && (t.calls > 0 ==> t.row.submission == Submitting || t.row.submission == Ambiguous || t.row.prompt.Some?)
    decreases |es|
  {
    if es != [] {
      StepKeepsOnceInv(w, es[0]);
      AtMostOnePromptCall(Apply(w, es[0]), es[1..]);
    }
  }

  // ---------- quarantine ----------

  /** An undetermined outcome is recorded on quarantined rows only, and no row came here from an older migration. */
  predicate CodeInv(r: Row) {
    && r.code != MigrationCode && (r.code == Undetermined ==> r.submission == Ambiguous)
    && (r.submission == Ambiguous ==> r.worker == None)
  }

  /** A worker has just recorded that it does not know the outcome. */
  predicate Records(w: World, e: Event)
    requires Enabled(w, e)
  {
    e.Quarantine? && w.row.submission != Ambiguous && Apply(w, e).row.submission == Ambiguous
  }

  predicate Recorded(w: World, es: seq<Event>)
    requires ValidRun(w, es)
    decreases |es|
  {
    es != [] && (Records(w, es[0]) || Recorded(Apply(w, es[0]), es[1..]))
  }

  predicate Quarantined(r: Row) {
    r.submission == Ambiguous && !r.gen.Terminal()
  }

  /** Once quarantined, a row leaves only by an operator's link and gets no new chance of an audit code. */
  ghost predicate QuarantineStep(w: World, e: Event)
    requires Enabled(w, e)
  {
    var t := Apply(w, e);
    && CodeInv(t.row)
    && (w.row.submission != Ambiguous && Quarantined(t.row) ==> (Resolvable(t.row) <==> Records(w, e)))
    && (w.row.submission == Ambiguous ==>
          !Records(w, e) && (t.row.submission == Ambiguous || t.row.submission == Submitted))
    && (w.row.submission == Ambiguous && Quarantined(t.row) ==>
          Quarantined(w.row) && (Resolvable(t.row) <==> Resolvable(w.row)))
    && (w.row.submission == Submitted ==> t.row.submission == Submitted)
  }

  lemma WorkerQuarantineStep(w: World, e: Event)
    requires OnceInv(w) && CodeInv(w.row) && Enabled(w, e) && ByWorker(e)
    ensures QuarantineStep(w, e)
  {
  }

  lemma OtherQuarantineStep(w: World, e: Event)
    requires OnceInv(w) && CodeInv(w.row) && Enabled(w, e) && !ByWorker(e)
    ensures QuarantineStep(w, e)
  {
  }

  lemma StepIsQuarantineStep(w: World, e: Event)
    requires OnceInv(w) && CodeInv(w.row) && Enabled(w, e)
    ensures QuarantineStep(w, e)
  {
    hide OnceInv, CodeInv, Enabled, QuarantineStep;
    if ByWorker(e) {
      WorkerQuarantineStep(w, e);
    } else {
      OtherQuarantineStep(w, e);
    }
  }

  lemma {:induction false} QuarantinedStays(w: World, es: seq<Event>)
    requires OnceInv(w) && CodeInv(w.row) && ValidRun(w, es)
    requires w.row.submission == Submitted || w.row.submission == Ambiguous
    ensures !Recorded(w, es)
    ensures var t := Run(w, es);
      && CodeInv(t.row) && (t.row.submission == Submitted || t.row.submission == Ambiguous)
      && (Quarantined(t.row) ==> Quarantined(w.row) && (Resolvable(t.row) <==> Resolvable(w.row)))
    decreases |es|
  {
    if es != [] {
      StepIsQuarantineStep(w, es[0]);
      StepKeepsOnceInv(w, es[0]);
      hide OnceInv, CodeInv, Apply, Resolvable, Quarantined;
      QuarantinedStays(Apply(w, es[0]), es[1..]);
    }
  }

  /** An operator can resolve a quarantined row exactly if a worker recorded the quarantine; one that came from an
      expired lease carries no audit code, and none is ever added. */
  lemma {:induction false} QuarantineIsResolvableIff(w: World, es: seq<Event>)
    requires OnceInv(w) && CodeInv(w.row) && ValidRun(w, es) && w.row.submission != Ambiguous
    ensures var t := Run(w, es);
      && CodeInv(t.row)
      && (Quarantined(t.row) ==> (Resolvable(t.row) <==> Recorded(w, es)))
      && (Recorded(w, es) ==> t.row.submission == Ambiguous || t.row.submission == Submitted)
    decreases |es|
  {
    if es != [] {
      var t := Apply(w, es[0]);
      StepIsQuarantineStep(w, es[0]);
      StepKeepsOnceInv(w, es[0]);
      hide OnceInv, CodeInv, Apply, Resolvable, Quarantined;
      if t.row.submission == Ambiguous {
        QuarantinedStays(t, es[1..]);
      } else {
        QuarantineIsResolvableIff(t, es[1..]);
      }
    }
  }

  /** The worker dies after its call and its lease runs out: no operator can resolve the row, whose prompt may well be
      running in ComfyUI. */
  lemma ExpiredSubmissionCannotBeResolved() returns (es: seq<Event>)
    ensures ValidRun(ENQUEUED, es) && SingleWorker(ENQUEUED, es)
    ensures var t := Run(ENQUEUED, es);
      t.calls == 1 && t.workers == map[] && Quarantined(t.row) && !Resolvable(t.row)
  {
    hide ValidRun, Run, SingleWorker, LeavesTerminal;
    NoStep(ENQUEUED);
    es := CalledByOne([]);
    es := Extend(ENQUEUED, es, Expire);
    es := Extend(ENQUEUED, es, Quarantine(1, false));
  }

  /** Nothing is left behind: once its workers are gone and its lease has expired, a row is terminal, can be claimed,
      carries the prompt ID it will be reconciled by, or waits in quarantine; there an operator can resolve it exactly
      if a worker recorded the quarantine. */
  lemma EveryAbandonedRowGoesSomewhere(w: World, es: seq<Event>)
    requires OnceInv(w) && ValidRun(w, es) && Run(w, es).workers == map[]
    ensures var t := Apply(Run(w, es), Expire);
      && (t.row.gen.Terminal() || Claimable(t.row) || Accounted(t.row))
      && (CodeInv(w.row) && w.row.submission != Ambiguous && Quarantined(t.row) ==>
            (Resolvable(t.row) <==> Recorded(w, es)))
  {
    AtMostOnePromptCall(w, es);
    if CodeInv(w.row) && w.row.submission != Ambiguous {
      QuarantineIsResolvableIff(w, es);
    }
  }

  // ---------- cancelled only with evidence ----------

  /** One worker at a time. */
  predicate SingleWorker(w: World, es: seq<Event>)
    requires ValidRun(w, es)
    decreases |es|
  {
    es == [] || ((es[0].Claim? ==> w.workers == map[]) && SingleWorker(Apply(w, es[0]), es[1..]))
  }

  predicate NobodyStarted(w: World) {
    forall id :: id in w.workers ==> !Started(w.workers[id])
  }

  ghost predicate OneWorker(w: World) {
    forall id1, id2 :: id1 in w.workers && id2 in w.workers ==> id1 == id2
  }

  /** A Generation is cancelled only if no prompt was submitted for it, and none will be, or ComfyUI reported that
      prompt cancelled or interrupted. */
  ghost predicate Evidence(w: World) {
    w.row.gen == Cancelled ==> w.reported || (w.calls == 0 && NobodyStarted(w))
  }

  /** A mark, after its thread read the row in another state, of a Generation whose submission has begun. */
  predicate LosesEvidence(w: World, e: Event) {
    && (e.PendingMarks? || e.Marks? || e.CancelBeforeStart?)
    && !w.row.gen.Terminal() && !w.reported && (w.calls > 0 || !NobodyStarted(w))
  }

  /** What a step does to the evidence. */
  ghost predicate EvidenceStep(w: World, e: Event)
    requires Enabled(w, e)
  {
    Evidence(Apply(w, e)) <==> !LosesEvidence(w, e)
  }

  lemma MarkingLosesEvidenceIff(w: World, e: Event)
    requires OnceInv(w) && Evidence(w) && Enabled(w, e)
    requires e.PendingMarks? || e.Marks? || e.CancelBeforeStart? || e.MarkReported?
    ensures EvidenceStep(w, e)
  {
    var t := Apply(w, e);
    assert NobodyStarted(t) <==> NobodyStarted(w) by {
      if id :| id in w.workers && Started(w.workers[id]) {
        assert id in t.workers;
      }
    }
  }

  lemma WorkerKeepsEvidence(w: World, e: Event)
    requires OnceInv(w) && Evidence(w) && Enabled(w, e) && ByWorker(e) && !e.CancelBeforeStart?
    ensures EvidenceStep(w, e)
  {
    var t := Apply(w, e);
    if t.row.gen == Cancelled && !w.reported {
      assert w.row.gen == Cancelled;
      assert NobodyStarted(t);
    }
  }

  lemma OtherThreadsKeepEvidence(w: World, e: Event)
    requires OnceInv(w) && Evidence(w) && Enabled(w, e) && !ByWorker(e)
    requires !e.PendingMarks? && !e.Marks? && !e.MarkReported?
    ensures EvidenceStep(w, e)
  {
    var t := Apply(w, e);
    assert t.workers == w.workers && t.calls == w.calls;
    if t.row.gen == Cancelled && w.row.gen != Cancelled && !w.reported {
      assert w.row.submission == Ready;
    }
  }

  /** Exactly these marks lose the evidence, with any number of workers. */
  lemma EvidenceIsLostIff(w: World, e: Event)
    requires OnceInv(w) && Evidence(w) && Enabled(w, e)
    ensures Evidence(Apply(w, e)) <==> !LosesEvidence(w, e)
  {
    hide OnceInv, Evidence, Enabled, Apply, LosesEvidence;
    if e.PendingMarks? || e.Marks? || e.CancelBeforeStart? || e.MarkReported? {
      MarkingLosesEvidenceIff(w, e);
    } else if ByWorker(e) {
      WorkerKeepsEvidence(w, e);
    } else {
      OtherThreadsKeepEvidence(w, e);
    }
  }

  /** The evidence is there at every moment of the run. */
  ghost predicate EvidenceThroughout(w: World, es: seq<Event>)
    requires ValidRun(w, es)
    decreases |es|
  {
    Evidence(w) && (es == [] || EvidenceThroughout(Apply(w, es[0]), es[1..]))
  }

  predicate SomeMarkLosesEvidence(w: World, es: seq<Event>)
    requires ValidRun(w, es)
    decreases |es|
  {
    es != [] && (LosesEvidence(w, es[0]) || SomeMarkLosesEvidence(Apply(w, es[0]), es[1..]))
  }

  /** For any number of workers and any interleaving: a Generation is cancelled only with evidence, at every moment of
      the run, exactly if no mark in the run hits a submission that has begun. */
  lemma {:induction false} CancelledOnlyWithEvidenceIff(w: World, es: seq<Event>)
    requires OnceInv(w) && Evidence(w) && ValidRun(w, es)
    ensures EvidenceThroughout(w, es) <==> !SomeMarkLosesEvidence(w, es)
    decreases |es|
  {
    if es != [] {
      EvidenceIsLostIff(w, es[0]);
      StepKeepsOnceInv(w, es[0]);
      hide OnceInv, Evidence, LosesEvidence, Apply;
      if !LosesEvidence(w, es[0]) {
        CancelledOnlyWithEvidenceIff(Apply(w, es[0]), es[1..]);
      } else {
        assert !EvidenceThroughout(Apply(w, es[0]), es[1..]);
      }
    }
  }

  /** With one worker at a time, a thread that marks after its own cancel request, and a worker that has not begun, find
      the submission not begun. */
  ghost predicate CancelInv(w: World) {
    && OnceInv(w)
    && OneWorker(w)
    && (w.marks > 0 ==> w.row.cancelRequested && w.row.submission == Ready)
    && (forall id :: id in w.workers && w.workers[id].Holding? ==> w.row.submission == Ready)
  }

  lemma WorkerKeepsCancelInv(w: World, e: Event)
    requires CancelInv(w) && Enabled(w, e) && (e.Claim? ==> w.workers == map[]) && ByWorker(e)
    ensures CancelInv(Apply(w, e)) && !LosesEvidence(w, e)
  {
    StepKeepsOnceInv(w, e);
    assert w.row.submission == Ready ==> w.calls == 0 && NobodyStarted(w);
    hide OnceInv;
  }

  lemma OtherThreadsKeepCancelInv(w: World, e: Event)
    requires CancelInv(w) && Enabled(w, e) && !ByWorker(e)
    ensures CancelInv(Apply(w, e)) && (LosesEvidence(w, e) ==> e.PendingMarks?)
  {
    StepKeepsOnceInv(w, e);
    assert w.row.submission == Ready ==> w.calls == 0 && NobodyStarted(w);
    hide OnceInv;
  }

  lemma StepKeepsCancelInv(w: World, e: Event)
    requires CancelInv(w) && Enabled(w, e) && (e.Claim? ==> w.workers == map[])
    ensures CancelInv(Apply(w, e)) && (LosesEvidence(w, e) ==> e.PendingMarks?)
  {
    hide CancelInv, Enabled, Apply, ByWorker, LosesEvidence;
    if ByWorker(e) {
      WorkerKeepsCancelInv(w, e);
    } else {
      OtherThreadsKeepCancelInv(w, e);
    }
  }

  /** The mark of a `cancel_pending` whose item was claimed and begun after its read. */
  predicate SplitCancelPending(w: World, es: seq<Event>)
    requires ValidRun(w, es)
    decreases |es|
  {
    es != [] &&
    ((es[0].PendingMarks? && LosesEvidence(w, es[0])) || SplitCancelPending(Apply(w, es[0]), es[1..]))
  }

  /** With one worker at a time that takes a `cancel_pending` whose read and mark have the beginning of the submission
      between them. */
  lemma {:induction false} SingleWorkerEvidenceIff(w: World, es: seq<Event>)
    requires CancelInv(w) && Evidence(w) && ValidRun(w, es) && SingleWorker(w, es)
    ensures EvidenceThroughout(w, es) <==> !SplitCancelPending(w, es)
    decreases |es|
  {
    CancelledOnlyWithEvidenceIff(w, es);
    LossesAreSplit(w, es);
  }

  lemma {:induction false} LossesAreSplit(w: World, es: seq<Event>)
    requires CancelInv(w) && ValidRun(w, es) && SingleWorker(w, es)
    ensures SomeMarkLosesEvidence(w, es) <==> SplitCancelPending(w, es)
    decreases |es|
  {
    if es != [] {
      StepKeepsCancelInv(w, es[0]);
      hide CancelInv, LosesEvidence, Apply;
      LossesAreSplit(Apply(w, es[0]), es[1..]);
    }
  }

  lemma {:induction false} Extend(w: World, es: seq<Event>, e: Event) returns (fs: seq<Event>)
    requires ValidRun(w, es) && Enabled(Run(w, es), e)
    ensures fs == es + [e] && ValidRun(w, fs) && Run(w, fs) == Apply(Run(w, es), e)
    ensures SingleWorker(w, es) && (e.Claim? ==> Run(w, es).workers == map[]) ==> SingleWorker(w, fs)
    ensures LeavesTerminal(w, es) || LeavesTerminalBy(Run(w, es), e) ==> LeavesTerminal(w, fs)
    decreases |es|
  {
    fs := es + [e];
    if es == [] {
      assert fs[1..] == [];
    } else {
      var gs := Extend(Apply(w, es[0]), es[1..], e);
      assert fs[1..] == gs;
    }
  }

  lemma NoStep(w: World)
    ensures ValidRun(w, []) && SingleWorker(w, []) && Run(w, []) == w && !LeavesTerminal(w, [])
  {
  }

  /** One worker claims a fresh item, begins its submission and calls `/prompt`. */
  lemma CalledByOne(es: seq<Event>) returns (fs: seq<Event>)
    requires ValidRun(ENQUEUED, es) && SingleWorker(ENQUEUED, es)
    requires var s := Run(ENQUEUED, es); s.row == ENQUEUED.row && s.calls == s.tokens == 0 && s.workers == map[]
    ensures ValidRun(ENQUEUED, fs) && SingleWorker(ENQUEUED, fs)
    ensures Run(ENQUEUED, fs) == Run(ENQUEUED, es).(
      row := Row(Pending, Pending, Submitting, Some(0), None, Some(1), false, NoCode), calls := 1, tokens := 1,
      workers := map[1 := Called(0, 7)])
  {
    hide ValidRun, Run, SingleWorker, LeavesTerminal;
    fs := Extend(ENQUEUED, es, Claim(1));
    fs := Extend(ENQUEUED, fs, Begin(1, true));
    fs := Extend(ENQUEUED, fs, Call(1, 7));
  }

  /** The step between the read and the mark of `cancel_pending` is enough to cancel a Generation whose prompt was just
      submitted and never reported cancelled. The worker can then neither store the prompt ID nor quarantine the
      item, so the prompt runs unrecorded. */
  lemma SplitCancelPendingHasNoEvidence() returns (es: seq<Event>)
    ensures ValidRun(ENQUEUED, es) && SingleWorker(ENQUEUED, es)
    ensures var t := Run(ENQUEUED, es);
      && t.row.gen == Cancelled && t.calls == 1 && !t.reported && t.row.prompt == None
      && 1 in t.workers && Started(t.workers[1])
      && MarkSubmitted(t.row, 1, 0, 7) == None && MarkAmbiguous(t.row, 1) == None
  {
    hide ValidRun, Run, SingleWorker, LeavesTerminal;
    NoStep(ENQUEUED);
    es := Extend(ENQUEUED, [], ReadsPending);
    es := CalledByOne(es);
    es := Extend(ENQUEUED, es, PendingMarks);
  }

  /** The lease of worker 1 runs out and worker 2 claims the item, while worker 1 still holds it in memory. */
  lemma TwoWorkersHold() returns (es: seq<Event>)
    ensures ValidRun(ENQUEUED, es)
    ensures Run(ENQUEUED, es) == ENQUEUED.(row := ENQUEUED.row.(worker := Some(2)),
                                           workers := map[1 := Holding, 2 := Holding])
  {
    es := [Claim(1), Expire];
    assert ValidRun(ENQUEUED, es);
    assert Run(ENQUEUED, es) == ENQUEUED.(workers := map[1 := Holding]);
    es := Extend(ENQUEUED, es, Claim(2));
  }

  /** Nor can the single worker be dropped: a worker whose lease ran out answers the cancel request of an item that
      another worker has submitted in the meantime. */
  lemma TwoWorkersHaveNoEvidence() returns (es: seq<Event>)
    ensures ValidRun(ENQUEUED, es)
    ensures var t := Run(ENQUEUED, es); t.row.gen == Cancelled && t.calls == 1 && !t.reported
  {
    es := TwoWorkersHold();
    hide ValidRun, Run, SingleWorker;
    es := Extend(ENQUEUED, es, Begin(2, true));
    es := Extend(ENQUEUED, es, Call(2, 7));
    es := Extend(ENQUEUED, es, Cancel);
    es := Extend(ENQUEUED, es, CancelBeforeStart(1));
  }

  // ---------- terminal states ----------

  /** A terminal row has no worker that could still store a prompt ID on it, and no operator who could reopen it. */
  ghost predicate TerminalInv(w: World) {
    && OnceInv(w)
    && w.row.code != MigrationCode
    && (w.row.gen.Terminal() && w.row.submission == Submitting ==>
          forall id :: id in w.workers && Started(w.workers[id]) ==> w.row.worker != Some(id))
  }

  predicate LeavesTerminalBy(w: World, e: Event)
    requires Enabled(w, e)
  {
    w.row.gen.Terminal() && Apply(w, e).row.gen != w.row.gen
  }

  predicate LeavesTerminal(w: World, es: seq<Event>)
    requires ValidRun(w, es)
    decreases |es|
  {
    es != [] && (LeavesTerminalBy(w, es[0]) || LeavesTerminal(Apply(w, es[0]), es[1..]))
  }

  /** The recovery, or a worker that has not begun, fails a Generation while a worker is between the beginning of its
      submission and its confirmation. */
  predicate FailsMidSubmission(w: World, e: Event) {
    && (e.FailsOverdue? || (e.FailBeforeStart? && e.saved))
    && !w.row.gen.Terminal() && w.row.submission == Submitting
    && exists id :: id in w.workers && Started(w.workers[id]) && w.row.worker == Some(id)
  }

  /** What a step does to the facts of `TerminalStatesAreFinal`. */
  ghost predicate TerminalStep(w: World, e: Event)
    requires Enabled(w, e)
  {
    var t := Apply(w, e);
    && (TerminalInv(t) <==> !FailsMidSubmission(w, e))
    && (w.row.gen.Terminal() ==> t.row.gen == w.row.gen && t.row.job == w.row.job)
    && ValidTransition(w.row.gen, t.row.gen) && ValidTransition(w.row.job, t.row.job)
  }

  lemma WorkerKeepsTerminalInv(w: World, e: Event)
    requires TerminalInv(w) && Enabled(w, e) && ByWorker(e)
    ensures TerminalStep(w, e)
  {
    StepKeepsOnceInv(w, e);
  }

  lemma OtherThreadsKeepTerminalInv(w: World, e: Event)
    requires TerminalInv(w) && Enabled(w, e) && !ByWorker(e)
    ensures TerminalStep(w, e)
  {
    StepKeepsOnceInv(w, e);
  }

  /** Every transaction moves Generation and Job along the transition table and leaves terminal rows alone; exactly the
      failure in the middle of a submission leaves a terminal row that a later one will change. */
  lemma StepKeepsTerminalInvIff(w: World, e: Event)
    requires TerminalInv(w) && Enabled(w, e)
    ensures TerminalInv(Apply(w, e)) <==> !FailsMidSubmission(w, e)
    ensures w.row.gen.Terminal() ==> Apply(w, e).row.gen == w.row.gen && Apply(w, e).row.job == w.row.job
    ensures ValidTransition(w.row.gen, Apply(w, e).row.gen) && ValidTransition(w.row.job, Apply(w, e).row.job)
  {
    hide TerminalInv, Apply, Enabled, ByWorker, FailsMidSubmission;
    if ByWorker(e) {
      WorkerKeepsTerminalInv(w, e);
    } else {
      OtherThreadsKeepTerminalInv(w, e);
    }
  }

  predicate SomeFailureMidSubmission(w: World, es: seq<Event>)
    requires ValidRun(w, es)
    decreases |es|
  {
    es != [] && (FailsMidSubmission(w, es[0]) || SomeFailureMidSubmission(Apply(w, es[0]), es[1..]))
  }

  /** With any number of workers, every reachable change follows the transition table, and a terminal state is never
      left, not even through the gap in `cancel_pending`, unless a failure hits the middle of a submission. */
  lemma {:induction false} TerminalStatesAreFinal(w: World, es: seq<Event>)
    requires TerminalInv(w) && ValidRun(w, es) && !SomeFailureMidSubmission(w, es)
    ensures TerminalInv(Run(w, es)) && !LeavesTerminal(w, es)
    ensures w.row.gen.Terminal() ==> Run(w, es).row.gen == w.row.gen && Run(w, es).row.job == w.row.job
    decreases |es|
  {
    if es != [] {
      StepKeepsTerminalInvIff(w, es[0]);
      hide TerminalInv, Apply, FailsMidSubmission;
      TerminalStatesAreFinal(Apply(w, es[0]), es[1..]);
    }
  }

  lemma {:induction false} TerminalRowsAreNotFailed(w: World, es: seq<Event>)
    requires TerminalInv(w) && ValidRun(w, es) && w.row.gen.Terminal()
    ensures !SomeFailureMidSubmission(w, es)
    decreases |es|
  {
    if es != [] {
      StepKeepsTerminalInvIff(w, es[0]);
      hide TerminalInv, Apply;
      TerminalRowsAreNotFailed(Apply(w, es[0]), es[1..]);
    }
  }

  /** The worker of a failed row goes on: its confirmation takes the Generation from FAILED to QUEUED. */
  lemma WorkerReopens(w: World, id: nat) returns (es: seq<Event>)
    requires OnceInv(w) && w.row.gen.Terminal() && w.row.submission == Submitting
    requires id in w.workers && Started(w.workers[id]) && w.row.worker == Some(id)
    ensures ValidRun(w, es) && SingleWorker(w, es) && LeavesTerminal(w, es) && Run(w, es).row.gen == Queued
  {
    es := [];
    var t := w;
    if w.workers[id].Begun? {
      es := Extend(w, es, Call(id, 7));
      StepKeepsOnceInv(w, Call(id, 7));
      t := Apply(w, Call(id, 7));
    }
    assert Run(w, es) == t && t.workers[id].Called?;
    hide ValidRun, Run, SingleWorker, LeavesTerminal;
    assert OnceInv(t) && t.row == w.row;
    es := Extend(w, es, Confirm(id, true));
  }

  /** Whatever step ends a Generation: a later one can take it back exactly if the step was a failure in the middle of a
      submission. */
  lemma TerminalIsLeftIff(w: World, e: Event)
    requires TerminalInv(w) && Enabled(w, e) && !w.row.gen.Terminal() && Apply(w, e).row.gen.Terminal()
    ensures (exists es :: ValidRun(Apply(w, e), es) && LeavesTerminal(Apply(w, e), es)) <==> FailsMidSubmission(w, e)
  {
    var t := Apply(w, e);
    StepKeepsTerminalInvIff(w, e);
    StepKeepsOnceInv(w, e);
    if FailsMidSubmission(w, e) {
      var id :| id in w.workers && Started(w.workers[id]) && w.row.worker == Some(id);
      assert id in t.workers && t.workers[id] == w.workers[id];
      var es := WorkerReopens(t, id);
    } else {
      hide TerminalInv, FailsMidSubmission;
      forall es | ValidRun(t, es) ensures !LeavesTerminal(t, es) {
        TerminalRowsAreNotFailed(t, es);
        TerminalStatesAreFinal(t, es);
      }
    }
  }

  /** The user opens the history while a slow worker waits for the answer to its `/prompt` call. */
  lemma SeenDuringTheCall() returns (es: seq<Event>)
    ensures ValidRun(ENQUEUED, es) && SingleWorker(ENQUEUED, es)
    ensures Run(ENQUEUED, es) == ENQUEUED.(
      row := Row(Pending, Pending, Submitting, Some(0), None, Some(1), false, NoCode), calls := 1, tokens := 1,
      workers := map[1 := Called(0, 7)], overdue := 1)
  {
    hide ValidRun, Run, SingleWorker, LeavesTerminal;
    NoStep(ENQUEUED);
    es := CalledByOne([]);
    es := Extend(ENQUEUED, es, ReadsOverdue);
  }

  lemma FailedDuringTheCall() returns (es: seq<Event>)
    ensures ValidRun(ENQUEUED, es) && SingleWorker(ENQUEUED, es)
    ensures Run(ENQUEUED, es) == ENQUEUED.(
      row := Row(Failed, Failed, Submitting, Some(0), None, Some(1), false, OtherCode), calls := 1, tokens := 1,
      workers := map[1 := Called(0, 7)])
  {
    hide ValidRun, Run, SingleWorker, LeavesTerminal;
    es := SeenDuringTheCall();
    es := Extend(ENQUEUED, es, FailsOverdue);
  }

  /** Its Generation is FAILED, and QUEUED when the answer is there. */
  lemma FailedBecomesQueued() returns (es: seq<Event>)
    ensures ValidRun(ENQUEUED, es) && SingleWorker(ENQUEUED, es) && LeavesTerminal(ENQUEUED, es)
    ensures Run(ENQUEUED, es).row.gen == Queued
  {
    es := FailedDuringTheCall();
    hide ValidRun, Run, SingleWorker, LeavesTerminal;
    es := Extend(ENQUEUED, es, Confirm(1, true));
  }

  // ---------- where a row can get ----------

  /** Statuses are passed in one order, none is skipped except by ending, and none is come back to. */
  lemma TransitionsIff(current: GenStatus, target: GenStatus)
    ensures ValidTransition(current, target) <==>
      || current == target
      || (target.Terminal() && !current.Terminal())
      || (current == Pending && target == Queued) || (current == Queued && target == Running)
  {
  }

  /** Storing a prompt ID twice is harmless, and another one is refused. */
  lemma ConfirmationIsIdempotent(r: Row, worker: nat, token: nat, prompt: nat, other: nat)
    requires MarkSubmitted(r, worker, token, prompt).Some?
    ensures var t := MarkSubmitted(r, worker, token, prompt).value;
      && t.prompt == Some(prompt) && t.submission == Submitted
      && MarkSubmitted(t, worker, token, other) == if other == prompt then Some(t) else None
    ensures MarkAmbiguous(MarkSubmitted(r, worker, token, prompt).value, worker) ==
            MarkSubmitted(r, worker, token, prompt)
  {
    if r.submission == Submitted {
      assert r.prompt == Some(prompt);
    }
  }

  predicate CancelsRow(e: Event) {
    e.Cancel? || e.CancelBeforeStart? || e.Marks? || e.PendingMarks? || e.MarkReported?
  }

  /** A cancellation leaves a finished row alone; an unfinished one is asked to stop, or is cancelled, freed and
      marked as asked. */
  lemma CancellationsIff(w: World, e: Event)
    requires w.row.gen == w.row.job && Enabled(w, e) && CancelsRow(e)
    ensures Apply(w, e).row ==
      if w.row.gen.Terminal() then w.row
      else if e.Cancel? then w.row.(cancelRequested := true)
      else w.row.(gen := Cancelled, job := Cancelled, worker := None, cancelRequested := true)
  {
  }

  /** What an operator may resolve goes by the audit code: what a worker could not determine while it is unfinished,
      what a migration marked even if it has failed, and nothing else. */
  lemma ResolutionGoesByTheCode(r: Row)
    requires r.submission == Ambiguous
    ensures r.code == Undetermined ==> (Resolvable(r) <==> !r.gen.Terminal() && !r.job.Terminal())
    ensures r.code == MigrationCode ==>
      (Resolvable(r) <==> (!r.gen.Terminal() || r.gen == Failed) && (!r.job.Terminal() || r.job == Failed))
    ensures r.code == NoCode || r.code == OtherCode ==> !Resolvable(r)
  {
  }

  /** A submission that nothing disturbs: one call, the prompt ID on the row, and the Generation goes through RUNNING to
      COMPLETED. */
  lemma SubmissionCompletes(id: nat, prompt: nat) returns (es: seq<Event>)
    ensures ValidRun(ENQUEUED, es) && SingleWorker(ENQUEUED, es)
    ensures Run(ENQUEUED, es) == ENQUEUED.(
      row := Row(Completed, Completed, Submitted, Some(0), Some(prompt), Some(id), false, NoCode), calls := 1,
        tokens := 1)
  {
    es := Submits(id, prompt);
    hide ValidRun, Run, SingleWorker, LeavesTerminal;
    es := Extend(ENQUEUED, es, Settle(Running));
    es := Extend(ENQUEUED, es, Settle(Completed));
  }

  lemma Submits(id: nat, prompt: nat) returns (es: seq<Event>)
    ensures ValidRun(ENQUEUED, es) && SingleWorker(ENQUEUED, es)
    ensures Run(ENQUEUED, es) == ENQUEUED.(
      row := Row(Queued, Queued, Submitted, Some(0), Some(prompt), Some(id), false, NoCode), calls := 1, tokens := 1)
  {
    hide ValidRun, Run, SingleWorker, LeavesTerminal;
    NoStep(ENQUEUED);
    es := Extend(ENQUEUED, [], Claim(id));
    es := Extend(ENQUEUED, es, Begin(id, true));
    es := Extend(ENQUEUED, es, Call(id, prompt));
    assert Run(ENQUEUED, es).workers == map[id := Called(0, prompt)];
    es := Extend(ENQUEUED, es, Confirm(id, true));
    assert map[id := Called(0, prompt)] - {id} == map[];
  }

  /** A cancel request that reaches the worker before it begins cancels the Generation without a call. */
  lemma RequestCancels(id: nat) returns (es: seq<Event>)
    ensures ValidRun(ENQUEUED, es) && SingleWorker(ENQUEUED, es)
    ensures var t := Run(ENQUEUED, es); t.row.gen == t.row.job == Cancelled && t.calls == 0 && t.workers == map[]
  {
    hide ValidRun, Run, SingleWorker, LeavesTerminal;
    NoStep(ENQUEUED);
    es := Extend(ENQUEUED, [], Claim(id));
    es := Extend(ENQUEUED, es, Cancel);
    assert Run(ENQUEUED, es).workers == map[id := Holding];
    es := Extend(ENQUEUED, es, CancelBeforeStart(id));
    assert map[id := Holding] - {id} == map[];
  }

  /** An operator resolves a row once: a link queues it under the prompt ID it names, the other choice fails it. */
  lemma OperatorResolvesOnce(w: World, prompt: nat)
    requires OnceInv(w) && Enabled(w, Link(prompt))
    ensures var t := Apply(w, Link(prompt));
      && t.row.gen == t.row.job == Queued && t.row.submission == Submitted && t.row.prompt == Some(prompt)
      && !Enabled(t, Link(prompt)) && !Enabled(t, FailUnlinked) && t.calls == w.calls
    ensures Enabled(w, FailUnlinked)
    ensures var t := Apply(w, FailUnlinked);
      && t.row.gen == t.row.job == Failed && t.row.prompt == w.row.prompt
      && !Enabled(t, Link(prompt)) && !Enabled(t, FailUnlinked) && t.calls == w.calls
  {
  }

  /** A stateless restore, and a prompt that stayed missing, leave nothing unfinished and nothing claimed. */
  lemma NothingIsLeftUnfinished(w: World, e: Event)
    requires Enabled(w, e) && (e == StatelessRestore || e == NotFound)
    ensures var t := Apply(w, e).row;
      && t.worker == None && t.prompt == w.row.prompt && t.submission == w.row.submission
      && t.gen == (if w.row.gen.Terminal() then w.row.gen else Failed)
      && t.job == (if w.row.job.Terminal() then w.row.job else Failed)
  {
  }

  lemma EnqueuedKeepsAll()
    ensures OnceInv(ENQUEUED) && CancelInv(ENQUEUED) && Evidence(ENQUEUED) && TerminalInv(ENQUEUED)
    ensures CodeInv(ENQUEUED.row)
  {
  }
}
