/** The state repairs of revisions 0005 to 0008: a classifier and a writer each, run one after another on every row. */
module RepairMigrations {
  import opened Wrappers
  import opened SubmissionQueue

  datatype Code =
    | PromptIdMismatch | StatusAmbiguous | StatusMismatch | SubmissionAmbiguous | SubmissionAmbiguousResolved
    | KnownFailure(n: nat) | OtherCode(n: nat)
  {
    predicate IsAmbiguous() {
      PromptIdMismatch? || StatusAmbiguous? || SubmissionAmbiguous? || SubmissionAmbiguousResolved?
    }
  }

  /** The columns a repair reads or writes. `submission` is absent without a queue entry, `artifact` says that a primary
      image is stored, and the timestamps only matter as set or not. */
  datatype Legacy = Legacy(
    gen: GenStatus, job: GenStatus, genPrompt: Option<nat>, jobPrompt: Option<nat>,
    genCode: Option<Code>, jobCode: Option<Code>, genCompletedAt: bool, jobCompletedAt: bool, jobCancelledAt: bool,
    jobCancelRequested: bool, queueCancelRequested: bool, submission: Option<Submission>,
    artifact: bool, retryOf: Option<nat>)
  {
    function Queue(): Submission { if submission.Some? then submission.value else Ready }

    function Prompt(): Option<nat> { if genPrompt.Some? then genPrompt else jobPrompt }

    predicate Mismatch() { genPrompt.Some? && jobPrompt.Some? && genPrompt != jobPrompt }

    predicate CancelAsked() { jobCancelRequested || jobCancelledAt || queueCancelRequested }

    predicate Has(status: GenStatus) { gen == status || job == status }

    predicate SomeTerminal() { gen.Terminal() || job.Terminal() }

    /** What the queue worker would claim and submit. */
    predicate Claimable() {
      gen == Pending && job == Pending && genPrompt == None && jobPrompt == None && submission == Some(Ready) &&
      !jobCancelRequested && !queueCancelRequested
    }
  }

  /** What a classifier decides. */
  datatype Repair = Repair(
    gen: GenStatus, job: GenStatus, genPrompt: Option<nat>, jobPrompt: Option<nat>, queue: Submission,
    code: Option<Code>)

  function Both(status: GenStatus, prompt: Option<nat>, queue: Submission, code: Option<Code>): Repair {
    Repair(status, status, prompt, prompt, queue, code)
  }

  function SubmittedOr(prompt: Option<nat>, queue: Submission): Submission {
    if prompt.Some? then Submitted else queue
  }

  function SafeTerminal(r: Legacy): GenStatus {
    if r.Has(Cancelled) then Cancelled else if r.Has(Failed) then Failed else Completed
  }

  function RunningOrQueued(r: Legacy): GenStatus {
    if r.Has(Running) then Running else Queued
  }

  /** `_write_pair`: the same in 0005, 0006 and 0007. A terminal side gets a completion time, a cancelled job a
      cancellation time. */
  function Write(r: Legacy, d: Repair): Legacy {
    var code := if d.code.Some? then d.code else if r.genCode.Some? then r.genCode else r.jobCode;
    r.(gen := d.gen, job := d.job, genPrompt := d.genPrompt, jobPrompt := d.jobPrompt, genCode := code, jobCode := code,
       genCompletedAt := r.genCompletedAt || d.gen.Terminal(), jobCompletedAt := r.jobCompletedAt || d.job.Terminal(),
       jobCancelledAt := r.jobCancelledAt || d.job == Cancelled,
       submission := if r.submission.Some? then Some(d.queue) else None)
  }

  // ---------- 0005 and 0006 ----------

  predicate PendingPair(r: Legacy) {
    r.gen == Pending && r.job == Pending
  }

  function Mismatched(r: Legacy): Repair {
    Repair(r.gen, r.job, r.genPrompt, r.jobPrompt, Ambiguous, Some(PromptIdMismatch))
  }

  function Classify5(r: Legacy): Repair {
    var prompt, queue := r.Prompt(), r.Queue();
    if r.Mismatch() then Mismatched(r)
    else if r.artifact && !r.Has(Failed) && !r.Has(Cancelled)
    then Both(Completed, prompt, SubmittedOr(prompt, queue), None)
    else if r.gen == r.job && r.gen.Terminal() then Both(r.gen, prompt, SubmittedOr(prompt, queue), None)
    else if r.SomeTerminal() then Both(SafeTerminal(r), prompt, SubmittedOr(prompt, queue), None)
    else if r.jobCancelledAt then Both(Cancelled, prompt, queue, None)
    else if r.CancelAsked() && PendingPair(r) && queue == Ready && prompt == None
    then Both(Cancelled, None, queue, None)
    else if queue == Submitting || queue == Ambiguous || (r.CancelAsked() && prompt == None) then
      Both(r.gen, prompt, Ambiguous, Some(StatusAmbiguous))
    else if prompt.Some? then Both(RunningOrQueued(r), prompt, Submitted, None)
    else if PendingPair(r) && queue == Ready then Both(Pending, None, queue, None)
    else Both(Failed, None, Ambiguous, Some(StatusMismatch))
  }

  /** Revision 0005 adds the submission state with every entry `ready`, then repairs. */
  function Upgrade5(r: Legacy): Legacy {
    var added := r.(submission := if r.submission.Some? then Some(Ready) else None);
    Write(added, Classify5(added))
  }

  function Classify6(r: Legacy): Repair {
    var prompt, queue := r.Prompt(), r.Queue();
    if r.Mismatch() then Mismatched(r)
    else if r.artifact && !r.Has(Failed) && !r.Has(Cancelled) then Both(Completed, prompt, Submitted, None)
    else if r.gen == r.job && r.gen.Terminal() then Both(r.gen, prompt, SubmittedOr(prompt, queue), None)
    else if r.SomeTerminal() then Both(SafeTerminal(r), prompt, SubmittedOr(prompt, queue), None)
    else if r.jobCancelledAt then Both(Cancelled, prompt, SubmittedOr(prompt, queue), None)
    else if r.CancelAsked() && PendingPair(r) && queue == Ready && prompt == None
    then Both(Cancelled, None, Ready, None)
    else if queue == Submitting || queue == Ambiguous || (r.CancelAsked() && prompt == None) then
      Repair(r.gen, r.job, prompt, prompt, Ambiguous, Some(StatusAmbiguous))
    else if prompt.Some? then Both(RunningOrQueued(r), prompt, Submitted, None)
    else if PendingPair(r) && queue == Ready then Both(Pending, None, queue, None)
    else Both(Failed, None, Ambiguous, Some(StatusMismatch))
  }

  function Upgrade6(r: Legacy): Legacy {
    Write(r, Classify6(r))
  }

  // ---------- 0007 ----------

  predicate FailureEvidence(r: Legacy) {
    var code := if r.genCode.Some? then r.genCode else r.jobCode;
    r.Has(Failed) && code.Some? && code.value.KnownFailure? && (r.genCompletedAt || r.jobCompletedAt)
  }

  predicate CompletionEvidence(r: Legacy) {
    r.Has(Completed) || r.genCompletedAt || r.jobCompletedAt
  }

  function ExistingAmbiguousCode(r: Legacy): Code {
    if r.genCode.Some? && r.genCode.value.IsAmbiguous() then r.genCode.value
    else if r.jobCode.Some? && r.jobCode.value.IsAmbiguous() then r.jobCode.value
    else StatusAmbiguous
  }

  function Classify7(r: Legacy): Repair {
    var prompt, queue := r.Prompt(), r.Queue();
    if r.Mismatch() then Mismatched(r)
    else if r.artifact && CompletionEvidence(r) && !r.Has(Failed) && !r.Has(Cancelled) then
      Both(Completed, prompt, SubmittedOr(prompt, queue), None)
    else if r.jobCancelledAt || (r.gen == Cancelled && r.job == Cancelled) then
      Both(Cancelled, prompt, SubmittedOr(prompt, queue), None)
    else if r.gen == Failed && r.job == Failed then Both(Failed, prompt, SubmittedOr(prompt, queue), None)
    else if FailureEvidence(r) then Both(Failed, prompt, SubmittedOr(prompt, queue), None)
    else if r.gen == Completed && r.job == Completed then Both(Completed, prompt, SubmittedOr(prompt, queue), None)
    else if PendingPair(r) && queue == Ready && prompt == None && !r.CancelAsked() then Both(Pending, None, Ready, None)
    else if queue == Submitting || queue == Ambiguous then
      Repair(r.gen, r.job, prompt, prompt, Ambiguous, Some(ExistingAmbiguousCode(r)))
    else if prompt.Some? && !r.SomeTerminal() then Both(RunningOrQueued(r), prompt, Submitted, None)
    else Repair(r.gen, r.job, prompt, prompt, Ambiguous, Some(StatusAmbiguous))
  }

  function Upgrade7(r: Legacy): Legacy {
    Write(r, Classify7(r))
  }

  // ---------- 0008 ----------

  predicate LegacyPendingCandidate(r: Legacy) {
    r.gen == Failed && r.job == Failed &&
    r.genCode == Some(StatusMismatch) && (r.jobCode == Some(StatusMismatch) || r.jobCode == None) &&
    r.genPrompt == None && r.jobPrompt == None && r.retryOf == None && !r.CancelAsked() &&
    (r.submission == None || r.submission == Some(Ambiguous)) && !r.artifact
  }

  function Upgrade8(r: Legacy): Legacy {
    if !LegacyPendingCandidate(r) then r
    else r.(genCode := Some(StatusAmbiguous), jobCode := Some(StatusAmbiguous),
            submission := if r.submission.Some? then Some(Ambiguous) else None)
  }

  function Repaired(r: Legacy): Legacy {
    Upgrade8(Upgrade7(Upgrade6(Upgrade5(r))))
  }

  // ---------- safety ----------

  /** A side that was terminal stays terminal. */
  predicate KeepsTerminal(r: Legacy, t: Legacy) {
    (r.gen.Terminal() ==> t.gen.Terminal()) && (r.job.Terminal() ==> t.job.Terminal())
  }

  /** `r` as revision 0005 finds it has no submission state yet: every queue entry counts as ready. */
  predicate ClaimableBefore(r: Legacy) {
    r.(submission := if r.submission.Some? then Some(Ready) else None).Claimable() && !r.jobCancelledAt
  }

  lemma Repair5IsSafe(r: Legacy)
    ensures Upgrade5(r).Claimable() <==> ClaimableBefore(r) && !r.artifact
    ensures KeepsTerminal(r, Upgrade5(r))
    ensures Upgrade5(r).artifact == r.artifact &&
      Upgrade5(r).jobCancelledAt == (r.jobCancelledAt || Upgrade5(r).job == Cancelled)
  {
  }

  lemma Repair6IsSafe(r: Legacy)
    ensures Upgrade6(r).Claimable() <==> r.Claimable() && !r.jobCancelledAt && !r.artifact
    ensures KeepsTerminal(r, Upgrade6(r))
    ensures Upgrade6(r).artifact == r.artifact &&
      Upgrade6(r).jobCancelledAt == (r.jobCancelledAt || Upgrade6(r).job == Cancelled)
  {
  }

  lemma Repair7IsSafe(r: Legacy)
    ensures Upgrade7(r).Claimable() <==> r.Claimable() && !r.jobCancelledAt && !(r.artifact && CompletionEvidence(r))
    ensures KeepsTerminal(r, Upgrade7(r))
  {
  }

  lemma Repair8IsSafe(r: Legacy)
    ensures (Upgrade8(r).Claimable() <==> r.Claimable()) && KeepsTerminal(r, Upgrade8(r))
  {
  }

  /** The four repairs in sequence never make a row claimable that was not pending, uncancelled and without a prompt,
      and they leave exactly those rows claimable that have no stored image; and they never revive a terminal side. */
  lemma RepairsNeverResend(r: Legacy)
    ensures Repaired(r).Claimable() <==> ClaimableBefore(r) && !r.artifact
    ensures KeepsTerminal(r, Repaired(r))
  {
    var (a, b, c) := (Upgrade5(r), Upgrade6(Upgrade5(r)), Upgrade7(Upgrade6(Upgrade5(r))));
    hide Upgrade5, Upgrade6, Upgrade7, Upgrade8;
    Repair5IsSafe(r);
    Repair6IsSafe(a);
    Repair7IsSafe(b);
    Repair8IsSafe(c);
  }

  /** After all four, Generation and Job agree unless the pair is quarantined with conflicting prompt IDs. */
  lemma RepairsMakePairsAgree(r: Legacy)
    ensures var t := Repaired(r);
      t.gen == t.job || (t.Mismatch() && t.genCode == Some(PromptIdMismatch) && t.submission != Some(Ready))
  {
    hide Upgrade5, Upgrade6, Upgrade7;
    Repair5Agrees(r);
    Repair6Agrees(Upgrade5(r));
    Repair7Agrees(Upgrade6(Upgrade5(r)));
  }

  lemma Repair5Agrees(r: Legacy)
    ensures var t := Upgrade5(r); !t.Mismatch() ==> t.gen == t.job
  {
  }

  lemma Repair6Agrees(r: Legacy)
    requires !r.Mismatch() ==> r.gen == r.job
    ensures var t := Upgrade6(r); !t.Mismatch() ==> t.gen == t.job
  {
  }

  lemma Repair7Agrees(r: Legacy)
    requires !r.Mismatch() ==> r.gen == r.job
    ensures var t := Upgrade7(r);
      && (!t.Mismatch() ==> t.gen == t.job)
      && (t.Mismatch() ==> t.genCode == Some(PromptIdMismatch) && t.submission != Some(Ready))
  {
  }

  // ---------- evidence ----------

  predicate KeepsPrompts(r: Legacy, t: Legacy) {
    t.Prompt() == r.Prompt() && t.Mismatch() == r.Mismatch() &&
    (if r.Mismatch() then t.genPrompt == r.genPrompt && t.jobPrompt == r.jobPrompt else t.genPrompt == t.jobPrompt)
  }

  lemma Repair5KeepsPrompts(r: Legacy)
    ensures KeepsPrompts(r, Upgrade5(r))
  {
  }

  lemma Repair6KeepsPrompts(r: Legacy)
    ensures KeepsPrompts(r, Upgrade6(r))
  {
  }

  lemma Repair7KeepsPrompts(r: Legacy)
    ensures KeepsPrompts(r, Upgrade7(r))
  {
  }

  /** No repair drops a prompt ID: both sides end up with the one there was, or keep their own when they conflict. */
  lemma RepairsKeepPromptIds(r: Legacy)
    ensures KeepsPrompts(r, Repaired(r))
  {
    hide Upgrade5, Upgrade6, Upgrade7;
    Repair5KeepsPrompts(r);
    Repair6KeepsPrompts(Upgrade5(r));
    Repair7KeepsPrompts(Upgrade6(Upgrade5(r)));
  }

  /** What each terminal status may be concluded from. */
  predicate Evidence(r: Legacy, t: Legacy) {
    && (t.Has(Completed) ==> r.Has(Completed) || r.artifact)
    && (t.Has(Cancelled) ==>
        r.Has(Cancelled) || r.jobCancelledAt || (r.CancelAsked() && r.gen == Pending && r.Prompt() == None))
    && (t.Has(Failed) ==> r.Has(Failed) || (r.Prompt() == None && !PendingPair(r)))
  }

  /** A repaired row is completed only with a completed side or a stored image, cancelled only with a cancelled side, a
      cancellation time or a cancel request for a pending Generation without a prompt, and failed only with a failed
      side or for lack of a prompt ID on a pair that had left pending. */
  lemma RepairsConcludeFromEvidence(r: Legacy)
    ensures Evidence(r, Repaired(r))
  {
    var a := Upgrade5(r);
    Repair5Concludes(r);
    Repair5Normalizes(r);
    hide Upgrade5;
    Repair6Concludes(a);
    var b := Upgrade6(a);
    hide Upgrade6;
    Repair7Concludes(b);
    hide Upgrade7;
  }

  // ---------- the decisions ----------

  predicate Live(r: Legacy) {
    !r.SomeTerminal()
  }

  /** A stored image completes a pair that has neither failed nor been cancelled. */
  predicate ImageCompletes(r: Legacy) {
    r.artifact && !r.Has(Failed) && !r.Has(Cancelled)
  }

  /** A pending Generation without a prompt takes a cancel request at once; if its job had left pending, only where
      there is no queue entry to quarantine. */
  predicate CancelsAtOnce(r: Legacy) {
    Live(r) && !r.artifact && r.CancelAsked() && r.Prompt() == None && r.gen == Pending &&
    (r.job == Pending || r.submission == None)
  }

  /** The pair had left pending, and there is no prompt ID to show for it. */
  predicate LostItsPrompt(r: Legacy) {
    Live(r) && !r.artifact && !r.CancelAsked() && r.Prompt() == None && !PendingPair(r)
  }

  /** A pair as 0005 and 0006 leave it. */
  predicate Agreed(t: Legacy) {
    && !t.Mismatch() && t.gen == t.job && (t.job == Cancelled ==> t.jobCancelledAt)
    && (Live(t) ==>
          && !t.artifact && !t.jobCancelledAt
          && (t.Prompt().Some? ==> t.gen != Pending)
          && (t.Prompt() == None && !t.CancelAsked() ==> t.gen == Pending)
          && (t.submission.Some? ==> t.submission == Some(Entry(t))))
  }

  /** The submission state of a live entry: submitted under a prompt ID, quarantined when a cancel request finds none.
      */
  function Entry(t: Legacy): Submission {
    if t.Prompt().Some? then Submitted else if t.CancelAsked() then Ambiguous else Ready
  }

  /** Nothing is lost between the repairs. */
  predicate Carries(r: Legacy, t: Legacy) {
    && t.artifact == r.artifact && t.Prompt() == r.Prompt()
    && t.jobCancelledAt == (r.jobCancelledAt || t.job == Cancelled)
    && t.jobCancelRequested == r.jobCancelRequested && t.queueCancelRequested == r.queueCancelRequested
    && t.submission.Some? == r.submission.Some?
  }

  /** What 0005 decides of a pair. */
  predicate DecidedBy5(r: Legacy, t: Legacy) {
    && (t.gen.Completed? <==> ImageCompletes(r) || (r.Has(Completed) && !r.Has(Failed) && !r.Has(Cancelled)))
    && (t.gen.Cancelled? <==>
          r.Has(Cancelled) || (Live(r) && !r.artifact && r.jobCancelledAt) || (CancelsAtOnce(r) && r.job == Pending))
    && (t.gen.Failed? <==> (r.Has(Failed) && !r.Has(Cancelled)) || LostItsPrompt(r))
    && (Live(t) ==> t.gen == LiveStatus(r))
  }

  function LiveStatus(r: Legacy): GenStatus {
    if r.Prompt() == None then r.gen else if r.Has(Running) then Running else Queued
  }

  lemma Repair5DecidesTerminals(r: Legacy)
    requires !r.Mismatch() && (r.SomeTerminal() || r.artifact)
    ensures DecidedBy5(r, Upgrade5(r)) && Agreed(Upgrade5(r)) && Carries(r, Upgrade5(r))
  {
  }

  lemma Repair5DecidesLiveRows(r: Legacy)
    requires !r.Mismatch() && Live(r) && !r.artifact
    ensures DecidedBy5(r, Upgrade5(r)) && Agreed(Upgrade5(r)) && Carries(r, Upgrade5(r))
  {
  }

  lemma Repair5Decides(r: Legacy)
    requires !r.Mismatch()
    ensures DecidedBy5(r, Upgrade5(r)) && Agreed(Upgrade5(r)) && Carries(r, Upgrade5(r))
  {
    hide Upgrade5, DecidedBy5, Agreed, Carries;
    if Live(r) && !r.artifact {
      Repair5DecidesLiveRows(r);
    } else {
      Repair5DecidesTerminals(r);
    }
  }

  /** On such a pair 0006 changes one kind of row: without a queue entry it cancels a pending pair that was asked to
      be. */
  lemma Repair6Decides(r: Legacy)
    requires Agreed(r)
    ensures Agreed(Upgrade6(r)) && Carries(r, Upgrade6(r))
    ensures Upgrade6(r).gen == if CancelsAtOnce(r) && r.submission == None then Cancelled else r.gen
  {
  }

  /** And 0007 lets a cancellation time decide, unless there is a completed pair with its image. */
  lemma Repair7Decides(r: Legacy)
    requires Agreed(r)
    ensures var t := Upgrade7(r);
      && Carries(r, t) && t.gen == t.job
      && t.gen == (if r.jobCancelledAt && !(r.gen == Completed && r.artifact) then Cancelled else r.gen)
      && (Live(t) && t.submission.Some? ==> t.submission == Some(Entry(t)))
  {
  }

  lemma Repair8KeepsDecisions(r: Legacy)
    ensures var t := Upgrade8(r);
      t.gen == r.gen && t.job == r.job && Carries(r, t.(jobCancelledAt := r.jobCancelledAt || r.job == Cancelled))
    ensures Live(r) ==> Upgrade8(r) == r
  {
  }

  /** The repairs decide every pair without conflicting prompt IDs, and exactly so: a stored image completes what has
      neither failed nor been cancelled, a cancellation weighs more than a failure and a failure more than a completion,
      a cancellation time more than either, and a live pair goes by its prompt ID. */
  lemma RepairsDecideIff(r: Legacy)
    requires !r.Mismatch()
    ensures var t := Repaired(r);
      && t.gen == t.job
      && (t.gen.Completed? <==>
            ImageCompletes(r) || (r.Has(Completed) && !r.Has(Failed) && !r.Has(Cancelled) && !r.jobCancelledAt))
      && (t.gen.Cancelled? <==>
            r.Has(Cancelled) || (r.jobCancelledAt && !ImageCompletes(r)) || CancelsAtOnce(r))
      && (t.gen.Failed? <==>
            !r.Has(Cancelled) && !r.jobCancelledAt && (r.Has(Failed) || LostItsPrompt(r)))
      && (Live(t) ==> t.gen == LiveStatus(r) && (t.submission.Some? ==> t.submission == Some(Entry(r))))
  {
    var (a, b, c) := (Upgrade5(r), Upgrade6(Upgrade5(r)), Upgrade7(Upgrade6(Upgrade5(r))));
    hide Upgrade5, Upgrade6, Upgrade7, Upgrade8;
    Repair5Decides(r);
    Repair6Decides(a);
    Repair7Decides(b);
    Repair8KeepsDecisions(c);
  }

  predicate HasCode(t: Legacy, code: Code) {
    t.genCode == Some(code) && t.jobCode == Some(code)
  }

  lemma Repair5Marks(r: Legacy)
    requires !r.Mismatch()
    ensures LostItsPrompt(r) ==> HasCode(Upgrade5(r), StatusMismatch)
    ensures Live(Upgrade5(r)) && r.Prompt() == None && r.CancelAsked() ==> HasCode(Upgrade5(r), StatusAmbiguous)
    ensures Upgrade5(r).retryOf == r.retryOf
  {
  }

  lemma Repair6KeepsMarks(r: Legacy)
    requires Agreed(r)
    ensures r.gen == Failed && HasCode(r, StatusMismatch) ==> HasCode(Upgrade6(r), StatusMismatch)
    ensures Live(Upgrade6(r)) && r.Prompt() == None && r.CancelAsked() ==> HasCode(Upgrade6(r), StatusAmbiguous)
    ensures Upgrade6(r).retryOf == r.retryOf
    ensures r.gen == Failed && r.Prompt() == None && r.submission == Some(Ambiguous) ==>
      Upgrade6(r).submission == Some(Ambiguous)
  {
  }

  lemma Repair7KeepsMarks(r: Legacy)
    requires Agreed(r)
    ensures r.gen == Failed && !r.jobCancelledAt && HasCode(r, StatusMismatch) ==> HasCode(Upgrade7(r), StatusMismatch)
    ensures Live(Upgrade7(r)) && r.Prompt() == None && r.CancelAsked() && HasCode(r, StatusAmbiguous) ==>
      HasCode(Upgrade7(r), StatusAmbiguous)
    ensures Upgrade7(r).retryOf == r.retryOf
    ensures r.gen == Failed && !r.jobCancelledAt && r.Prompt() == None && r.submission == Some(Ambiguous) ==>
      Upgrade7(r).submission == Some(Ambiguous)
  {
  }

  /** Whatever the repairs quarantine carries a code by which an operator can resolve it: a cancel request without a
      prompt and, through 0008, a pair without a prompt that is no retry are ambiguous, a retry of the kind is a
      mismatch. */
  lemma QuarantineIsMarked(r: Legacy)
    requires !r.Mismatch()
    ensures var t := Repaired(r);
      && (Live(t) && r.Prompt() == None && r.CancelAsked() ==> HasCode(t, StatusAmbiguous))
      && (LostItsPrompt(r) ==> HasCode(t, if r.retryOf == None then StatusAmbiguous else StatusMismatch))
  {
    var (a, b, c) := (Upgrade5(r), Upgrade6(Upgrade5(r)), Upgrade7(Upgrade6(Upgrade5(r))));
    Repair5Decides(r);
    Repair5Marks(r);
    Repair6Decides(a);
    Repair6KeepsMarks(a);
    Repair7Decides(b);
    Repair7KeepsMarks(b);
    if LostItsPrompt(r) {
      LostEntriesAreQuarantined(r);
    }
    hide Upgrade5, Upgrade6, Upgrade7;
  }

  lemma LostEntriesAreQuarantined(r: Legacy)
    requires !r.Mismatch() && LostItsPrompt(r)
    ensures Upgrade5(r).submission == if r.submission.Some? then Some(Ambiguous) else None
  {
  }

  /** A row as 0005 leaves it. */
  predicate Normal(r: Legacy) {
    r.submission == Some(Submitted) ==> r.Prompt().Some?
  }

  lemma Repair5ConcludesFromSides(r: Legacy)
    requires r.Mismatch() || r.artifact || r.SomeTerminal()
    ensures Evidence(r, Upgrade5(r))
  {
  }

  lemma Repair5ConcludesOnLiveRows(r: Legacy)
    requires !r.Mismatch() && !r.artifact && !r.SomeTerminal()
    ensures Evidence(r, Upgrade5(r))
  {
  }

  lemma Repair5Concludes(r: Legacy)
    ensures Evidence(r, Upgrade5(r))
  {
    hide Upgrade5, Evidence;
    if r.Mismatch() || r.artifact || r.SomeTerminal() {
      Repair5ConcludesFromSides(r);
    } else {
      Repair5ConcludesOnLiveRows(r);
    }
  }

  /** What 0006 and 0007 rely on: 0005 adds no claim that it did not conclude itself. */
  predicate Normalizes(r: Legacy, t: Legacy) {
    && Normal(t) && t.artifact == r.artifact && t.Prompt() == r.Prompt()
    && (t.gen == Pending ==> r.gen == Pending) && (t.CancelAsked() ==> r.CancelAsked() || t.Has(Cancelled))
    && (t.jobCancelledAt ==> r.jobCancelledAt || t.Has(Cancelled))
    && (PendingPair(r) && t.Prompt() == None && !t.SomeTerminal() ==> PendingPair(t))
  }

  lemma Repair5NormalizesConflicts(r: Legacy)
    requires r.Mismatch()
    ensures Normalizes(r, Upgrade5(r))
  {
  }

  lemma Repair5NormalizesImages(r: Legacy)
    requires !r.Mismatch() && r.artifact && !r.Has(Failed) && !r.Has(Cancelled)
    ensures Normalizes(r, Upgrade5(r))
  {
  }

  lemma Repair5NormalizesTerminals(r: Legacy)
    requires !r.Mismatch() && !(r.artifact && !r.Has(Failed) && !r.Has(Cancelled)) && r.SomeTerminal()
    ensures Normalizes(r, Upgrade5(r))
  {
  }

  lemma Repair5NormalizesCancellations(r: Legacy)
    requires !r.Mismatch() && !r.artifact && !r.SomeTerminal() && r.CancelAsked()
    ensures Normalizes(r, Upgrade5(r))
  {
  }

  lemma Repair5NormalizesLiveRows(r: Legacy)
    requires !r.Mismatch() && !r.artifact && !r.SomeTerminal() && !r.CancelAsked()
    ensures Normalizes(r, Upgrade5(r))
  {
  }

  lemma Repair5Normalizes(r: Legacy)
    ensures Normalizes(r, Upgrade5(r))
  {
    hide Upgrade5, Normalizes;
    if r.Mismatch() {
      Repair5NormalizesConflicts(r);
    } else if r.artifact && !r.Has(Failed) && !r.Has(Cancelled) {
      Repair5NormalizesImages(r);
    } else if r.SomeTerminal() {
      Repair5NormalizesTerminals(r);
    } else if r.CancelAsked() {
      Repair5NormalizesCancellations(r);
    } else {
      Repair5NormalizesLiveRows(r);
    }
  }

  lemma Repair6Concludes(r: Legacy)
    requires Normal(r)
    ensures var t := Upgrade6(r);
      && Evidence(r, t) && t.artifact == r.artifact && t.Prompt() == r.Prompt()
      && (t.jobCancelledAt ==> r.jobCancelledAt || t.Has(Cancelled))
  {
  }

  lemma Repair7Concludes(r: Legacy)
    ensures var t := Upgrade7(r);
      && (t.Has(Completed) ==> r.Has(Completed) || r.artifact)
      && (t.Has(Cancelled) ==> r.Has(Cancelled) || r.jobCancelledAt)
      && (t.Has(Failed) ==> r.Has(Failed))
  {
  }

  // ---------- idempotence of 0007 ----------

  /** A cancelled job whose Generation is not cancelled, that no earlier rule decides: the writer then sets the
      cancellation time that the classifier reads. */
  predicate UndatedCancelledJob(r: Legacy) {
    r.job == Cancelled && r.gen != Cancelled && !r.jobCancelledAt && !r.Mismatch() && !FailureEvidence(r)
  }

  lemma Repair7IdempotentIff(r: Legacy)
    ensures Upgrade7(Upgrade7(r)) == Upgrade7(r) <==> !UndatedCancelledJob(r)
  {
    if UndatedCancelledJob(r) {
      assert Upgrade7(Upgrade7(r)).gen == Cancelled != Upgrade7(r).gen;
    } else {
      hide Upgrade7, Classify7;
      if Classify7(r).gen == Classify7(r).job && Classify7(r).gen.Terminal() {
        SettledTwice(r);
      } else if Classify7(r).code.Some? {
        QuarantinedTwice(r);
      } else {
        assert !Classify7(r).gen.Terminal() by {
          UnquarantinedPairsAgree(r);
        }
        LiveTwice(r);
      }
    }
  }

  const UNDATED := Legacy(Pending, Cancelled, None, None, None, None, false, false, false, false, false, Some(Ready),
                          false, None)

  /** A pending Generation with a cancelled job is first quarantined, which dates the cancellation, and then
      cancelled. */
  lemma SecondRepair7CancelsTheGeneration()
    ensures Upgrade7(UNDATED).gen == Pending && Upgrade7(UNDATED).submission == Some(Ambiguous)
    ensures Upgrade7(Upgrade7(UNDATED)).gen == Cancelled
  {
  }

  /** A second run decides what the first one wrote: on a row that was settled, */
  lemma SettledTwice(r: Legacy)
    requires !UndatedCancelledJob(r) && Classify7(r).gen == Classify7(r).job && Classify7(r).gen.Terminal()
    ensures Upgrade7(Upgrade7(r)) == Upgrade7(r)
  {
  }

  lemma UnquarantinedPairsAgree(r: Legacy)
    ensures Classify7(r).code == None ==> Classify7(r).gen == Classify7(r).job
  {
  }

  /** on one that stays live, */
  lemma LiveTwice(r: Legacy)
    requires Classify7(r).code == None && !Classify7(r).gen.Terminal()
    ensures Upgrade7(Upgrade7(r)) == Upgrade7(r)
  {
  }

  /** and on one that was quarantined. */
  lemma QuarantinedTwice(r: Legacy)
    requires !UndatedCancelledJob(r) && Classify7(r).code.Some?
    ensures Upgrade7(Upgrade7(r)) == Upgrade7(r)
  {
    var t := Upgrade7(r);
    assert t.gen == r.gen && t.job == r.job && t.artifact == r.artifact;
    if r.Mismatch() {
      assert t.Mismatch();
    } else {
      assert t.Prompt() == r.Prompt() && !t.Mismatch();
      assert t.genCode == t.jobCode && t.genCode.value.IsAmbiguous() && !FailureEvidence(t);
      assert t.submission == None || t.submission == Some(Ambiguous);
    }
  }

  /** On what 0006 leaves behind, 0007 can be run again. */
  lemma Repair7IdempotentAfter6(r: Legacy)
    ensures Upgrade7(Upgrade7(Upgrade6(r))) == Upgrade7(Upgrade6(r))
  {
    Repair7IdempotentIff(Upgrade6(r));
    Repair6DatesCancelledJobs(r);
  }

  lemma Repair6DatesCancelledJobs(r: Legacy)
    ensures Upgrade6(r).job == Cancelled ==> Upgrade6(r).jobCancelledAt
  {
  }

  // ---------- the upgrades as loops over the rows ----------

  method UpgradeRows(rows: array<Legacy>, revision: nat)
    requires 5 <= revision <= 8
    modifies rows
    ensures forall i :: 0 <= i < rows.Length ==> rows[i] == UpgradeTo(revision, old(rows[i]))
  {
    for k := 0 to rows.Length
      invariant forall i :: 0 <= i < k ==> rows[i] == UpgradeTo(revision, old(rows[i]))
      invariant forall i :: k <= i < rows.Length ==> rows[i] == old(rows[i])
    {
      rows[k] := UpgradeTo(revision, rows[k]);
    }
  }

  function UpgradeTo(revision: nat, r: Legacy): Legacy {
    if revision == 5 then Upgrade5(r)
    else if revision == 6 then Upgrade6(r)
    else if revision == 7 then Upgrade7(r)
    else Upgrade8(r)
  }

  /** With the rows in order of creation, a later retry of the same item loses its link. */
  predicate LaterRetry(rows: seq<Legacy>, i: nat)
    requires i < |rows|
  {
    rows[i].retryOf.Some? && exists j :: 0 <= j < i && rows[j].retryOf == rows[i].retryOf
  }

  function Deduplicated(rows: seq<Legacy>, i: nat): Legacy
    requires i < |rows|
  {
    if LaterRetry(rows, i) then rows[i].(retryOf := None) else rows[i]
  }

  /** `_deduplicate_retry_links` of revision 0005, after its repair. */
  method DeduplicateRetryLinks(rows: array<Legacy>)
    modifies rows
    ensures forall i :: 0 <= i < rows.Length ==> rows[i] == Deduplicated(old(rows[..]), i)
  {
    ghost var was := rows[..];
    var seen: set<nat> := {};
    for k := 0 to rows.Length
      invariant forall s :: s in seen <==> exists j :: 0 <= j < k && was[j].retryOf == Some(s)
      invariant forall i :: 0 <= i < k ==> rows[i] == Deduplicated(was, i)
      invariant forall i :: k <= i < rows.Length ==> rows[i] == was[i]
    {
      if rows[k].retryOf.Some? {
        if rows[k].retryOf.value in seen {
          rows[k] := rows[k].(retryOf := None);
        } else {
          seen := seen + {rows[k].retryOf.value};
        }
      }
    }
  }

  /** The unique index that follows can be created. */
  lemma RetryLinksAreUnique(rows: seq<Legacy>)
    ensures forall i, j :: 0 <= i < j < |rows| && Deduplicated(rows, i).retryOf.Some? ==>
      Deduplicated(rows, i).retryOf != Deduplicated(rows, j).retryOf
  {
  }

  /** The first retry of each item keeps its link: no item loses all of its retries. */
  lemma {:induction false} FirstRetryKeepsItsLink(rows: seq<Legacy>, i: nat) returns (k: nat)
    requires i < |rows|
    ensures k <= i && Deduplicated(rows, k) == rows[k] && rows[k].retryOf == rows[i].retryOf
    ensures forall j :: 0 <= j < k ==> rows[i].retryOf.Some? ==> rows[j].retryOf != rows[i].retryOf
  {
    k := i;
    if LaterRetry(rows, i) {
      var j :| 0 <= j < i && rows[j].retryOf == rows[i].retryOf;
      k := FirstRetryKeepsItsLink(rows, j);
    }
  }

  /** 0005 neither reads nor writes the link. */
  lemma Repair5IgnoresTheLink(r: Legacy, link: Option<nat>)
    ensures Upgrade5(r.(retryOf := link)) == Upgrade5(r).(retryOf := link) && Upgrade5(r).retryOf == r.retryOf
  {
    var added := r.(submission := if r.submission.Some? then Some(Ready) else None);
    ClassifyingIgnoresTheLink(added, link);
    hide Classify5;
  }

  lemma ClassifyingIgnoresTheLink(r: Legacy, link: Option<nat>)
    ensures Classify5(r.(retryOf := link)) == Classify5(r)
  {
  }

  /** All the upgrades. 0008 sees the links that 0005 left. */
  method RunRepairs(rows: array<Legacy>)
    modifies rows
    ensures forall i :: 0 <= i < rows.Length ==> rows[i] == Repaired(Deduplicated(old(rows[..]), i))
    ensures forall i :: 0 <= i < rows.Length ==>
      (rows[i].Claimable() <==> ClaimableBefore(old(rows[i])) && !old(rows[i]).artifact)
  {
    ghost var was := rows[..];
    hide Upgrade6, Upgrade7, Upgrade8;
    UpgradeRows(rows, 5);
    ghost var upgraded := rows[..];
    DeduplicateRetryLinks(rows);
    forall i | 0 <= i < rows.Length ensures Deduplicated(upgraded, i) == Upgrade5(Deduplicated(was, i)) {
      assert forall j :: 0 <= j < rows.Length ==> upgraded[j].retryOf == was[j].retryOf by {
        forall j | 0 <= j < rows.Length ensures upgraded[j].retryOf == was[j].retryOf {
          Repair5IgnoresTheLink(was[j], None);
        }
      }
      Repair5IgnoresTheLink(was[i], None);
      hide Upgrade5;
      assert LaterRetry(upgraded, i) == LaterRetry(was, i);
    }
    hide Upgrade5, Deduplicated;
    UpgradeRows(rows, 6);
    UpgradeRows(rows, 7);
    UpgradeRows(rows, 8);
    forall i | 0 <= i < rows.Length
      ensures rows[i].Claimable() <==> ClaimableBefore(was[i]) && !was[i].artifact
    {
      RepairsNeverResend(Deduplicated(was, i));
      DeduplicationOnlyDropsLinks(was, i);
    }
  }

  lemma DeduplicationOnlyDropsLinks(rows: seq<Legacy>, i: nat)
    requires i < |rows|
    ensures var r := Deduplicated(rows, i);
      r == rows[i].(retryOf := r.retryOf) && (ClaimableBefore(r) <==> ClaimableBefore(rows[i]))
  {
  }
}
