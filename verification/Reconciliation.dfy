/** Settling a Generation whose prompt was submitted: the worker's path and the recovery service's path, what evidence
    each terminal state needs, and exactly when the two agree. */
module Reconciliation {
  import opened Wrappers
  import opened SubmissionQueue

  datatype RemoteStatus =
    | RemotePending | RemoteInProgress | RemoteCompleted | RemoteFailed | RemoteCancelled | RemoteNotFound
    | RemoteUnavailable

  datatype HistoryStatus =
    | HistoryCompleted | HistoryFailed | Interrupted | HistoryInProgress | HistoryNotFound | Unknown

  /** What fetching and storing one output gives: an image, an error worth another try, or an upscale of a wrong
      size. */
  datatype Output = Image(sha256: nat) | Unusable | WrongSize

  /** ComfyUI's answers and the fate of the writes; `remote` is absent when the client has no status reader. */
  datatype Probe = Probe(
    remote: Option<RemoteStatus>, remoteRaises: bool, history: HistoryStatus, historyRaises: bool, outputs: seq<Output>,
    completionSaved: bool, failureSaved: bool, cancelSaved: bool)

  datatype Artifact = Artifact(sha256: nat, displayOrder: nat)

  /** A Generation with its Job, its stored primary images, and whether its prompt has been missing for the grace
      period. */
  datatype Item = Item(row: Row, images: seq<Artifact>, stale: bool)

  datatype Outcome =
    | OutcomeCompleted | OutcomeFailed | OutcomeCancelled | OutcomeInProgress | OutcomeNotFound | OutcomeUnavailable

  datatype Fetched = Stored(images: seq<nat>) | Again | Wrong

  /** The first output that is not an image decides. */
  function FetchAll(outputs: seq<Output>): Fetched {
    if outputs == [] then Stored([])
    else match outputs[0]
      case Unusable => Again
      case WrongSize => Wrong
      case Image(sha256) =>
        match FetchAll(outputs[1..])
        case Stored(rest) => Stored([sha256] + rest)
        case other => other
  }

  function Numbered(images: seq<nat>): (r: seq<Artifact>)
    ensures |r| == |images| && forall i :: 0 <= i < |r| ==> r[i] == Artifact(images[i], i)
  {
    seq(|images|, i requires 0 <= i < |images| => Artifact(images[i], i))
  }

  /** `sorted(orders) == list(range(n))`. */
  ghost predicate Contiguous(images: seq<Artifact>) {
    (forall i :: 0 <= i < |images| ==> images[i].displayOrder < |images|) &&
    (forall i, j :: 0 <= i < j < |images| ==> images[i].displayOrder != images[j].displayOrder)
  }

  // ---------- what the answers say ----------

  datatype Verdict = Keep | Missing | Interruption | Failure | Finished

  function VerdictOf(p: Probe): Verdict {
    if p.remote.Some? && p.remoteRaises then Keep
    else match p.remote
      case Some(RemotePending) => Keep
      case Some(RemoteInProgress) => Keep
      case Some(RemoteUnavailable) => Keep
      case Some(RemoteNotFound) => Missing
      case Some(RemoteCancelled) => Interruption
      case Some(RemoteFailed) => Failure
      case _ =>
        if p.historyRaises then Keep
        else match p.history
          case HistoryNotFound => Missing
          case Interrupted => Interruption
          case HistoryFailed => Failure
          case HistoryCompleted => Finished
          case _ => Keep
  }

  predicate InProgress(p: Probe) {
    !(p.remote.Some? && p.remoteRaises) &&
    match p.remote
    case Some(RemotePending) => true
    case Some(RemoteInProgress) => true
    case Some(RemoteCompleted) => !p.historyRaises && p.history == HistoryInProgress
    case None => !p.historyRaises && p.history == HistoryInProgress
    case _ => false
  }

  // ---------- the writes ----------

  function CompletedPair(i: Item, saved: bool, images: seq<Artifact>): Item {
    if saved && ValidTransition(i.row.gen, GenStatus.Completed) && ValidTransition(i.row.job, GenStatus.Completed)
    then i.(row := i.row.(gen := GenStatus.Completed, job := GenStatus.Completed), images := images)
    else i
  }

  function FailedPair(i: Item, saved: bool): Item {
    if saved && FailGeneration(i.row).Some? then i.(row := FailGeneration(i.row).value) else i
  }

  /** `cancel_generation` of the recovery service keeps the queue entry as it is. */
  function CancelledPair(i: Item, saved: bool): Item {
    if saved then i.(row := CancelGeneration(i.row)) else i
  }

  /** A write that did not happen leaves the outcome open. */
  function Recorded(after: Item): (Outcome, Item) {
    var gen := after.row.gen;
    (if gen.Completed? then OutcomeCompleted else if gen.Failed? then OutcomeFailed else OutcomeUnavailable, after)
  }

  // ---------- the two paths ----------

  /** `reconcile_prompt`. */
  function Reconciled(i: Item, p: Probe): (Outcome, Item) {
    if i.row.gen.Completed? then (OutcomeCompleted, i)
    else if i.row.gen.Terminal() then (OutcomeFailed, i)
    else if i.images != [] then
      Recorded(CompletedPair(i, p.completionSaved, i.images))
    else match VerdictOf(p)
      case Missing => (OutcomeNotFound, i)
      case Interruption => (OutcomeCancelled, i)
      case Failure => Recorded(FailedPair(i, p.failureSaved))
      case Keep => (if InProgress(p) then OutcomeInProgress else OutcomeUnavailable, i)
      case Finished =>
        if p.outputs == [] then (OutcomeInProgress, i)
        else match FetchAll(p.outputs)
          case Again => (OutcomeUnavailable, i)
          case Wrong => Recorded(FailedPair(i, p.failureSaved))
          case Stored(images) =>
            Recorded(CompletedPair(i, p.completionSaved, Numbered(images)))
  }

  /** `_reconcile_item`: an interruption cancels. */
  function Settled(i: Item, p: Probe): Item {
    var (outcome, after) := Reconciled(i, p);
    if outcome == OutcomeCancelled && p.cancelSaved then after.(row := MarkCancelled(after.row)) else after
  }

  /** The worker's round over unfinished items also fails a prompt that stayed missing for the grace period. */
  function WorkerSettles(i: Item, p: Probe): Item {
    var after := Settled(i, p);
    if Reconciled(i, p).0 == OutcomeNotFound && after.stale && p.failureSaved
    then after.(row := FailUnfinished(after.row)) else after
  }

  /** What the interruption of a running prompt gives; the call may raise. */
  datatype CancelAnswer =
    | PromptCancelled | PromptCompleted | PromptFailed | PromptNotFound | PromptUnclear | CancelRaises

  /** The worker, for an item that was asked to stop: without a prompt it is cancelled if its submission has not begun;
      with one ComfyUI is asked to cancel it, and the answer decides. */
  function CancelSettles(i: Item, p: Probe, answer: Option<CancelAnswer>): Item {
    if i.row.prompt == None then
      if i.row.submission == Ready && p.cancelSaved then i.(row := MarkCancelled(i.row)) else i
    else match answer
      case Some(PromptCancelled) => if p.cancelSaved then i.(row := MarkCancelled(i.row)) else i
      case Some(PromptCompleted) => Settled(i, p)
      case Some(PromptFailed) => Settled(i, p)
      case Some(PromptNotFound) => if i.stale && p.failureSaved then i.(row := FailUnfinished(i.row)) else i
      case _ => i
  }

  /** `recover`, for a job that carries a prompt ID; its completed branch calls the same reconciliation. */
  function RecoverySettles(i: Item, p: Probe): Item {
    if i.row.gen.Terminal() then i
    else match VerdictOf(p)
      case Keep => i
      case Missing => if i.stale then FailedPair(i, p.failureSaved) else i
      case Interruption => CancelledPair(i, p.cancelSaved)
      case Failure => FailedPair(i, p.failureSaved)
      case Finished => Reconciled(i, p).1
  }

  /** `recover`, for any job; `overdue` says that a job without a prompt ID has waited too long for one. */
  function Recovered(i: Item, p: Probe, overdue: bool): Item {
    if i.row.prompt.Some? then RecoverySettles(i, p)
    else if i.row.gen.Pending? && overdue then FailedPair(i, p.failureSaved)
    else i
  }

  // ---------- what ComfyUI reports ----------

  predicate RemoteSays(p: Probe, status: RemoteStatus) {
    p.remote == Some(status) && !p.remoteRaises
  }

  /** The history is asked when there is no status reader, and when that reader only says that the prompt completed. */
  predicate HistorySays(p: Probe, status: HistoryStatus) {
    (p.remote == None || RemoteSays(p, RemoteCompleted)) && !p.historyRaises && p.history == status
  }

  predicate ReportsFailed(p: Probe) {
    RemoteSays(p, RemoteFailed) || HistorySays(p, HistoryFailed)
  }

  predicate ReportsInterrupted(p: Probe) {
    RemoteSays(p, RemoteCancelled) || HistorySays(p, Interrupted)
  }

  predicate ReportsMissing(p: Probe) {
    RemoteSays(p, RemoteNotFound) || HistorySays(p, HistoryNotFound)
  }

  predicate ReportsFinished(p: Probe) {
    HistorySays(p, HistoryCompleted)
  }

  predicate ReportsProgress(p: Probe) {
    RemoteSays(p, RemotePending) || RemoteSays(p, RemoteInProgress) || HistorySays(p, HistoryInProgress)
  }

  predicate AllImages(outputs: seq<Output>) {
    forall k :: 0 <= k < |outputs| ==> outputs[k].Image?
  }

  /** An output of a wrong size, and only images before it. */
  predicate WrongFirst(outputs: seq<Output>) {
    exists k :: 0 <= k < |outputs| && outputs[k].WrongSize? && forall j :: 0 <= j < k ==> outputs[j].Image?
  }

  /** There is a stored image, or the prompt has finished with nothing but images. */
  predicate Completes(i: Item, p: Probe) {
    i.images != [] || (ReportsFinished(p) && p.outputs != [] && AllImages(p.outputs))
  }

  /** The prompt failed, or finished with an upscale of a wrong size, and no image is stored. */
  predicate Fails(i: Item, p: Probe) {
    i.images == [] && (ReportsFailed(p) || (ReportsFinished(p) && WrongFirst(p.outputs)))
  }

  lemma VerdictIsTheReport(p: Probe)
    ensures VerdictOf(p) == Failure <==> ReportsFailed(p)
    ensures VerdictOf(p) == Interruption <==> ReportsInterrupted(p)
    ensures VerdictOf(p) == Missing <==> ReportsMissing(p)
    ensures VerdictOf(p) == Finished <==> ReportsFinished(p)
    ensures VerdictOf(p) == Keep && InProgress(p) <==> ReportsProgress(p)
  {
  }

  lemma {:induction false} FetchAllIff(outputs: seq<Output>)
    ensures FetchAll(outputs).Stored? <==> AllImages(outputs)
    ensures FetchAll(outputs).Wrong? <==> WrongFirst(outputs)
    ensures FetchAll(outputs).Stored? ==> |FetchAll(outputs).images| == |outputs|
    ensures FetchAll(outputs).Stored? ==>
      forall k :: 0 <= k < |outputs| ==> FetchAll(outputs).images[k] == outputs[k].sha256
  {
    if outputs != [] {
      var rest := outputs[1..];
      FetchAllIff(rest);
      assert forall k :: 0 <= k < |rest| ==> rest[k] == outputs[k + 1];
      if WrongFirst(outputs) && outputs[0].Image? {
        var k :| 0 <= k < |outputs| && outputs[k].WrongSize? && forall j :: 0 <= j < k ==> outputs[j].Image?;
        assert rest[k - 1].WrongSize? && forall j :: 0 <= j < k - 1 ==> rest[j].Image?;
      }
      if WrongFirst(rest) && outputs[0].Image? {
        var k :| 0 <= k < |rest| && rest[k].WrongSize? && forall j :: 0 <= j < k ==> rest[j].Image?;
        assert outputs[k + 1].WrongSize? && forall j :: 0 <= j < k + 1 ==> outputs[j].Image?;
      }
    }
  }

  // ---------- what becomes of the row ----------

  /** The stored images stay, and fetched ones are the outputs in order. */
  ghost predicate ShowsTheImages(i: Item, p: Probe, t: Item) {
    if i.images != [] then t.images == i.images
    else |t.images| == |p.outputs| && forall k :: 0 <= k < |p.outputs| ==>
      p.outputs[k].Image? && t.images[k] == Artifact(p.outputs[k].sha256, k)
  }

  /** `t` is `i`, or `i` ended as COMPLETED with its images or as FAILED. */
  ghost predicate Ends(i: Item, p: Probe, t: Item, completed: bool, failed: bool) {
    && (t.row.gen.Completed? <==> completed)
    && (t.row.gen.Failed? <==> failed)
    && (completed ==> t.row == i.row.(gen := Completed, job := Completed) && ShowsTheImages(i, p, t))
    && (failed ==> t.images == i.images && t.row == i.row.(gen := Failed, job := Failed, code := OtherCode))
    && t.stale == i.stale
  }

  /** The reconciliation of an unfinished row completes it exactly on images, fails it exactly on a failure and leaves
      it alone otherwise, and its outcome is what ComfyUI reported. */
  lemma ReconciledIff(i: Item, p: Probe)
    requires i.row.gen == i.row.job && !i.row.gen.Terminal()
    ensures var (outcome, t) := Reconciled(i, p);
      && Ends(i, p, t, Completes(i, p) && p.completionSaved, Fails(i, p) && p.failureSaved)
      && (!t.row.gen.Completed? && !t.row.gen.Failed? ==> t == i)
      && (outcome == OutcomeCompleted <==> t.row.gen.Completed?) && (outcome == OutcomeFailed <==> t.row.gen.Failed?)
      && (outcome == OutcomeCancelled <==> i.images == [] && ReportsInterrupted(p))
      && (outcome == OutcomeNotFound <==> i.images == [] && ReportsMissing(p))
      && (outcome == OutcomeInProgress <==>
            i.images == [] && (ReportsProgress(p) || (ReportsFinished(p) && p.outputs == [])))
  {
    VerdictIsTheReport(p);
    FetchAllIff(p.outputs);
    hide FetchAll, VerdictOf, InProgress, ReportsFailed, ReportsInterrupted, ReportsMissing, ReportsFinished;
    hide ReportsProgress, WrongFirst;
    assert p.outputs == [] ==> FetchAll(p.outputs).Stored?;
  }

  /** The worker leaves terminal rows alone. An unfinished row is completed exactly on images, cancelled exactly when
      ComfyUI reports the prompt cancelled or interrupted, and failed exactly when it reports a failure, a wrong output,
      or no prompt after the grace period, each if that write is saved; in every other case it stays as it is. */
  lemma WorkerSettlesIff(i: Item, p: Probe)
    requires i.row.gen == i.row.job
    ensures var t := WorkerSettles(i, p);
      if i.row.gen.Terminal() then t == i
      else
        var missing := i.images == [] && ReportsMissing(p) && i.stale;
        && t.row.gen == t.row.job
        && (t.row.gen.Completed? <==> Completes(i, p) && p.completionSaved)
        && (t.row.gen.Cancelled? <==> i.images == [] && ReportsInterrupted(p) && p.cancelSaved)
        && (t.row.gen.Failed? <==> (Fails(i, p) || missing) && p.failureSaved)
        && (t.row.gen.Completed? ==> ShowsTheImages(i, p, t))
        && (!t.row.gen.Completed? ==> t.images == i.images)
        && (!t.row.gen.Terminal() ==> t == i)
  {
    if !i.row.gen.Terminal() {
      ReconciledIff(i, p);
      VerdictIsTheReport(p);
      hide Reconciled, VerdictOf, Completes, ShowsTheImages;
    }
  }

  /** An unfinished item that was asked to stop is cancelled exactly if no submission has begun, ComfyUI cancelled its
      prompt, or says that the prompt is over and reports an interruption; it is completed only on images, failed only
      on a failure or when the prompt has been missing for the grace period, and otherwise left for another try. */
  lemma CancelSettlesIff(i: Item, p: Probe, answer: Option<CancelAnswer>)
    requires i.row.gen == i.row.job && !i.row.gen.Terminal()
    ensures var t := CancelSettles(i, p, answer);
      var asked := i.row.prompt.Some?;
      var over := asked && (answer == Some(PromptCompleted) || answer == Some(PromptFailed));
      && (t.row.gen.Cancelled? <==>
            && p.cancelSaved
            && ((!asked && i.row.submission == Ready) || (asked && answer == Some(PromptCancelled)) ||
                (over && i.images == [] && ReportsInterrupted(p))))
      && (t.row.gen.Completed? <==> over && Completes(i, p) && p.completionSaved)
      && (t.row.gen.Failed? <==>
            && p.failureSaved
            && ((over && Fails(i, p)) || (asked && answer == Some(PromptNotFound) && i.stale)))
      && (!t.row.gen.Terminal() ==> t == i)
  {
    ReconciledIff(i, p);
    VerdictIsTheReport(p);
    hide Reconciled, VerdictOf, Completes, ShowsTheImages;
  }

  /** With a prompt ID. */
  lemma RecoverySettlesIff(i: Item, p: Probe)
    requires i.row.gen == i.row.job && !i.row.gen.Terminal()
    ensures var t := RecoverySettles(i, p);
      var failed := ReportsFailed(p) || (ReportsMissing(p) && i.stale) || (ReportsFinished(p) && Fails(i, p));
      && Ends(i, p, t, ReportsFinished(p) && Completes(i, p) && p.completionSaved, failed && p.failureSaved)
      && (t.row.gen.Cancelled? <==> ReportsInterrupted(p) && p.cancelSaved)
      && (t.row.gen.Cancelled? ==> t == i.(row := i.row.(gen := Cancelled, job := Cancelled)))
      && (!t.row.gen.Terminal() ==> t == i)
  {
    ReconciledIff(i, p);
    VerdictIsTheReport(p);
    hide Reconciled, VerdictOf, Completes, ShowsTheImages;
  }

  /** The recovery leaves terminal rows alone. Without a prompt ID it fails exactly the overdue pending ones. With one
      it completes exactly what has finished with images or has a stored image, cancels exactly what was cancelled or
      interrupted and fails exactly what failed or stayed missing for the grace period, each if that write is saved. */
  lemma RecoveredIff(i: Item, p: Probe, overdue: bool)
    requires i.row.gen == i.row.job
    ensures var t := Recovered(i, p, overdue);
      if i.row.gen.Terminal() then t == i
      else if i.row.prompt == None then
        && (t == i || t == i.(row := i.row.(gen := Failed, job := Failed, code := OtherCode)))
        && (t.row.gen.Failed? <==> i.row.gen.Pending? && overdue && p.failureSaved)
      else
        && t.row == i.row.(gen := t.row.gen, job := t.row.gen, code := if t.row.gen.Failed? then OtherCode
                           else i.row.code)
        && (t.row.gen.Completed? <==> ReportsFinished(p) && Completes(i, p) && p.completionSaved)
        && (t.row.gen.Cancelled? <==> ReportsInterrupted(p) && p.cancelSaved)
        && (t.row.gen.Failed? <==>
              && p.failureSaved
              && (ReportsFailed(p) || (ReportsMissing(p) && i.stale) || (ReportsFinished(p) && Fails(i, p))))
        && (t.row.gen.Completed? ==> ShowsTheImages(i, p, t))
        && (!t.row.gen.Terminal() ==> t == i)
  {
    if !i.row.gen.Terminal() {
      RecoverySettlesIff(i, p);
      hide RecoverySettles, VerdictOf, Completes, ShowsTheImages;
    }
  }

  /** The images a recovery stores are exactly the outputs in order, numbered 0 to n-1. */
  lemma CompletedImagesAreTheOutputs(i: Item, p: Probe)
    requires i.images == [] && !i.row.gen.Terminal() && WorkerSettles(i, p).row.gen.Completed?
    ensures var t := WorkerSettles(i, p);
      && Contiguous(t.images) && |t.images| == |p.outputs| > 0
      && forall k :: 0 <= k < |p.outputs| ==> p.outputs[k].Image? && t.images[k] == Artifact(p.outputs[k].sha256, k)
  {
    FetchAllIff(p.outputs);
  }

  // ---------- agreement ----------

  predicate SameDecision(i: Item, p: Probe) {
    var (a, b) := (WorkerSettles(i, p), RecoverySettles(i, p));
    a.row.gen == b.row.gen && a.row.job == b.row.job && a.images == b.images
  }

  /** For an unfinished row whose writes succeed, the worker and the recovery service reach the same decision exactly
      when there is no stored primary image or ComfyUI says the prompt is finished. */
  lemma PathsAgreeIff(i: Item, p: Probe)
    requires i.row.gen == i.row.job && !i.row.gen.Terminal()
    requires p.completionSaved && p.failureSaved && p.cancelSaved
    ensures SameDecision(i, p) <==> i.images == [] || ReportsFinished(p)
  {
    VerdictIsTheReport(p);
  }

  // ---------- the services ----------

  class ReconciliationService {
    var item: Item

    constructor (item: Item)
      ensures this.item == item
    {
      this.item := item;
    }

    /** Fetches and stores the outputs one by one; the first problem ends the reconciliation. */
    method StoreOutputs(outputs: seq<Output>) returns (fetched: Fetched)
      ensures fetched == FetchAll(outputs)
    {
      var images: seq<nat> := [];
      for k := 0 to |outputs|
        invariant FetchAll(outputs) ==
          match FetchAll(outputs[k..]) case Stored(rest) => Stored(images + rest) case other => other
      {
        assert outputs[k..][0] == outputs[k] && outputs[k..][1..] == outputs[k + 1..];
        match outputs[k] {
          case Unusable => return Again;
          case WrongSize => return Wrong;
          case Image(sha256) =>
            match FetchAll(outputs[k + 1..]) {
              case Stored(rest) => assert images + ([sha256] + rest) == images + [sha256] + rest;
              case _ =>
            }
            images := images + [sha256];
        }
      }
      assert images + [] == images;
      fetched := Stored(images);
    }

    method MarkFailedPair(saved: bool) returns (outcome: Outcome)
      requires !item.row.gen.Terminal()
      modifies this
      ensures item == FailedPair(old(item), saved)
      ensures outcome == if item.row.gen.Failed? then OutcomeFailed else OutcomeUnavailable
    {
      if item.row.gen != item.row.job || !saved {
        return OutcomeUnavailable;
      }
      item := item.(row := item.row.(gen := GenStatus.Failed, job := GenStatus.Failed, code := OtherCode));
      outcome := OutcomeFailed;
    }

    method CompleteJob(images: seq<Artifact>, saved: bool) returns (outcome: Outcome)
      requires !item.row.gen.Terminal()
      modifies this
      ensures item == CompletedPair(old(item), saved, images)
      ensures outcome == if item.row.gen.Completed? then OutcomeCompleted else OutcomeUnavailable
    {
      if !saved || !ValidTransition(item.row.gen, GenStatus.Completed) ||
        !ValidTransition(item.row.job, GenStatus.Completed) {
        return OutcomeUnavailable;
      }
      item := item.(row := item.row.(gen := GenStatus.Completed, job := GenStatus.Completed), images := images);
      outcome := OutcomeCompleted;
    }

    method ReconcilePrompt(p: Probe) returns (outcome: Outcome)
      modifies this
      ensures (outcome, item) == Reconciled(old(item), p)
    {
      if item.row.gen.Terminal() {
        return if item.row.gen.Completed? then OutcomeCompleted else OutcomeFailed;
      }
      if item.images != [] {
        outcome := CompleteJob(item.images, p.completionSaved);
        return;
      }
      if p.remote.Some? && p.remoteRaises {
        return OutcomeUnavailable;
      }
      match p.remote {
        case Some(RemoteNotFound) => return OutcomeNotFound;
        case Some(RemotePending) => return OutcomeInProgress;
        case Some(RemoteInProgress) => return OutcomeInProgress;
        case Some(RemoteCancelled) => return OutcomeCancelled;
        case Some(RemoteFailed) =>
          outcome := MarkFailedPair(p.failureSaved);
          return;
        case Some(RemoteUnavailable) => return OutcomeUnavailable;
        case _ =>
      }
      if p.historyRaises {
        return OutcomeUnavailable;
      }
      match p.history {
        case HistoryNotFound => return OutcomeNotFound;
        case Interrupted => return OutcomeCancelled;
        case HistoryFailed => outcome := MarkFailedPair(p.failureSaved);
        case HistoryCompleted => outcome := CompleteFromOutputs(p);
        case HistoryInProgress => return OutcomeInProgress;
        case Unknown => return OutcomeUnavailable;
      }
    }

    method CompleteFromOutputs(p: Probe) returns (outcome: Outcome)
      requires !item.row.gen.Terminal() && item.images == [] && VerdictOf(p) == Finished
      modifies this
      ensures (outcome, item) == Reconciled(old(item), p)
    {
      if p.outputs == [] {
        return OutcomeInProgress;
      }
      var fetched := StoreOutputs(p.outputs);
      match fetched {
        case Again => outcome := OutcomeUnavailable;
        case Wrong => outcome := MarkFailedPair(p.failureSaved);
        case Stored(images) => outcome := CompleteJob(Numbered(images), p.completionSaved);
      }
    }

    method ReconcileItem(p: Probe) returns (outcome: Outcome)
      modifies this
      ensures item == Settled(old(item), p) && outcome == Reconciled(old(item), p).0
    {
      outcome := ReconcilePrompt(p);
      if outcome == OutcomeCancelled && p.cancelSaved {
        item := item.(row := MarkCancelled(item.row));
      }
    }

    /** One unfinished item in the worker's `reconcile`, with the grace-period rule. */
    method SettleItem(p: Probe)
      modifies this
      ensures item == WorkerSettles(old(item), p)
    {
      var outcome := ReconcileItem(p);
      if outcome == OutcomeNotFound && item.stale && p.failureSaved {
        item := item.(row := FailUnfinished(item.row));
      }
    }

    /** The worker's `_cancel_item`. */
    method CancelItem(p: Probe, answer: Option<CancelAnswer>)
      modifies this
      ensures item == CancelSettles(old(item), p, answer)
    {
      if item.row.prompt == None {
        if item.row.submission == Ready && p.cancelSaved {
          item := item.(row := MarkCancelled(item.row));
        }
        return;
      }
      match answer {
        case Some(PromptCancelled) =>
          if p.cancelSaved {
            item := item.(row := MarkCancelled(item.row));
          }
        case Some(PromptCompleted) => var _ := ReconcileItem(p);
        case Some(PromptFailed) => var _ := ReconcileItem(p);
        case Some(PromptNotFound) =>
          if item.stale && p.failureSaved {
            item := item.(row := FailUnfinished(item.row));
          }
        case _ =>
      }
    }

    /** One pass of the `recover` loop over this job. */
    method RecoverJob(p: Probe, overdue: bool)
      modifies this
      ensures item == Recovered(old(item), p, overdue)
    {
      if item.row.gen.Terminal() {
        return;
      }
      if item.row.prompt.None? {
        if item.row.gen.Pending? && overdue {
          var _ := MarkFailedPair(p.failureSaved);
        }
        return;
      }
      if p.remote.Some? {
        var decided := RecoverFromRemote(p);
        if decided {
          return;
        }
      }
      RecoverFromHistory(p);
    }

    /** ComfyUI's own record of the prompt decides, unless it only says that the prompt has completed. */
    method RecoverFromRemote(p: Probe) returns (decided: bool)
      requires p.remote.Some? && !item.row.gen.Terminal()
      modifies this
      ensures decided == (p.remoteRaises || p.remote != Some(RemoteCompleted))
      ensures item == if decided then RecoverySettles(old(item), p) else old(item)
    {
      if p.remoteRaises {
        return true;
      }
      decided := true;
      match p.remote.value {
        case RemotePending =>
        case RemoteInProgress =>
        case RemoteUnavailable =>
        case RemoteNotFound => FailMissing(p);
        case RemoteCancelled => CancelGeneration(p.cancelSaved);
        case RemoteFailed => var _ := MarkFailedPair(p.failureSaved);
        case RemoteCompleted => decided := false;
      }
    }

    method RecoverFromHistory(p: Probe)
      requires !item.row.gen.Terminal() && (p.remote.None? || (p.remote == Some(RemoteCompleted) && !p.remoteRaises))
      modifies this
      ensures item == RecoverySettles(old(item), p)
    {
      if p.historyRaises {
        return;
      }
      match p.history {
        case HistoryNotFound => FailMissing(p);
        case Interrupted => CancelGeneration(p.cancelSaved);
        case HistoryFailed => var _ := MarkFailedPair(p.failureSaved);
        case HistoryCompleted => var _ := ReconcilePrompt(p);
        case HistoryInProgress =>
        case Unknown =>
      }
    }

    method FailMissing(p: Probe)
      requires !item.row.gen.Terminal()
      modifies this
      ensures item == if old(item).stale then FailedPair(old(item), p.failureSaved) else old(item)
    {
      if item.stale {
        var _ := MarkFailedPair(p.failureSaved);
      }
    }

    method CancelGeneration(saved: bool)
      requires !item.row.gen.Terminal()
      modifies this
      ensures item == CancelledPair(old(item), saved)
    {
      if saved && !item.row.job.Completed? && !item.row.job.Failed? {
        item := item.(row := item.row.(gen := GenStatus.Cancelled, job := GenStatus.Cancelled));
      }
    }
  }
}
