/** The lifecycle service object: each method is proved equal to the event its lock section performs, and the drain
    sequence is run against any activity of other threads at each of its awaits. */
module PodLifecycleService {
  import opened Wrappers
  import opened PodLifecycle
  import R = RemotePaths

  datatype GenerationStatus = Pending | Queued | Running | Completed | FailedGeneration | CancelledGeneration

  /** The drive record of a Generation; reading it may raise. */
  datatype DriveRecord = DriveSynced | DriveFailed | DriveUnfinished | NoRecord | RecordRaises

  datatype ManifestState = ManifestSynced | ManifestFailed | ManifestUnfinished | ManifestRaises

  /** A Generation of this session with what the drive and manifest checks read about it: its record, the remote path
      of its image, and the manifests of the record's destination by date. */
  datatype GenerationView = GenerationView(
    status: GenerationStatus, drive: DriveRecord, imagePath: string, manifests: map<string, ManifestState>)
  {
    /** The lookup by the first folder of the path, which must be an ISO date. */
    function Manifest(): ManifestState {
      var date := R.FirstFolder(imagePath);
      if R.FromIso(date).None? then ManifestRaises
      else if date in manifests then manifests[date] else ManifestUnfinished
    }
  }

  datatype BackupView = BackupView(enabled: bool, inProgress: bool, failed: bool, clean: bool, hasLatestRemote: bool)

  /** What the readiness checks see; `None` is a read that raised. The counts are those of unfinished work. */
  datatype Observation = Observation(
    identityReady: bool, generations: Option<seq<GenerationView>>, workActive: Option<bool>,
    comfyuiPrompts: Option<nat>, transfers: Option<nat>, driveJobs: Option<nat>, manifestJobs: Option<bool>,
    backup: Option<BackupView>)

  datatype Reason =
    | TerminationAlreadyRequested | IdentityMissing | GenerationNotCompleted | GenerationFailed | GenerationCancelled
    | GenerationWorkActive | ComfyUiActive | ComfyUiUnavailable | ModelTransferActive | DriveNotSynced | DriveSyncFailed
    | DriveSyncActive | ManifestActive | ManifestNotSynced | ManifestSyncFailed | BackupDisabled | BackupActive
    | BackupFailed | BackupDirty

  /** The awaits of a drain sequence. */
  datatype Await = InitialCheck | FirstCheck | FinalBackup | LastCheck | DeleteCheck | DeleteAnswer

  /** The answers a drain sequence gets, what other threads do to the session at each await, and the await at which its
      task is cancelled, if any. */
  datatype DrainRun = DrainRun(
    initial: Observation, first: Observation, backupRaises: bool, last: Observation, atDelete: Observation,
    answer: Answer, beginSaves: bool, claimSaves: bool, answerSaves: bool, abortSaves: bool,
    duringChecks: seq<Event>, duringBackup: seq<Event>, beforeClaim: seq<Event>, duringDelete: seq<Event>,
    cancelledAt: Option<Await>)

  predicate AllCompleted(generations: seq<GenerationView>) {
    generations != [] && forall g :: g in generations ==> g.status == Completed
  }

  /** What a DELETE needs: every Generation of the session completed, its images and metadata on the drive, its day's
      manifest written, nothing else under way, and a clean backup of the database. */
  predicate AllPassed(o: Observation) {
    && o.identityReady && o.generations.Some? && AllCompleted(o.generations.value) && o.workActive == Some(false)
    && o.comfyuiPrompts == Some(0) && o.transfers == Some(0) && o.driveJobs == Some(0) && o.manifestJobs == Some(false)
    && (forall g :: g in o.generations.value ==> g.drive == DriveSynced && g.Manifest() == ManifestSynced)
    && o.backup.Some? && BackupReady(o.backup.value)
  }

  predicate BackupReady(b: BackupView) {
    b.enabled && !b.inProgress && !b.failed && b.clean && b.hasLatestRemote
  }

  predicate AnyWith(gs: seq<GenerationView>, status: GenerationStatus) {
    exists k :: 0 <= k < |gs| && gs[k].status == status
  }

  lemma AnyWithSnoc(gs: seq<GenerationView>, g: GenerationView, status: GenerationStatus)
    ensures AnyWith(gs + [g], status) <==> AnyWith(gs, status) || g.status == status
  {
    if AnyWith(gs, status) {
      var k :| 0 <= k < |gs| && gs[k].status == status;
      assert (gs + [g])[k].status == status;
    }
    assert (gs + [g])[|gs|] == g;
  }

  predicate Unfinished(gs: seq<GenerationView>) {
    AnyWith(gs, Pending) || AnyWith(gs, Queued) || AnyWith(gs, Running)
  }

  lemma OnlyCompletedLeft(gs: seq<GenerationView>)
    ensures AllCompleted(gs) <==>
      AnyWith(gs, Completed) && !AnyWith(gs, FailedGeneration) && !AnyWith(gs, CancelledGeneration) && !Unfinished(gs)
  {
    if gs != [] {
      assert gs[0] in gs;
    }
    forall g | g in gs && g.status != Completed ensures AnyWith(gs, g.status) {
      var k :| 0 <= k < |gs| && gs[k] == g;
    }
  }

  /** The record is there, whatever its own status, and the manifest of its day is synced. */
  predicate HasManifest(g: GenerationView) {
    g.drive != NoRecord && g.drive != RecordRaises && g.Manifest() == ManifestSynced
  }

  /** The completed ones, in order. */
  function Completions(gs: seq<GenerationView>): (r: seq<GenerationView>)
    ensures forall g :: g in r <==> g in gs && g.status == Completed
    ensures r != [] <==> AnyWith(gs, Completed)
  {
    if gs == [] then []
    else
      var init, last := gs[..|gs| - 1], gs[|gs| - 1];
      assert gs == init + [last];
      AnyWithSnoc(init, last, Completed);
      if last.status == Completed then Completions(init) + [last] else Completions(init)
  }

  predicate SafeToTerminate(s: Session, o: Observation) {
    s.status != Requesting && s.status != Ambiguous && AllPassed(o)
  }

  /** The check is never safe for a Generation stored in the current layout: the name of its folder is no date, the
      lookup of the manifest raises, and no DELETE follows, however complete the drive and the manifests are. */
  lemma CurrentLayoutIsNeverSafe(s: Session, o: Observation, g: GenerationView, idPrefix: string, kind: R.Kind,
                                 created: R.Date, time: R.Time, completed: R.Date, order: nat, count: nat)
    requires o.generations.Some? && g in o.generations.value
    requires completed.Valid() && '.' !in idPrefix && order < count
    requires var paths := R.BuildRemotePaths(idPrefix, kind, created, time, completed);
      g.imagePath == R.BuildRemoteImagePath(paths.imagePath, order, count)
    ensures !SafeToTerminate(s, o)
  {
    R.FolderOfImagePath(idPrefix, kind, created, time, completed, order, count);
    hide R.FromIso, R.FirstFolder, R.BuildRemoteImagePath, R.BuildRemotePaths;
  }

  function StatusAfter(answer: Answer, saved: bool): PodStatus {
    if answer == Accepted || !saved then Requesting
    else if answer == ConfirmedFailure then TerminationFailed
    else Ambiguous
  }

  // ---------- what becomes of a drain sequence ----------

  /** The session at the end of an await: DRAINING was entered or joined, and other threads have run. */
  ghost function LeftAt(p: Pod, run: DrainRun, at: Await): Pod {
    if at == InitialCheck then p
    else
      var checked := Run(Apply(p, Event.BeginDraining), run.duringChecks);
      if at == FirstCheck then checked
      else
        var backedUp := Run(checked, run.duringBackup);
        if at == FinalBackup || at == LastCheck then backedUp else Run(backedUp, run.beforeClaim)
  }

  /** A manual sequence is checked first; then DRAINING is entered, or joined. */
  ghost predicate Begins(p: Pod, requireArmed: bool, run: DrainRun) {
    && (requireArmed || (run.cancelledAt != Some(InitialCheck) && SafeToTerminate(p.session, run.initial)))
    && (p.session.status == Draining ||
        (p.session.status != Requesting && p.session.status != Ambiguous && run.beginSaves))
  }

  /** Both checks around the final backup pass, and the backup returns. */
  ghost predicate Prepares(p: Pod, run: DrainRun) {
    && run.cancelledAt != Some(FirstCheck) && run.cancelledAt != Some(FinalBackup) && run.cancelledAt != Some(LastCheck)
    && AllPassed(run.first) && !run.backupRaises && SafeToTerminate(LeftAt(p, run, LastCheck).session, run.last)
  }

  /** The last check passes, and the claim finds the session DRAINING, and armed if that is required. */
  ghost predicate Requests(before: Session, claimed: Session, requireArmed: bool, run: DrainRun) {
    && run.cancelledAt != Some(DeleteCheck) && SafeToTerminate(before, run.atDelete)
    && claimed.status == Draining && (requireArmed ==> claimed.IsArmed()) && run.claimSaves
  }

  /** A DELETE goes out. */
  ghost predicate Sends(p: Pod, requireArmed: bool, run: DrainRun) {
    && Begins(p, requireArmed, run) && Prepares(p, run)
    && Requests(LeftAt(p, run, LastCheck).session, LeftAt(p, run, DeleteCheck).session, requireArmed, run)
  }

  /** The sequence comes to the await at which its task is cancelled. */
  ghost predicate IsCancelled(p: Pod, requireArmed: bool, run: DrainRun) {
    match run.cancelledAt
    case None => false
    case Some(InitialCheck) => !requireArmed
    case Some(FirstCheck) => Begins(p, requireArmed, run)
    case Some(FinalBackup) => Begins(p, requireArmed, run) && AllPassed(run.first)
    case Some(LastCheck) => Begins(p, requireArmed, run) && AllPassed(run.first) && !run.backupRaises
    case Some(DeleteCheck) => Begins(p, requireArmed, run) && Prepares(p, run)
    case Some(DeleteAnswer) => Sends(p, requireArmed, run)
  }

  /** The session in which a sequence without a DELETE ends, before it aborts. */
  ghost function Unsent(p: Pod, requireArmed: bool, run: DrainRun): Pod {
    if !Begins(p, requireArmed, run) then p
    else if run.cancelledAt == Some(FirstCheck) || !AllPassed(run.first) then LeftAt(p, run, FirstCheck)
    else LeftAt(p, run, if Prepares(p, run) then DeleteCheck else LastCheck)
  }

  /** A safe Pod is terminated: when every check passes, the backup returns, the writes are saved, nobody takes the
      session out of DRAINING meanwhile and nothing is cancelled, the DELETE goes out. */
  lemma SafeDrainSends(p: Pod, requireArmed: bool, run: DrainRun)
    requires !p.session.Blocked() && run.cancelledAt == None && !run.backupRaises && run.beginSaves && run.claimSaves
    requires AllPassed(run.initial) && AllPassed(run.first) && AllPassed(run.last) && AllPassed(run.atDelete)
    requires DrainsThrough(Apply(p, Event.BeginDraining), run.duringChecks + run.duringBackup + run.beforeClaim)
    requires requireArmed ==> p.session.IsArmed()
    ensures Sends(p, requireArmed, run)
  {
    var begun := Apply(p, Event.BeginDraining);
    var (first, second, third) := (run.duringChecks, run.duringBackup, run.beforeClaim);
    RunSplits(begun, first + second, third);
    RunSplits(begun, first, second);
    hide Run;
    DrainingThroughout(begun, first + second + third, |first + second|);
    assert (first + second + third)[..|first + second|] == first + second;
    DrainingThroughout(begun, first + second + third, |first + second + third|);
    assert (first + second + third)[..|first + second + third|] == first + second + third;
    ArmedOnce(begun, first + second + third);
  }

  /** After each of these events the session is DRAINING. */
  ghost predicate DrainsThrough(p: Pod, es: seq<Event>)
    decreases |es|
  {
    p.session.status == Draining && (es == [] || DrainsThrough(Apply(p, es[0]), es[1..]))
  }

  lemma {:induction false} DrainingThroughout(p: Pod, es: seq<Event>, k: nat)
    requires DrainsThrough(p, es) && k <= |es|
    ensures Run(p, es[..k]).session.status == Draining
    decreases k
  {
    if k > 0 {
      DrainingThroughout(Apply(p, es[0]), es[1..], k - 1);
      assert es[..k][1..] == es[1..][..k - 1];
    }
  }

  /** DRAINING ends only by an abort or a claimed DELETE, so after a cancelled sequence no work is admitted until
      another drain sequence fails. */
  lemma {:induction false} DrainingStays(p: Pod, es: seq<Event>)
    requires PodInv(p) && p.session.status == Draining
    requires forall i :: 0 <= i < |es| ==> es[i] != Event.AbortDraining && !es[i].Claim?
    ensures Run(p, es).session.status == Draining && Run(p, es).session.Blocked() && Run(p, es).deletes == p.deletes
    decreases |es|
  {
    if es != [] {
      StepKeepsPodInv(p, es[0]);
      assert forall i :: 0 <= i < |es[1..]| ==> es[1..][i] == es[i + 1];
      DrainingStays(Apply(p, es[0]), es[1..]);
    }
  }

  class PodLifecycleService {
    var session: Session
    var deletes: seq<Option<Answer>>
    ghost const start: Pod
    ghost var trace: seq<Event>

    ghost function State(): Pod
      reads this
    {
      Pod(session, deletes)
    }

    ghost predicate Valid()
      reads this
    {
      PodInv(start) && Run(start, trace) == State() && PodInv(State())
    }

    constructor (autoTerminate: bool)
      ensures Valid() && State() == NewPod(autoTerminate) && trace == []
    {
      session := Session(Idle, autoTerminate, None);
      deletes := [];
      trace, start := [], NewPod(autoTerminate);
    }

    ghost method Record(e: Event)
      requires PodInv(start) && PodInv(Run(start, trace)) && State() == Apply(Run(start, trace), e)
      modifies this`trace
      ensures Valid() && trace == old(trace) + [e]
    {
      RunSplits(start, trace, [e]);
      assert [e][1..] == [];
      StepKeepsPodInv(Run(start, trace), e);
      trace := trace + [e];
    }

    method EnsureWorkAllowed() returns (allowed: bool)
      ensures allowed <==> !session.Blocked()
    {
      allowed := session.status != Draining && session.status != Requesting && session.status != Ambiguous;
    }

    method ArmOnGenerationEnqueue(now: int, saves: bool) returns (refused: Option<Refusal>)
      requires Valid()
      modifies this
      ensures Valid() && State() == if saves then Apply(old(State()), Enqueue(now)) else old(State())
      ensures refused ==
        if old(session).Blocked() then Some(WorkBlocked)
        else if old(session).status != TerminationFailed && !saves then Some(PersistenceFailed)
        else None
      ensures refused == None && old(session).status != TerminationFailed ==>
        session.status == Armed && session.armedAt.Some? && session.autoTerminate == old(session).autoTerminate &&
        session.armedAt == if old(session).armedAt.Some? then old(session).armedAt else Some(now)
      ensures refused.Some? || old(session).status == TerminationFailed ==> session == old(session)
    {
      var allowed := EnsureWorkAllowed();
      if !allowed {
        return Some(WorkBlocked);
      }
      if session.status == TerminationFailed {
        return None;
      }
      if !saves {
        return Some(PersistenceFailed);
      }
      session := session.(armedAt := if session.armedAt.Some? then session.armedAt else Some(now), status := Armed);
      Record(Enqueue(now));
      refused := None;
    }

    method SetAutoTerminateEnabled(enabled: bool, saves: bool) returns (refused: Option<Refusal>)
      requires Valid()
      modifies this
      ensures Valid() && State() == if saves then Apply(old(State()), Toggle(enabled)) else old(State())
      ensures refused == if !old(session).Blocked() && !saves then Some(PersistenceFailed) else None
    {
      var allowed := EnsureWorkAllowed();
      if !allowed {
        return None;
      }
      if !saves {
        return Some(PersistenceFailed);
      }
      session := session.(
        autoTerminate := enabled,
        status := if enabled && session.armedAt.Some? then Armed else if !enabled then Idle else session.status);
      Record(Toggle(enabled));
      refused := None;
    }

    /** A drain that is already under way is joined silently. */
    method BeginDraining(saves: bool) returns (refused: Option<Refusal>)
      requires Valid()
      modifies this
      ensures Valid() && State() == if saves then Apply(old(State()), Event.BeginDraining) else old(State())
      ensures refused ==
        if old(session).status == Draining then None
        else if old(session).status == Requesting || old(session).status == Ambiguous then Some(AlreadyRequested)
        else if saves then None else Some(PersistenceFailed)
      ensures if refused == None then session.status == Draining else session == old(session)
    {
      if session.status == Draining {
        return None;
      }
      if session.status == Requesting || session.status == Ambiguous {
        return Some(AlreadyRequested);
      }
      if !saves {
        return Some(PersistenceFailed);
      }
      session := session.(status := Draining);
      Record(Event.BeginDraining);
      refused := None;
    }

    method AbortDraining(saves: bool) returns (refused: Option<Refusal>)
      requires Valid()
      modifies this
      ensures Valid() && State() == if saves then Apply(old(State()), Event.AbortDraining) else old(State())
      ensures saves ==> session.status != Draining
      ensures refused == if old(session).status == Draining && !saves then Some(PersistenceFailed) else None
    {
      if session.status != Draining {
        return None;
      }
      if !saves {
        return Some(PersistenceFailed);
      }
      session := session.(status := if session.armedAt.Some? then Armed else Idle);
      Record(Event.AbortDraining);
      refused := None;
    }

    method SetTransientState(target: PodStatus, saves: bool) returns (moved: Result<bool, Refusal>)
      requires Valid()
      modifies this
      ensures Valid() && State() == if saves then Apply(old(State()), SetTransient(target)) else old(State())
      ensures moved == Err(InvalidTransition) <==> target != Waiting && target != Ready
      ensures moved == Ok(true) <==>
        saves && ((target == Waiting && old(session).status == Armed) ||
                  (target == Ready && old(session).status == Waiting))
      ensures if moved == Ok(true) then session == old(session).(status := target) else session == old(session)
    {
      if target != Waiting && target != Ready {
        return Err(InvalidTransition);
      }
      if session.status != (if target == Waiting then Armed else Waiting) {
        return Ok(false);
      }
      if !saves {
        return Err(PersistenceFailed);
      }
      session := session.(status := target);
      Record(SetTransient(target));
      moved := Ok(true);
    }

    method ResetGraceToArmed(saves: bool) returns (reset: Result<bool, Refusal>)
      requires Valid()
      modifies this
      ensures Valid() && State() == if saves then Apply(old(State()), ResetGrace) else old(State())
      ensures reset == Ok(true) <==> saves && (old(session).status == Waiting || old(session).status == Ready)
      ensures if reset == Ok(true) then session == old(session).(status := Armed) else session == old(session)
    {
      if session.status != Waiting && session.status != Ready {
        return Ok(false);
      }
      if !saves {
        return Err(PersistenceFailed);
      }
      session := session.(status := Armed);
      Record(ResetGrace);
      reset := Ok(true);
    }

    /** Safe only when no reason was collected; a read that raises is one. */
    method CheckReadiness(o: Observation) returns (safe: bool, reasons: seq<Reason>)
      ensures safe <==> SafeToTerminate(session, o)
      ensures safe <==> reasons == []
    {
      reasons := [];
      if session.status == Requesting || session.status == Ambiguous {
        reasons := reasons + [TerminationAlreadyRequested];
      }
      if !o.identityReady {
        reasons := reasons + [IdentityMissing];
      }
      var generationReady, more := CheckGenerations(o);
      reasons := reasons + more;
      if o.workActive != Some(false) {
        reasons := reasons + [GenerationWorkActive];
      }
      var generations := if o.generations.Some? then o.generations.value else [];
      OnlyCompletedLeft(generations);
      hide BackupReady, AnyWith;
      var queues := CheckQueues(o);
      var driveReady, drive := CheckDriveSync(generations, o.driveJobs);
      var manifestReady, manifest := CheckManifest(generations, o.manifestJobs);
      var backupReady, backup := CheckStateBackup(o.backup);
      reasons := reasons + queues + drive + manifest + backup;
      safe := generationReady && o.identityReady && driveReady && manifestReady && backupReady && reasons == [];
    }

    /** The Generations of this session: at least one, and all completed. */
    static method CheckGenerations(o: Observation) returns (ready: bool, reasons: seq<Reason>)
      ensures ready <==> o.generations.Some? && AllCompleted(o.generations.value)
      ensures ready <==> reasons == []
      ensures GenerationNotCompleted in reasons <==> !ready
      ensures GenerationFailed in reasons <==>
        o.generations.Some? && AnyWith(o.generations.value, FailedGeneration)
      ensures GenerationCancelled in reasons <==>
        o.generations.Some? && AnyWith(o.generations.value, CancelledGeneration)
      ensures forall r :: r in reasons ==> r.GenerationNotCompleted? || r.GenerationFailed? || r.GenerationCancelled?
    {
      reasons, ready := [], false;
      if o.generations.None? {
        return false, [GenerationNotCompleted];
      }
      var gs := o.generations.value;
      var completed, failed, cancelled, active := false, false, false, false;
      for i := 0 to |gs|
        invariant completed <==> AnyWith(gs[..i], Completed)
        invariant failed <==> AnyWith(gs[..i], FailedGeneration)
        invariant cancelled <==> AnyWith(gs[..i], CancelledGeneration)
        invariant active <==> Unfinished(gs[..i])
      {
        var status := gs[i].status;
        assert gs[..i + 1] == gs[..i] + [gs[i]];
        forall s: GenerationStatus ensures AnyWith(gs[..i + 1], s) <==> AnyWith(gs[..i], s) || status == s {
          AnyWithSnoc(gs[..i], gs[i], s);
        }
        completed := completed || status == Completed;
        failed := failed || status == FailedGeneration;
        cancelled := cancelled || status == CancelledGeneration;
        active := active || status == Pending || status == Queued || status == Running;
      }
      assert gs[..|gs|] == gs;
      OnlyCompletedLeft(gs);
      ready := completed && !failed && !cancelled && !active;
      reasons := (if !ready then [GenerationNotCompleted] else []) + (if failed then [GenerationFailed] else []) +
        (if cancelled then [GenerationCancelled] else []);
    }

    /** ComfyUI's queue and the model transfers. */
    static method CheckQueues(o: Observation) returns (reasons: seq<Reason>)
      ensures reasons == [] <==> o.comfyuiPrompts == Some(0) && o.transfers == Some(0)
      ensures ComfyUiUnavailable in reasons <==> o.comfyuiPrompts == None
      ensures ComfyUiActive in reasons <==> o.comfyuiPrompts.Some? && o.comfyuiPrompts.value > 0
      ensures ModelTransferActive in reasons <==> o.transfers != Some(0)
      ensures forall r :: r in reasons ==> r.ComfyUiUnavailable? || r.ComfyUiActive? || r.ModelTransferActive?
    {
      reasons := if o.comfyuiPrompts.None? then [ComfyUiUnavailable]
                 else if o.comfyuiPrompts.value > 0 then [ComfyUiActive] else [];
      if o.transfers != Some(0) {
        reasons := reasons + [ModelTransferActive];
      }
    }

    /** Every completed Generation has a synced record, there is one, and no drive job is left. */
    static method CheckDriveSync(generations: seq<GenerationView>, jobs: Option<nat>)
      returns (ready: bool, reasons: seq<Reason>)
      ensures ready <==> jobs == Some(0) && AnyWith(generations, Completed) &&
                         forall g :: g in generations && g.status == Completed ==> g.drive == DriveSynced
      ensures ready <==> reasons == []
      ensures DriveSyncActive in reasons <==>
        AnyWith(generations, Completed) && jobs.Some? && jobs.value > 0
      ensures DriveSyncFailed in reasons ==>
        jobs == Some(0) && exists g :: g in generations && g.status == Completed && g.drive == DriveFailed
      ensures forall r :: r in reasons ==> r.DriveSyncActive? || r.DriveSyncFailed? || r.DriveNotSynced?
    {
      var completed := Completions(generations);
      if completed == [] || jobs.None? {
        return false, [DriveNotSynced];
      }
      if jobs.value > 0 {
        return false, [DriveSyncActive];
      }
      for i := 0 to |completed|
        invariant forall j :: 0 <= j < i ==> completed[j].drive == DriveSynced
      {
        if completed[i].drive != DriveSynced {
          assert completed[i] in completed;
          return false, [if completed[i].drive == DriveFailed then DriveSyncFailed else DriveNotSynced];
        }
      }
      ready, reasons := true, [];
    }

    /** Every completed Generation has a record whose day's manifest is synced, there is one, and no manifest job is
        left. */
    static method CheckManifest(generations: seq<GenerationView>, jobs: Option<bool>)
      returns (ready: bool, reasons: seq<Reason>)
      ensures ready <==> jobs == Some(false) && AnyWith(generations, Completed) &&
                         forall g :: g in generations && g.status == Completed ==> HasManifest(g)
      ensures ready ==> reasons == []
      ensures reasons == [] ==> ready || !AnyWith(generations, Completed)
      ensures ManifestActive in reasons <==> jobs == Some(true)
      ensures ManifestSyncFailed in reasons ==>
        jobs == Some(false) && exists g :: g in generations && g.status == Completed && g.Manifest() == ManifestFailed
      ensures forall r :: r in reasons ==> r.ManifestActive? || r.ManifestSyncFailed? || r.ManifestNotSynced?
    {
      if jobs.None? {
        return false, [ManifestNotSynced];
      }
      if jobs.value {
        return false, [ManifestActive];
      }
      var completed := Completions(generations);
      for i := 0 to |completed|
        invariant forall j :: 0 <= j < i ==> HasManifest(completed[j])
      {
        if !HasManifest(completed[i]) {
          assert completed[i] in completed;
          var failed := completed[i].Manifest() == ManifestFailed && completed[i].drive != NoRecord &&
            completed[i].drive != RecordRaises;
          return false, [if failed then ManifestSyncFailed else ManifestNotSynced];
        }
      }
      ready, reasons := completed != [], [];
    }

    static method CheckStateBackup(backup: Option<BackupView>) returns (ready: bool, reasons: seq<Reason>)
      ensures ready <==> backup.Some? && BackupReady(backup.value)
      ensures ready <==> reasons == []
      ensures BackupDisabled in reasons <==> backup.Some? && !backup.value.enabled
      ensures BackupActive in reasons <==> backup.Some? && backup.value.enabled && backup.value.inProgress
      ensures BackupFailed in reasons <==>
        backup.None? || (backup.value.enabled && !backup.value.inProgress && backup.value.failed)
      ensures forall r :: r in reasons ==> r.BackupDisabled? || r.BackupActive? || r.BackupFailed? || r.BackupDirty?
    {
      if backup.None? {
        return false, [BackupFailed];
      }
      var b := backup.value;
      reasons :=
        if !b.enabled then [BackupDisabled]
        else if b.inProgress then [BackupActive]
        else if b.failed then [BackupFailed]
        else if !b.clean || !b.hasLatestRemote then [BackupDirty]
        else [];
      ready := reasons == [];
    }

    /** Other threads running their own lock sections while this one awaits. */
    method OthersRun(es: seq<Event>)
      requires Valid()
      modifies this
      ensures Valid() && State() == Run(old(State()), es)
    {
      RunKeepsPodInv(State(), es);
      RunSplits(start, trace, es);
      var after := Run(Pod(session, deletes), es);
      session, deletes := after.session, after.deletes;
      trace := trace + es;
    }

    /** The section of `request_terminate` under the lock: DRAINING becomes REQUESTING and one DELETE goes out. */
    method ClaimTermination(requireArmed: bool, saves: bool) returns (refused: Option<Refusal>)
      requires Valid()
      modifies this
      ensures Valid() && State() == if saves then Apply(old(State()), Claim(requireArmed)) else old(State())
      ensures refused == None <==> saves && Claimed(old(session), requireArmed).Ok?
      ensures deletes == if refused == None then old(deletes) + [None] else old(deletes)
    {
      if session.status != Draining {
        var requested := session.status == Requesting || session.status == Ambiguous;
        return Some(if requested then AlreadyRequested else InvalidTransition);
      }
      if requireArmed && session.armedAt.None? {
        return Some(NotArmed);
      }
      if !saves {
        return Some(PersistenceFailed);
      }
      session := session.(status := Requesting);
      deletes := deletes + [None];
      Record(Claim(requireArmed));
      refused := None;
    }

    /** The answer to the pending DELETE; a success writes nothing more. */
    method RecordAnswer(answer: Answer, saves: bool)
      requires Valid() && Unanswered(State())
      modifies this
      ensures Valid() && State() == Apply(old(State()), Answered(answer, saves))
    {
      deletes := deletes[..|deletes| - 1] + [Some(answer)];
      if answer != Accepted && session.status == Requesting && saves {
        session := session.(status := if answer == ConfirmedFailure then TerminationFailed else Ambiguous);
      }
      Record(Answered(answer, saves));
    }

    /** A fresh readiness check outside the lock, then the claim, then the DELETE. */
    method RequestTerminate(requireArmed: bool, run: DrainRun) returns (sent: bool, failed: bool, cancelled: bool)
      requires Valid()
      requires forall i :: 0 <= i < |run.duringDelete| ==> !run.duringDelete[i].Answered?
      modifies this
      ensures Valid()
      ensures var claimed := Run(old(State()), run.beforeClaim);
        && (sent <==> Requests(old(session), claimed.session, requireArmed, run))
        && (sent ==> deletes == claimed.deletes + [if cancelled then None else Some(run.answer)])
        && (sent ==> session == claimed.session.(
              status := if cancelled then Requesting else StatusAfter(run.answer, run.answerSaves)))
        && (!sent ==> State() == claimed)
      ensures cancelled <==> run.cancelledAt == Some(DeleteCheck) || (sent && run.cancelledAt == Some(DeleteAnswer))
      ensures failed <==> !cancelled && (!sent || run.answer != Accepted)
    {
      hide Run;
      sent, failed, cancelled := false, true, false;
      var safe, _ := CheckReadiness(run.atDelete);
      OthersRun(run.beforeClaim);
      if run.cancelledAt == Some(DeleteCheck) {
        return false, false, true;
      }
      if !safe {
        return;
      }
      var refused := ClaimTermination(requireArmed, run.claimSaves);
      if refused.Some? {
        return;
      }
      RequestingStaysUnanswered(State(), run.duringDelete);
      OthersRun(run.duringDelete);
      if run.cancelledAt == Some(DeleteAnswer) {
        return true, false, true;
      }
      RecordAnswer(run.answer, run.answerSaves);
      sent, failed := true, run.answer != Accepted;
    }

    /** `drain_backup_and_terminate`. A DELETE goes out exactly if the drain began, the checks passed, the backup
        returned and the claim found the session DRAINING. Every failure before that reopens admission, but the handler
        does not see a cancellation of its task: DRAINING, or REQUESTING during the DELETE, is left as it is. */
    method DrainBackupAndTerminate(requireArmed: bool, run: DrainRun)
      returns (sent: bool, failed: bool, cancelled: bool)
      requires Valid()
      requires forall i :: 0 <= i < |run.duringDelete| ==> !run.duringDelete[i].Answered?
      modifies this
      ensures Valid()
      ensures sent <==> Sends(old(State()), requireArmed, run)
      ensures sent ==>
        deletes == LeftAt(old(State()), run, DeleteCheck).deletes + [if cancelled then None else Some(run.answer)]
      ensures sent ==> session == LeftAt(old(State()), run, DeleteCheck).session.(
        status := if cancelled then Requesting else StatusAfter(run.answer, run.answerSaves))
      ensures cancelled <==> IsCancelled(old(State()), requireArmed, run)
      ensures sent ==> (failed <==> !cancelled && run.answer != Accepted)
      ensures !sent ==> (failed <==> !cancelled && (requireArmed || SafeToTerminate(old(session), run.initial)))
      ensures failed && run.abortSaves ==> session.status != Draining
      ensures var unsent := Unsent(old(State()), requireArmed, run);
        !sent ==> State() == if failed && run.abortSaves then Apply(unsent, Event.AbortDraining) else unsent
    {
      hide Run, Prepares, Requests, AllPassed, LeftAt;
      sent, failed, cancelled := false, false, false;
      if !requireArmed {
        if run.cancelledAt == Some(InitialCheck) {
          return false, false, true;
        }
        var safe, _ := CheckReadiness(run.initial);
        if !safe {
          return;
        }
      }
      var refused := BeginDraining(run.beginSaves);
      if refused.Some? {
        return false, true, false;
      }
      sent, failed, cancelled := PrepareAndRequest(old(State()), requireArmed, run);
      if failed && session.status == Draining {
        var _ := AbortDraining(run.abortSaves);
      }
    }

    /** The guarded part, in DRAINING. */
    method PrepareAndRequest(ghost p: Pod, requireArmed: bool, run: DrainRun)
      returns (sent: bool, failed: bool, cancelled: bool)
      requires Valid() && session.status == Draining && State() == Apply(p, Event.BeginDraining)
      requires Begins(p, requireArmed, run)
      requires forall i :: 0 <= i < |run.duringDelete| ==> !run.duringDelete[i].Answered?
      modifies this
      ensures Valid() && (sent <==> Sends(p, requireArmed, run))
      ensures sent ==>
        && deletes == LeftAt(p, run, DeleteCheck).deletes + [if cancelled then None else Some(run.answer)]
        && session == LeftAt(p, run, DeleteCheck).session.(
             status := if cancelled then Requesting else StatusAfter(run.answer, run.answerSaves))
      ensures cancelled <==> run.cancelledAt != Some(InitialCheck) && IsCancelled(p, requireArmed, run)
      ensures failed <==> !cancelled && (!sent || run.answer != Accepted)
      ensures !sent ==> State() == Unsent(p, requireArmed, run)
    {
      hide Run, AllPassed, SafeToTerminate, Begins;
      var ready, stopped := PrepareDelete(run);
      if stopped {
        return false, false, true;
      }
      sent, failed, cancelled := false, true, false;
      if ready {
        sent, failed, cancelled := RequestTerminate(requireArmed, run);
      }
    }

    /** The checks around the final backup. */
    method PrepareDelete(run: DrainRun) returns (ready: bool, cancelled: bool)
      requires Valid() && session.status == Draining
      modifies this
      ensures Valid()
      ensures var checked := Run(old(State()), run.duringChecks); var backedUp := Run(checked, run.duringBackup);
        && (ready <==>
              && run.cancelledAt != Some(FirstCheck) && run.cancelledAt != Some(FinalBackup)
              && run.cancelledAt != Some(LastCheck)
              && AllPassed(run.first) && !run.backupRaises && SafeToTerminate(backedUp.session, run.last))
        && (cancelled <==>
              || run.cancelledAt == Some(FirstCheck)
              || (run.cancelledAt == Some(FinalBackup) && AllPassed(run.first))
              || (run.cancelledAt == Some(LastCheck) && AllPassed(run.first) && !run.backupRaises))
        && State() == if run.cancelledAt == Some(FirstCheck) || !AllPassed(run.first) then checked else backedUp
    {
      hide Run;
      ready, cancelled := false, false;
      var safe, _ := CheckReadiness(run.first);
      OthersRun(run.duringChecks);
      if run.cancelledAt == Some(FirstCheck) {
        return false, true;
      }
      if !safe {
        return;
      }
      OthersRun(run.duringBackup);
      if run.cancelledAt == Some(FinalBackup) {
        return false, true;
      }
      if run.backupRaises {
        return;
      }
      if run.cancelledAt == Some(LastCheck) {
        return false, true;
      }
      var passed, _ := CheckReadiness(run.last);
      ready := passed;
    }
  }

  /** Nobody but the caller answers its DELETE. */
  lemma {:induction false} RequestingStaysUnanswered(p: Pod, es: seq<Event>)
    requires PodInv(p) && p.session.status == Requesting && Unanswered(p)
    requires forall i :: 0 <= i < |es| ==> !es[i].Answered?
    ensures Run(p, es) == p
    decreases |es|
  {
    if es != [] {
      assert forall i :: 0 <= i < |es[1..]| ==> es[1..][i] == es[i + 1];
      RequestingStaysUnanswered(p, es[1..]);
    }
  }
}
