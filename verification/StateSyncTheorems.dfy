/** What holds of the state backup in every interleaving of its callers, timers, failures and restarts. */
module StateSyncTheorems {
  import opened Wrappers
  import opened StateSyncSteps

  lemma StartKeepsInv(configured: bool, writeProtected: bool, knowsRemote: bool, log: Database, remote: Remote)
    requires PublicationInv(remote)
    requires var s := Start(configured, writeProtected, None, log, remote); LatestContent(s) <= log
    ensures var lastHash := if knowsRemote && remote.latest.Some? then Some(remote.latest.value.sha256) else None;
            Inv(Start(configured, writeProtected, lastHash, log, remote))
  {
  }

  lemma UploadKeepsPublication(s: State, c: int, content: Database)
    requires PublicationInv(s.remote)
    ensures PublicationInv(BodyUploaded(s, c, content).remote)
    ensures LatestContent(BodyUploaded(s, c, content)) == LatestContent(s)
    ensures BodyName(c, Digest(content)) in BodyUploaded(s, c, content).remote.bodies
    ensures PublicationInv(MetadataUploaded(s, c, content).remote)
    ensures LatestContent(MetadataUploaded(s, c, content)) == LatestContent(s)
    ensures BodyName(c, Digest(content)) in s.remote.bodies ==>
      PublicationInv(PointerUploaded(s, c, content).remote) && LatestContent(PointerUploaded(s, c, content)) == content
  {
    var name := BodyName(c, Digest(content));
    if name in s.remote.bodies {
      assert s.remote.bodies[name] == content;
    }
  }

  lemma SnapshotWorkKeepsInv(s: State, createdAt: int)
    requires Inv(s) && s.holder.Held? && s.holder.stage.Started?
    ensures Inv(Worked(s, createdAt))
  {
  }

  lemma BodyWorkKeepsInv(s: State, createdAt: int)
    requires Inv(s) && s.holder.Held? && s.holder.stage.Snapped?
    ensures Inv(Worked(s, createdAt))
    ensures LatestContent(s) == LatestContent(Worked(s, createdAt))
  {
    UploadKeepsPublication(s, s.holder.stage.createdAt, s.holder.stage.content);
  }

  lemma MetadataWorkKeepsInv(s: State, createdAt: int)
    requires Inv(s) && s.holder.Held? && s.holder.stage.BodyStored?
    ensures Inv(Worked(s, createdAt))
    ensures LatestContent(s) == LatestContent(Worked(s, createdAt))
  {
    UploadKeepsPublication(s, s.holder.stage.createdAt, s.holder.stage.content);
  }

  lemma PointerWorkKeepsInv(s: State, createdAt: int)
    requires Inv(s) && s.holder.Held? && s.holder.stage.MetadataStored?
    ensures Inv(Worked(s, createdAt))
    ensures LatestContent(s) <= LatestContent(Worked(s, createdAt))
  {
    UploadKeepsPublication(s, s.holder.stage.createdAt, s.holder.stage.content);
  }

  /** Steps that touch neither the log, the marks, the versions, the recorded hash nor the remote. */
  lemma Frame(s: State, t: State)
    requires Inv(s) && StageInv(t)
    requires t.log == s.log && t.marks == s.marks && t.base == s.base && t.remote == s.remote
    requires t.svc.dirty == s.svc.dirty && t.svc.backedUp == s.svc.backedUp && t.svc.lastHash == s.svc.lastHash
    requires t.svc.status == s.svc.status || t.svc.status != Synced
    ensures Inv(t)
  {
  }

  lemma SuccessWorkKeepsInv(s: State, createdAt: int)
    requires Inv(s) && s.holder.Held?
    requires s.holder.stage.Published? || s.holder.stage.Recorded?
    ensures Inv(Worked(s, createdAt))
  {
  }

  lemma LocalWorkKeepsInv(s: State, createdAt: int)
    requires Inv(s) && s.holder.Held?
    requires !s.holder.stage.Snapped? && !s.holder.stage.BodyStored? && !s.holder.stage.MetadataStored?
    requires !s.holder.stage.Published? && !s.holder.stage.Recorded? && !s.holder.stage.Started?
    ensures Inv(Worked(s, createdAt))
    ensures s.remote == Worked(s, createdAt).remote
  {
    assert StageInv(s);
    hide Inv;
    var t := Worked(s, createdAt);
    assert t.holder.Held? ==>
      t.holder.stage.VersionRead? || t.holder.stage.Started? || t.holder.stage.FollowUpDue? || t.holder.stage.Finished?;
    hide Worked;
    Frame(s, t);
  }

  lemma WorkKeepsInv(s: State, createdAt: int)
    requires Inv(s) && s.holder.Held?
    ensures Inv(Worked(s, createdAt))
    ensures LatestContent(s) <= LatestContent(Worked(s, createdAt))
    ensures s.remote.latest.Some? ==> Worked(s, createdAt).remote.latest.Some?
  {
    match s.holder.stage
    case Started(_) => SnapshotWorkKeepsInv(s, createdAt);
    case Snapped(_, _, _) => BodyWorkKeepsInv(s, createdAt);
    case BodyStored(_, _, _) => MetadataWorkKeepsInv(s, createdAt);
    case MetadataStored(_, _, _) => PointerWorkKeepsInv(s, createdAt);
    case Published(_, _) => SuccessWorkKeepsInv(s, createdAt);
    case Recorded(_) => SuccessWorkKeepsInv(s, createdAt);
    case _ => LocalWorkKeepsInv(s, createdAt);
  }

  lemma FaultKeepsInv(s: State, tookEffect: bool)
    requires Inv(s) && Enabled(s, Fault(tookEffect))
    ensures Inv(Faulted(s, tookEffect))
    ensures LatestContent(s) <= LatestContent(Faulted(s, tookEffect))
    ensures s.remote.latest.Some? ==> Faulted(s, tookEffect).remote.latest.Some?
  {
    hide Inv;
    if s.holder.stage.Started? || !tookEffect {
      Frame(s, Faulted(s, tookEffect));
    } else {
      WorkKeepsInv(s, 0);
      var t := Worked(s, 0);
      assert Faulted(s, tookEffect) == At(t, Raised);
      Frame(t, At(t, Raised));
    }
  }

  lemma CancellationKeepsInv(s: State, tookEffect: bool)
    requires Inv(s) && Enabled(s, Cancelled(tookEffect))
    ensures Inv(Interrupted(s, tookEffect))
    ensures LatestContent(s) <= LatestContent(Interrupted(s, tookEffect))
    ensures s.remote.latest.Some? ==> Interrupted(s, tookEffect).remote.latest.Some?
  {
    FaultKeepsInv(s, tookEffect);
    hide Inv;
    Frame(Faulted(s, tookEffect), Interrupted(s, tookEffect));
  }

  lemma OtherThreadsKeepInv(s: State, e: Event)
    requires Inv(s) && StageInv(s) && Enabled(s, e)
    requires !e.Mutate? && !e.MarkLocks? && !e.Work? && !e.Fault? && !e.Cancelled? && !e.Restart?
    ensures Inv(Apply(s, e)) && Apply(s, e).remote == s.remote
  {
    hide Inv;
    var t := Apply(s, e);
    assert t.log == s.log && t.marks == s.marks && t.base == s.base && t.remote == s.remote;
    assert t.svc.dirty == s.svc.dirty && t.svc.backedUp == s.svc.backedUp && t.svc.lastHash == s.svc.lastHash;
    assert StageInv(t) by {
      assert t.holder == s.holder || t.holder == Held(WaitForClean, Locked) || t.holder == Held(Debounced, Locked);
    }
    Frame(s, t);
  }

  lemma MutationKeepsInv(s: State, e: Event)
    requires Inv(s) && Enabled(s, e) && (e.Mutate? || e.MarkLocks?)
    ensures Inv(Apply(s, e)) && Apply(s, e).remote == s.remote
  {
    var t := Apply(s, e);
    assert s.log <= t.log;
    assert MarksInv(t);
    assert forall v: nat :: v <= s.svc.dirty ==> MarkedLength(t, v) == MarkedLength(s, v);
    assert LatestContent(t) == LatestContent(s) <= t.log;
  }

  lemma RestartKeepsInv(s: State, newPod: bool, knowsRemote: bool)
    requires Inv(s)
    ensures Inv(Apply(s, Restart(newPod, knowsRemote)))
  {
  }

  lemma StepKeepsInv(s: State, e: Event)
    requires Inv(s) && Enabled(s, e)
    ensures Inv(Apply(s, e))
    ensures LatestContent(s) <= LatestContent(Apply(s, e))
    ensures s.remote.latest.Some? ==> Apply(s, e).remote.latest.Some?
  {
    assert StageInv(s);
    hide Worked, Faulted, Interrupted, Inv;
    match e
    case Mutate(_) => MutationKeepsInv(s, e);
    case MarkLocks => MutationKeepsInv(s, e);
    case Work(createdAt) => WorkKeepsInv(s, createdAt);
    case Fault(tookEffect) => FaultKeepsInv(s, tookEffect);
    case Cancelled(tookEffect) => CancellationKeepsInv(s, tookEffect);
    case Restart(newPod, knowsRemote) => RestartKeepsInv(s, newPod, knowsRemote);
    case _ => OtherThreadsKeepInv(s, e);
  }

  /** Every reachable state keeps the invariant, and what a restore would install only ever grows: no failure,
      crash or new Pod makes the remote copy forget a mutation it already held. */
  lemma {:induction false} RunKeepsInv(s: State, es: seq<Event>)
    requires Inv(s) && ValidRun(s, es)
    ensures Inv(Run(s, es))
    ensures LatestContent(s) <= LatestContent(Run(s, es))
    ensures s.remote.latest.Some? ==> Run(s, es).remote.latest.Some?
    decreases |es|
  {
    if es != [] {
      StepKeepsInv(s, es[0]);
      RunKeepsInv(Apply(s, es[0]), es[1..]);
    }
  }

  lemma {:induction false} RunSnoc(s: State, es: seq<Event>, e: Event)
    requires ValidRun(s, es) && Enabled(Run(s, es), e)
    ensures ValidRun(s, es + [e]) && Run(s, es + [e]) == Apply(Run(s, es), e)
    decreases |es|
  {
    if es == [] {
      assert ([] + [e])[1..] == [];
    } else {
      RunSnoc(Apply(s, es[0]), es[1..], e);
      assert (es + [e])[1..] == es[1..] + [e];
    }
  }

  /** A clean service with a latest remote backup: the published snapshot holds every mutation that was in the
      database when it was last marked dirty, and every mutation made before the process started. */
  lemma CleanMeansEveryMarkIsBackedUp(s: State, es: seq<Event>)
    requires Inv(s) && ValidRun(s, es)
    requires var t := Run(s, es); t.svc.IsClean() && t.svc.HasLatestRemoteBackup()
    ensures var t := Run(s, es);
      && LatestContent(t) <= t.log
      && t.base <= |t.log|
      && t.log[..t.base] <= LatestContent(t)
      && (forall k :: 0 <= k < |t.marks| ==> t.marks[k] <= |t.log| && t.log[..t.marks[k]] <= LatestContent(t))
  {
    RunKeepsInv(s, es);
    var t := Run(s, es);
    forall k | 0 <= k < |t.marks| ensures t.log[..t.marks[k]] <= LatestContent(t) {
      assert t.marks[k] <= t.marks[|t.marks| - 1];
    }
  }

  /** Stopping anywhere between the three uploads leaves a pointer to a complete body with its hash and size. */
  lemma StoppedUploadIsRestorable(s: State, es: seq<Event>)
    requires Inv(s) && ValidRun(s, es)
    ensures PublicationInv(Run(s, es).remote)
  {
    RunKeepsInv(s, es);
  }

  // ---------- no lost wake-up ----------

  predicate Closes(e: Event) {
    e.CloseBegins? || e.CloseEnds? || e.Restart?
  }

  /** An armed timer carries the current token, so its callback will be accepted. */
  ghost predicate TimerInv(s: State) {
    && (s.svc.timer.Some? ==> s.svc.timer.value == s.svc.token && s.svc.token in s.outstanding)
    && (forall t :: t in s.outstanding ==> t <= s.svc.token)
  }

  /** A debounced backup that has not yet reached its final clean check. */
  predicate DebouncedInFlight(s: State) {
    s.threads.fired > 0 || s.threads.tryers > 0 ||
      (s.holder.Held? && s.holder.mode == Debounced && !s.holder.stage.Finished?)
  }

  ghost predicate WakeUpInv(s: State) {
    && TimerInv(s)
    && !s.svc.closed
    && (s.threads.markers > 0 ==> s.svc.Enabled())
    && (s.svc.dirty > s.svc.backedUp ==> s.svc.Enabled() && (s.svc.timer.Some? || DebouncedInFlight(s)))
  }

  lemma WorkKeepsWakeUp(s: State, createdAt: int)
    requires WakeUpInv(s) && s.holder.Held?
    ensures WakeUpInv(Worked(s, createdAt))
  {
    match s.holder.stage
    case FollowUpDue => 
    case _ => 
  }

  lemma StepKeepsWakeUp(s: State, e: Event)
    requires WakeUpInv(s) && Enabled(s, e) && !Closes(e)
    ensures WakeUpInv(Apply(s, e))
  {
    match e
    case Work(createdAt) => WorkKeepsWakeUp(s, createdAt);
    case Fault(tookEffect) =>
    case _ => 
  }

  /** A mark restarts the debounce: whatever timer was armed or on its way before, its callback will find a newer token,
      and a follow-up leaves an armed timer alone. */
  lemma MarkRestartsTheDebounce(s: State)
    requires WakeUpInv(s) && Enabled(s, MarkLocks) && s.svc.Enabled()
    ensures var t := Apply(s, MarkLocks);
      && t.svc.timer == Some(t.svc.token) && t.svc.token in t.outstanding
      && (forall token :: token in s.outstanding ==>
            token in t.outstanding && Apply(t, TimerFires(token)) == t.(outstanding := t.outstanding - {token}))
    ensures s.svc.timer.Some? ==> WithService(s, ScheduleTimer(s.svc, false)) == s
  {
  }

  /** Before close begins, whatever stale callbacks, manual backups and failed uploads interleave: an uncovered
      mark has either an armed timer whose callback will be accepted, or a debounced backup on its way. */
  lemma {:induction false} NoLostWakeUp(s: State, es: seq<Event>)
    requires Inv(s) && WakeUpInv(s) && ValidRun(s, es)
    requires forall i :: 0 <= i < |es| ==> !Closes(es[i])
    ensures WakeUpInv(Run(s, es))
    decreases |es|
  {
    if es != [] {
      StepKeepsInv(s, es[0]);
      StepKeepsWakeUp(s, es[0]);
      assert forall i :: 0 <= i < |es[1..]| ==> es[1..][i] == es[i + 1];
      NoLostWakeUp(Apply(s, es[0]), es[1..]);
    }
  }

  /** A fresh process starts with nothing to wake up for. */
  lemma StartWakeUp(configured: bool, writeProtected: bool, lastHash: Option<Digest>, log: Database, remote: Remote)
    ensures WakeUpInv(Start(configured, writeProtected, lastHash, log, remote))
  {
  }
}
