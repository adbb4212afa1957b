/** The Pod deletes itself. State backup, lifecycle session, admission gate, work in progress and any number of drain
    sequences run together; what is proved is what the remote holds at the moment a DELETE is issued. */
module SelfTermination {
  import opened Wrappers
  import S = StateSyncSteps
  import T = StateSyncTheorems
  import L = PodLifecycle

  /** How far a drain sequence has come. `epoch` counts the entries into DRAINING, `length` is the length of the log
      when the sequence saw no active work, `uncounted` how many uncounted writes there had been by then. */
  datatype Drain =
    | Began(epoch: nat)
    | Quiet(epoch: nat, length: nat, uncounted: nat)
    | Contending(epoch: nat, length: nat, uncounted: nat)
    | Backing(epoch: nat, length: nat, uncounted: nat)
    | BackedUp(epoch: nat, length: nat, uncounted: nat)
    | Verified(epoch: nat, length: nat, uncounted: nat)

  /** `gate` is the admission lock held by an admitted mutation, `active` the work rows the readiness check counts,
      `owner` the drain sequence that holds the backup lock. */
  datatype World = World(
    sync: S.State, pod: L.Pod, epoch: nat, gate: bool, active: nat, uncounted: nat,
    drains: map<nat, Drain>, owner: Option<nat>)

  datatype Event =
    | GateEnter
    | GateWrite(m: S.Mutation)
    | GateEnqueue(m: S.Mutation)
    | GateLeave
    | WorkerWrite(m: S.Mutation)
    | WorkerFinish(m: S.Mutation)
    | UncountedWrite(m: S.Mutation)
    | Sync(se: S.Event)
    | PodEvent(le: L.Event)
    | Begin(d: nat)
    | SeesNoWork(d: nat)
    | DrainChecks(d: nat)
    | DrainLocks(d: nat)
    | SeesSynced(d: nat)
    | Abort(d: nat)
    | Vanish(d: nat)
    | Delete(d: nat, requireArmed: bool)
    | Restart(knowsRemote: bool)

  /** A worker's write needs a row that was enqueued through the gate and still counts as work. An uncounted write is
      one that neither passes the gate nor belongs to such a row. A sequence whose task is cancelled vanishes without
      aborting its drain. */
  predicate Enabled(w: World, e: Event) {
    match e
    case GateEnter => !w.gate && !w.pod.session.Blocked()
    case GateWrite(_) => w.gate
    case GateEnqueue(_) => w.gate
    case GateLeave => w.gate
    case WorkerWrite(_) => w.active > 0
    case WorkerFinish(_) => w.active > 0
    case UncountedWrite(_) => true
    case Sync(se) => !se.Mutate? && !se.Restart? && S.Enabled(w.sync, se)
    case PodEvent(le) => !le.BeginDraining? && !le.Claim? && (w.gate ==> le.Enqueue?)
    case Begin(d) => !w.gate && d !in w.drains && L.DrainBegun(w.pod.session).Ok?
    case SeesNoWork(d) => d in w.drains && w.drains[d].Began? && w.active == 0
    case DrainChecks(d) => d in w.drains && w.drains[d].Quiet? && w.sync.svc.Enabled()
    case DrainLocks(d) =>
      d in w.drains && (w.drains[d].Contending? || w.drains[d].BackedUp?) && S.Enabled(w.sync, S.WaiterLocks)
    case SeesSynced(d) => d in w.drains && w.drains[d].BackedUp? && w.sync.svc.HasLatestRemoteBackup()
    case Abort(d) => !w.gate && d in w.drains && !w.drains[d].Backing?
    case Vanish(d) => d in w.drains && !w.drains[d].Backing?
    case Delete(d, requireArmed) =>
      !w.gate && d in w.drains && w.drains[d].Verified? && L.Claimed(w.pod.session, requireArmed).Ok?
    case Restart(_) => true
  }

  function Written(w: World, m: S.Mutation): World {
    w.(sync := S.Apply(w.sync, S.Mutate(m)))
  }

  function Apply(w: World, e: Event): World
    requires Enabled(w, e)
  {
    match e
    case GateEnter => w.(gate := true)
    case GateWrite(m) => Written(w, m)
    case GateEnqueue(m) => Written(w, m).(active := w.active + 1)
    case GateLeave => w.(gate := false)
    case WorkerWrite(m) => Written(w, m)
    case WorkerFinish(m) => Written(w, m).(active := w.active - 1)
    case UncountedWrite(m) => Written(w, m).(uncounted := w.uncounted + 1)
    case Sync(se) =>
      var sync := S.Apply(w.sync, se);
      if w.owner.Some? && w.owner.value in w.drains && w.sync.holder.Held? && sync.holder.Free? then
        var v := w.drains[w.owner.value];
        w.(sync := sync, owner := None,
           drains := if v.Began? || se.Cancelled? then w.drains - {w.owner.value}
                     else w.drains[w.owner.value := BackedUp(v.epoch, v.length, v.uncounted)])
      else w.(sync := sync)
    case PodEvent(le) => w.(pod := L.Apply(w.pod, le))
    case Begin(d) =>
      var epoch := if w.pod.session.status == L.Draining then w.epoch else w.epoch + 1;
      w.(pod := L.Apply(w.pod, L.BeginDraining), epoch := epoch, drains := w.drains[d := Began(epoch)])
    case SeesNoWork(d) => w.(drains := w.drains[d := Quiet(w.drains[d].epoch, |w.sync.log|, w.uncounted)])
    case DrainChecks(d) =>
      var v := w.drains[d];
      w.(sync := S.Apply(w.sync, S.WaiterChecks), drains := w.drains[d := Contending(v.epoch, v.length, v.uncounted)])
    case DrainLocks(d) =>
      var v := w.drains[d];
      w.(sync := S.Apply(w.sync, S.WaiterLocks), owner := Some(d),
         drains := w.drains[d := Backing(v.epoch, v.length, v.uncounted)])
    case SeesSynced(d) =>
      var v := w.drains[d];
      w.(drains := w.drains[d := Verified(v.epoch, v.length, v.uncounted)])
    case Abort(d) => w.(pod := L.Apply(w.pod, L.AbortDraining), drains := w.drains - {d})
    case Vanish(d) => w.(drains := w.drains - {d})
    case Delete(d, requireArmed) => w.(pod := L.Apply(w.pod, L.Claim(requireArmed)), drains := w.drains - {d})
    case Restart(knowsRemote) =>
      w.(sync := S.Apply(w.sync, S.Restart(false, knowsRemote)), gate := false, drains := map[], owner := None)
  }

  predicate ValidRun(w: World, es: seq<Event>)
    decreases |es|
  {
    es == [] || (Enabled(w, es[0]) && ValidRun(Apply(w, es[0]), es[1..]))
  }

  function Run(w: World, es: seq<Event>): World
    requires ValidRun(w, es)
    decreases |es|
  {
    if es == [] then w else Run(Apply(w, es[0]), es[1..])
  }

  // ---------- backups whose snapshot is at least n mutations long ----------

  ghost predicate StageCovers(s: S.State, n: nat) {
    s.holder.Held? ==>
      match s.holder.stage
      case Snapped(_, _, content) => |content| >= n
      case BodyStored(_, _, content) => |content| >= n
      case MetadataStored(_, _, content) => |content| >= n
      case Published(_, content) => |content| >= n
      case Recorded(_) => S.Covers(s, n)
      case _ => true
  }

  /** Whoever announces SYNCED from now on has published the first n mutations. */
  ghost predicate Covered(s: S.State, n: nat) {
    n <= |s.log| && (s.svc.status == S.Synced ==> S.Covers(s, n)) && StageCovers(s, n)
  }

  /** A backup that took the lock after the log had n mutations. */
  ghost predicate Working(s: S.State, n: nat) {
    n <= |s.log| && s.holder.Held? && (s.holder.stage.Locked? || s.holder.stage.VersionRead? || Covered(s, n))
  }

  lemma UploadKeepsCovered(s: S.State, createdAt: int, n: nat)
    requires S.Inv(s) && s.holder.Held? && Covered(s, n)
    requires s.holder.stage.Snapped? || s.holder.stage.BodyStored? || s.holder.stage.MetadataStored?
    ensures Covered(S.Worked(s, createdAt), n)
  {
    assert S.PublicationInv(s.remote);
    T.WorkKeepsInv(s, createdAt);
    hide S.Inv;
    T.UploadKeepsPublication(s, s.holder.stage.createdAt, s.holder.stage.content);
    hide S.PublicationInv;
  }

  lemma SuccessKeepsCovered(s: S.State, createdAt: int, n: nat)
    requires S.Inv(s) && s.holder.Held? && Covered(s, n) && s.holder.stage.Published?
    ensures Covered(S.Worked(s, createdAt), n)
  {
    assert S.StageInv(s);
    hide S.Inv;
  }

  lemma LocalWorkKeepsCovered(s: S.State, createdAt: int, n: nat)
    requires s.holder.Held? && Covered(s, n)
    requires !(s.holder.stage.Snapped? || s.holder.stage.BodyStored? || s.holder.stage.MetadataStored? ||
               s.holder.stage.Published?)
    ensures Covered(S.Worked(s, createdAt), n)
  {
  }

  lemma WorkKeepsCovered(s: S.State, createdAt: int, n: nat)
    requires S.Inv(s) && s.holder.Held? && Covered(s, n)
    ensures Covered(S.Worked(s, createdAt), n)
  {
    hide S.Inv, S.Worked, Covered;
    if s.holder.stage.Snapped? || s.holder.stage.BodyStored? || s.holder.stage.MetadataStored? {
      UploadKeepsCovered(s, createdAt, n);
    } else if s.holder.stage.Published? {
      SuccessKeepsCovered(s, createdAt, n);
    } else {
      LocalWorkKeepsCovered(s, createdAt, n);
    }
  }

  lemma FaultKeepsCovered(s: S.State, tookEffect: bool, n: nat)
    requires S.Inv(s) && S.Enabled(s, S.Fault(tookEffect)) && Covered(s, n)
    ensures Covered(S.Faulted(s, tookEffect), n)
  {
    T.FaultKeepsInv(s, tookEffect);
  }

  lemma CancellationKeepsCovered(s: S.State, tookEffect: bool, n: nat)
    requires S.Inv(s) && S.Enabled(s, S.Cancelled(tookEffect)) && Covered(s, n)
    ensures Covered(S.Interrupted(s, tookEffect), n)
  {
    T.CancellationKeepsInv(s, tookEffect);
  }

  lemma CoveredStep(s: S.State, e: S.Event, n: nat)
    requires S.Inv(s) && S.Enabled(s, e) && !e.Restart? && Covered(s, n)
    ensures Covered(S.Apply(s, e), n)
  {
    hide S.Inv, S.Worked, S.Faulted, S.Interrupted;
    T.StepKeepsInv(s, e);
    match e
    case Work(c) => WorkKeepsCovered(s, c, n);
    case Fault(t) => FaultKeepsCovered(s, t, n);
    case Cancelled(t) => CancellationKeepsCovered(s, t, n);
    case _ =>
  }

  lemma WorkingStep(s: S.State, e: S.Event, n: nat)
    requires S.Inv(s) && S.Enabled(s, e) && !e.Restart? && Working(s, n)
    ensures var t := S.Apply(s, e); if t.holder.Held? then Working(t, n) else Covered(t, n)
  {
    hide S.Inv;
    if Covered(s, n) {
      CoveredStep(s, e, n);
    }
  }

  // ---------- what every step keeps ----------

  /** The Pod is still in the DRAINING that this sequence entered or joined. */
  predicate Live(w: World, v: Drain) {
    v.epoch == w.epoch && w.pod.session.status == L.Draining
  }

  /** Since the sequence saw no active work, only uncounted writes have reached the log. */
  ghost predicate Frozen(w: World, v: Drain)
    requires !v.Began?
  {
    w.active == 0 && v.uncounted <= w.uncounted && |w.sync.log| == v.length + (w.uncounted - v.uncounted)
  }

  ghost predicate BackupInv(s: S.State, v: Drain) {
    match v
    case Backing(_, n, _) => Working(s, n)
    case BackedUp(_, n, _) => Covered(s, n)
    case Verified(_, n, _) => Covered(s, n) && S.Covers(s, n)
    case _ => true
  }

  ghost predicate DrainInv(w: World, d: nat)
    requires d in w.drains
  {
    var v := w.drains[d];
    && v.epoch <= w.epoch
    && (v.Backing? <==> w.owner == Some(d))
    && (!v.Began? ==> v.length <= |w.sync.log| && BackupInv(w.sync, v))
    && (Live(w, v) && !v.Began? ==> Frozen(w, v))
  }

  ghost predicate WorldInv(w: World) {
    && S.Inv(w.sync)
    && L.PodInv(w.pod)
    && (w.pod.session.status == L.Draining ==> !w.gate)
    && (w.owner.Some? ==> w.owner.value in w.drains && w.sync.holder.Held?)
    && forall d :: d in w.drains ==> DrainInv(w, d)
  }

  /** Steps of the backup protocol, and writes to the log, seen by one drain sequence. */
  lemma BackupStep(s: S.State, e: S.Event, v: Drain)
    requires S.Inv(s) && S.Enabled(s, e) && !e.Restart? && BackupInv(s, v)
    ensures var t := S.Apply(s, e);
      if v.Backing? && t.holder.Free? then Covered(t, v.length) else BackupInv(t, v)
  {
    hide S.Inv, S.Apply, Covered, Working;
    T.StepKeepsInv(s, e);
    match v
    case Backing(_, n, _) => WorkingStep(s, e, n);
    case BackedUp(_, n, _) => CoveredStep(s, e, n);
    case Verified(_, n, _) => CoveredStep(s, e, n);
    case _ =>
  }

  lemma HolderSteps(s: S.State, e: S.Event)
    requires S.Enabled(s, e) && !e.Restart?
    ensures s.holder.Held? ==> S.Apply(s, e).holder.Held? || e.Work? || e.Cancelled?
    ensures e.Mutate? || e.WaiterChecks? ==> S.Apply(s, e).holder == s.holder
    ensures |S.Apply(s, e).log| == |s.log| + if e.Mutate? then 1 else 0
  {
  }

  /** Writes: through the gate nobody is draining, by a worker nobody has seen the work end, otherwise they count. */
  lemma WriteKeepsWorldInv(w: World, e: Event)
    requires WorldInv(w) && Enabled(w, e)
    requires e.GateWrite? || e.GateEnqueue? || e.WorkerWrite? || e.WorkerFinish? || e.UncountedWrite?
    ensures WorldInv(Apply(w, e))
  {
    var se := S.Mutate(e.m);
    var t := Apply(w, e);
    assert t.sync == S.Apply(w.sync, se);
    hide S.Inv, S.Apply, BackupInv, L.PodInv;
    T.StepKeepsInv(w.sync, se);
    HolderSteps(w.sync, se);
    forall d | d in t.drains ensures DrainInv(t, d) {
      var v := w.drains[d];
      assert DrainInv(w, d);
      if !v.Began? {
        BackupStep(w.sync, se, v);
        assert v.Backing? ==> w.sync.holder.Held?;
      }
    }
  }

  lemma SyncKeepsDrainInv(w: World, se: S.Event, d: nat)
    requires WorldInv(w) && Enabled(w, Sync(se)) && d in Apply(w, Sync(se)).drains
    ensures DrainInv(Apply(w, Sync(se)), d)
  {
    hide S.Inv, S.Apply, L.PodInv, S.Enabled;
    HolderSteps(w.sync, se);
    assert DrainInv(w, d);
    if !w.drains[d].Began? {
      BackupStep(w.sync, se, w.drains[d]);
    }
  }

  lemma SyncKeepsWorldInv(w: World, se: S.Event)
    requires WorldInv(w) && Enabled(w, Sync(se))
    ensures WorldInv(Apply(w, Sync(se)))
  {
    hide S.Inv, S.Apply, L.PodInv, S.Enabled, DrainInv;
    T.StepKeepsInv(w.sync, se);
    HolderSteps(w.sync, se);
    forall d | d in Apply(w, Sync(se)).drains ensures DrainInv(Apply(w, Sync(se)), d) {
      SyncKeepsDrainInv(w, se, d);
    }
  }

  lemma PodStepKeepsWorldInv(w: World, e: Event)
    requires WorldInv(w) && Enabled(w, e)
    requires e.PodEvent? || e.Begin? || e.Abort? || e.Delete?
    ensures WorldInv(Apply(w, e))
  {
    hide S.Inv;
    var le := match e case PodEvent(le) => le case Begin(_) => L.BeginDraining case Abort(_) => L.AbortDraining
                     case Delete(_, r) => L.Claim(r);
    L.StepKeepsPodInv(w.pod, le);
    L.StatusEdges(w.pod, le);
    var t := Apply(w, e);
    hide S.Inv, L.PodInv, BackupInv, L.Apply, L.Claimed, L.DrainBegun;
    forall d | d in t.drains ensures DrainInv(t, d) {
      if d in w.drains {
        assert DrainInv(w, d);
      }
    }
  }

  lemma DrainStepKeepsWorldInv(w: World, e: Event)
    requires WorldInv(w) && Enabled(w, e)
    requires e.SeesNoWork? || e.SeesSynced?
    ensures WorldInv(Apply(w, e))
  {
    var t := Apply(w, e);
    hide S.Inv, L.PodInv;
    forall d | d in t.drains ensures DrainInv(t, d) {
      assert DrainInv(w, d);
    }
  }

  lemma DrainBackupKeepsDrainInv(w: World, e: Event, d: nat)
    requires WorldInv(w) && Enabled(w, e) && (e.DrainChecks? || e.DrainLocks?) && d in Apply(w, e).drains
    ensures DrainInv(Apply(w, e), d)
  {
    var se := if e.DrainChecks? then S.WaiterChecks else S.WaiterLocks;
    HolderSteps(w.sync, se);
    assert DrainInv(w, d);
    hide S.Inv, L.PodInv;
    if d != e.d && !w.drains[d].Began? {
      BackupStep(w.sync, se, w.drains[d]);
    }
  }

  /** The way of a drain sequence to the backup lock. */
  lemma DrainBackupKeepsWorldInv(w: World, e: Event)
    requires WorldInv(w) && Enabled(w, e)
    requires e.DrainChecks? || e.DrainLocks?
    ensures WorldInv(Apply(w, e))
  {
    T.StepKeepsInv(w.sync, if e.DrainChecks? then S.WaiterChecks else S.WaiterLocks);
    hide S.Inv, L.PodInv, DrainInv;
    forall d | d in Apply(w, e).drains ensures DrainInv(Apply(w, e), d) {
      DrainBackupKeepsDrainInv(w, e, d);
    }
  }

  lemma GateKeepsWorldInv(w: World, e: Event)
    requires WorldInv(w) && Enabled(w, e) && (e.GateEnter? || e.GateLeave? || e.Vanish?)
    ensures WorldInv(Apply(w, e))
  {
    hide S.Inv, L.PodInv, BackupInv;
    forall d | d in Apply(w, e).drains ensures DrainInv(Apply(w, e), d) {
      assert DrainInv(w, d);
    }
  }

  lemma StepKeepsWorldInv(w: World, e: Event)
    requires WorldInv(w) && Enabled(w, e)
    ensures WorldInv(Apply(w, e))
  {
    hide S.Inv, L.PodInv, S.Apply, L.Apply, BackupInv, Enabled, DrainInv;
    match e
    case GateEnter => GateKeepsWorldInv(w, e);
    case GateLeave => GateKeepsWorldInv(w, e);
    case Sync(se) => SyncKeepsWorldInv(w, se);
    case PodEvent(_) => PodStepKeepsWorldInv(w, e);
    case Begin(_) => PodStepKeepsWorldInv(w, e);
    case Abort(_) => PodStepKeepsWorldInv(w, e);
    case Vanish(_) => GateKeepsWorldInv(w, e);
    case Delete(_, _) => PodStepKeepsWorldInv(w, e);
    case SeesNoWork(_) => DrainStepKeepsWorldInv(w, e);
    case SeesSynced(_) => DrainStepKeepsWorldInv(w, e);
    case DrainChecks(_) => DrainBackupKeepsWorldInv(w, e);
    case DrainLocks(_) => DrainBackupKeepsWorldInv(w, e);
    case Restart(k) => T.StepKeepsInv(w.sync, S.Restart(false, k));
    case _ => WriteKeepsWorldInv(w, e);
  }

  lemma {:induction false} RunKeepsWorldInv(w: World, es: seq<Event>)
    requires WorldInv(w) && ValidRun(w, es)
    ensures WorldInv(Run(w, es))
    decreases |es|
  {
    if es != [] {
      StepKeepsWorldInv(w, es[0]);
      RunKeepsWorldInv(Apply(w, es[0]), es[1..]);
    }
  }

  // ---------- what a DELETE means ----------

  /** Whenever a drain sequence issues a DELETE, also one whose DRAINING was left and entered again, everything the
      database held when that sequence saw no active work is in the published snapshot. In the DRAINING it belongs to,
      only writes that neither passed the gate nor counted as work have been made since. */
  lemma DeleteMeansBackedUp(w: World, es: seq<Event>, d: nat, requireArmed: bool)
    requires WorldInv(w) && ValidRun(w, es) && Enabled(Run(w, es), Delete(d, requireArmed))
    ensures var t := Run(w, es); var v := t.drains[d];
      && t.sync.remote.latest.Some?
      && v.length <= |t.sync.log| && t.sync.log[..v.length] <= S.LatestContent(t.sync) <= t.sync.log
      && v.epoch <= t.epoch && (v.epoch == t.epoch ==> |t.sync.log| == v.length + (t.uncounted - v.uncounted))
  {
    RunKeepsWorldInv(w, es);
    assert DrainInv(Run(w, es), d);
  }

  /** A DELETE loses a mutation only if it was made after the sequence saw no active work, and then either the
      sequence is stale, its DRAINING having been left and entered again, or the mutation is an uncounted write. */
  lemma LostMutationNeedsAStaleDrain(w: World, es: seq<Event>, d: nat, requireArmed: bool)
    requires WorldInv(w) && ValidRun(w, es) && Enabled(Run(w, es), Delete(d, requireArmed))
    requires S.LatestContent(Run(w, es).sync) != Run(w, es).sync.log
    ensures var t := Run(w, es); var v := t.drains[d];
      && v.length <= |S.LatestContent(t.sync)| < |t.sync.log|
      && (v.epoch < t.epoch || v.uncounted < t.uncounted)
  {
    DeleteMeansBackedUp(w, es, d, requireArmed);
    var t := Run(w, es);
    var v := t.drains[d];
    assert |t.sync.log[..v.length]| == v.length && t.sync.log[..|t.sync.log|] == t.sync.log;
  }

  /** No drain sequence begins while another is open, and nobody else aborts a drain. */
  predicate OneAtATime(w: World, es: seq<Event>)
    requires ValidRun(w, es)
    decreases |es|
  {
    es == [] || (
      (es[0].Begin? ==> w.drains == map[]) && es[0] != PodEvent(L.AbortDraining) &&
        OneAtATime(Apply(w, es[0]), es[1..]))
  }

  predicate CurrentEpochs(w: World) {
    forall d :: d in w.drains ==> w.drains[d].epoch == w.epoch
  }

  lemma {:induction false} OneDrainKeepsItsEpoch(w: World, es: seq<Event>)
    requires ValidRun(w, es) && OneAtATime(w, es) && CurrentEpochs(w)
    ensures CurrentEpochs(Run(w, es))
    decreases |es|
  {
    if es != [] {
      assert CurrentEpochs(Apply(w, es[0])) by {
        hide S.Apply, L.Apply, S.Enabled;
      }
      OneDrainKeepsItsEpoch(Apply(w, es[0]), es[1..]);
    }
  }

  /** With one drain sequence at a time, and every write gated or counted as active work, a DELETE loses nothing. */
  lemma OneDrainLosesNothing(w: World, es: seq<Event>, d: nat, requireArmed: bool)
    requires WorldInv(w) && w.drains == map[] && ValidRun(w, es) && OneAtATime(w, es)
    requires Enabled(Run(w, es), Delete(d, requireArmed))
    requires Run(w, es).drains[d].uncounted == Run(w, es).uncounted
    ensures S.LatestContent(Run(w, es).sync) == Run(w, es).sync.log
  {
    OneDrainKeepsItsEpoch(w, es);
    if S.LatestContent(Run(w, es).sync) != Run(w, es).sync.log {
      LostMutationNeedsAStaleDrain(w, es, d, requireArmed);
    }
  }

  // ---------- both conditions are needed ----------

  /** A Pod that starts with an empty database whose empty snapshot is already published. */
  function EmptyWorld(): World {
    var name := S.BodyName(0, S.Digest([]));
    World(S.Start(true, false, Some(S.Digest([])), [], S.Remote(map[name := []], map[], Some(S.Contents(name)))),
          L.NewPod(true), 0, false, 0, 0, map[], None)
  }

  lemma EmptyWorldInv()
    ensures WorldInv(EmptyWorld())
  {
  }

  lemma {:induction false} Extend(w: World, es: seq<Event>, e: Event, next: World)
    requires ValidRun(w, es) && Enabled(Run(w, es), e) && Apply(Run(w, es), e) == next
    ensures ValidRun(w, es + [e]) && Run(w, es + [e]) == next
    ensures OneAtATime(w, es) && (e.Begin? ==> Run(w, es).drains == map[]) && e != PodEvent(L.AbortDraining) ==>
      OneAtATime(w, es + [e])
    decreases |es|
  {
    if es == [] {
      assert ([] + [e])[1..] == [];
    } else {
      Extend(Apply(w, es[0]), es[1..], e, next);
      assert (es + [e])[1..] == es[1..] + [e];
    }
  }

  /** The world of the two runs below while drain sequence 1 backs up the empty database. */
  function Draining1(status: S.Status, holder: S.Holder, drain: Drain, owner: Option<nat>): World {
    var w := EmptyWorld();
    w.(sync := w.sync.(svc := w.sync.svc.(status := status), holder := holder),
       pod := L.Pod(L.Session(L.Draining, true, None), []), epoch := 1, drains := map[1 := drain], owner := owner)
  }

  lemma Backs(es: seq<Event>, status: S.Status, stage: S.Stage, status': S.Status, stage': S.Stage)
    returns (fs: seq<Event>)
    requires ValidRun(EmptyWorld(), es) && OneAtATime(EmptyWorld(), es)
    requires Run(EmptyWorld(), es) == Draining1(status, S.Held(S.WaitForClean, stage), Backing(1, 0, 0), Some(1))
    requires S.Worked(Draining1(status, S.Held(S.WaitForClean, stage), Backing(1, 0, 0), Some(1)).sync, 0) ==
             Draining1(status', S.Held(S.WaitForClean, stage'), Backing(1, 0, 0), Some(1)).sync
    ensures ValidRun(EmptyWorld(), fs) && OneAtATime(EmptyWorld(), fs)
    ensures Run(EmptyWorld(), fs) == Draining1(status', S.Held(S.WaitForClean, stage'), Backing(1, 0, 0), Some(1))
  {
    fs := es + [Sync(S.Work(0))];
    Extend(EmptyWorld(), es, Sync(S.Work(0)),
           Draining1(status', S.Held(S.WaitForClean, stage'), Backing(1, 0, 0), Some(1)));
  }

  lemma SeesQuiet() returns (es: seq<Event>)
    ensures ValidRun(EmptyWorld(), es) && OneAtATime(EmptyWorld(), es)
    ensures Run(EmptyWorld(), es) == Draining1(S.Idle, S.Free, Quiet(1, 0, 0), None)
  {
    Extend(EmptyWorld(), [], Begin(1), Draining1(S.Idle, S.Free, Began(1), None));
    es := [] + [Begin(1)];
    hide ValidRun, Run, OneAtATime;
    Extend(EmptyWorld(), es, SeesNoWork(1), Draining1(S.Idle, S.Free, Quiet(1, 0, 0), None));
    es := es + [SeesNoWork(1)];
  }

  /** One waiting caller more. */
  function Contended(w: World): World {
    w.(sync := w.sync.(threads := w.sync.threads.(contenders := w.sync.threads.contenders + 1)))
  }

  lemma StartsOwnBackup() returns (es: seq<Event>)
    ensures ValidRun(EmptyWorld(), es) && OneAtATime(EmptyWorld(), es)
    ensures Run(EmptyWorld(), es) == Draining1(S.Idle, S.Held(S.WaitForClean, S.Locked), Backing(1, 0, 0), Some(1))
  {
    hide ValidRun, Run, OneAtATime;
    es := SeesQuiet();
    Extend(EmptyWorld(), es, DrainChecks(1), Contended(Draining1(S.Idle, S.Free, Contending(1, 0, 0), None)));
    es := es + [DrainChecks(1)];
    Extend(EmptyWorld(), es, DrainLocks(1),
           Draining1(S.Idle, S.Held(S.WaitForClean, S.Locked), Backing(1, 0, 0), Some(1)));
    es := es + [DrainLocks(1)];
  }

  lemma Announces() returns (es: seq<Event>)
    ensures ValidRun(EmptyWorld(), es) && OneAtATime(EmptyWorld(), es)
    ensures Run(EmptyWorld(), es) == Draining1(S.Synced, S.Held(S.WaitForClean, S.Finished), Backing(1, 0, 0), Some(1))
  {
    es := StartsOwnBackup();
    hide ValidRun, Run, Enabled, OneAtATime;
    es := Backs(es, S.Idle, S.Locked, S.Idle, S.VersionRead(0));
    es := Backs(es, S.Idle, S.VersionRead(0), S.Running, S.Started(0));
    es := Backs(es, S.Running, S.Started(0), S.Running, S.Snapped(0, 0, []));
    es := Backs(es, S.Running, S.Snapped(0, 0, []), S.Running, S.Published(0, []));
    es := Backs(es, S.Running, S.Published(0, []), S.Running, S.Recorded(0));
    es := Backs(es, S.Running, S.Recorded(0), S.Synced, S.Announced(0));
    es := Backs(es, S.Synced, S.Announced(0), S.Synced, S.Finished);
  }

  lemma OwnBackup() returns (es: seq<Event>)
    ensures ValidRun(EmptyWorld(), es) && OneAtATime(EmptyWorld(), es)
    ensures Run(EmptyWorld(), es) == Draining1(S.Synced, S.Free, BackedUp(1, 0, 0), None)
  {
    es := Announces();
    hide ValidRun, Run, OneAtATime;
    Extend(EmptyWorld(), es, Sync(S.Work(0)), Contended(Draining1(S.Synced, S.Free, BackedUp(1, 0, 0), None)));
    es := es + [Sync(S.Work(0))];
    Extend(EmptyWorld(), es, Sync(S.WaiterLeaves), Draining1(S.Synced, S.Free, BackedUp(1, 0, 0), None));
    es := es + [Sync(S.WaiterLeaves)];
  }

  /** A write outside the gate that no active work accounts for, such as a worker releasing its lease after its
      generation completed, can land after the final snapshot and be lost. */
  lemma UncountedWriteCanBeLost() returns (es: seq<Event>)
    ensures ValidRun(EmptyWorld(), es) && OneAtATime(EmptyWorld(), es)
    ensures var t := Run(EmptyWorld(), es);
      Enabled(t, Delete(1, false)) && t.drains[1].epoch == t.epoch && t.sync.svc.IsClean() &&
      t.sync.log == [S.Mutation(7)] && S.LatestContent(t.sync) == []
  {
    hide ValidRun, Run, OneAtATime;
    es := OwnBackup();
    var w := Run(EmptyWorld(), es);
    es := WriteThenVerify(es, w);
  }

  lemma WriteThenVerify(es: seq<Event>, w: World) returns (fs: seq<Event>)
    requires ValidRun(EmptyWorld(), es) && OneAtATime(EmptyWorld(), es) && Run(EmptyWorld(), es) == w
    requires w.drains == map[1 := BackedUp(1, 0, 0)] && w.sync.svc.HasLatestRemoteBackup()
    ensures ValidRun(EmptyWorld(), fs) && OneAtATime(EmptyWorld(), fs)
    ensures Run(EmptyWorld(), fs) ==
            w.(sync := S.Apply(w.sync, S.Mutate(S.Mutation(7))), uncounted := w.uncounted + 1,
               drains := map[1 := Verified(1, 0, 0)])
  {
    hide ValidRun, Run, OneAtATime;
    var w1 := w.(sync := S.Apply(w.sync, S.Mutate(S.Mutation(7))), uncounted := w.uncounted + 1);
    Extend(EmptyWorld(), es, UncountedWrite(S.Mutation(7)), w1);
    fs := es + [UncountedWrite(S.Mutation(7))];
    Extend(EmptyWorld(), fs, SeesSynced(1), w1.(drains := map[1 := Verified(1, 0, 0)]));
    fs := fs + [SeesSynced(1)];
  }

  /** Drain sequence 1 has passed its last check when sequence 2, which joined its DRAINING, aborts it. */
  lemma SecondDrainAborts() returns (es: seq<Event>)
    ensures ValidRun(EmptyWorld(), es)
    ensures Run(EmptyWorld(), es) ==
            Draining1(S.Synced, S.Free, Verified(1, 0, 0), None).(pod := L.Pod(L.Session(L.Idle, true, None), []))
  {
    var w1 := Draining1(S.Synced, S.Free, Verified(1, 0, 0), None);
    var w2 := w1.(drains := map[1 := Verified(1, 0, 0), 2 := Began(1)]);
    hide ValidRun, Run, OneAtATime;
    es := OwnBackup();
    Extend(EmptyWorld(), es, SeesSynced(1), w1);
    es := es + [SeesSynced(1)];
    Extend(EmptyWorld(), es, Begin(2), w2);
    es := es + [Begin(2)];
    assert w2.drains - {2} == w1.drains;
    Extend(EmptyWorld(), es, Abort(2), w1.(pod := L.Pod(L.Session(L.Idle, true, None), [])));
    es := es + [Abort(2)];
  }

  /** Two overlapping drain sequences: the second joins the first's DRAINING silently and aborts it after the first has
      passed its last readiness check; a mutation admitted through the gate, and marked dirty, is in no backup when a
      third BeginDraining lets the first sequence, now stale, issue its DELETE. */
  lemma OverlappingDrainsLoseAGatedMutation() returns (es: seq<Event>)
    ensures ValidRun(EmptyWorld(), es)
    ensures var t := Run(EmptyWorld(), es);
      Enabled(t, Delete(1, false)) && t.drains[1].epoch < t.epoch && t.uncounted == 0 && t.active == 0 &&
      t.sync.marks == [1] &&
      t.sync.log == [S.Mutation(7)] && S.LatestContent(t.sync) == []
  {
    hide ValidRun, Run, OneAtATime;
    es := SecondDrainAborts();
    var w := Run(EmptyWorld(), es);
    es := GatedMutation(es, w);
    var m := w.(sync := Marked(w.sync));
    var draining := L.Pod(L.Session(L.Draining, true, None), []);
    Extend(EmptyWorld(), es, Begin(3), m.(pod := draining, epoch := 2, drains := m.drains[3 := Began(2)]));
    es := es + [Begin(3)];
  }

  /** The backup state after a mutation and its mark. */
  function Marked(s: S.State): S.State
    requires s.svc.Enabled()
  {
    var t := S.Apply(S.Apply(s, S.Mutate(S.Mutation(7))), S.MarkChecks);
    S.Apply(t, S.MarkLocks)
  }

  lemma GatedMutation(es: seq<Event>, w: World) returns (fs: seq<Event>)
    requires ValidRun(EmptyWorld(), es) && Run(EmptyWorld(), es) == w
    requires !w.gate && !w.pod.session.Blocked() && w.sync.svc.Enabled() && w.owner == None
    ensures ValidRun(EmptyWorld(), fs)
    ensures Run(EmptyWorld(), fs) == w.(sync := Marked(w.sync))
  {
    hide ValidRun, Run, OneAtATime;
    fs := es;
    var w1 := w.(gate := true);
    var w2 := w1.(sync := S.Apply(w.sync, S.Mutate(S.Mutation(7))));
    var w3 := w2.(sync := S.Apply(w2.sync, S.MarkChecks));
    var w4 := w3.(sync := S.Apply(w3.sync, S.MarkLocks));
    Extend(EmptyWorld(), fs, GateEnter, w1);
    fs := fs + [GateEnter];
    Extend(EmptyWorld(), fs, GateWrite(S.Mutation(7)), w2);
    fs := fs + [GateWrite(S.Mutation(7))];
    Extend(EmptyWorld(), fs, Sync(S.MarkChecks), w3);
    fs := fs + [Sync(S.MarkChecks)];
    Extend(EmptyWorld(), fs, Sync(S.MarkLocks), w4);
    fs := fs + [Sync(S.MarkLocks)];
    Extend(EmptyWorld(), fs, GateLeave, w4.(gate := false));
    fs := fs + [GateLeave];
  }
}
