/** The remote backup of the application database, cut at the points where other threads can run:
    every lock section, every upload and every timer callback is one atomic event. The database is an
    append-only log of mutations, a snapshot is the log at one moment, and the digest of a snapshot is
    injective. Uploads may fail with or without having taken effect. */
module StateSyncSteps {
  import opened Wrappers

  datatype Mutation = Mutation(id: nat)
  type Database = seq<Mutation>
  datatype Digest = Digest(content: Database)

  /** `backups/<created_at>-<sha256>.sqlite3`: the name carries the digest of what it holds. */
  datatype BodyName = BodyName(createdAt: int, sha256: Digest)
  datatype Pointer = Pointer(body: BodyName, sha256: Digest, size: nat)
  datatype Remote = Remote(bodies: map<BodyName, Database>, metadata: map<BodyName, Pointer>, latest: Option<Pointer>)

  datatype Status = Disabled | Idle | Running | Synced | Failed

  /** The fields of the service object. */
  datatype Service = Service(
    configured: bool, writeProtected: bool, closed: bool,
    timer: Option<nat>, token: nat,
    dirty: nat, backedUp: nat, lastHash: Option<Digest>, status: Status)
  {
    predicate Enabled() { configured && !writeProtected && !closed }

    predicate IsClean() { backedUp >= dirty }

    predicate HasLatestRemoteBackup() { lastHash.Some? && status == Synced }
  }

  /** `wait_for_clean=True` callers loop until clean; debounced callers run once and reschedule. */
  datatype Mode = WaitForClean | Debounced

  /** How far the holder of the backup lock has come. */
  datatype Stage =
    | Locked
    | VersionRead(version: nat)
    | Started(version: nat)
    | Snapped(version: nat, createdAt: int, content: Database)
    | BodyStored(version: nat, createdAt: int, content: Database)
    | MetadataStored(version: nat, createdAt: int, content: Database)
    | Published(version: nat, content: Database)
    | Recorded(version: nat)
    | Announced(version: nat)
    | Raised
    | FollowUpDue
    | Finished

  datatype Holder = Free | Held(mode: Mode, stage: Stage)

  /** Threads on their way: `markers` have seen the service enabled and are about to mark it dirty, `fired` have passed
      the token check of their timer, `tryers` are debounced callers and `contenders` waiting callers that have passed
      the guard of `backup` and not the backup lock, `closers` have begun to close. */
  datatype Threads = Threads(markers: nat, fired: nat, tryers: nat, contenders: nat, closers: nat)

  /** `marks[k]` is the length of the log when dirty version k+1 was handed out, `base` its length when the
      process started, and `outstanding` the timer tokens whose callback has not run. */
  datatype State = State(
    svc: Service, log: Database, marks: seq<nat>, base: nat, threads: Threads,
    outstanding: set<nat>, holder: Holder, remote: Remote)

  datatype Event =
    | Mutate(m: Mutation)
    | MarkChecks
    | MarkLocks
    | TimerFires(token: nat)
    | DebouncedChecks
    | DebouncedTries
    | WaiterChecks
    | WaiterLocks
    | WaiterLeaves
    | Work(createdAt: int)
    | Fault(tookEffect: bool)
    | Cancelled(tookEffect: bool)
    | CloseBegins
    | CloseEnds
    | Restart(newPod: bool, knowsRemote: bool)

  // ---------- the lock sections of the service ----------

  function ScheduleTimer(s: Service, reset: bool): Service {
    if s.closed || !s.configured || s.writeProtected then s
    else if !reset && s.timer.Some? then s
    else s.(token := s.token + 1, timer := Some(s.token + 1))
  }

  /** The lock section of `mark_dirty`: whether the service is enabled was asked before. */
  function MarkedDirty(s: Service): Service {
    ScheduleTimer(s.(dirty := s.dirty + 1), true)
  }

  function SuccessRecorded(s: Service, sha256: Digest, version: nat): Service {
    s.(lastHash := Some(sha256), backedUp := if s.backedUp >= version then s.backedUp else version)
  }

  predicate CleanFor(s: Service, version: nat) {
    s.backedUp >= s.dirty && s.backedUp >= version
  }

  function TimerCancelled(s: Service): Service {
    s.(timer := None, token := s.token + 1)
  }

  // ---------- the whole process ----------

  function Contents(name: BodyName): Pointer {
    Pointer(name, name.sha256, |name.sha256.content|)
  }

  /** A newly armed timer will call back sooner or later, even if it is cancelled too late. */
  function WithService(s: State, svc: Service): State {
    var armed := if svc.timer.Some? && svc.token != s.svc.token then {svc.timer.value} else {};
    s.(svc := svc, outstanding := s.outstanding + armed)
  }

  /** The lock holder awaits an upload. */
  predicate Uploading(s: State) {
    s.holder.Held? && (s.holder.stage.BodyStored? || s.holder.stage.MetadataStored? ||
    (s.holder.stage.Snapped? && s.svc.lastHash != Some(Digest(s.holder.stage.content))))
  }

  predicate Enabled(s: State, e: Event) {
    match e
    case TimerFires(token) => token in s.outstanding
    case MarkLocks => s.threads.markers > 0
    case DebouncedChecks => s.threads.fired > 0
    case DebouncedTries => s.threads.tryers > 0
    case WaiterLocks => s.threads.contenders > 0 && s.holder.Free?
    case WaiterLeaves => s.threads.contenders > 0
    case Work(_) => s.holder.Held?
    case Fault(_) => Uploading(s) || (s.holder.Held? && s.holder.stage.Started?)
    case Cancelled(_) => Uploading(s) && s.holder.mode == WaitForClean
    case CloseBegins => !s.svc.closed
    case CloseEnds => s.threads.closers > 0
    case _ => true
  }

  function At(s: State, stage: Stage): State
    requires s.holder.Held?
  {
    s.(holder := s.holder.(stage := stage))
  }

  /** The next step of whoever holds the backup lock. */
  function Worked(s: State, createdAt: int): State
    requires s.holder.Held?
  {
    match s.holder.stage
    case Locked => At(s, VersionRead(s.svc.dirty))
    case VersionRead(v) => At(s.(svc := s.svc.(status := Running)), Started(v))
    case Started(v) => At(s, Snapped(v, createdAt, s.log))
    case Snapped(v, c, content) =>
      if s.svc.lastHash == Some(Digest(content)) then At(s, Published(v, content))
      else At(BodyUploaded(s, c, content), BodyStored(v, c, content))
    case BodyStored(v, c, content) => At(MetadataUploaded(s, c, content), MetadataStored(v, c, content))
    case MetadataStored(v, c, content) => At(PointerUploaded(s, c, content), Published(v, content))
    case Published(v, content) => At(s.(svc := SuccessRecorded(s.svc, Digest(content), v)), Recorded(v))
    case Recorded(v) => At(s.(svc := s.svc.(status := Synced)), Announced(v))
    case Announced(v) => At(s, if s.holder.mode == WaitForClean || CleanFor(s.svc, v) then Finished else FollowUpDue)
    case Raised =>
      At(s.(svc := s.svc.(status := Failed)), if s.holder.mode == WaitForClean then Finished else FollowUpDue)
    case FollowUpDue => At(WithService(s, ScheduleTimer(s.svc, false)), Finished)
    case Finished => Released(s)
  }

  /** A waiting caller that has released the lock asks whether it is clean, and leaves or contends again. */
  function Released(s: State): State
    requires s.holder.Held?
  {
    var more := if s.holder.mode == WaitForClean then 1 else 0;
    s.(holder := Free, threads := s.threads.(contenders := s.threads.contenders + more))
  }

  function BodyUploaded(s: State, createdAt: int, content: Database): State {
    s.(remote := s.remote.(bodies := s.remote.bodies[BodyName(createdAt, Digest(content)) := content]))
  }

  function MetadataUploaded(s: State, createdAt: int, content: Database): State {
    var name := BodyName(createdAt, Digest(content));
    s.(remote := s.remote.(metadata := s.remote.metadata[name := Contents(name)]))
  }

  function PointerUploaded(s: State, createdAt: int, content: Database): State {
    s.(remote := s.remote.(latest := Some(Contents(BodyName(createdAt, Digest(content))))))
  }

  /** An upload that ends without success may have taken effect all the same. */
  function Stopped(s: State, tookEffect: bool): State
    requires s.holder.Held?
  {
    match s.holder.stage
    case Snapped(_, c, content) => if tookEffect then BodyUploaded(s, c, content) else s
    case BodyStored(_, c, content) => if tookEffect then MetadataUploaded(s, c, content) else s
    case MetadataStored(_, c, content) => if tookEffect then PointerUploaded(s, c, content) else s
    case _ => s
  }

  /** An exception inside the guarded part of a backup. */
  function Faulted(s: State, tookEffect: bool): State
    requires Enabled(s, Fault(tookEffect))
  {
    At(Stopped(s, tookEffect), Raised)
  }

  /** The task of a waiting caller is cancelled during an upload: the lock is released and nothing is announced. */
  function Interrupted(s: State, tookEffect: bool): State
    requires Enabled(s, Cancelled(tookEffect))
  {
    Stopped(s, tookEffect).(holder := Free)
  }

  /** A backup that is not allowed only changes the view. */
  function Refused(s: State): State {
    s.(svc := s.svc.(status := if s.svc.writeProtected then Failed else Disabled))
  }

  function Apply(s: State, e: Event): State
    requires Enabled(s, e)
  {
    match e
    case Mutate(m) => s.(log := s.log + [m])
    case MarkChecks => if !s.svc.Enabled() then s else s.(threads := s.threads.(markers := s.threads.markers + 1))
    case MarkLocks =>
      WithService(s, MarkedDirty(s.svc)).(
        marks := s.marks + [|s.log|], threads := s.threads.(markers := s.threads.markers - 1))
    case TimerFires(token) =>
      var t := s.(outstanding := s.outstanding - {token});
      if token != s.svc.token then t
      else if s.svc.closed then t.(svc := t.svc.(timer := None))
      else t.(svc := t.svc.(timer := None), threads := t.threads.(fired := t.threads.fired + 1))
    case DebouncedChecks =>
      var t := s.(threads := s.threads.(fired := s.threads.fired - 1));
      if !s.svc.Enabled() then Refused(t) else t.(threads := t.threads.(tryers := t.threads.tryers + 1))
    case DebouncedTries =>
      var t := s.(threads := s.threads.(tryers := s.threads.tryers - 1));
      if s.holder.Free? then t.(holder := Held(Debounced, Locked)) else WithService(t, ScheduleTimer(t.svc, false))
    case WaiterChecks =>
      if !s.svc.Enabled() then Refused(s) else s.(threads := s.threads.(contenders := s.threads.contenders + 1))
    case WaiterLocks =>
      s.(holder := Held(WaitForClean, Locked), threads := s.threads.(contenders := s.threads.contenders - 1))
    case WaiterLeaves => s.(threads := s.threads.(contenders := s.threads.contenders - 1))
    case Work(createdAt) => Worked(s, createdAt)
    case Fault(tookEffect) => Faulted(s, tookEffect)
    case Cancelled(tookEffect) => Interrupted(s, tookEffect)
    case CloseBegins => s.(svc := TimerCancelled(s.svc), threads := s.threads.(closers := s.threads.closers + 1))
    case CloseEnds =>
      s.(svc := TimerCancelled(s.svc).(closed := true), threads := s.threads.(closers := s.threads.closers - 1))
    case Restart(newPod, knowsRemote) =>
      var log := if newPod then LatestContent(s) else s.log;
      var lastHash := if knowsRemote && s.remote.latest.Some? then Some(s.remote.latest.value.sha256) else None;
      Start(s.svc.configured, s.svc.writeProtected, lastHash, log, s.remote)
  }

  const NOBODY := Threads(0, 0, 0, 0, 0)

  function Start(configured: bool, writeProtected: bool, lastHash: Option<Digest>, log: Database,
                 remote: Remote): State {
    State(
      Service(configured, writeProtected, false, None, 0, 0, 0, lastHash,
              if writeProtected then Failed else if configured then Idle else Disabled),
      log, [], |log|, NOBODY, {}, Free, remote)
  }

  /** What a restore would install: the body named by the latest pointer. */
  function LatestContent(s: State): Database {
    match s.remote.latest
    case None => []
    case Some(p) => if p.body in s.remote.bodies then s.remote.bodies[p.body] else []
  }

  predicate ValidRun(s: State, es: seq<Event>)
    decreases |es|
  {
    es == [] || (Enabled(s, es[0]) && ValidRun(Apply(s, es[0]), es[1..]))
  }

  function Run(s: State, es: seq<Event>): State
    requires ValidRun(s, es)
    decreases |es|
  {
    if es == [] then s else Run(Apply(s, es[0]), es[1..])
  }

  // ---------- what every step keeps ----------

  function MarkedLength(s: State, version: nat): nat {
    if 0 < version <= |s.marks| then s.marks[version - 1] else 0
  }

  ghost predicate MarksInv(s: State) {
    && s.svc.dirty == |s.marks|
    && s.svc.backedUp <= s.svc.dirty
    && s.base <= |s.log|
    && (forall i :: 0 <= i < |s.marks| ==> s.marks[i] <= |s.log|)
    && (forall i, j :: 0 <= i <= j < |s.marks| ==> s.marks[i] <= s.marks[j])
  }

  /** The published pointer names a stored body with the recorded hash and size. */
  ghost predicate PublicationInv(r: Remote) {
    && (forall name :: name in r.bodies ==> name.sha256 == Digest(r.bodies[name]))
    && (r.latest.Some? ==>
          var p := r.latest.value;
          p.body in r.bodies && p.sha256 == Digest(r.bodies[p.body]) && p.size == |r.bodies[p.body]|)
  }

  /** The published snapshot reaches at least as far as the first `n` mutations. */
  ghost predicate Covers(s: State, n: nat) {
    s.remote.latest.Some? && |LatestContent(s)| >= n
  }

  ghost predicate StageInv(s: State) {
    s.holder.Held? ==>
      match s.holder.stage
      case VersionRead(v) => v <= s.svc.dirty
      case Started(v) => v <= s.svc.dirty
      case Snapped(v, c, content) => SnapshotInv(s, v, content)
      case BodyStored(v, c, content) => SnapshotInv(s, v, content) && BodyName(c, Digest(content)) in s.remote.bodies
      case MetadataStored(v, c, content) =>
        SnapshotInv(s, v, content) && BodyName(c, Digest(content)) in s.remote.bodies
      case Published(v, content) =>
        v <= s.svc.dirty && content <= s.log && Covers(s, |content|) && Covers(s, MarkedLength(s, v)) &&
          Covers(s, s.base)
      case Recorded(v) => Covers(s, s.base)
      case _ => true
  }

  /** A snapshot taken after its version was read holds every mutation that version stands for. */
  ghost predicate SnapshotInv(s: State, version: nat, content: Database) {
    version <= s.svc.dirty && content <= s.log && |content| >= MarkedLength(s, version) &&
    |content| >= s.base && |content| >= |LatestContent(s)|
  }

  ghost predicate Inv(s: State) {
    && MarksInv(s)
    && PublicationInv(s.remote)
    && LatestContent(s) <= s.log
    && (s.svc.lastHash.Some? ==> Covers(s, |s.svc.lastHash.value.content|))
    && (s.svc.backedUp > 0 ==> Covers(s, MarkedLength(s, s.svc.backedUp)))
    && (s.svc.status == Synced ==> Covers(s, s.base))
    && StageInv(s)
  }
}
