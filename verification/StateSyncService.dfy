/** The state-sync service object. Every lock section is proved equal to its atomic event, and `trace` records
    the events, so whatever is proved of all runs holds of the object at every moment. */
module StateSyncService {
  import opened Wrappers
  import opened StateSyncSteps
  import opened StateSyncTheorems

  datatype Outcome =
    | Completes
    | SnapshotFails
    | BodyFails(tookEffect: bool)
    | MetadataFails(tookEffect: bool)
    | PointerFails(tookEffect: bool)

  /** One attempt: what other threads do before and after its snapshot and during each upload, and how its remote calls
      end. */
  datatype Round = Round(
    createdAt: int, early: seq<Event>, late: seq<Event>, body: seq<Event>, metadata: seq<Event>, pointer: seq<Event>,
    outcome: Outcome)
  {
    function Uploading(): seq<Event> { body + (metadata + pointer) }

    function Others(): seq<Event> { early + (late + Uploading()) }
  }

  function MarkCount(es: seq<Event>): nat {
    if es == [] then 0 else (if es[0].MarkLocks? then 1 else 0) + MarkCount(es[1..])
  }

  /** How many marks other threads want to make during an attempt. */
  function NewMarks(round: Round): nat {
    MarkCount(round.Others())
  }

  lemma {:induction false} MarkCountConcat(es: seq<Event>, fs: seq<Event>)
    ensures MarkCount(es + fs) == MarkCount(es) + MarkCount(fs)
  {
    if es == [] {
      assert es + fs == fs;
    } else {
      MarkCountConcat(es[1..], fs);
      assert (es + fs)[1..] == es[1..] + fs;
    }
  }

  /** The steps of a backup, its faults and its cancellation belong to the lock holder. */
  predicate ByOthers(e: Event) {
    !e.Work? && !e.Fault? && !e.Cancelled? && !e.Restart?
  }

  /** What other threads may do to the service and the database while the lock is held. */
  ghost predicate OnlyMarked(s: State, t: State, es: seq<Event>) {
    && s.log <= t.log
    && t.svc.lastHash == s.svc.lastHash && t.svc.backedUp == s.svc.backedUp
    && s.svc.dirty <= t.svc.dirty <= s.svc.dirty + MarkCount(es)
    && (s.svc.closed ==> t.svc.closed) && (CloseEnds !in es ==> t.svc.closed == s.svc.closed)
    && (t.svc.status == s.svc.status || t.svc.status != Synced)
  }

  lemma OthersStep(s: State, e: Event)
    requires s.holder.Held? && Enabled(s, e) && ByOthers(e)
    ensures Apply(s, e).holder == s.holder && Apply(s, e).remote == s.remote
    ensures Apply(s, e).svc.lastHash == s.svc.lastHash
    ensures OnlyMarked(s, Apply(s, e), [e])
  {
    assert MarkCount([e]) == (if e.MarkLocks? then 1 else 0) + MarkCount([]) by {
      assert [e][1..] == [];
    }
    assert CloseEnds in [e] <==> e == CloseEnds;
  }

  /** `s` with what `t` says is backed up. */
  function BackedUpTo(s: State, t: State): State {
    s.(svc := s.svc.(lastHash := t.svc.lastHash, backedUp := t.svc.backedUp))
  }

  lemma Unmarked(s: State, t: State, es: seq<Event>)
    requires t.svc == s.svc && t.log == s.log
    ensures OnlyMarked(s, t, es)
  {
  }

  lemma UploadMarksNothing(s: State, t: State, u: State, es: seq<Event>)
    requires OnlyMarked(s, t, es) && u.svc == t.svc && u.log == t.log
    ensures OnlyMarked(s, u, es)
  {
  }

  lemma RecordingMarksNothing(s: State, t: State, u: State, es: seq<Event>)
    requires OnlyMarked(s, t, es) && BackedUpTo(t, u).svc == u.svc && u.log == t.log
    ensures OnlyMarked(BackedUpTo(s, u), u, es)
    ensures t.svc.lastHash == s.svc.lastHash && t.svc.backedUp == s.svc.backedUp
  {
  }

  lemma OnlyMarkedTwice(s: State, t: State, u: State, es: seq<Event>, fs: seq<Event>)
    requires OnlyMarked(s, t, es) && OnlyMarked(t, u, fs)
    ensures OnlyMarked(s, u, es + fs)
  {
    MarkCountConcat(es, fs);
    hide MarkCount;
  }

  class StateSyncService {
    const configured: bool
    const writeProtected: bool
    var closed: bool
    var timer: Option<nat>
    var timerToken: nat
    var dirtyVersion: nat
    var backedUpVersion: nat
    var lastHash: Option<Digest>
    var status: Status
    var backupLock: Holder
    var database: Database
    var remote: Remote
    var outstandingTimers: set<nat>
    var threads: Threads
    var marks: seq<nat>
    var base: nat
    ghost const start: State
    ghost var trace: seq<Event>

    function State(): State
      reads this
    {
      StateSyncSteps.State.State(
        Service(configured, writeProtected, closed, timer, timerToken, dirtyVersion, backedUpVersion, lastHash, status),
        database, marks, base, threads, outstandingTimers, backupLock, remote)
    }

    predicate IsEnabled()
      reads this`closed
    {
      configured && !writeProtected && !closed
    }

    /** The object is where its recorded events lead from a state that satisfied the invariant. */
    ghost predicate Valid()
      reads this
    {
      Inv(start) && ValidRun(start, trace) && Run(start, trace) == State() && Inv(State())
    }

    constructor (configured: bool, writeProtected: bool, initialRemoteSha256: Option<Digest>, database: Database,
                 remote: Remote)
      requires Inv(Start(configured, writeProtected, initialRemoteSha256, database, remote))
      ensures Valid() && State() == Start(configured, writeProtected, initialRemoteSha256, database, remote) &&
        trace == []
    {
      this.configured, this.writeProtected, this.closed := configured, writeProtected, false;
      timer, timerToken, dirtyVersion, backedUpVersion := None, 0, 0, 0;
      lastHash := initialRemoteSha256;
      status := if writeProtected then Failed else if configured then Idle else Disabled;
      backupLock, outstandingTimers, threads := Free, {}, NOBODY;
      this.database, this.remote := database, remote;
      marks, base, trace := [], |database|, [];
      start := Start(configured, writeProtected, initialRemoteSha256, database, remote);
    }

    /** Ghost bookkeeping: the fields have just been moved along `e`. */
    ghost method Record(e: Event)
      requires Inv(start) && ValidRun(start, trace)
      requires Inv(Run(start, trace)) && Enabled(Run(start, trace), e) && State() == Apply(Run(start, trace), e)
      modifies this`trace
      ensures Valid() && trace == old(trace) + [e]
    {
      RunSnoc(start, trace, e);
      StepKeepsInv(Run(start, trace), e);
      trace := trace + [e];
    }

    method ScheduleTimerLocked(reset: bool)
      modifies this`timer, this`timerToken, this`outstandingTimers
      ensures State() == WithService(old(State()), ScheduleTimer(old(State()).svc, reset))
    {
      if closed || !configured || writeProtected {
        return;
      }
      if reset && timer != None {
        timer := None;
      }
      if !reset && timer != None {
        return;
      }
      timerToken := timerToken + 1;
      timer := Some(timerToken);
      outstandingTimers := outstandingTimers + {timerToken};
    }

    /** `mark_dirty`, with what other threads do between its unlocked check and its lock section. */
    method MarkDirty(between: seq<Event>) returns (marked: bool)
      requires Valid()
      modifies this
      ensures Valid() && old(trace) <= trace && marked == old(IsEnabled())
      ensures !marked ==> State() == old(State())
      ensures marked ==>
        |marks| > 0 && marks[|marks| - 1] == |database| && |trace| > 0 && trace[|trace| - 1] == MarkLocks
      ensures marked && between == [] ==>
        State() == Apply(Apply(old(State()), MarkChecks), MarkLocks) && trace == old(trace) + [MarkChecks, MarkLocks]
    {
      hide Inv, Run, ValidRun;
      marked := IsEnabled();
      if !marked {
        return;
      }
      threads := threads.(markers := threads.markers + 1);
      Record(MarkChecks);
      ghost var checked := trace;
      Interleave(between, NOBODY.(markers := 1));
      ghost var interleaved := trace;
      threads := threads.(markers := threads.markers - 1);
      dirtyVersion := dirtyVersion + 1;
      marks := marks + [|database|];
      ScheduleTimerLocked(true);
      Record(MarkLocks);
      assert between == [] ==> trace == old(trace) + [MarkChecks] + [MarkLocks];
    }

    /** The others' threads are about, besides those of the calling one, which are `mine`. */
    predicate About(mine: Threads)
      reads this`threads
    {
      AtLeast(threads, mine)
    }

    method SetService(svc: Service)
      requires svc.configured == configured && svc.writeProtected == writeProtected
      modifies this`closed, this`timer, this`timerToken, this`dirtyVersion, this`backedUpVersion, this`lastHash,
        this`status
      ensures State() == old(State()).(svc := svc)
    {
      closed, timer, timerToken := svc.closed, svc.timer, svc.token;
      dirtyVersion, backedUpVersion, lastHash, status := svc.dirty, svc.backedUp, svc.lastHash, svc.status;
    }

    method SetState(t: State)
      requires t.svc.configured == configured && t.svc.writeProtected == writeProtected
      modifies this
      ensures State() == t && trace == old(trace)
    {
      SetService(t.svc);
      database, marks, base, threads := t.log, t.marks, t.base, t.threads;
      outstandingTimers, backupLock, remote := t.outstanding, t.holder, t.remote;
    }

    /** One step of some other thread. */
    method Step(e: Event)
      requires Valid() && Enabled(State(), e) && !e.Restart?
      modifies this
      ensures Valid() && State() == Apply(old(State()), e) && trace == old(trace) + [e]
    {
      hide Inv, Run, ValidRun, Apply, Enabled;
      SettingsStay(State(), e);
      SetState(Apply(State(), e));
      Record(e);
    }

    /** Whatever other threads can do of `es`, in order; the steps of this thread's own are left to it. */
    method Interleave(es: seq<Event>, mine: Threads)
      requires Valid() && About(mine)
      modifies this
      ensures Valid() && About(mine) && old(trace) <= trace &&
        (es == [] ==> State() == old(State()) && trace == old(trace))
    {
      hide Valid, Apply, Enabled, AtLeast;
      for i := 0 to |es|
        invariant Valid() && About(mine) && old(trace) <= trace
        invariant i == 0 ==> State() == old(State()) && trace == old(trace)
      {
        if !es[i].Restart? && Enabled(State(), es[i]) && AtLeast(Apply(State(), es[i]).threads, mine) {
          Step(es[i]);
        }
      }
    }

    /** A repository write by any thread. */
    method Write(m: Mutation)
      requires Valid()
      modifies this
      ensures Valid() && State() == Apply(old(State()), Mutate(m)) && trace == old(trace) + [Mutate(m)]
    {
      database := database + [m];
      Record(Mutate(m));
    }

    /** The guarded prelude of `_run_debounced_backup`: a stale token changes nothing but its own bookkeeping. */
    method TimerCallback(timerToken: nat) returns (proceed: bool)
      requires Valid() && timerToken in outstandingTimers
      modifies this
      ensures Valid() && State() == Apply(old(State()), TimerFires(timerToken))
      ensures proceed == (timerToken == old(this.timerToken) && !old(closed))
      ensures !proceed ==> old(timerToken != this.timerToken) ==> State().svc == old(State()).svc
    {
      hide Inv, Run, ValidRun;
      outstandingTimers := outstandingTimers - {timerToken};
      proceed := false;
      if timerToken == this.timerToken {
        timer := None;
        if !closed {
          threads := threads.(fired := threads.fired + 1);
          proceed := true;
        }
      }
      Record(TimerFires(timerToken));
    }

    /** Whatever other threads can do of `es`, in order, while this one holds the lock and awaits. */
    method Interfere(es: seq<Event>, mine: Threads)
      requires Valid() && About(mine) && backupLock.Held?
      modifies this
      ensures Valid() && About(mine) && old(trace) <= trace
      ensures backupLock == old(backupLock) && remote == old(remote) && lastHash == old(lastHash)
      ensures OnlyMarked(old(State()), State(), es)
    {
      hide Valid, Apply, Enabled, AtLeast, OnlyMarked;
      Unmarked(State(), State(), []);
      for i := 0 to |es|
        invariant Valid() && About(mine) && old(trace) <= trace
        invariant backupLock == old(backupLock) && remote == old(remote) && lastHash == old(lastHash)
        invariant OnlyMarked(old(State()), State(), es[..i])
      {
        assert es[..i + 1] == es[..i] + [es[i]];
        ghost var before := State();
        Unmarked(before, before, [es[i]]);
        if !es[i].Restart? && ByOthers(es[i]) && Enabled(State(), es[i]) &&
          AtLeast(Apply(State(), es[i]).threads, mine)
        {
          OthersStep(before, es[i]);
          Step(es[i]);
        }
        OnlyMarkedTwice(old(State()), before, State(), es[..i], [es[i]]);
      }
      assert es[..|es|] == es;
    }

    /** Move the lock holder to its next stage; the caller has already changed the other fields. */
    method Reach(stage: Stage, ghost e: Event)
      requires backupLock.Held? && Inv(start) && ValidRun(start, trace) && Inv(Run(start, trace))
      requires Enabled(Run(start, trace), e) && Apply(Run(start, trace), e) == At(State(), stage)
      modifies this`backupLock, this`trace
      ensures Valid() && backupLock == old(backupLock).(stage := stage) && trace == old(trace) + [e]
    {
      backupLock := backupLock.(stage := stage);
      Record(e);
    }

    /** The snapshot body goes up first, under a name that carries its digest. */
    method UploadBody(version: nat, createdAt: int, content: Database, outcome: Outcome) returns (stored: bool)
      requires Valid() && backupLock.Held? && backupLock.stage == Snapped(version, createdAt, content)
      requires lastHash != Some(Digest(content))
      modifies this`remote, this`backupLock, this`trace
      ensures Valid() && old(trace) <= trace && stored == !outcome.BodyFails?
      ensures backupLock.Held? && backupLock.mode == old(backupLock).mode
      ensures backupLock.stage == if stored then BodyStored(version, createdAt, content) else Raised
    {
      stored := !outcome.BodyFails?;
      if stored || outcome.tookEffect {
        remote := remote.(bodies := remote.bodies[BodyName(createdAt, Digest(content)) := content]);
      }
      if stored {
        Reach(BodyStored(version, createdAt, content), Work(createdAt));
      } else {
        Reach(Raised, Fault(outcome.tookEffect));
      }
    }

    method UploadMetadata(version: nat, createdAt: int, content: Database, outcome: Outcome) returns (stored: bool)
      requires Valid() && backupLock.Held? && backupLock.stage == BodyStored(version, createdAt, content)
      modifies this`remote, this`backupLock, this`trace
      ensures Valid() && old(trace) <= trace && stored == !outcome.MetadataFails?
      ensures backupLock.Held? && backupLock.mode == old(backupLock).mode
      ensures backupLock.stage == if stored then MetadataStored(version, createdAt, content) else Raised
    {
      stored := !outcome.MetadataFails?;
      if stored || outcome.tookEffect {
        var name := BodyName(createdAt, Digest(content));
        remote := remote.(metadata := remote.metadata[name := Contents(name)]);
      }
      if stored {
        Reach(MetadataStored(version, createdAt, content), Work(createdAt));
      } else {
        Reach(Raised, Fault(outcome.tookEffect));
      }
    }

    /** `latest.json` goes up last: from here on a restore installs `content`. */
    method UploadPointer(version: nat, createdAt: int, content: Database, outcome: Outcome) returns (stored: bool)
      requires Valid() && backupLock.Held? && backupLock.stage == MetadataStored(version, createdAt, content)
      modifies this`remote, this`backupLock, this`trace
      ensures Valid() && old(trace) <= trace && stored == !outcome.PointerFails?
      ensures backupLock == Held(old(backupLock).mode, if stored then Published(version, content) else Raised)
    {
      stored := !outcome.PointerFails?;
      if stored || outcome.tookEffect {
        remote := remote.(latest := Some(Contents(BodyName(createdAt, Digest(content)))));
      }
      if stored {
        Reach(Published(version, content), Work(createdAt));
      } else {
        Reach(Raised, Fault(outcome.tookEffect));
      }
    }

    method SkipUpload(version: nat, createdAt: int, content: Database)
      requires Valid() && backupLock.Held? && backupLock.stage == Snapped(version, createdAt, content)
      requires lastHash == Some(Digest(content))
      modifies this`backupLock, this`trace
      ensures Valid() && old(trace) <= trace && backupLock == Held(old(backupLock).mode, Published(version, content))
    {
      Reach(Published(version, content), Work(createdAt));
    }

    /** Nothing to upload when the digest is already the remote one. */
    method Publish(version: nat, content: Database, round: Round, mine: Threads) returns (published: bool)
      requires Valid() && About(mine)
      requires backupLock.Held? && backupLock.stage == Snapped(version, round.createdAt, content)
      modifies this
      ensures Valid() && About(mine) && old(trace) <= trace
      ensures backupLock == Held(old(backupLock).mode, if published then Published(version, content) else Raised)
      ensures published == (old(lastHash) == Some(Digest(content)) || round.outcome.Completes? ||
                            round.outcome.SnapshotFails?)
      ensures OnlyMarked(old(State()), State(), round.Uploading())
    {
      hide Valid, AtLeast, OnlyMarked;
      if lastHash == Some(Digest(content)) {
        SkipUpload(version, round.createdAt, content);
        Unmarked(old(State()), State(), round.Uploading());
        return true;
      }
      Interfere(round.body, mine);
      ghost var before := State();
      published := UploadBody(version, round.createdAt, content, round.outcome);
      ghost var stored := State();
      UploadMarksNothing(old(State()), before, stored, round.body);
      if published {
        published := DescribeAndPoint(version, content, round, mine);
      } else {
        Unmarked(stored, stored, round.metadata + round.pointer);
      }
      OnlyMarkedTwice(old(State()), stored, State(), round.body, round.metadata + round.pointer);
    }

    /** The metadata file, then the pointer. */
    method DescribeAndPoint(version: nat, content: Database, round: Round, mine: Threads) returns (published: bool)
      requires Valid() && About(mine)
      requires backupLock.Held? && backupLock.stage == BodyStored(version, round.createdAt, content)
      modifies this
      ensures Valid() && About(mine) && old(trace) <= trace
      ensures backupLock == Held(old(backupLock).mode, if published then Published(version, content) else Raised)
      ensures published == (!round.outcome.MetadataFails? && !round.outcome.PointerFails?)
      ensures OnlyMarked(old(State()), State(), round.metadata + round.pointer)
    {
      hide Valid, AtLeast, OnlyMarked;
      Interfere(round.metadata, mine);
      ghost var before := State();
      published := UploadMetadata(version, round.createdAt, content, round.outcome);
      ghost var stored := State();
      UploadMarksNothing(old(State()), before, stored, round.metadata);
      if published {
        published := Point(version, content, round, mine);
      } else {
        Unmarked(stored, stored, round.pointer);
      }
      OnlyMarkedTwice(old(State()), stored, State(), round.metadata, round.pointer);
    }

    method Point(version: nat, content: Database, round: Round, mine: Threads) returns (published: bool)
      requires Valid() && About(mine)
      requires backupLock.Held? && backupLock.stage == MetadataStored(version, round.createdAt, content)
      modifies this
      ensures Valid() && About(mine) && old(trace) <= trace && published == !round.outcome.PointerFails?
      ensures backupLock == Held(old(backupLock).mode, if published then Published(version, content) else Raised)
      ensures OnlyMarked(old(State()), State(), round.pointer)
    {
      hide Valid, AtLeast, OnlyMarked;
      Interfere(round.pointer, mine);
      ghost var before := State();
      published := UploadPointer(version, round.createdAt, content, round.outcome);
      UploadMarksNothing(old(State()), before, State(), round.pointer);
    }

    // ---------- the other lock sections of an attempt ----------

    method ReadVersion() returns (version: nat)
      requires Valid() && backupLock.Held? && backupLock.stage == Locked
      modifies this`backupLock, this`trace
      ensures Valid() && old(trace) <= trace && version == dirtyVersion
      ensures backupLock == Held(old(backupLock).mode, VersionRead(version))
    {
      version := dirtyVersion;
      Reach(VersionRead(version), Work(0));
    }

    /** `_set_view`: RUNNING when an attempt starts, then SYNCED or FAILED. */
    method SetStatus(status: Status, stage: Stage)
      requires Valid() && backupLock.Held?
      requires match backupLock.stage
        case VersionRead(v) => status == Running && stage == Started(v)
        case Recorded(v) => status == Synced && stage == Announced(v)
        case Raised => status == Failed && stage == if backupLock.mode == WaitForClean then Finished else FollowUpDue
        case _ => false
      modifies this`status, this`backupLock, this`trace
      ensures Valid() && old(trace) <= trace && this.status == status && backupLock == Held(old(backupLock).mode, stage)
    {
      this.status := status;
      Reach(stage, Work(0));
    }

    method TakeSnapshot(version: nat, createdAt: int)
      requires Valid() && backupLock.Held? && backupLock.stage == Started(version)
      modifies this`backupLock, this`trace
      ensures Valid() && old(trace) <= trace
      ensures backupLock == Held(old(backupLock).mode, Snapped(version, createdAt, database))
    {
      Reach(Snapped(version, createdAt, database), Work(createdAt));
    }

    method FailSnapshot(version: nat)
      requires Valid() && backupLock.Held? && backupLock.stage == Started(version)
      modifies this`backupLock, this`trace
      ensures Valid() && old(trace) <= trace && backupLock == Held(old(backupLock).mode, Raised)
    {
      Reach(Raised, Fault(false));
    }

    method RecordSuccess(remoteSha256: Digest, version: nat)
      requires Valid() && backupLock.Held? && backupLock.stage == Published(version, remoteSha256.content)
      modifies this`lastHash, this`backedUpVersion, this`backupLock, this`trace
      ensures Valid() && old(trace) <= trace && backupLock == Held(old(backupLock).mode, Recorded(version))
      ensures lastHash == Some(remoteSha256)
      ensures backedUpVersion == if old(backedUpVersion) >= version then old(backedUpVersion) else version
    {
      lastHash := Some(remoteSha256);
      backedUpVersion := if backedUpVersion >= version then backedUpVersion else version;
      Reach(Recorded(version), Work(0));
    }

    method IsCleanAfter(version: nat) returns (clean: bool)
      requires Valid() && backupLock.Held? && backupLock.stage == Announced(version)
      modifies this`backupLock, this`trace
      ensures Valid() && old(trace) <= trace
      ensures clean == (backedUpVersion >= dirtyVersion && backedUpVersion >= version)
      ensures backupLock.Held? && backupLock.mode == old(backupLock).mode
      ensures backupLock.stage == if clean || backupLock.mode == WaitForClean then Finished else FollowUpDue
    {
      clean := backedUpVersion >= dirtyVersion && backedUpVersion >= version;
      Reach(if clean || backupLock.mode == WaitForClean then Finished else FollowUpDue, Work(0));
    }

    method ScheduleFollowUpBackup()
      requires Valid() && backupLock.Held? && backupLock.stage == FollowUpDue
      modifies this`timer, this`timerToken, this`outstandingTimers, this`backupLock, this`trace
      ensures Valid() && old(trace) <= trace && backupLock == Held(old(backupLock).mode, Finished)
      ensures IsEnabled() ==> timer.Some?
    {
      ScheduleTimerLocked(false);
      Reach(Finished, Work(0));
    }

    method ReleaseBackupLock()
      requires Valid() && backupLock.Held? && backupLock.stage == Finished
      modifies this`backupLock, this`threads, this`trace
      ensures Valid() && old(trace) <= trace && backupLock == Free
      ensures threads ==
        old(threads).(contenders := old(threads).contenders + if old(backupLock).mode == WaitForClean then 1 else 0)
    {
      if backupLock.mode == WaitForClean {
        threads := threads.(contenders := threads.contenders + 1);
      }
      backupLock := Free;
      Record(Work(0));
    }

    // ---------- one attempt, the loop and the shutdown ----------

    /** `create_snapshot`, which may raise, and what other threads do afterwards. */
    method Snapshot(version: nat, round: Round, mine: Threads) returns (content: Database)
      requires Valid() && About(mine) && backupLock.Held? && backupLock.stage == Started(version)
      modifies this
      ensures Valid() && About(mine) && old(trace) <= trace && content == old(database) && lastHash == old(lastHash)
      ensures backupLock == Held(old(backupLock).mode, if round.outcome.SnapshotFails? then Raised
                                                       else Snapped(version, round.createdAt, content))
      ensures OnlyMarked(old(State()), State(), round.late)
    {
      hide Valid, AtLeast, OnlyMarked;
      content := database;
      if round.outcome.SnapshotFails? {
        FailSnapshot(version);
      } else {
        TakeSnapshot(version, round.createdAt);
      }
      Unmarked(old(State()), State(), []);
      ghost var snapped := State();
      Interfere(round.late, mine);
      OnlyMarkedTwice(old(State()), snapped, State(), [], round.late);
      assert [] + round.late == round.late;
    }

    /** From the snapshot to the recorded success. */
    method SnapshotAndPublish(version: nat, round: Round, mine: Threads) returns (succeeded: bool)
      requires Valid() && About(mine) && version >= backedUpVersion
      requires backupLock.Held? && backupLock.stage == Started(version)
      modifies this
      ensures Valid() && About(mine) && old(trace) <= trace
      ensures backupLock == Held(old(backupLock).mode, if succeeded then Recorded(version) else Raised)
      ensures succeeded ==> lastHash == Some(Digest(old(database))) && backedUpVersion == version
      ensures !succeeded ==> lastHash == old(lastHash) && backedUpVersion == old(backedUpVersion)
      ensures OnlyMarked(BackedUpTo(old(State()), State()), State(), round.late + round.Uploading())
      ensures succeeded == (!round.outcome.SnapshotFails? &&
                            (round.outcome.Completes? || old(lastHash) == Some(Digest(old(database)))))
    {
      hide Valid, AtLeast, OnlyMarked;
      var content := Snapshot(version, round, mine);
      ghost var snapped := State();
      Unmarked(snapped, snapped, round.Uploading());
      succeeded := false;
      if !round.outcome.SnapshotFails? {
        succeeded := Publish(version, content, round, mine);
      }
      ghost var published := State();
      OnlyMarkedTwice(old(State()), snapped, published, round.late, round.Uploading());
      RecordingMarksNothing(old(State()), published, published, round.late + round.Uploading());
      if succeeded {
        RecordSuccess(Digest(content), version);
        RecordingMarksNothing(old(State()), published, State(), round.late + round.Uploading());
      }
    }

    /** The end of an attempt: the view, then the debounced caller's follow-up. */
    method Announce(succeeded: bool, version: nat)
      requires Valid() && backupLock.Held? && backupLock.stage == (if succeeded then Recorded(version) else Raised)
      modifies this`status, this`timer, this`timerToken, this`outstandingTimers, this`backupLock, this`trace
      ensures Valid() && old(trace) <= trace && backupLock == Held(old(backupLock).mode, Finished)
      ensures status == if succeeded then Synced else Failed
      ensures IsEnabled() && backupLock.mode == Debounced && (!succeeded || dirtyVersion > backedUpVersion) ==>
        timer.Some?
    {
      hide Valid;
      var followUp := backupLock.mode == Debounced;
      if succeeded {
        SetStatus(Synced, Announced(version));
        var clean := IsCleanAfter(version);
        followUp := followUp && !clean;
      } else {
        SetStatus(Failed, if followUp then FollowUpDue else Finished);
      }
      if followUp {
        ScheduleFollowUpBackup();
      }
    }

    /** `_backup_once`: success announces SYNCED and covers `version`; failure announces FAILED and covers nothing
        new; a debounced caller leaves a timer behind whenever a mark stayed uncovered. */
    method BackupOnce(version: nat, round: Round, mine: Threads) returns (succeeded: bool)
      requires Valid() && About(mine) && backupLock.Held? && backupLock.stage == VersionRead(version)
      requires version == dirtyVersion >= backedUpVersion
      modifies this
      ensures Valid() && About(mine) && old(trace) <= trace && backupLock == Held(old(backupLock).mode, Finished)
      ensures version <= dirtyVersion <= version + NewMarks(round)
      ensures (old(closed) ==> closed) && (CloseEnds !in round.Others() ==> closed == old(closed))
      ensures succeeded ==> status == Synced && lastHash.Some? && backedUpVersion == version
      ensures !succeeded ==> status == Failed && backedUpVersion == old(backedUpVersion) && lastHash == old(lastHash)
      ensures (round.outcome.Completes? ==> succeeded) && (round.outcome.SnapshotFails? ==> !succeeded)
      ensures succeeded && !round.outcome.Completes? ==> lastHash == old(lastHash)
      ensures IsEnabled() && backupLock.mode == Debounced && (!succeeded || dirtyVersion > backedUpVersion) ==>
        timer.Some?
    {
      hide Valid, AtLeast, MarkCount;
      SetStatus(Running, Started(version));
      Interfere(round.early, mine);
      succeeded := SnapshotAndPublish(version, round, mine);
      MarkCountConcat(round.early, round.late + round.Uploading());
      Announce(succeeded, version);
    }

    /** The guards of `backup`. They are not asked again while the caller waits for the lock. */
    method CheckGuards(waitForClean: bool) returns (passed: bool)
      requires Valid() && (!waitForClean ==> threads.fired > 0)
      modifies this`status, this`threads, this`trace
      ensures Valid() && trace == old(trace) + [if waitForClean then WaiterChecks else DebouncedChecks]
      ensures passed == IsEnabled()
      ensures status == if passed then old(status) else if writeProtected then Failed else Disabled
      ensures threads.closers == old(threads).closers
      ensures passed ==> if waitForClean then threads.contenders > 0 else threads.tryers > 0
    {
      hide Inv, Run, ValidRun;
      passed := configured && !writeProtected && !closed;
      if !waitForClean {
        threads := threads.(fired := threads.fired - 1);
      }
      if writeProtected {
        status := Failed;
      } else if !configured || closed {
        status := Disabled;
      } else if waitForClean {
        threads := threads.(contenders := threads.contenders + 1);
      } else {
        threads := threads.(tryers := threads.tryers + 1);
      }
      Record(if waitForClean then WaiterChecks else DebouncedChecks);
    }

    /** One non-blocking attempt on the lock; a debounced caller that fails leaves a timer and goes. */
    method TryLock(waitForClean: bool) returns (acquired: bool)
      requires Valid() && if waitForClean then threads.contenders > 0 else threads.tryers > 0
      modifies this`backupLock, this`threads, this`timer, this`timerToken, this`outstandingTimers, this`trace
      ensures Valid() && old(trace) <= trace && acquired == old(backupLock).Free? &&
        threads.closers == old(threads).closers
      ensures backupLock ==
              if acquired then Held(if waitForClean then WaitForClean else Debounced, Locked) else old(backupLock)
      ensures !acquired && waitForClean ==> State() == old(State())
      ensures !acquired && !waitForClean && IsEnabled() ==> timer.Some?
    {
      hide Inv, Run, ValidRun;
      acquired := backupLock.Free?;
      if acquired {
        backupLock := Held(if waitForClean then WaitForClean else Debounced, Locked);
        threads := if waitForClean then threads.(contenders := threads.contenders - 1)
                   else threads.(tryers := threads.tryers - 1);
        Record(if waitForClean then WaiterLocks else DebouncedTries);
      } else if !waitForClean {
        threads := threads.(tryers := threads.tryers - 1);
        ScheduleTimerLocked(false);
        Record(DebouncedTries);
      }
    }

    method LeaveBackup()
      requires Valid() && threads.contenders > 0
      modifies this`threads, this`trace
      ensures Valid() && old(trace) <= trace && threads == old(threads).(contenders := old(threads).contenders - 1)
    {
      hide Inv, Run, ValidRun;
      threads := threads.(contenders := threads.contenders - 1);
      Record(WaiterLeaves);
    }

    lemma BackedUpAtMostDirty()
      requires Valid()
      ensures backedUpVersion <= dirtyVersion
    {
    }

    /** One round of the loop, with the lock held. */
    method Attempt(waitForClean: bool, round: Round, mine: Threads) returns (ended: bool)
      requires Valid() && About(mine.(contenders := 0, tryers := 0))
      requires backupLock == Held(if waitForClean then WaitForClean else Debounced, Locked)
      requires mine == NOBODY.(closers := mine.closers, contenders := if waitForClean then 1 else 0,
                               tryers := if waitForClean then 0 else 1)
      modifies this
      ensures Valid() && old(trace) <= trace && backupLock == Free
      ensures (old(closed) ==> closed) && (CloseEnds !in round.Others() ==> closed == old(closed))
      ensures threads.closers >= mine.closers && (!ended ==> About(mine))
      ensures status == Synced || status == Failed
      ensures !ended ==> waitForClean && NewMarks(round) > 0
      ensures ended && waitForClean && status == Synced ==> backedUpVersion >= dirtyVersion && lastHash.Some?
      ensures !waitForClean && IsEnabled() && (status == Failed || dirtyVersion > backedUpVersion) ==> timer.Some?
    {
      hide Valid, NewMarks;
      var version := ReadVersion();
      BackedUpAtMostDirty();
      var succeeded := BackupOnce(version, round, mine.(contenders := 0, tryers := 0));
      ReleaseBackupLock();
      ended := !waitForClean || !succeeded || (backedUpVersion >= dirtyVersion && backedUpVersion >= version);
      if ended && waitForClean {
        LeaveBackup();
      }
    }

    /** A debounced caller did not get the lock, failed, or left something uncovered that can still be backed up. */
    predicate LeavesWork(attempts: nat)
      reads this
    {
      IsEnabled() && (attempts == 0 || status == Failed || dirtyVersion > backedUpVersion)
    }

    /** `backup`, against any activity of other threads before each attempt on the lock (`waits`) and during each
        attempt (`rounds`), until it ends or these run out. A waiting caller goes round again only when new marks
        arrived during an attempt that succeeded, so it ends as soon as it gets the lock and no mark arrives; ending on
        success it leaves the service clean, also when the service was closed while it waited. A debounced caller makes
        at most one attempt, and whatever it leaves uncovered has a timer. */
    method Backup(waitForClean: bool, waits: seq<seq<Event>>, rounds: seq<Round>, closing: bool)
      returns (attempts: nat, ended: bool)
      requires Valid() && (!waitForClean ==> threads.fired > 0) && (closing ==> threads.closers > 0)
      modifies this
      ensures Valid() && old(trace) <= trace && (closing ==> threads.closers > 0)
      ensures !old(IsEnabled()) ==> ended && attempts == 0 && status == if writeProtected then Failed else Disabled
      ensures attempts <= |rounds| && (waitForClean && ended && old(IsEnabled()) ==> attempts > 0)
      ensures forall i :: 0 <= i < attempts - (if ended then 1 else 0) ==> NewMarks(rounds[i]) > 0
      ensures !ended ==> attempts == |rounds| || (waitForClean && backupLock.Held?)
      ensures ended && attempts > 0 ==> backupLock.Free? && (status == Synced || status == Failed)
      ensures waitForClean && ended && attempts > 0 && status == Synced ==>
        backedUpVersion >= dirtyVersion && lastHash.Some?
      ensures !waitForClean ==> attempts <= 1
      ensures !waitForClean && ended && old(IsEnabled()) && LeavesWork(attempts) ==> timer.Some?
      ensures waits == [] && rounds != [] && old(IsEnabled()) && old(backupLock).Free? ==>
        attempts > 0 && ((forall i :: 0 <= i < attempts ==> CloseEnds !in rounds[i].Others()) ==> closed == old(closed))
    {
      hide Valid;
      attempts, ended := 0, false;
      var passed := CheckGuards(waitForClean);
      if !passed {
        return 0, true;
      }
      var waited, mine := 0, NOBODY.(closers := if closing then 1 else 0);
      mine := if waitForClean then mine.(contenders := 1) else mine.(tryers := 1);
      while !ended && attempts < |rounds|
        invariant Valid() && old(trace) <= trace && attempts <= |rounds| && waited <= |waits|
        invariant closing ==> threads.closers > 0
        invariant !ended ==> About(mine)
        invariant !ended && !waitForClean ==> attempts == 0
        invariant ended && waitForClean ==> attempts > 0
        invariant forall i :: 0 <= i < attempts - (if ended then 1 else 0) ==> NewMarks(rounds[i]) > 0
        invariant ended && attempts > 0 ==> backupLock.Free? && (status == Synced || status == Failed)
        invariant waitForClean && ended && status == Synced ==> backedUpVersion >= dirtyVersion && lastHash.Some?
        invariant attempts <= 1 || waitForClean
        invariant !waitForClean && ended && LeavesWork(attempts) ==> timer.Some?
        invariant waits == [] && (forall i :: 0 <= i < attempts ==> CloseEnds !in rounds[i].Others()) ==>
          closed == old(closed)
        invariant waits == [] && old(backupLock).Free? ==> attempts > 0 || (!ended && backupLock.Free?)
        decreases !ended, |rounds| - attempts, |waits| - waited
      {
        var last := waited == |waits|;
        if !last {
          Interleave(waits[waited], mine);
          waited := waited + 1;
        }
        var acquired := TryLock(waitForClean);
        if acquired {
          ended := Attempt(waitForClean, rounds[attempts], mine);
          attempts := attempts + 1;
        } else if !waitForClean {
          ended := true;
        } else if last {
          return;
        }
      }
    }

    /** `close`, against any activity of other threads before it asks whether it may flush and while it waits for the
        lock: when it is done no timer survives and nothing can be marked any more, and an uncovered mark has been
        flushed by a last backup, best effort. */
    method Close(between: seq<Event>, waits: seq<seq<Event>>, rounds: seq<Round>) returns (flushed: bool, done: bool)
      requires Valid()
      modifies this
      ensures old(closed) ==> done && !flushed && State() == old(State()) && trace == old(trace)
      ensures Valid() && old(trace) <= trace
      ensures done ==> closed && (!old(closed) ==> timer.None?)
      ensures flushed ==> !old(closed) && old(dirtyVersion) > old(backedUpVersion)
      ensures between == [] ==>
        flushed == (!old(closed) && old(dirtyVersion) > old(backedUpVersion) && configured && !writeProtected)
      ensures !flushed ==> done && (between == [] ==> dirtyVersion == old(dirtyVersion) && remote == old(remote))
      ensures done && flushed ==>
        (status == Synced || status == Failed) &&
          (status == Synced ==> backedUpVersion >= dirtyVersion && lastHash.Some?)
      ensures !done ==> flushed && (backupLock.Held? || forall i :: 0 <= i < |rounds| ==> NewMarks(rounds[i]) > 0)
    {
      hide Valid, NewMarks, State;
      if closed {
        return false, true;
      }
      BeginClose();
      flushed, done := Flush(between, waits, rounds);
      if done {
        FinishClose();
      }
    }

    /** The flush, if a mark was uncovered when the timer was cancelled. */
    method Flush(between: seq<Event>, waits: seq<seq<Event>>, rounds: seq<Round>) returns (flushed: bool, done: bool)
      requires Valid() && threads.closers > 0
      modifies this
      ensures Valid() && old(trace) <= trace && threads.closers > 0
      ensures flushed ==> old(dirtyVersion) > old(backedUpVersion)
      ensures between == [] ==> flushed == (old(dirtyVersion) > old(backedUpVersion) && old(IsEnabled()))
      ensures !flushed ==> done && (between == [] ==> dirtyVersion == old(dirtyVersion) && remote == old(remote))
      ensures done && flushed ==>
        (status == Synced || status == Failed) &&
          (status == Synced ==> backedUpVersion >= dirtyVersion && lastHash.Some?)
      ensures !done ==> flushed && (backupLock.Held? || forall i :: 0 <= i < |rounds| ==> NewMarks(rounds[i]) > 0)
    {
      hide Valid, NewMarks;
      flushed, done := dirtyVersion > backedUpVersion, true;
      Interleave(between, NOBODY.(closers := 1));
      flushed := flushed && IsEnabled();
      if flushed {
        var _, ended := Backup(true, waits, rounds, true);
        done := ended;
      }
    }

    method BeginClose()
      requires Valid() && !closed
      modifies this`threads, this`timer, this`timerToken, this`trace
      ensures Valid() && trace == old(trace) + [CloseBegins] && timer.None? && threads.closers > 0
    {
      hide Inv, Run, ValidRun;
      timer := None;
      timerToken := timerToken + 1;
      threads := threads.(closers := threads.closers + 1);
      Record(CloseBegins);
    }

    method FinishClose()
      requires Valid() && threads.closers > 0
      modifies this`closed, this`threads, this`timer, this`timerToken, this`trace
      ensures Valid() && trace == old(trace) + [CloseEnds] && closed && timer.None?
    {
      hide Inv, Run, ValidRun;
      closed := true;
      timer := None;
      timerToken := timerToken + 1;
      threads := threads.(closers := threads.closers - 1);
      Record(CloseEnds);
    }
  }

  predicate AtLeast(threads: Threads, mine: Threads) {
    threads.markers >= mine.markers && threads.fired >= mine.fired && threads.tryers >= mine.tryers &&
    threads.contenders >= mine.contenders && threads.closers >= mine.closers
  }

  lemma SettingsStay(s: State, e: Event)
    requires Enabled(s, e) && !e.Restart?
    ensures Apply(s, e).svc.configured == s.svc.configured && Apply(s, e).svc.writeProtected == s.svc.writeProtected
  {
  }
}
