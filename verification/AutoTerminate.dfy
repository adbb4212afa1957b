/** The grace period in front of an automatic termination: what a poll that starts a drain implies about all the
    polls, enqueues, toggles and drains before it. */
module AutoTerminate {
  import opened Wrappers
  import opened PodLifecycle
  import opened PodLifecycleService

  datatype Action = Nothing | Reset | ToWaiting | ToReady | Drain

  /** One poll as the coordinator sees it: the session when it starts, after the readiness check and when the
      transition is written. */
  datatype Poll = Poll(
    restoreReady: bool, started: Session, safe: bool, now: int, checked: Session, written: Session, drainRaises: bool)
  {
    predicate Wanted() { restoreReady && started.autoTerminate && started.IsArmed() }

    predicate Evaluates() { Wanted() && !started.Blocked() && started.status != TerminationFailed }
  }

  predicate InGrace(s: Session) {
    s.status == Waiting || s.status == Ready
  }

  /** `_ready_since` after the poll, and what it did to the session. */
  function Step(readySince: Option<int>, p: Poll, grace: nat): (Option<int>, Action) {
    if !p.Wanted() then (None, Nothing)
    else if !p.Evaluates() then (readySince, Nothing)
    else if !p.safe then (None, if InGrace(p.checked) then Reset else Nothing)
    else if readySince.None? || p.checked.status == Armed then
      (if p.written.status == Armed then Some(p.now) else None, ToWaiting)
    else if p.now - readySince.value < grace then (readySince, if p.checked.status != Ready then ToReady else Nothing)
    else (if p.drainRaises then None else readySince, Drain)
  }

  function ReadySince(polls: seq<Poll>, grace: nat): Option<int> {
    if polls == [] then None
    else Step(ReadySince(polls[..|polls| - 1], grace), polls[|polls| - 1], grace).0
  }

  /** Poll `j` opened a window that no poll since has closed or reopened: all of them were wanted, every readiness
      evaluation was safe, and none saw the session armed again. */
  ghost predicate OpenSince(polls: seq<Poll>, j: nat) {
    && j < |polls|
    && polls[j].Evaluates() && polls[j].safe
    && forall i :: j < i < |polls| ==>
         polls[i].Wanted() && (polls[i].Evaluates() ==> polls[i].safe && polls[i].checked.status != Armed)
  }

  lemma {:induction false} WindowIsOpen(polls: seq<Poll>, grace: nat) returns (j: nat)
    requires ReadySince(polls, grace).Some?
    ensures OpenSince(polls, j) && ReadySince(polls, grace) == Some(polls[j].now)
  {
    var last := polls[|polls| - 1];
    var before := polls[..|polls| - 1];
    if last.Evaluates() && (ReadySince(before, grace).None? || last.checked.status == Armed) {
      j := |polls| - 1;
    } else {
      j := WindowIsOpen(before, grace);
      assert forall i :: 0 <= i < |before| ==> before[i] == polls[i];
    }
  }

  /** If a poll starts an automatic drain, an earlier poll lies at least the grace period before it, and every
      readiness evaluation since then, its own included, was safe and did not see the session armed again. */
  lemma DrainWaitsOutTheGracePeriod(polls: seq<Poll>, p: Poll, grace: nat) returns (j: nat)
    requires Step(ReadySince(polls, grace), p, grace).1 == Drain
    ensures OpenSince(polls + [p], j) && j < |polls| && p.now - polls[j].now >= grace
  {
    j := WindowIsOpen(polls, grace);
    assert forall i :: 0 <= i < |polls| ==> (polls + [p])[i] == polls[i];
  }

  // ---------- the session behind the polls ----------

  /** One poll with what other threads do to the session before it, during its readiness check, before its transition
      is written and, if it drains, from then on. */
  datatype PollRun = PollRun(
    restoreReady: bool, before: seq<Event>, during: seq<Event>, late: seq<Event>, drained: seq<Event>,
    safe: bool, now: int, saves: bool, drainRaises: bool)
  {
    /** Only the coordinator moves the session through WAITING and READY. */
    predicate Foreign() {
      ForeignEvents(before) && ForeignEvents(during) && ForeignEvents(late) && ForeignEvents(drained)
    }
  }

  predicate ForeignEvents(es: seq<Event>) {
    forall i :: 0 <= i < |es| ==> !es[i].SetTransient? && !es[i].ResetGrace?
  }

  /** `written` counts the writes of the session by anybody else, `baseline` is that count and `openedAt` the time when
      the coordinator last moved the session from ARMED to WAITING; `accepted` counts the enqueues, toggles and drains
      by anybody else that have been accepted since. */
  datatype Watch = Watch(
    pod: Pod, readySince: Option<int>, written: nat, baseline: nat, openedAt: int, accepted: nat)

  /** A new generation, a toggle or a drain that the session admits. */
  predicate Accepts(s: Session, e: Event) {
    AcceptsEnqueue(s, e) || ((e.Toggle? || e == BeginDraining) && !s.Blocked())
  }

  function Accepted(p: Pod, es: seq<Event>): nat
    decreases |es|
  {
    if es == [] then 0 else (if Accepts(p.session, es[0]) then 1 else 0) + Accepted(Apply(p, es[0]), es[1..])
  }

  function Writes(p: Pod, es: seq<Event>): nat
    decreases |es|
  {
    if es == [] then 0 else (if Apply(p, es[0]).session != p.session then 1 else 0) + Writes(Apply(p, es[0]), es[1..])
  }

  function Others(w: Watch, es: seq<Event>): Watch {
    w.(pod := Run(w.pod, es), written := w.written + Writes(w.pod, es), accepted := w.accepted + Accepted(w.pod, es))
  }

  /** The world at the status read that follows the readiness check. */
  function Checked(w: Watch, r: PollRun): Watch {
    Others(Others(w, r.before), r.during)
  }

  function Seen(w: Watch, r: PollRun): Poll {
    Poll(r.restoreReady, Others(w, r.before).pod.session, r.safe, r.now, Checked(w, r).pod.session,
         Others(Checked(w, r), r.late).pod.session, r.drainRaises)
  }

  function Acted(w: Watch, action: Action, r: PollRun): Watch {
    match action
    case Nothing => w
    case Drain => Others(w.(pod := if r.saves then Apply(w.pod, BeginDraining) else w.pod), r.drained)
    case Reset => w.(pod := if r.saves then Apply(w.pod, ResetGrace) else w.pod)
    case ToReady => w.(pod := if r.saves then Apply(w.pod, SetTransient(Ready)) else w.pod)
    case ToWaiting =>
      if r.saves && w.pod.session.status == Armed then
        w.(pod := Apply(w.pod, SetTransient(Waiting)), baseline := w.written, openedAt := r.now, accepted := 0)
      else w
  }

  function Polled(w: Watch, r: PollRun, grace: nat): Watch {
    var (readySince, action) := Step(w.readySince, Seen(w, r), grace);
    Acted(Others(Checked(w, r), r.late), action, r).(readySince := readySince)
  }

  function Watched(w: Watch, rs: seq<PollRun>, grace: nat): Watch
    decreases |rs|
  {
    if rs == [] then w else Watched(Polled(w, rs[0], grace), rs[1..], grace)
  }

  /** A session in WAITING or READY has been written by nobody else since its window opened, and no enqueue, toggle or
      drain was accepted. */
  ghost predicate WatchInv(w: Watch) {
    && PodInv(w.pod)
    && (InGrace(w.pod.session) ==>
          w.written == w.baseline && w.accepted == 0 && (w.readySince.Some? ==> w.readySince.value == w.openedAt))
  }

  lemma {:induction false} OthersOnlyLeaveGrace(p: Pod, es: seq<Event>)
    requires PodInv(p) && ForeignEvents(es)
    ensures PodInv(Run(p, es))
    ensures InGrace(Run(p, es).session) ==>
      Run(p, es).session == p.session && Writes(p, es) == 0 && Accepted(p, es) == 0
    decreases |es|
  {
    if es != [] {
      StepKeepsPodInv(p, es[0]);
      StatusEdges(p, es[0]);
      assert forall i :: 0 <= i < |es[1..]| ==> es[1..][i] == es[i + 1];
      OthersOnlyLeaveGrace(Apply(p, es[0]), es[1..]);
    }
  }

  lemma OthersKeepWatchInv(w: Watch, es: seq<Event>)
    requires WatchInv(w) && ForeignEvents(es)
    ensures WatchInv(Others(w, es))
  {
    hide PodInv;
    OthersOnlyLeaveGrace(w.pod, es);
  }

  lemma OwnWriteKeepsWatchInv(w: Watch, e: Event)
    requires WatchInv(w) && (e == BeginDraining || e == ResetGrace || e == SetTransient(Ready))
    ensures WatchInv(w.(pod := Apply(w.pod, e)))
  {
    StepKeepsPodInv(w.pod, e);
    hide PodInv;
  }

  /** What the coordinator does itself, with the new `_ready_since`. */
  lemma ActingKeepsWatchInv(w: Watch, p: Poll, r: PollRun, grace: nat)
    requires WatchInv(w) && r.Foreign() && p.written == w.pod.session && p.now == r.now
    requires InGrace(p.written) ==> p.written == p.checked
    ensures var (readySince, action) := Step(w.readySince, p, grace);
      WatchInv(Acted(w, action, r).(readySince := readySince))
  {
    var (readySince, action) := Step(w.readySince, p, grace);
    match action
    case Nothing =>
    case Reset => OwnWriteKeepsWatchInv(w, ResetGrace);
    case ToReady => OwnWriteKeepsWatchInv(w, SetTransient(Ready));
    case ToWaiting => StepKeepsPodInv(w.pod, SetTransient(Waiting));
    case Drain =>
      OwnWriteKeepsWatchInv(w, BeginDraining);
      OthersKeepWatchInv(w.(pod := if r.saves then Apply(w.pod, BeginDraining) else w.pod), r.drained);
  }

  lemma PollKeepsWatchInv(w: Watch, r: PollRun, grace: nat)
    requires WatchInv(w) && r.Foreign()
    ensures WatchInv(Polled(w, r, grace)) && WatchInv(Checked(w, r))
  {
    OthersKeepWatchInv(w, r.before);
    OthersKeepWatchInv(Others(w, r.before), r.during);
    OthersKeepWatchInv(Checked(w, r), r.late);
    OthersOnlyLeaveGrace(Checked(w, r).pod, r.late);
    hide PodInv, Run, Writes, Acted, Step;
    ActingKeepsWatchInv(Others(Checked(w, r), r.late), Seen(w, r), r, grace);
  }

  lemma {:induction false} WatchedKeepsInv(w: Watch, rs: seq<PollRun>, grace: nat)
    requires WatchInv(w) && forall i :: 0 <= i < |rs| ==> rs[i].Foreign()
    ensures WatchInv(Watched(w, rs, grace))
    decreases |rs|
  {
    if rs != [] {
      PollKeepsWatchInv(w, rs[0], grace);
      assert forall i :: 0 <= i < |rs[1..]| ==> rs[1..][i] == rs[i + 1];
      WatchedKeepsInv(Polled(w, rs[0], grace), rs[1..], grace);
    }
  }

  /** The other direction: while nobody else has written the session since the window opened, an open window leaves it
      in a grace state, ARMED (the move to WAITING could not be saved) or blocked (a drain of the coordinator's own). */
  ghost predicate BaselineInv(w: Watch) {
    && w.baseline <= w.written
    && (w.readySince.Some? && w.written == w.baseline ==>
          InGrace(w.pod.session) || w.pod.session.status == Armed || w.pod.session.Blocked())
  }

  lemma {:induction false} NoWritesNoChange(p: Pod, es: seq<Event>)
    requires Writes(p, es) == 0
    ensures Run(p, es).session == p.session
    decreases |es|
  {
    if es != [] {
      NoWritesNoChange(Apply(p, es[0]), es[1..]);
    }
  }

  lemma OthersKeepBaselineInv(w: Watch, es: seq<Event>)
    requires BaselineInv(w)
    ensures BaselineInv(Others(w, es))
    ensures Others(w, es).written == w.baseline ==> Others(w, es).pod.session == w.pod.session
  {
    if Writes(w.pod, es) == 0 {
      NoWritesNoChange(w.pod, es);
    }
  }

  lemma ActingKeepsBaselineInv(w: Watch, p: Poll, r: PollRun, grace: nat)
    requires BaselineInv(w) && p.written == w.pod.session
    ensures var (readySince, action) := Step(w.readySince, p, grace);
      BaselineInv(Acted(w, action, r).(readySince := readySince))
  {
    var (readySince, action) := Step(w.readySince, p, grace);
    if action == Drain {
      var drained := w.(pod := if r.saves then Apply(w.pod, BeginDraining) else w.pod);
      OthersKeepBaselineInv(drained, r.drained);
    }
  }

  lemma PollKeepsBaselineInv(w: Watch, r: PollRun, grace: nat)
    requires BaselineInv(w)
    ensures BaselineInv(Polled(w, r, grace)) && BaselineInv(Others(w, r.before)) && BaselineInv(Checked(w, r))
  {
    OthersKeepBaselineInv(w, r.before);
    OthersKeepBaselineInv(Others(w, r.before), r.during);
    OthersKeepBaselineInv(Checked(w, r), r.late);
    hide Run, Writes, Acted, Step, BaselineInv;
    ActingKeepsBaselineInv(Others(Checked(w, r), r.late), Seen(w, r), r, grace);
  }

  lemma {:induction false} WatchedKeepsBaselineInv(w: Watch, rs: seq<PollRun>, grace: nat)
    requires BaselineInv(w)
    ensures BaselineInv(Watched(w, rs, grace))
    decreases |rs|
  {
    if rs != [] {
      PollKeepsBaselineInv(w, rs[0], grace);
      WatchedKeepsBaselineInv(Polled(w, rs[0], grace), rs[1..], grace);
    }
  }

  /** A coordinator that has not polled yet satisfies both invariants. */
  lemma NewWatchInv(autoTerminate: bool)
    ensures var w := Watch(NewPod(autoTerminate), None, 0, 0, 0, 0); WatchInv(w) && BaselineInv(w)
  {
  }

  /** A drain is decided on an undisturbed session, one that nobody else has written for at least the grace period,
      exactly when the session is seen in WAITING or READY after the readiness check; and then no new generation, toggle
      or drain has been accepted in that time. */
  lemma DrainIsUndisturbedIff(start: Watch, rs: seq<PollRun>, r: PollRun, grace: nat)
    requires WatchInv(start) && BaselineInv(start) && (forall i :: 0 <= i < |rs| ==> rs[i].Foreign()) && r.Foreign()
    requires var w := Watched(start, rs, grace); Step(w.readySince, Seen(w, r), grace).1 == Drain
    ensures var w := Watched(start, rs, grace); var c := Checked(w, r);
      && (c.written == c.baseline <==> InGrace(Seen(w, r).checked))
      && (InGrace(Seen(w, r).checked) ==> r.now - c.openedAt >= grace && c.accepted == 0)
  {
    var w := Watched(start, rs, grace);
    WatchedKeepsInv(start, rs, grace);
    PollKeepsWatchInv(w, r, grace);
    WatchedKeepsBaselineInv(start, rs, grace);
    PollKeepsBaselineInv(w, r, grace);
    OthersKeepBaselineInv(w, r.before);
    OthersKeepBaselineInv(Others(w, r.before), r.during);
    hide Run, Writes, PodInv, Watched, Polled;
  }

  /** A generation admitted before the poll, or during its check, and nothing accepted after it: the poll does not
      drain, however long the window was open, and the session is ARMED. */
  lemma EnqueueRestartsTheWindow(w: Watch, r: PollRun, grace: nat, k: nat)
    requires PodInv(w.pod) && ForeignEvents(r.before) && ForeignEvents(r.during)
    requires var es := r.before + r.during; k < |es| && AcceptsEnqueue(Run(w.pod, es[..k]).session, es[k])
    requires var es := r.before + r.during; forall i :: k < i < |es| ==> !es[i].Toggle? && es[i] != BeginDraining
    ensures Checked(w, r).pod.session.status == Armed && Step(w.readySince, Seen(w, r), grace).1 != Drain
  {
    var es := r.before + r.during;
    RunSplits(w.pod, r.before, r.during);
    RunSplits(w.pod, es[..k], es[k..]);
    assert es == es[..k] + es[k..];
    RunKeepsPodInv(w.pod, es[..k]);
    var p := Run(w.pod, es[..k]);
    StepKeepsPodInv(p, es[k]);
    forall i | 0 <= i < |es| ensures !es[i].SetTransient? && !es[i].ResetGrace? {
      assert es[i] == if i < |r.before| then r.before[i] else r.during[i - |r.before|];
    }
    ArmedStays(Apply(p, es[k]), es[k + 1..]);
    assert es[k..][1..] == es[k + 1..];
    assert Run(w.pod, es) == Checked(w, r).pod;
  }

  lemma {:induction false} ArmedStays(p: Pod, es: seq<Event>)
    requires PodInv(p) && p.session.status == Armed && ForeignEvents(es)
    requires forall i :: 0 <= i < |es| ==> !es[i].Toggle? && es[i] != BeginDraining
    ensures Run(p, es).session.status == Armed
    decreases |es|
  {
    if es != [] {
      StepKeepsPodInv(p, es[0]);
      StatusEdges(p, es[0]);
      assert forall i :: 0 <= i < |es[1..]| ==> es[1..][i] == es[i + 1];
      ArmedStays(Apply(p, es[0]), es[1..]);
    }
  }

  // ---------- when a safe Pod is drained ----------

  /** A poll of a safe Pod that nobody else disturbs. */
  predicate Quiet(r: PollRun) {
    Smooth(r, [], [], r.now)
  }

  /** Auto-terminate is wanted, and the session is not blocked. */
  predicate Waits(s: Session) {
    s.autoTerminate && s.IsArmed() && (s.status == Armed || InGrace(s))
  }

  /** When the window of the next quiet poll opens, or opened; a session that was left in WAITING or READY without a
      window gets none. */
  function WindowStart(w: Watch, first: PollRun): Option<int> {
    if w.pod.session.status == Armed then Some(first.now) else w.readySince
  }

  lemma QuietStep(w: Watch, r: PollRun, grace: nat)
    requires Waits(w.pod.session) && Quiet(r)
    ensures Seen(w, r) == Poll(true, w.pod.session, true, r.now, w.pod.session, w.pod.session, false)
    ensures var t := Polled(w, r, grace); var start := WindowStart(w, r);
      && (start.None? ==>
          t.pod == w.pod && t.readySince == None && Step(w.readySince, Seen(w, r), grace).1 == ToWaiting)
      && (start.Some? && (w.pod.session.status == Armed || r.now - start.value < grace) ==>
            && t.readySince == start && InGrace(t.pod.session) && Waits(t.pod.session)
            && t.pod.session.status == (if w.pod.session.status == Armed then PodStatus.Waiting else PodStatus.Ready)
            && Step(w.readySince, Seen(w, r), grace).1 != Drain)
      && (start.Some? && InGrace(w.pod.session) && r.now - start.value >= grace ==>
            Step(w.readySince, Seen(w, r), grace).1 == Drain && t.pod.session.status == Draining)
  {
    assert Run(w.pod, []) == w.pod && Writes(w.pod, []) == 0 && Accepted(w.pod, []) == 0;
  }

  lemma {:induction false} QuietWindowStays(w: Watch, rs: seq<PollRun>, grace: nat)
    requires Waits(w.pod.session) && InGrace(w.pod.session) && forall i :: 0 <= i < |rs| ==> Quiet(rs[i])
    requires w.readySince.Some? ==> forall i :: 0 <= i < |rs| ==> rs[i].now - w.readySince.value < grace
    ensures var t := Watched(w, rs, grace);
      && InGrace(t.pod.session) && Waits(t.pod.session) && t.readySince == w.readySince
      && t.pod.session.status ==
           if rs == [] || w.readySince == None then w.pod.session.status else PodStatus.Ready
    decreases |rs|
  {
    if rs != [] {
      QuietStep(w, rs[0], grace);
      assert forall i :: 0 <= i < |rs[1..]| ==> rs[1..][i] == rs[i + 1];
      hide Polled;
      QuietWindowStays(Polled(w, rs[0], grace), rs[1..], grace);
    }
  }

  /** A safe Pod that nobody disturbs is drained by the first poll that comes the grace period after its window opened,
      and by none before, exactly if it has a window; until then its session is WAITING after the poll that opened the
      window and READY after the next. */
  lemma SafePodIsDrainedIff(w: Watch, rs: seq<PollRun>, r: PollRun, grace: nat)
    requires Waits(w.pod.session) && rs != [] && (forall i :: 0 <= i < |rs| ==> Quiet(rs[i])) && Quiet(r)
    requires var start := WindowStart(w, rs[0]); start.Some? ==>
      forall i :: (if w.pod.session.status == Armed then 1 else 0) <= i < |rs| ==> rs[i].now - start.value < grace
    ensures var t := Watched(w, rs, grace); var start := WindowStart(w, rs[0]);
      && (Step(t.readySince, Seen(t, r), grace).1 == Drain <==> start.Some? && r.now - start.value >= grace)
      && t.pod.session.status ==
           if start == None then w.pod.session.status
           else if w.pod.session.status == Armed && |rs| == 1 then PodStatus.Waiting
           else PodStatus.Ready
  {
    var next := Polled(w, rs[0], grace);
    QuietStep(w, rs[0], grace);
    assert forall i :: 0 <= i < |rs[1..]| ==> rs[1..][i] == rs[i + 1];
    hide Polled, Seen, Step;
    QuietWindowStays(next, rs[1..], grace);
    QuietStep(Watched(next, rs[1..], grace), r, grace);
  }

  /** An unsafe check takes the session back to ARMED, from where the next quiet poll opens a window. */
  lemma UnsafeCheckRearms(w: Watch, r: PollRun, grace: nat)
    requires Waits(w.pod.session) && Quiet(r.(safe := true)) && !r.safe
    ensures var t := Polled(w, r, grace);
      t.pod.session == w.pod.session.(status := Armed) && t.readySince == None && Waits(t.pod.session)
  {
    assert Run(w.pod, []) == w.pod && Writes(w.pod, []) == 0 && Accepted(w.pod, []) == 0;
  }

  /** The drain that is due cannot save its DRAINING: the coordinator forgets the window, the session stays in WAITING
      or READY, and however long the Pod stays safe and undisturbed, no later poll drains it. */
  lemma UnsavedDrainIsNotRepeated(w: Watch, failing: PollRun, rs: seq<PollRun>, r: PollRun, grace: nat)
    requires Waits(w.pod.session) && InGrace(w.pod.session) && w.readySince.Some?
    requires Quiet(failing.(saves := true, drainRaises := false)) && !failing.saves && failing.drainRaises
    requires failing.now - w.readySince.value >= grace
    requires (forall i :: 0 <= i < |rs| ==> Quiet(rs[i])) && Quiet(r)
    ensures Step(w.readySince, Seen(w, failing), grace).1 == Drain
    ensures var t := Watched(Polled(w, failing, grace), rs, grace); Step(t.readySince, Seen(t, r), grace).1 != Drain
  {
    assert Run(w.pod, []) == w.pod && Writes(w.pod, []) == 0 && Accepted(w.pod, []) == 0;
    var t := Polled(w, failing, grace);
    assert t.pod == w.pod && t.readySince == None;
    hide Polled, Seen, Step, Run;
    QuietWindowStays(t, rs, grace);
    QuietStep(Watched(t, rs, grace), r, grace);
  }

  /** A poll of a safe Pod whose writes succeed, with one event before it or during its check. */
  predicate Smooth(r: PollRun, before: seq<Event>, during: seq<Event>, now: int) {
    r.restoreReady && r.safe && r.saves && !r.drainRaises && r.now == now &&
    r.before == before && r.during == during && r.late == [] && r.drained == []
  }

  /** Not so when the session was seen outside WAITING and READY: turning auto-terminate off during the last readiness
      check does not stop the drain, and the DELETE it leads to is claimed although auto-terminate is off. */
  lemma DisablingDuringTheCheckStillTerminates(start: Watch, first: PollRun, r: PollRun, grace: nat)
    requires start.pod == NewPod(true) && start.readySince == None
    requires Smooth(first, [Enqueue(0)], [], 0) && Smooth(r, [], [Toggle(false)], grace)
    ensures first.Foreign() && r.Foreign()
    ensures var w := Watched(start, [first], grace);
      && Step(w.readySince, Seen(w, r), grace).1 == Drain
      && !Polled(w, r, grace).pod.session.autoTerminate && Claimed(Polled(w, r, grace).pod.session, true).Ok?
  {
  }

  // ---------- the coordinator ----------

  class AutoTerminateCoordinator {
    const graceSeconds: nat
    var readySince: Option<int>
    var watch: Watch

    ghost predicate Valid()
      reads this
    {
      WatchInv(watch) && watch.readySince == readySince
    }

    constructor (graceSeconds: nat, autoTerminate: bool)
      ensures Valid() && this.graceSeconds == graceSeconds && watch == Watch(NewPod(autoTerminate), None, 0, 0, 0, 0)
    {
      this.graceSeconds, readySince := graceSeconds, None;
      watch := Watch(NewPod(autoTerminate), None, 0, 0, 0, 0);
    }

    /** `run_once`: one non-blocking decision. */
    method RunOnce(r: PollRun) returns (action: Action)
      requires Valid() && r.Foreign()
      modifies this
      ensures Valid() && watch == Polled(old(watch), r, graceSeconds)
      ensures (readySince, action) == Step(old(readySince), Seen(old(watch), r), graceSeconds)
    {
      hide WatchInv, Run, Writes;
      PollKeepsWatchInv(watch, r, graceSeconds);
      action := Nothing;
      var before := Others(watch, r.before);
      var session := before.pod.session;
      var current := Others(before, r.during);
      var written := Others(current, r.late);
      if !r.restoreReady || !session.autoTerminate || session.armedAt.None? {
        readySince := None;
      } else if session.Blocked() || session.status == TerminationFailed {
      } else if !r.safe {
        readySince := None;
        if current.pod.session.status == Waiting || current.pod.session.status == Ready {
          action := Reset;
        }
      } else if readySince == None || current.pod.session.status == Armed {
        readySince := Some(r.now);
        action := ToWaiting;
        if written.pod.session.status != Armed {
          readySince := None;
        }
      } else if r.now - readySince.value < graceSeconds {
        if current.pod.session.status != Ready {
          action := ToReady;
        }
      } else {
        action := Drain;
        if r.drainRaises {
          readySince := None;
        }
      }
      watch := Acted(written, action, r).(readySince := readySince);
    }
  }
}
