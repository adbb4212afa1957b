/** The durable session of one Pod. Every method of the service that takes the admission lock is one atomic event;
    DELETE calls are made and answered outside the lock, so any event can come between. */
module PodLifecycle {
  import opened Wrappers

  datatype PodStatus = Idle | Armed | Waiting | Ready | Draining | Requesting | Ambiguous | TerminationFailed

  datatype Session = Session(status: PodStatus, autoTerminate: bool, armedAt: Option<int>)
  {
    predicate IsArmed() { armedAt.Some? }

    /** The durable boundary of `ensure_work_allowed`. */
    predicate Blocked() { status == Draining || status == Requesting || status == Ambiguous }
  }

  /** How RunPod answered a DELETE: accepted, refused for certain, or lost. */
  datatype Answer = Accepted | ConfirmedFailure | AmbiguousFailure

  /** `deletes` lists the DELETE calls of this session in order, unanswered ones as `None`. */
  datatype Pod = Pod(session: Session, deletes: seq<Option<Answer>>)

  datatype Refusal = WorkBlocked | AlreadyRequested | InvalidTransition | NotArmed | PersistenceFailed | NotSafe

  datatype Event =
    | Enqueue(now: int)
    | Toggle(enabled: bool)
    | BeginDraining
    | AbortDraining
    | SetTransient(target: PodStatus)
    | ResetGrace
    | Claim(requireArmed: bool)
    | Answered(answer: Answer, saved: bool)

  // ---------- the lock sections ----------

  function EnqueueArmed(s: Session, now: int): Result<Session, Refusal> {
    if s.Blocked() then Err(WorkBlocked)
    else if s.status == TerminationFailed then Ok(s)
    else Ok(s.(armedAt := if s.armedAt.Some? then s.armedAt else Some(now), status := Armed))
  }

  function Toggled(s: Session, enabled: bool): Session {
    if s.Blocked() then s
    else s.(autoTerminate := enabled,
            status := if enabled && s.IsArmed() then Armed else if !enabled then Idle else s.status)
  }

  function DrainBegun(s: Session): Result<Session, Refusal> {
    match s.status
    case Requesting => Err(AlreadyRequested)
    case Ambiguous => Err(AlreadyRequested)
    case _ => Ok(s.(status := Draining))
  }

  function DrainAborted(s: Session): Session {
    if s.status != Draining then s else s.(status := if s.IsArmed() then Armed else Idle)
  }

  function Transient(s: Session, target: PodStatus): Result<Session, Refusal> {
    if (target == Waiting && s.status == Armed) || (target == Ready && s.status == Waiting)
    then Ok(s.(status := target))
    else Err(InvalidTransition)
  }

  function GraceReset(s: Session): Session {
    if s.status == Waiting || s.status == Ready then s.(status := Armed) else s
  }

  function Claimed(s: Session, requireArmed: bool): Result<Session, Refusal> {
    if s.status == Requesting || s.status == Ambiguous then Err(AlreadyRequested)
    else if s.status != Draining then Err(InvalidTransition)
    else if requireArmed && !s.IsArmed() then Err(NotArmed)
    else Ok(s.(status := Requesting))
  }

  function AfterAnswer(s: Session, answer: Answer): Session {
    if s.status != Requesting || answer == Accepted then s
    else s.(status := if answer == ConfirmedFailure then TerminationFailed else Ambiguous)
  }

  function Kept(r: Result<Session, Refusal>, s: Session): Session {
    if r.Ok? then r.value else s
  }

  // ---------- the machine ----------

  predicate Unanswered(p: Pod) {
    p.deletes != [] && p.deletes[|p.deletes| - 1] == None
  }

  /** A call that is refused, or whose save fails, changes nothing. */
  function Apply(p: Pod, e: Event): Pod {
    var s := p.session;
    match e
    case Enqueue(now) => p.(session := Kept(EnqueueArmed(s, now), s))
    case Toggle(enabled) => p.(session := Toggled(s, enabled))
    case BeginDraining => p.(session := Kept(DrainBegun(s), s))
    case AbortDraining => p.(session := DrainAborted(s))
    case SetTransient(target) => p.(session := Kept(Transient(s, target), s))
    case ResetGrace => p.(session := GraceReset(s))
    case Claim(requireArmed) =>
      if Claimed(s, requireArmed).Ok? then Pod(Claimed(s, requireArmed).value, p.deletes + [None]) else p
    case Answered(answer, saved) =>
      if !Unanswered(p) then p
      else Pod(if saved then AfterAnswer(s, answer) else s, p.deletes[..|p.deletes| - 1] + [Some(answer)])
  }

  function Run(p: Pod, es: seq<Event>): Pod
    decreases |es|
  {
    if es == [] then p else Run(Apply(p, es[0]), es[1..])
  }

  function NewPod(autoTerminate: bool): Pod {
    Pod(Session(Idle, autoTerminate, None), [])
  }

  // ---------- what holds of every run ----------

  /** Every call but the last was refused for certain, and while the last is not, the session stays where no
      further call can be claimed. */
  ghost predicate PodInv(p: Pod) {
    && (p.session.status == Armed || p.session.status == Waiting || p.session.status == Ready ==> p.session.IsArmed())
    && (forall i :: 0 <= i < |p.deletes| - 1 ==> p.deletes[i] == Some(ConfirmedFailure))
    && (p.deletes != [] && p.deletes[|p.deletes| - 1] != Some(ConfirmedFailure) ==>
          p.session.status == Requesting || p.session.status == Ambiguous)
    && (p.session.status == Requesting || p.session.status == Ambiguous ==> p.deletes != [])
    && (p.session.status == Ambiguous ==> p.deletes[|p.deletes| - 1] == Some(AmbiguousFailure))
  }

  lemma StepKeepsPodInv(p: Pod, e: Event)
    requires PodInv(p)
    ensures PodInv(Apply(p, e))
  {
    assert e.Answered? && Unanswered(p) ==> p.session.status == Requesting;
  }

  lemma {:induction false} RunKeepsPodInv(p: Pod, es: seq<Event>)
    requires PodInv(p)
    ensures PodInv(Run(p, es))
    decreases |es|
  {
    if es != [] {
      StepKeepsPodInv(p, es[0]);
      RunKeepsPodInv(Apply(p, es[0]), es[1..]);
    }
  }

  lemma {:induction false} RunSplits(p: Pod, es: seq<Event>, fs: seq<Event>)
    ensures Run(p, es + fs) == Run(Run(p, es), fs)
    decreases |es|
  {
    if es == [] {
      assert es + fs == fs;
    } else {
      assert (es + fs)[1..] == es[1..] + fs;
      RunSplits(Apply(p, es[0]), es[1..], fs);
    }
  }

  /** Two DELETE calls of a session are separated by a confirmed, non-ambiguous failure of the earlier one, and the
      grace states are only reached by an armed session. */
  lemma DeletesAreSeparatedByConfirmedFailures(autoTerminate: bool, es: seq<Event>)
    ensures var p := Run(NewPod(autoTerminate), es);
      && (forall i :: 0 <= i < |p.deletes| - 1 ==> p.deletes[i] == Some(ConfirmedFailure))
      && (p.session.status == Armed || p.session.status == Waiting || p.session.status == Ready ==> p.session.IsArmed())
  {
    RunKeepsPodInv(NewPod(autoTerminate), es);
  }

  /** TERMINATION_AMBIGUOUS is never left, and no DELETE is issued from it. */
  lemma {:induction false} AmbiguousIsFinal(p: Pod, es: seq<Event>)
    requires PodInv(p) && p.session.status == Ambiguous
    ensures Run(p, es) == p
    decreases |es|
  {
    if es != [] {
      assert Apply(p, es[0]) == p;
      AmbiguousIsFinal(p, es[1..]);
    }
  }

  /** Until the pending DELETE is refused for certain, no further call is made: TERMINATION_REQUESTING can only turn
      ambiguous, whatever drains, toggles, enqueues and stale answers come in between. */
  lemma {:induction false} RequestingWaitsForAConfirmedFailure(p: Pod, es: seq<Event>)
    requires PodInv(p) && (p.session.status == Requesting || p.session.status == Ambiguous)
    requires forall i :: 0 <= i < |es| ==> !(es[i].Answered? && es[i].answer == ConfirmedFailure)
    ensures var q := Run(p, es);
      && (q.session == p.session || q.session == p.session.(status := Ambiguous))
      && |q.deletes| == |p.deletes|
    decreases |es|
  {
    if es != [] {
      StepKeepsPodInv(p, es[0]);
      assert forall i :: 0 <= i < |es[1..]| ==> es[1..][i] == es[i + 1];
      RequestingWaitsForAConfirmedFailure(Apply(p, es[0]), es[1..]);
    }
  }

  /** The event takes the session to another status. */
  predicate Enters(p: Pod, e: Event, target: PodStatus) {
    var from := p.session.status;
    from != target &&
    match target
    case Idle =>
      || (e == Toggle(false) && !p.session.Blocked())
      || (from == Draining && e == AbortDraining && !p.session.IsArmed())
    case Armed =>
      || AcceptsEnqueue(p.session, e)
      || (e == Toggle(true) && !p.session.Blocked() && p.session.IsArmed())
      || (from == Draining && e == AbortDraining && p.session.IsArmed())
      || ((from == Waiting || from == Ready) && e == ResetGrace)
    case Waiting => from == Armed && e == SetTransient(Waiting)
    case Ready => from == Waiting && e == SetTransient(Ready)
    case Draining => e == BeginDraining && !p.session.Blocked()
    case Requesting => IssuesDelete(p.session, e)
    case Ambiguous => from == Requesting && e == Answered(AmbiguousFailure, true) && Unanswered(p)
    case TerminationFailed => from == Requesting && e == Answered(ConfirmedFailure, true) && Unanswered(p)
  }

  /** A new generation is admitted, and arms the session unless a DELETE has failed for certain. */
  predicate AcceptsEnqueue(s: Session, e: Event) {
    e.Enqueue? && !s.Blocked() && s.status != TerminationFailed
  }

  predicate IssuesDelete(s: Session, e: Event) {
    s.status == Draining && e.Claim? && (e.requireArmed ==> s.IsArmed())
  }

  /** The edges of the session's state machine are exactly these: each is taken by these events and by no other. */
  lemma StatusEdges(p: Pod, e: Event)
    requires PodInv(p)
    ensures var (from, to) := (p.session.status, Apply(p, e).session.status); from == to || Enters(p, e, to)
    ensures forall target :: Enters(p, e, target) ==> Apply(p, e).session.status == target
  {
  }

  /** The arming time is set by the first accepted enqueue and by nothing else, and a DELETE is issued and answered
      exactly by a claim and its answer. */
  lemma RecordEdges(p: Pod, e: Event)
    ensures Apply(p, e).session.armedAt ==
            if AcceptsEnqueue(p.session, e) && !p.session.IsArmed() then Some(e.now) else p.session.armedAt
    ensures |Apply(p, e).deletes| == |p.deletes| + if IssuesDelete(p.session, e) then 1 else 0
    ensures forall i :: 0 <= i < |Apply(p, e).deletes| ==>
      Apply(p, e).deletes[i] ==
      if i == |p.deletes| then None
      else if i == |p.deletes| - 1 && e.Answered? && p.deletes[i] == None then Some(e.answer)
      else p.deletes[i]
  {
  }

  /** The arming time is set by the first accepted enqueue and never changes afterwards; the toggle is the only call
      that changes whether auto-terminate is on, and never in a blocked session. */
  lemma {:induction false} ArmedOnce(p: Pod, es: seq<Event>)
    ensures p.session.IsArmed() ==> Run(p, es).session.armedAt == p.session.armedAt
    ensures (forall i :: 0 <= i < |es| ==> !es[i].Toggle?) ==>
      Run(p, es).session.autoTerminate == p.session.autoTerminate
    decreases |es|
  {
    if es != [] {
      assert forall i :: 0 <= i < |es[1..]| ==> es[1..][i] == es[i + 1];
      ArmedOnce(Apply(p, es[0]), es[1..]);
    }
  }

  /** What was asked for last, by a call that was not refused. */
  function LastToggle(p: Pod, es: seq<Event>): bool
    decreases |es|
  {
    if es == [] then p.session.autoTerminate
    else
      var last := es[|es| - 1];
      if last.Toggle? && !Run(p, es[..|es| - 1]).session.Blocked() then last.enabled else LastToggle(p, es[..|es| - 1])
  }

  /** After any run auto-terminate is on exactly if the last accepted toggle turned it on: no enqueue, drain, claim or
      answer changes it, and a refused toggle leaves nothing behind. */
  lemma {:induction false} FlagIsTheLastToggle(p: Pod, es: seq<Event>)
    ensures Run(p, es).session.autoTerminate == LastToggle(p, es)
    decreases |es|
  {
    if es != [] {
      var before, last := es[..|es| - 1], es[|es| - 1];
      FlagIsTheLastToggle(p, before);
      RunSplits(p, before, [last]);
      assert es == before + [last] && [last][1..] == [];
      assert Run(p, es) == Apply(Run(p, before), last);
    }
  }

  /** Of two toggles in a row the first leaves no trace, with one exception: turning auto-terminate off and on again
      takes an unarmed session out of TERMINATION_FAILED, where turning it on alone would have left it. */
  lemma LastToggleWinsIff(p: Pod, first: bool, second: bool)
    requires PodInv(p)
    ensures Apply(Apply(p, Toggle(first)), Toggle(second)) == Apply(p, Toggle(second)) <==>
            !(p.session.status == TerminationFailed && !p.session.IsArmed() && !first && second)
  {
  }
}
