/** The interactive run, a row derived from the states of its Generations. Any number of threads refresh it: each reads
    the row, then the Generations one by one, and writes what it concludes without looking at the row again. */
module InteractiveSteps {
  import opened Wrappers
  import opened SubmissionQueue

  datatype RunStatus = Active | Cancelling | RunCompleted | RunFailed | RunCancelled
  {
    predicate Terminal() { RunCompleted? || RunFailed? || RunCancelled? }
  }

  datatype InteractiveRun = InteractiveRun(
    status: RunStatus, ids: seq<nat>, completedIds: seq<nat>, current: Option<nat>, cancelRequested: bool)

  /** The states of all Generations. */
  type Generations = map<nat, GenStatus>

  datatype Item = Item(id: nat, status: GenStatus)

  /** One refresh under way: the row as it was read, the Generations read since, failed reads left out. */
  datatype Refresher = Refresher(snapshot: InteractiveRun, items: seq<Item>, tried: nat)

  datatype World = World(row: InteractiveRun, gens: Generations, refreshers: map<nat, Refresher>)

  /** A Generation moves along the transition table, so its terminal states are absorbing. That holds of the queue's
      transactions exactly as long as no Generation is failed in the middle of its submission
      (`SubmissionQueue.TerminalIsLeftIff`); a run with such a failure is outside this model. */
  datatype Event =
    | GenStep(id: nat, status: GenStatus)
    | RequestCancel
    | Snapshot(r: nat)
    | Read(r: nat, fails: bool)
    | Save(r: nat, ok: bool)
    | Drop(r: nat)

  // ---------- what a refresh concludes ----------

  function CompletedIds(ids: seq<nat>, items: seq<Item>): (r: seq<nat>)
    ensures forall id :: id in r <==> id in ids && Item(id, Completed) in items
  {
    if ids == [] then []
    else
      var rest := CompletedIds(ids[..|ids| - 1], items);
      if Item(ids[|ids| - 1], Completed) in items then rest + [ids[|ids| - 1]] else rest
  }

  predicate Subsequence(a: seq<nat>, b: seq<nat>) {
    if a == [] then true
    else if b == [] then false
    else if a[|a| - 1] == b[|b| - 1] then Subsequence(a[..|a| - 1], b[..|b| - 1])
    else Subsequence(a, b[..|b| - 1])
  }

  /** The completed IDs are the run's IDs in order, some left out. */
  lemma {:induction false} CompletedIsSubsequence(ids: seq<nat>, items: seq<Item>)
    ensures Subsequence(CompletedIds(ids, items), ids)
  {
    if ids != [] {
      var init := ids[..|ids| - 1];
      CompletedIsSubsequence(init, items);
      var rest := CompletedIds(init, items);
      if Item(ids[|ids| - 1], Completed) in items {
        assert (rest + [ids[|ids| - 1]])[..|rest|] == rest;
      } else {
        Longer(rest, ids);
      }
    }
  }

  lemma {:induction false} Longer(a: seq<nat>, b: seq<nat>)
    requires b != [] && Subsequence(a, b[..|b| - 1])
    ensures Subsequence(a, b)
    decreases |b|, 0
  {
    if a != [] && a[|a| - 1] == b[|b| - 1] {
      DropLast(a, b[..|b| - 1]);
    }
  }

  lemma {:induction false} DropLast(a: seq<nat>, b: seq<nat>)
    requires a != [] && Subsequence(a, b)
    ensures Subsequence(a[..|a| - 1], b)
    decreases |b|, 1
  {
    if a[|a| - 1] == b[|b| - 1] {
      Longer(a[..|a| - 1], b);
    } else {
      DropLast(a, b[..|b| - 1]);
      Longer(a[..|a| - 1], b);
    }
  }

  /** More completed Generations, read without failures, give a run of completed IDs that contains the earlier one in
      order. */
  lemma {:induction false} CompletedGrows(ids: seq<nat>, items: seq<Item>, more: seq<Item>)
    requires forall id :: id in ids && Item(id, Completed) in items ==> Item(id, Completed) in more
    ensures Subsequence(CompletedIds(ids, items), CompletedIds(ids, more))
  {
    if ids != [] {
      var init, last := ids[..|ids| - 1], ids[|ids| - 1];
      CompletedGrows(init, items, more);
      var a, b := CompletedIds(init, items), CompletedIds(init, more);
      assert (a + [last])[..|a|] == a && (b + [last])[..|b|] == b;
      if Item(last, Completed) in more && Item(last, Completed) !in items {
        Longer(a, b + [last]);
      }
    }
  }

  predicate AnyItem(items: seq<Item>, status: GenStatus) {
    exists k :: 0 <= k < |items| && items[k].status == status
  }

  predicate AllTerminal(items: seq<Item>) {
    forall k :: 0 <= k < |items| ==> items[k].status.Terminal()
  }

  predicate AllCompleted(items: seq<Item>) {
    forall k :: 0 <= k < |items| ==> items[k].status == Completed
  }

  function CurrentOf(items: seq<Item>): Option<nat> {
    if items == [] then None
    else if !items[0].status.Terminal() then Some(items[0].id)
    else CurrentOf(items[1..])
  }

  /** A run is decided by a refresh that read every Generation as terminal and the row as not. */
  function Decision(f: Refresher): Option<RunStatus> {
    if f.snapshot.ids != [] && |f.items| == |f.snapshot.ids| && AllTerminal(f.items) && !f.snapshot.status.Terminal()
    then
      Some(if f.snapshot.status == Cancelling || AnyItem(f.items, Cancelled) then RunCancelled else RunCompleted)
    else None
  }

  /** The row after the write. */
  function Saved(row: InteractiveRun, f: Refresher): InteractiveRun {
    var completedIds, current := CompletedIds(f.snapshot.ids, f.items), CurrentOf(f.items);
    if AnyItem(f.items, Failed) then
      if f.snapshot.status == RunFailed then row
      else row.(status := RunFailed, completedIds := completedIds, current := None)
    else if completedIds != f.snapshot.completedIds || current != f.snapshot.current || Decision(f).Some? then
      var status := if Decision(f).Some? then Decision(f).value else row.status;
      row.(status := status, completedIds := completedIds, current := current)
    else row
  }

  // ---------- the steps of all threads ----------

  predicate Enabled(w: World, e: Event) {
    match e
    case GenStep(id, status) => id in w.gens && ValidTransition(w.gens[id], status)
    case RequestCancel => true
    case Snapshot(r) => r !in w.refreshers
    case Read(r, _) =>
      r in w.refreshers && var f := w.refreshers[r]; f.tried < |f.snapshot.ids| && f.snapshot.ids[f.tried] in w.gens
    case Save(r, _) => r in w.refreshers && w.refreshers[r].tried == |w.refreshers[r].snapshot.ids|
    case Drop(r) => r in w.refreshers
  }

  function Fresh(row: InteractiveRun): Refresher {
    Refresher(row, [], 0)
  }

  /** A failure is written, and then the row that came back is refreshed once more. */
  predicate GoesOn(f: Refresher) {
    AnyItem(f.items, Failed) && f.snapshot.status != RunFailed
  }

  function HasRead(f: Refresher, gens: Generations, fails: bool): Refresher
    requires f.tried < |f.snapshot.ids| && f.snapshot.ids[f.tried] in gens
  {
    var id := f.snapshot.ids[f.tried];
    f.(tried := f.tried + 1, items := if fails then f.items else f.items + [Item(id, gens[id])])
  }

  function Requested(row: InteractiveRun): InteractiveRun {
    if row.status == Active then row.(status := Cancelling, cancelRequested := true) else row
  }

  function Apply(w: World, e: Event): World
    requires Enabled(w, e)
  {
    match e
    case GenStep(id, status) => w.(gens := w.gens[id := status])
    case RequestCancel => w.(row := Requested(w.row))
    case Snapshot(r) => w.(refreshers := w.refreshers[r := Fresh(w.row)])
    case Read(r, fails) => w.(refreshers := w.refreshers[r := HasRead(w.refreshers[r], w.gens, fails)])
    case Save(r, ok) =>
      if !ok then w.(refreshers := w.refreshers - {r})
      else
        var row := Saved(w.row, w.refreshers[r]);
        w.(row := row,
           refreshers := if GoesOn(w.refreshers[r]) then w.refreshers[r := Fresh(row)] else w.refreshers - {r})
    case Drop(r) => w.(refreshers := w.refreshers - {r})
  }

  predicate ValidRun(w: World, es: seq<Event>)
    decreases |es|
  {
    es == [] || (Enabled(w, es[0]) && ValidRun(Apply(w, es[0]), es[1..]))
  }

  function Run(w: World, es: seq<Event>): World
    requires ValidRun(w, es)
    decreases |es|
  {
    if es == [] then w else Run(Apply(w, es[0]), es[1..])
  }

  // ---------- what every step keeps ----------

  /** Terminal Generations stay as they are. */
  ghost predicate Later(gens: Generations, next: Generations) {
    next.Keys == gens.Keys && forall id :: id in gens && gens[id].Terminal() ==> next[id] == gens[id]
  }

  ghost predicate EveryGeneration(ids: seq<nat>, gens: Generations) {
    forall id :: id in ids ==> id in gens && gens[id] == Completed
  }

  /** What each status of the run says about its Generations. */
  ghost predicate RunInv(run: InteractiveRun, gens: Generations) {
    && (forall id :: id in run.ids ==> id in gens)
    && (run.status == RunCompleted ==> run.ids != [] && EveryGeneration(run.ids, gens))
    && (run.status == RunFailed ==> exists id :: id in run.ids && gens[id] == Failed)
    && (run.status == RunCancelled ==> forall id :: id in run.ids ==> gens[id] == Completed || gens[id] == Cancelled)
    && (run.status == RunCancelled ==> run.cancelRequested || exists id :: id in run.ids && gens[id] == Cancelled)
    && (run.status == Active ==> !run.cancelRequested) && (run.status == Cancelling ==> run.cancelRequested)
    && (forall id :: id in run.completedIds ==> id in run.ids && gens[id] == Completed)
    && Subsequence(run.completedIds, run.ids)
  }

  /** An item read as terminal still is. */
  ghost predicate Observed(item: Item, gens: Generations) {
    item.id in gens && (item.status.Terminal() ==> gens[item.id] == item.status)
  }

  ghost predicate RefresherInv(row: InteractiveRun, gens: Generations, f: Refresher) {
    && f.snapshot.ids == row.ids && RunInv(f.snapshot, gens)
    && (f.snapshot.cancelRequested ==> row.cancelRequested) && (row.status == Active ==> f.snapshot.status == Active)
    && |f.items| <= f.tried <= |row.ids|
    && (forall k :: 0 <= k < |f.items| ==> f.items[k].id in row.ids && Observed(f.items[k], gens))
    && (|f.items| == f.tried ==> forall k :: 0 <= k < |f.items| ==> f.items[k].id == row.ids[k])
  }

  ghost predicate WorldInv(w: World) {
    RunInv(w.row, w.gens) && forall r :: r in w.refreshers ==> RefresherInv(w.row, w.gens, w.refreshers[r])
  }

  /** How the row and the Generations may have moved: a terminal status is left only for the other one of COMPLETED and
      CANCELLED, when every Generation completed and a cancellation was requested. */
  ghost predicate Follows(row: InteractiveRun, gens: Generations, row': InteractiveRun, gens': Generations) {
    && Later(gens, gens') && row'.ids == row.ids && (row.cancelRequested ==> row'.cancelRequested)
    && (row'.status == Active ==> row.status == Active)
    && (row.status.Terminal() && row'.status != row.status ==>
          row.status != RunFailed && row'.status.Terminal() && row'.status != RunFailed &&
          row'.cancelRequested && EveryGeneration(row.ids, gens'))
  }

  lemma FollowsRefl(row: InteractiveRun, gens: Generations)
    ensures Follows(row, gens, row, gens)
  {
  }

  lemma FollowsTrans(row: InteractiveRun, gens: Generations, row': InteractiveRun, gens': Generations,
                     row'': InteractiveRun, gens'': Generations)
    requires Follows(row, gens, row', gens') && Follows(row', gens', row'', gens'')
    ensures Follows(row, gens, row'', gens'')
  {
  }

  lemma LaterKeepsRunInv(run: InteractiveRun, gens: Generations, next: Generations)
    requires RunInv(run, gens) && Later(gens, next)
    ensures RunInv(run, next)
  {
    hide Subsequence;
    if run.status == RunFailed {
      var id :| id in run.ids && gens[id] == Failed;
      assert next[id] == Failed;
    }
    if run.status == RunCancelled && !run.cancelRequested {
      var id :| id in run.ids && gens[id] == Cancelled;
      assert next[id] == Cancelled;
    }
  }

  lemma FollowsKeepsRefresherInv(row: InteractiveRun, gens: Generations, row': InteractiveRun, gens': Generations,
                                 f: Refresher)
    requires RefresherInv(row, gens, f) && Follows(row, gens, row', gens')
    ensures RefresherInv(row', gens', f)
  {
    LaterKeepsRunInv(f.snapshot, gens, gens');
    hide RunInv;
  }

  lemma FreshInv(row: InteractiveRun, gens: Generations)
    requires RunInv(row, gens)
    ensures RefresherInv(row, gens, Fresh(row))
  {
  }

  lemma ReadKeepsRefresherInv(row: InteractiveRun, gens: Generations, f: Refresher, fails: bool)
    requires RefresherInv(row, gens, f) && f.tried < |row.ids| && row.ids[f.tried] in gens
    ensures RefresherInv(row, gens, HasRead(f, gens, fails))
  {
    hide RunInv;
  }

  /** What a complete reading proves. */
  lemma CompleteReading(row: InteractiveRun, gens: Generations, f: Refresher)
    requires RefresherInv(row, gens, f) && |f.items| == |row.ids|
    ensures AllCompleted(f.items) ==> EveryGeneration(row.ids, gens)
    ensures AllTerminal(f.items) && !AnyItem(f.items, Failed) ==>
      forall id :: id in row.ids ==> id in gens && (gens[id] == Completed || gens[id] == Cancelled)
    ensures AllTerminal(f.items) && !AnyItem(f.items, Failed) && !AnyItem(f.items, Cancelled) ==> AllCompleted(f.items)
  {
    hide RunInv;
    forall id | id in row.ids
      ensures exists k :: 0 <= k < |f.items| && f.items[k].id == id && Observed(f.items[k], gens)
    {
      var k :| 0 <= k < |row.ids| && row.ids[k] == id;
      assert f.items[k].id == id;
    }
  }

  lemma CompletedIdsAreCompleted(row: InteractiveRun, gens: Generations, f: Refresher)
    requires RefresherInv(row, gens, f)
    ensures forall id :: id in CompletedIds(row.ids, f.items) ==> id in row.ids && id in gens && gens[id] == Completed
    ensures Subsequence(CompletedIds(row.ids, f.items), row.ids)
  {
    hide RunInv;
    CompletedIsSubsequence(row.ids, f.items);
  }

  /** The evidence behind an unconditional write, whatever the row says by now. */
  lemma DecisionHasEvidence(row: InteractiveRun, gens: Generations, f: Refresher)
    requires RunInv(row, gens) && RefresherInv(row, gens, f) && f.tried == |row.ids|
    ensures AnyItem(f.items, Failed) ==> exists id :: id in row.ids && id in gens && gens[id] == Failed
    ensures Decision(f).Some? && !AnyItem(f.items, Failed) ==>
      match Decision(f).value
      case RunCompleted => AllCompleted(f.items) && EveryGeneration(row.ids, gens) && f.snapshot.status == Active
      case RunCancelled =>
        && (forall id :: id in row.ids ==> id in gens && (gens[id] == Completed || gens[id] == Cancelled))
        && (f.snapshot.status == Cancelling || exists id :: id in row.ids && id in gens && gens[id] == Cancelled)
      case _ => false
  {
    hide CompletedIds, Subsequence;
    if AnyItem(f.items, Failed) {
      var k :| 0 <= k < |f.items| && f.items[k].status == Failed;
      assert Observed(f.items[k], gens);
    } else if Decision(f).Some? {
      CompleteReading(row, gens, f);
      if AnyItem(f.items, Cancelled) {
        var k :| 0 <= k < |f.items| && f.items[k].status == Cancelled;
        assert Observed(f.items[k], gens);
      }
    }
  }

  /** The evidence a write needs for its status. */
  ghost predicate Justified(row: InteractiveRun, gens: Generations, status: RunStatus) {
    match status
    case RunCompleted => row.ids != [] && EveryGeneration(row.ids, gens)
    case RunFailed => exists id :: id in row.ids && id in gens && gens[id] == Failed
    case RunCancelled =>
      && (forall id :: id in row.ids ==> id in gens && (gens[id] == Completed || gens[id] == Cancelled))
      && (row.cancelRequested || exists id :: id in row.ids && id in gens && gens[id] == Cancelled)
    case _ => false
  }

  lemma JustifiedWrite(row: InteractiveRun, gens: Generations, t: InteractiveRun)
    requires RunInv(row, gens) && (t.status == row.status || Justified(row, gens, t.status))
    requires t.ids == row.ids && t.cancelRequested == row.cancelRequested && Subsequence(t.completedIds, row.ids)
    requires forall id :: id in t.completedIds ==> id in row.ids && id in gens && gens[id] == Completed
    ensures RunInv(t, gens) && Follows(row, gens, t, gens)
  {
    hide Subsequence;
  }

  lemma SavedIsJustified(row: InteractiveRun, gens: Generations, f: Refresher)
    requires RunInv(row, gens) && RefresherInv(row, gens, f) && f.tried == |row.ids|
    ensures Saved(row, f).status == row.status || Justified(row, gens, Saved(row, f).status)
  {
    DecisionHasEvidence(row, gens, f);
    assert f.snapshot.status == Cancelling ==> row.cancelRequested;
    assert f.snapshot.ids == row.ids;
    hide CompletedIds, Subsequence, CurrentOf, AllTerminal, AllCompleted, AnyItem, RefresherInv, RunInv;
  }

  lemma SaveKeepsRunInv(row: InteractiveRun, gens: Generations, f: Refresher)
    requires RunInv(row, gens) && RefresherInv(row, gens, f) && f.tried == |row.ids|
    ensures RunInv(Saved(row, f), gens) && Follows(row, gens, Saved(row, f), gens)
  {
    SavedIsJustified(row, gens, f);
    CompletedIdsAreCompleted(row, gens, f);
    assert f.snapshot.ids == row.ids;
    assert Subsequence(row.completedIds, row.ids);
    assert forall id :: id in row.completedIds ==> id in row.ids && gens[id] == Completed;
    hide CompletedIds, Subsequence, RefresherInv, RunInv, Justified, Follows, AnyItem, Decision, CurrentOf;
    JustifiedWrite(row, gens, Saved(row, f));
  }

  lemma RequestKeepsRunInv(row: InteractiveRun, gens: Generations)
    requires RunInv(row, gens)
    ensures RunInv(Requested(row), gens) && Follows(row, gens, Requested(row), gens)
  {
  }

  lemma StepFollows(w: World, e: Event)
    requires WorldInv(w) && Enabled(w, e)
    ensures var t := Apply(w, e); RunInv(t.row, t.gens) && Follows(w.row, w.gens, t.row, t.gens)
  {
    hide RunInv, Saved, Requested;
    match e
    case GenStep(id, status) => LaterKeepsRunInv(w.row, w.gens, w.gens[id := status]);
    case RequestCancel => RequestKeepsRunInv(w.row, w.gens);
    case Save(r, ok) => SaveKeepsRunInv(w.row, w.gens, w.refreshers[r]);
    case _ =>
  }

  lemma StepKeepsWorldInv(w: World, e: Event)
    requires WorldInv(w) && Enabled(w, e)
    ensures WorldInv(Apply(w, e))
  {
    var t := Apply(w, e);
    StepFollows(w, e);
    forall r | r in t.refreshers ensures RefresherInv(t.row, t.gens, t.refreshers[r]) {
      hide RunInv, Saved, Requested, RefresherInv, Follows, HasRead, Fresh;
      if r in w.refreshers && t.refreshers[r] == w.refreshers[r] {
        FollowsKeepsRefresherInv(w.row, w.gens, t.row, t.gens, w.refreshers[r]);
      } else if e.Read? {
        RefresherReads(w, e.r, e.fails);
      } else {
        FreshInv(t.row, t.gens);
      }
    }
  }

  lemma RefresherReads(w: World, r: nat, fails: bool)
    requires WorldInv(w) && Enabled(w, Read(r, fails))
    ensures RefresherInv(w.row, w.gens, HasRead(w.refreshers[r], w.gens, fails))
  {
    ReadKeepsRefresherInv(w.row, w.gens, w.refreshers[r], fails);
  }

  /** COMPLETED, FAILED and CANCELLED have their evidence in every reachable state, although every write is
      unconditional and may come from an old reading. */
  lemma {:induction false} RunKeepsWorldInv(w: World, es: seq<Event>)
    requires WorldInv(w) && ValidRun(w, es)
    ensures WorldInv(Run(w, es))
    ensures Follows(w.row, w.gens, Run(w, es).row, Run(w, es).gens)
    decreases |es|
  {
    hide Follows, Apply, WorldInv, RunInv;
    if es == [] {
      FollowsRefl(w.row, w.gens);
    } else {
      var t := Apply(w, es[0]);
      StepFollows(w, es[0]);
      StepKeepsWorldInv(w, es[0]);
      RunKeepsWorldInv(t, es[1..]);
      FollowsTrans(w.row, w.gens, t.row, t.gens, Run(w, es).row, Run(w, es).gens);
    }
  }

  /** What a write makes of the status, by what its reading saw: a failure fails the run; a complete reading in which
      everything had ended, of a run that had not, completes it, or cancels it when that was asked for or an item was
      cancelled; any other write leaves the status as the row has it. */
  lemma SaveDecidesIff(row: InteractiveRun, f: Refresher)
    requires |f.items| <= |f.snapshot.ids|
    ensures var t := Saved(row, f);
      var failed := exists k :: 0 <= k < |f.items| && f.items[k].status == Failed;
      var stopped := exists k :: 0 <= k < |f.items| && f.items[k].status == Cancelled;
      var cancelled := f.snapshot.status == Cancelling || stopped;
      var ended := forall k :: 0 <= k < |f.items| ==> f.items[k].status.Terminal();
      && (if failed then t.status == if f.snapshot.status == RunFailed then row.status else RunFailed
          else if ended && |f.items| == |f.snapshot.ids| > 0 && !f.snapshot.status.Terminal() then
            t.status == if cancelled then RunCancelled else RunCompleted
          else t.status == row.status)
      && t == row.(status := t.status, completedIds := t.completedIds, current := t.current)
  {
    hide CompletedIds, CurrentOf;
  }

  /** The current item is the first one that was read as unfinished. */
  lemma {:induction false} CurrentIsTheFirstUnfinished(items: seq<Item>)
    ensures match CurrentOf(items)
      case None => AllTerminal(items)
      case Some(id) =>
        exists k :: 0 <= k < |items| && items[k].id == id && !items[k].status.Terminal() && AllTerminal(items[..k])
  {
    if items != [] && items[0].status.Terminal() {
      var rest := items[1..];
      CurrentIsTheFirstUnfinished(rest);
      assert forall k :: 0 <= k < |rest| ==> rest[k] == items[k + 1];
      if CurrentOf(rest).Some? {
        var k :| 0 <= k < |rest| && rest[k].id == CurrentOf(rest).value && !rest[k].status.Terminal() &&
          AllTerminal(rest[..k]);
        assert items[..k + 1][1..] == rest[..k];
        assert items[k + 1] == rest[k] && AllTerminal(items[..k + 1]);
      }
    } else if items != [] {
      assert AllTerminal(items[..0]);
    }
  }

  /** A write loses completed IDs exactly when its reading was older than the row in that respect. */
  lemma CompletedIdsSurviveIff(row: InteractiveRun, gens: Generations, f: Refresher)
    requires RunInv(row, gens) && RefresherInv(row, gens, f) && Saved(row, f).completedIds != row.completedIds
    ensures (forall id :: id in row.completedIds ==> id in Saved(row, f).completedIds) <==>
            (forall id :: id in row.completedIds ==> Item(id, Completed) in f.items)
  {
    hide CurrentOf, Decision, Subsequence;
    assert Saved(row, f).completedIds == CompletedIds(row.ids, f.items);
    assert forall id :: id in row.completedIds ==> id in row.ids;
  }

  /** Written over its own snapshot, a terminal status stays. */
  lemma OwnTerminalStatusStays(row: InteractiveRun, gens: Generations, f: Refresher)
    requires RunInv(row, gens) && RefresherInv(row, gens, f) && f.tried == |row.ids| && f.snapshot.status == row.status
    requires row.status.Terminal()
    ensures Saved(row, f).status == row.status && !GoesOn(f)
  {
    DecisionHasEvidence(row, gens, f);
    hide CompletedIds, CurrentOf, Subsequence;
  }

  // ---------- when a terminal status is left ----------

  predicate Leaves(w: World, e: Event) {
    Enabled(w, e) && w.row.status.Terminal() && Apply(w, e).row.status != w.row.status
  }

  predicate LeavesTerminal(w: World, es: seq<Event>)
    requires ValidRun(w, es)
    decreases |es|
  {
    es != [] && (Leaves(w, es[0]) || LeavesTerminal(Apply(w, es[0]), es[1..]))
  }

  /** A terminal status is overwritten exactly by a write that read every Generation as completed and the row on the
      other side of the cancel request. FAILED never conflicts with anything. */
  lemma SaveLeavesTerminalIff(w: World, e: Event)
    requires WorldInv(w) && Enabled(w, e)
    ensures Leaves(w, e) <==>
      && e.Save? && e.ok && w.row.ids != []
      && var f := w.refreshers[e.r];
         && |f.items| == |w.row.ids| && AllCompleted(f.items)
         && ((f.snapshot.status == Active && w.row.status == RunCancelled) ||
             (f.snapshot.status == Cancelling && w.row.status == RunCompleted))
    ensures Leaves(w, e) ==> w.row.cancelRequested && EveryGeneration(w.row.ids, w.gens)
  {
    if e.Save? {
      var f := w.refreshers[e.r];
      SaveKeepsRunInv(w.row, w.gens, f);
      DecisionHasEvidence(w.row, w.gens, f);
      if |f.items| == |w.row.ids| {
        CompleteReading(w.row, w.gens, f);
      }
      hide CompletedIds, Subsequence, CurrentOf;
    }
  }

  /** A refresher that read the row as ACTIVE and so far every Generation as completed. */
  predicate Viable(f: Refresher) {
    f.snapshot.status == Active && |f.items| == f.tried && AllCompleted(f.items)
  }

  predicate NoneViable(w: World) {
    forall r :: r in w.refreshers ==> !Viable(w.refreshers[r])
  }

  /** Some Generation of the run can no longer complete. */
  ghost predicate Spoilt(w: World) {
    exists id :: id in w.row.ids && id in w.gens && (w.gens[id] == Failed || w.gens[id] == Cancelled)
  }

  /** Nobody will write COMPLETED any more. */
  ghost predicate Settled(w: World) {
    w.row.status != Active && w.row.status != RunCompleted && (NoneViable(w) || Spoilt(w) || w.row.ids == [])
  }

  lemma SavesNotCompleted(row: InteractiveRun, gens: Generations, f: Refresher)
    requires RunInv(row, gens) && RefresherInv(row, gens, f) && f.tried == |row.ids| && row.status != RunCompleted
    ensures Saved(row, f).status == RunCompleted ==> Viable(f) && EveryGeneration(row.ids, gens) && row.ids != []
  {
    DecisionHasEvidence(row, gens, f);
    hide CompletedIds, Subsequence, CurrentOf, RunInv;
  }

  lemma StatusStaysSettled(w: World, e: Event)
    requires WorldInv(w) && Enabled(w, e) && Settled(w)
    ensures var t := Apply(w, e); t.row.status != Active && t.row.status != RunCompleted && !Leaves(w, e)
  {
    StepFollows(w, e);
    SaveLeavesTerminalIff(w, e);
    if e.Save? {
      var f := w.refreshers[e.r];
      SavesNotCompleted(w.row, w.gens, f);
    }
    hide RunInv, Saved, RefresherInv, Leaves;
  }

  lemma ReadingTurnsNobodyViable(f: Refresher, gens: Generations, fails: bool)
    requires |f.items| <= f.tried < |f.snapshot.ids| && f.snapshot.ids[f.tried] in gens && !Viable(f)
    ensures !Viable(HasRead(f, gens, fails))
  {
    var next := HasRead(f, gens, fails);
    assert AllCompleted(next.items) ==> AllCompleted(f.items) by {
      assert forall k :: 0 <= k < |f.items| ==> next.items[k] == f.items[k];
    }
  }

  lemma NobodyTurnsViable(w: World, e: Event)
    requires WorldInv(w) && Enabled(w, e) && NoneViable(w)
    requires w.row.status != Active && Apply(w, e).row.status != Active
    ensures NoneViable(Apply(w, e))
  {
    if e.Read? {
      assert RefresherInv(w.row, w.gens, w.refreshers[e.r]) && !Viable(w.refreshers[e.r]);
      ReadingTurnsNobodyViable(w.refreshers[e.r], w.gens, e.fails);
    }
    hide Saved, RunInv, RefresherInv, HasRead;
    var t := Apply(w, e);
    forall r | r in t.refreshers ensures !Viable(t.refreshers[r]) {
      assert r in w.refreshers ==> !Viable(w.refreshers[r]);
    }
  }

  lemma SettledStep(w: World, e: Event)
    requires WorldInv(w) && Enabled(w, e) && Settled(w)
    ensures Settled(Apply(w, e)) && !Leaves(w, e)
  {
    var t := Apply(w, e);
    StatusStaysSettled(w, e);
    StepFollows(w, e);
    hide RunInv, WorldInv, Apply, Enabled, NoneViable, Leaves;
    if Spoilt(w) {
      var id :| id in w.row.ids && id in w.gens && (w.gens[id] == Failed || w.gens[id] == Cancelled);
      assert t.gens[id] == w.gens[id];
    } else if NoneViable(w) {
      NobodyTurnsViable(w, e);
    }
  }

  lemma {:induction false} SettledNeverLeaves(w: World, es: seq<Event>)
    requires WorldInv(w) && ValidRun(w, es) && Settled(w)
    ensures !LeavesTerminal(w, es) && Settled(Run(w, es))
    decreases |es|
  {
    hide WorldInv, Settled, Apply, Leaves;
    if es != [] {
      SettledStep(w, es[0]);
      StepKeepsWorldInv(w, es[0]);
      SettledNeverLeaves(Apply(w, es[0]), es[1..]);
    }
  }

  lemma NothingLeavesUnrequested(w: World, e: Event)
    requires WorldInv(w) && Enabled(w, e) && !w.row.cancelRequested
    ensures !Leaves(w, e)
    ensures Apply(w, e).row.cancelRequested <==> e.RequestCancel? && w.row.status == Active
    ensures e.RequestCancel? && w.row.status == Active ==>
      Apply(w, e) == w.(row := Apply(w, e).row) && Apply(w, e).row.status == Cancelling
  {
    SaveLeavesTerminalIff(w, e);
    hide WorldInv, RunInv, Leaves;
  }

  /** Before a cancellation is requested nothing leaves a terminal status; the request must find a refresher that has
      read the row as ACTIVE and has not written yet. */
  lemma {:induction false} RaceNeedsARefreshInBetween(w: World, es: seq<Event>) returns (i: nat)
    requires WorldInv(w) && !w.row.cancelRequested && ValidRun(w, es) && LeavesTerminal(w, es)
    ensures i < |es| && es[i] == RequestCancel && ValidRun(w, es[..i])
    ensures Run(w, es[..i]).row.status == Active && !NoneViable(Run(w, es[..i]))
    decreases |es|
  {
    var t := Apply(w, es[0]);
    NothingLeavesUnrequested(w, es[0]);
    StepKeepsWorldInv(w, es[0]);
    hide WorldInv, Leaves;
    if es[0].RequestCancel? && w.row.status == Active {
      i := 0;
      if NoneViable(w) {
        SettledNeverLeaves(t, es[1..]);
      }
    } else {
      hide Apply;
      i := RaceNeedsARefreshInBetween(t, es[1..]);
      assert es[..i + 1][1..] == es[1..][..i];
      i := i + 1;
    }
  }

  // ---------- the race can always be lost ----------

  lemma {:induction false} RunConcat(w: World, es: seq<Event>, fs: seq<Event>)
    requires ValidRun(w, es) && ValidRun(Run(w, es), fs)
    ensures ValidRun(w, es + fs) && Run(w, es + fs) == Run(Run(w, es), fs)
    ensures LeavesTerminal(Run(w, es), fs) ==> LeavesTerminal(w, es + fs)
    decreases |es|
  {
    if es == [] {
      assert es + fs == fs;
    } else {
      RunConcat(Apply(w, es[0]), es[1..], fs);
      assert (es + fs)[1..] == es[1..] + fs;
    }
  }

  lemma OneStep(w: World, e: Event)
    requires Enabled(w, e)
    ensures ValidRun(w, [e]) && Run(w, [e]) == Apply(w, e) && (Leaves(w, e) ==> LeavesTerminal(w, [e]))
  {
    assert [e][1..] == [];
  }

  /** Generations that have not ended can still complete. */
  lemma {:induction false} CompleteAll(w: World, n: nat) returns (es: seq<Event>)
    requires WorldInv(w) && !Spoilt(w) && n <= |w.row.ids|
    ensures ValidRun(w, es)
    ensures var t := Run(w, es);
      t == w.(gens := t.gens) && WorldInv(t) && !Spoilt(t) && EveryGeneration(w.row.ids[..n], t.gens)
  {
    if n == 0 {
      es := [];
    } else {
      es := CompleteAll(w, n - 1);
      var t, id := Run(w, es), w.row.ids[n - 1];
      assert id in w.row.ids && id in t.gens;
      var e := GenStep(id, Completed);
      OneStep(t, e);
      StepKeepsWorldInv(t, e);
      RunConcat(w, es, [e]);
      es := es + [e];
      hide WorldInv, ValidRun, Run;
    }
  }

  function FullyRead(f: Refresher): Refresher {
    f.(items := seq(|f.snapshot.ids|, k requires 0 <= k < |f.snapshot.ids| => Item(f.snapshot.ids[k], Completed)),
       tried := |f.snapshot.ids|)
  }

  /** Reads by refresher `r` and by nobody else. */
  lemma {:induction false} FinishReading(w: World, r: nat) returns (es: seq<Event>)
    requires WorldInv(w) && r in w.refreshers && EveryGeneration(w.row.ids, w.gens)
    requires var f := w.refreshers[r]; |f.items| == f.tried && AllCompleted(f.items)
    ensures ValidRun(w, es) && Run(w, es) == w.(refreshers := w.refreshers[r := FullyRead(w.refreshers[r])])
    decreases |w.row.ids| - w.refreshers[r].tried
  {
    hide WorldInv, RefresherInv, RunInv, FullyRead, Apply, Enabled, AllCompleted, EveryGeneration;
    var f := w.refreshers[r];
    ReadSoFar(w, r);
    if f.tried == |w.row.ids| {
      es := [];
      assert w.refreshers[r := f] == w.refreshers;
    } else {
      hide ValidRun, Run;
      var e := Read(r, false);
      ReadingOne(w, r);
      StepKeepsWorldInv(w, e);
      OneStep(w, e);
      var t := Apply(w, e);
      var fs := FinishReading(t, r);
      RunConcat(w, [e], fs);
      es := [e] + fs;
      assert t.refreshers[r := FullyRead(f)] == w.refreshers[r := FullyRead(f)];
    }
  }

  lemma ReadSoFar(w: World, r: nat)
    requires WorldInv(w) && r in w.refreshers
    requires var f := w.refreshers[r]; |f.items| == f.tried && AllCompleted(f.items)
    ensures w.refreshers[r].tried <= |w.row.ids| == |w.refreshers[r].snapshot.ids|
    ensures w.refreshers[r].tried == |w.row.ids| ==> w.refreshers[r] == FullyRead(w.refreshers[r])
  {
    assert RefresherInv(w.row, w.gens, w.refreshers[r]);
    hide RunInv;
  }

  lemma ReadingOne(w: World, r: nat)
    requires WorldInv(w) && r in w.refreshers && EveryGeneration(w.row.ids, w.gens)
    requires var f := w.refreshers[r]; |f.items| == f.tried < |w.row.ids| && AllCompleted(f.items)
    ensures Enabled(w, Read(r, false))
    ensures var f, t := w.refreshers[r], Apply(w, Read(r, false));
      && t == w.(refreshers := w.refreshers[r := t.refreshers[r]])
      && FullyRead(t.refreshers[r]) == FullyRead(f) && |t.refreshers[r].items| == t.refreshers[r].tried == f.tried + 1
      && AllCompleted(t.refreshers[r].items)
  {
    var f := w.refreshers[r];
    assert RefresherInv(w.row, w.gens, f);
    hide RunInv;
    assert w.row.ids[f.tried] in w.row.ids;
  }

  lemma {:induction false} Above(used: set<nat>) returns (n: nat)
    ensures forall x :: x in used ==> x < n
    decreases |used|
  {
    if used == {} {
      n := 0;
    } else {
      var x :| x in used;
      var m := Above(used - {x});
      n := if x < m then m else x + 1;
      assert forall y :: y in used ==> y == x || y in used - {x};
    }
  }

  /** Two refreshers have read everything, one before and one after the request: whoever writes second overwrites. */
  lemma SecondOverwrites(w: World, first: nat, second: nat)
    requires first != second && first in w.refreshers && second in w.refreshers
    requires w.refreshers[first] == FullyRead(w.refreshers[first]) &&
      w.refreshers[second] == FullyRead(w.refreshers[second])
    requires w.refreshers[first].snapshot.ids != [] && w.refreshers[second].snapshot.ids != []
    requires w.refreshers[first].snapshot.status == Active <==> w.refreshers[second].snapshot.status == Cancelling
    requires forall r :: r == first || r == second ==>
      w.refreshers[r].snapshot.status == Active || w.refreshers[r].snapshot.status == Cancelling
    ensures ValidRun(w, [Save(first, true), Save(second, true)])
    ensures LeavesTerminal(w, [Save(first, true), Save(second, true)])
    ensures Run(w, [Save(first, true), Save(second, true)]).row.status ==
            if w.refreshers[second].snapshot.status == Active then RunCompleted else RunCancelled
  {
    hide WorldInv, FullyRead, Apply, Enabled, ValidRun, Run, LeavesTerminal;
    var e, e' := Save(first, true), Save(second, true);
    DecisiveSave(w, first);
    var t := Apply(w, e);
    DecisiveSave(t, second);
    OneStep(w, e);
    OneStep(t, e');
    RunConcat(w, [e], [e']);
    assert [e] + [e'] == [e, e'];
  }

  lemma DecisiveSave(w: World, r: nat)
    requires r in w.refreshers && w.refreshers[r] == FullyRead(w.refreshers[r]) && w.refreshers[r].snapshot.ids != []
    requires w.refreshers[r].snapshot.status == Active || w.refreshers[r].snapshot.status == Cancelling
    ensures Enabled(w, Save(r, true))
    ensures Apply(w, Save(r, true)).row.status ==
            if w.refreshers[r].snapshot.status == Active then RunCompleted else RunCancelled
    ensures Apply(w, Save(r, true)).refreshers == w.refreshers - {r}
  {
    DecidesCompletedOrCancelled(w.refreshers[r]);
    SaveOfADecision(w.row, w.refreshers[r]);
    hide FullyRead, Decision, CompletedIds, CurrentOf, Saved, AnyItem;
  }

  lemma SaveOfADecision(row: InteractiveRun, f: Refresher)
    requires Decision(f).Some? && !AnyItem(f.items, Failed)
    ensures Saved(row, f).status == Decision(f).value && !GoesOn(f)
  {
  }

  lemma DecidesCompletedOrCancelled(f: Refresher)
    requires f == FullyRead(f) && f.snapshot.ids != []
    requires f.snapshot.status == Active || f.snapshot.status == Cancelling
    ensures !AnyItem(f.items, Failed) && f.tried == |f.snapshot.ids|
    ensures Decision(f) == Some(if f.snapshot.status == Active then RunCompleted else RunCancelled)
  {
  }

  /** From a refresher that straddles the request a run can get to the point where either of two writes comes last. */
  lemma StraddleMeetsAnother(w: World, r: nat) returns (es: seq<Event>, n: nat)
    requires WorldInv(w) && w.row.status == Cancelling && w.row.ids != [] && !Spoilt(w)
    requires r in w.refreshers && Viable(w.refreshers[r])
    ensures ValidRun(w, es)
    ensures var t := Run(w, es);
      && WorldInv(t) && t.row == w.row && n != r && n in t.refreshers && r in t.refreshers
      && t.refreshers[r] == FullyRead(w.refreshers[r]) && t.refreshers[n] == FullyRead(Fresh(w.row))
  {
    es := CompleteAll(w, |w.row.ids|);
    var t := Run(w, es);
    assert w.row.ids[..|w.row.ids|] == w.row.ids;
    hide ValidRun, Run;
    var fs := FinishReading(t, r);
    RunConcat(w, es, fs);
    RunKeepsWorldInv(t, fs);
    es, t := es + fs, Run(t, fs);
    n := Above(t.refreshers.Keys);
    assert n !in t.refreshers.Keys;
    OneStep(t, Snapshot(n));
    StepKeepsWorldInv(t, Snapshot(n));
    RunConcat(w, es, [Snapshot(n)]);
    es, t := es + [Snapshot(n)], Apply(t, Snapshot(n));
    fs := FinishReading(t, n);
    RunConcat(w, es, fs);
    RunKeepsWorldInv(t, fs);
    es := es + fs;
  }

  /** Both bad endings: COMPLETED over CANCELLED, and CANCELLED over COMPLETED. */
  lemma StraddleConflicts(w: World, r: nat) returns (es: seq<Event>, fs: seq<Event>)
    requires WorldInv(w) && w.row.status == Cancelling && w.row.ids != [] && !Spoilt(w)
    requires r in w.refreshers && Viable(w.refreshers[r])
    ensures ValidRun(w, es) && LeavesTerminal(w, es) && Run(w, es).row.status == RunCompleted
    ensures ValidRun(w, fs) && LeavesTerminal(w, fs) && Run(w, fs).row.status == RunCancelled
  {
    hide WorldInv, ValidRun, Run, LeavesTerminal, FullyRead, Spoilt;
    var gs, n := StraddleMeetsAnother(w, r);
    var t := Run(w, gs);
    ReadingAllTwice(w.refreshers[r]);
    ReadingAllTwice(Fresh(w.row));
    RefreshersKnowTheIds(t);
    SecondOverwrites(t, n, r);
    SecondOverwrites(t, r, n);
    RunConcat(w, gs, [Save(n, true), Save(r, true)]);
    RunConcat(w, gs, [Save(r, true), Save(n, true)]);
    es, fs := gs + [Save(n, true), Save(r, true)], gs + [Save(r, true), Save(n, true)];
  }

  lemma RefreshersKnowTheIds(w: World)
    requires WorldInv(w)
    ensures forall r :: r in w.refreshers ==> w.refreshers[r].snapshot.ids == w.row.ids
  {
  }

  lemma ReadingAllTwice(f: Refresher)
    ensures FullyRead(FullyRead(f)) == FullyRead(f) && FullyRead(f).snapshot == f.snapshot
  {
  }

  /** The worker's refresh reads an ACTIVE run just before the user cancels it: the run is shown as CANCELLED, and then
      the worker's write makes it COMPLETED. */
  lemma CancelledRunBecomesCompleted(row: InteractiveRun, gens: Generations) returns (es: seq<Event>)
    requires RunInv(row, gens) && row.status == Active && row.ids != [] && EveryGeneration(row.ids, gens)
    ensures var w := World.World(row, gens, map[]);
      ValidRun(w, es) && LeavesTerminal(w, es) && Run(w, es).row.status == RunCompleted
  {
    var w := World.World(row, gens, map[]);
    OneStep(w, Snapshot(0));
    StepKeepsWorldInv(w, Snapshot(0));
    var t := Apply(w, Snapshot(0));
    OneStep(t, RequestCancel);
    StepKeepsWorldInv(t, RequestCancel);
    hide WorldInv, ValidRun, Run, LeavesTerminal, FullyRead;
    var u := Apply(t, RequestCancel);
    var fs, _ := StraddleConflicts(u, 0);
    RunConcat(t, [RequestCancel], fs);
    RunConcat(w, [Snapshot(0)], [RequestCancel] + fs);
    es := [Snapshot(0)] + ([RequestCancel] + fs);
  }

  /** After a cancellation was recorded, a terminal status can still be left exactly if another refresher had read the
      row before the request and not written since, with no Generation that failed or was cancelled. */
  lemma CancelRaceIff(w: World)
    requires WorldInv(w) && w.row.status == Cancelling
    ensures (exists es :: ValidRun(w, es) && LeavesTerminal(w, es)) <==>
            w.row.ids != [] && !Spoilt(w) && exists r :: r in w.refreshers && Viable(w.refreshers[r])
  {
    if Settled(w) {
      forall es | ValidRun(w, es) ensures !LeavesTerminal(w, es) {
        SettledNeverLeaves(w, es);
      }
    } else {
      var r :| r in w.refreshers && Viable(w.refreshers[r]);
      var es, _ := StraddleConflicts(w, r);
    }
  }
}
