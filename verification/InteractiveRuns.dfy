/** The interactive service itself: reads, projections and writes of one thread, with the steps of all others in
    between. */
module InteractiveRuns {
  import opened Wrappers
  import opened SubmissionQueue
  import opened InteractiveSteps

  /** One queue read: what other threads do before it, and whether it fails. */
  datatype Lookup = Lookup(before: seq<InteractiveSteps.Event>, fails: bool)

  /** One pass of a refresh: its reads, what happens until it writes, and whether the run can be saved. */
  datatype Pass = Pass(lookups: seq<Lookup>, before: seq<InteractiveSteps.Event>, saved: bool)

  predicate OnlyGenerations(es: seq<InteractiveSteps.Event>) {
    forall e :: e in es ==> e.GenStep?
  }

  /** Nobody else touches the row. */
  predicate Undisturbed(pass: Pass) {
    OnlyGenerations(pass.before) && forall k :: 0 <= k < |pass.lookups| ==> OnlyGenerations(pass.lookups[k].before)
  }

  predicate NoneFails(lookups: seq<Lookup>) {
    forall k :: 0 <= k < |lookups| ==> !lookups[k].fails
  }

  class InteractiveGenerationService {
    var row: InteractiveRun
    var gens: Generations
    /** The refreshes of other threads. */
    var refreshers: map<nat, Refresher>

    ghost function World(): InteractiveSteps.World
      reads this
    {
      InteractiveSteps.World.World(row, gens, refreshers)
    }

    ghost predicate Valid()
      reads this
    {
      WorldInv(World())
    }

    constructor (ids: seq<nat>, gens: Generations)
      requires forall id :: id in ids ==> id in gens
      ensures Valid() &&
        World() == InteractiveSteps.World.World(InteractiveRun(Active, ids, [], None, false), gens, map[])
    {
      row := InteractiveRun(Active, ids, [], None, false);
      this.gens, refreshers := gens, map[];
    }

    /** Other threads move Generations on, refresh the same row and cancel the run. */
    method Interleave(es: seq<InteractiveSteps.Event>)
      requires Valid()
      modifies this
      ensures Valid() && Follows(old(row), old(gens), row, gens)
      ensures old(Settled(World())) ==> Settled(World())
      ensures OnlyGenerations(es) ==> row == old(row)
    {
      hide WorldInv, Settled, Follows, InteractiveSteps.Apply, InteractiveSteps.Enabled;
      FollowsRefl(row, gens);
      for i := 0 to |es|
        invariant Valid() && Follows(old(row), old(gens), row, gens)
        invariant old(Settled(World())) ==> Settled(World())
        invariant OnlyGenerations(es) ==> row == old(row)
      {
        var w := InteractiveSteps.World.World(row, gens, refreshers);
        if InteractiveSteps.Enabled(w, es[i]) {
          var t := InteractiveSteps.Apply(w, es[i]);
          StepFollows(w, es[i]);
          StepKeepsWorldInv(w, es[i]);
          if Settled(w) {
            SettledStep(w, es[i]);
          }
          GenStepLeavesTheRow(w, es[i]);
          FollowsTrans(old(row), old(gens), row, gens, t.row, t.gens);
          row, gens, refreshers := t.row, t.gens, t.refreshers;
        }
      }
    }

    /** The reads of one pass, failed ones left out. An item that was terminal when it was read is still so. */
    method ReadItems(snapshot: InteractiveRun, lookups: seq<Lookup>) returns (f: Refresher)
      requires Valid() && RefresherInv(row, gens, Fresh(snapshot)) && |lookups| == |snapshot.ids|
      modifies this
      ensures Valid() && Follows(old(row), old(gens), row, gens) && (old(Settled(World())) ==> Settled(World()))
      ensures RefresherInv(row, gens, f) && f.snapshot == snapshot && f.tried == |snapshot.ids| == |row.ids|
      ensures NoneFails(lookups) ==> |f.items| == |snapshot.ids| && ReadSince(f.items, snapshot.ids, old(gens))
      ensures (forall k :: 0 <= k < |lookups| ==> OnlyGenerations(lookups[k].before)) ==> row == old(row)
    {
      f := Fresh(snapshot);
      FollowsRefl(row, gens);
      KnownIds(row, gens, f);
      assert NoneFails(lookups[..0]) && ReadSince([], snapshot.ids, gens);
      hide WorldInv, RunInv, RefresherInv, Settled, Follows, ReadSince, NoneFails, OnlyGenerations;
      for i := 0 to |snapshot.ids|
        invariant Valid() && Follows(old(row), old(gens), row, gens) && (old(Settled(World())) ==> Settled(World()))
        invariant RefresherInv(row, gens, f) && f.snapshot == snapshot && f.tried == i && snapshot.ids == row.ids
        invariant NoneFails(lookups[..i]) ==> |f.items| == i && ReadSince(f.items, snapshot.ids, old(gens))
        invariant (forall k :: 0 <= k < i ==> OnlyGenerations(lookups[k].before)) ==> row == old(row)
      {
        NoneFailsSnoc(lookups, i);
        f := ReadItem(f, lookups[i], old(row), old(gens));
      }
      assert lookups[..|snapshot.ids|] == lookups;
    }

    /** One queue read, as part of a pass that began when the row and the Generations were `row0` and `gens0`. */
    method ReadItem(f: Refresher, lookup: Lookup, ghost row0: InteractiveRun, ghost gens0: Generations)
      returns (next: Refresher)
      requires Valid() && RefresherInv(row, gens, f) && f.tried < |f.snapshot.ids| == |row.ids|
      requires Follows(row0, gens0, row, gens)
      modifies this
      ensures Valid() && Follows(row0, gens0, row, gens) && (old(Settled(World())) ==> Settled(World()))
      ensures RefresherInv(row, gens, next) && next.snapshot == f.snapshot && next.tried == f.tried + 1
      ensures row.ids == old(row).ids && (OnlyGenerations(lookup.before) ==> row == old(row))
      ensures !lookup.fails && |f.items| == f.tried && ReadSince(f.items, f.snapshot.ids, gens0) ==>
        |next.items| == next.tried && ReadSince(next.items, f.snapshot.ids, gens0)
    {
      hide WorldInv, RunInv, RefresherInv, Settled, Follows, ReadSince, OnlyGenerations, Later;
      Interleave(lookup.before);
      FollowsKeepsRefresherInv(old(row), old(gens), row, gens, f);
      FollowsTrans(row0, gens0, old(row), old(gens), row, gens);
      WhatFollowsKeeps(row0, gens0, row, gens);
      WhatFollowsKeeps(old(row), old(gens), row, gens);
      KnownIds(row, gens, f);
      ReadKeepsRefresherInv(row, gens, f, lookup.fails);
      if !lookup.fails && |f.items| == f.tried && ReadSince(f.items, f.snapshot.ids, gens0) {
        ReadOn(f, gens0, gens);
      }
      next := HasRead(f, gens, lookup.fails);
    }

    /** The projections of the items: whether one failed or was cancelled, how many are terminal, the first
        unfinished. */
    static method Summarize(items: seq<Item>)
      returns (failed: bool, cancelled: bool, terminal: nat, current: Option<nat>)
      ensures failed <==> AnyItem(items, Failed)
      ensures cancelled <==> AnyItem(items, Cancelled)
      ensures terminal <= |items| && (terminal == |items| <==> AllTerminal(items))
      ensures current == CurrentOf(items)
    {
      failed, cancelled, terminal, current := false, false, 0, None;
      for i := 0 to |items|
        invariant failed <==> AnyItem(items[..i], Failed)
        invariant cancelled <==> AnyItem(items[..i], Cancelled)
        invariant terminal <= i && (terminal == i <==> AllTerminal(items[..i]))
        invariant CurrentOf(items) == if current.Some? then current else CurrentOf(items[i..])
      {
        assert items[..i + 1] == items[..i] + [items[i]];
        AnyItemSnoc(items[..i], items[i], Failed);
        AnyItemSnoc(items[..i], items[i], Cancelled);
        assert AllTerminal(items[..i] + [items[i]]) <==> AllTerminal(items[..i]) && items[i].status.Terminal() by {
          AllTerminalSnoc(items[..i], items[i]);
        }
        failed := failed || items[i].status == Failed;
        cancelled := cancelled || items[i].status == Cancelled;
        if items[i].status.Terminal() {
          terminal := terminal + 1;
        } else if current == None {
          current := Some(items[i].id);
        }
      }
      assert items[..|items|] == items;
    }

    /** The end of a refresh that saw no failure. What it writes depends on its own reading only. */
    method SaveProgress(f: Refresher, cancelled: bool, terminal: nat, current: Option<nat>, mayWrite: bool)
      returns (saved: bool)
      requires !AnyItem(f.items, Failed) && (cancelled <==> AnyItem(f.items, Cancelled)) &&
        current == CurrentOf(f.items)
      requires |f.items| <= |f.snapshot.ids| && terminal <= |f.items| &&
        (terminal == |f.items| <==> AllTerminal(f.items))
      modifies this`row
      ensures saved <==> mayWrite || !Writes(f)
      ensures row == if saved then Saved(old(row), f) else old(row)
    {
      hide CompletedIds, CurrentOf, AnyItem, AllTerminal;
      var status: Option<RunStatus> := None;
      if f.snapshot.ids != [] && terminal == |f.snapshot.ids| && !f.snapshot.status.Terminal() {
        status := Some(if f.snapshot.status == Cancelling || cancelled then RunCancelled else RunCompleted);
      }
      assert status == Decision(f);
      var completedIds := CompletedIds(f.snapshot.ids, f.items);
      saved := true;
      if completedIds != f.snapshot.completedIds || current != f.snapshot.current || status.Some? {
        saved := mayWrite;
        if mayWrite {
          row := row.(status := if status.Some? then status.value else row.status, completedIds := completedIds,
                      current := current);
        }
      }
    }

    /** The rest of the run is cancelled as far as it has not started, then the failure is recorded. */
    method SaveFailure(f: Refresher, mayWrite: bool) returns (saved: bool)
      requires GoesOn(f)
      modifies this`row
      ensures saved == mayWrite && row == if saved then Saved(old(row), f) else old(row)
    {
      saved := mayWrite;
      if saved {
        row := row.(status := RunFailed, completedIds := CompletedIds(f.snapshot.ids, f.items), current := None);
      }
    }

    /** `_refresh_run`, from a reading of the row that may be old by the time of the write. The recursion after a
        failure goes one level deep. Nobody writes COMPLETED once nobody can: that stays so. With no other writer in
        between a terminal status is kept, no completed ID is lost, and a run whose Generations have all ended gets
        decided. */
    method Refresh(snapshot: InteractiveRun, passes: seq<Pass>) returns (saved: bool)
      requires Valid() && RefresherInv(row, gens, Fresh(snapshot))
      requires |passes| >= if snapshot.status == RunFailed then 1 else 2
      requires forall p :: p in passes ==> |p.lookups| == |row.ids|
      modifies this
      ensures Valid() && Follows(old(row), old(gens), row, gens)
      ensures old(Settled(World())) && snapshot.status != Active ==> Settled(World())
      ensures snapshot == old(row) && (forall p :: p in passes ==> Undisturbed(p)) ==>
        && (old(row).status.Terminal() ==> row.status == old(row).status)
        && (row.status == RunCompleted ==> old(row).status == RunCompleted || old(row).status == Active)
      ensures (forall p :: p in passes ==> p.saved) ==> saved
      ensures saved && snapshot == old(row) && (forall p :: p in passes ==> Undisturbed(p) && NoneFails(p.lookups)) ==>
        && (forall id :: id in old(row).completedIds ==> id in row.completedIds)
        && Decided(old(row), old(gens), row)
      decreases if snapshot.status == RunFailed then 0 else 1
    {
      hide WorldInv, RunInv, RefresherInv, Settled, Follows, Saved, CompletedIds, CurrentOf, AnyItem, GoesOn, AllEnded;
      hide Decided;
      var f;
      saved, f := OnePass(snapshot, passes[0]);
      assert passes[0] in passes;
      if saved && GoesOn(f) {
        ghost var row', gens' := row, gens;
        RowIsOwnSnapshot(World());
        WhatFollowsKeeps(old(row), old(gens), row, gens);
        assert row.status == RunFailed;
        saved := Refresh(row, passes[1..]);
        FailedStaysDecided(old(row), old(gens), row', row);
        assert forall p :: p in passes[1..] ==> p in passes;
        FollowsTrans(old(row), old(gens), row', gens', row, gens);
      }
    }

    /** Reads, projections and the write of one pass. */
    method OnePass(snapshot: InteractiveRun, pass: Pass) returns (saved: bool, f: Refresher)
      requires Valid() && RefresherInv(row, gens, Fresh(snapshot)) && |pass.lookups| == |row.ids|
      modifies this
      ensures Valid() && Follows(old(row), old(gens), row, gens) && f.snapshot == snapshot
      ensures old(Settled(World())) && snapshot.status != Active ==> Settled(World())
      ensures pass.saved ==> saved
      ensures saved && GoesOn(f) ==> row.status == RunFailed && snapshot.status != RunFailed
      ensures snapshot == old(row) && Undisturbed(pass) ==>
        && (old(row).status.Terminal() ==> row.status == old(row).status && !GoesOn(f))
        && (row.status == RunCompleted ==> old(row).status == RunCompleted || old(row).status == Active)
      ensures saved && snapshot == old(row) && Undisturbed(pass) && NoneFails(pass.lookups) ==>
        && (forall id :: id in old(row).completedIds ==> id in row.completedIds)
        && Decided(old(row), old(gens), row)
    {
      hide WorldInv, RunInv, RefresherInv, Settled, Follows, Saved, AllEnded, ReadSince, GoesOn, Later, NoneFails;
      hide Decided, Writes;
      RowHasRunInv(World());
      f := ReadAndWait(snapshot, pass);
      ghost var row2 := row;
      RowHasRunInv(World());
      WriteKeeps(World(), f);
      saved := Write(f, pass.saved);
      FollowsTrans(old(row), old(gens), row2, gens, Saved(row2, f), gens);
      if snapshot == row2 {
        UndisturbedWrite(row2, gens, f);
        if NoneFails(pass.lookups) && row2 == old(row) {
          SuccessfulReading(row2, old(gens), f);
        }
      }
    }

    /** Everything of one pass up to its write. */
    method ReadAndWait(snapshot: InteractiveRun, pass: Pass) returns (f: Refresher)
      requires Valid() && RefresherInv(row, gens, Fresh(snapshot)) && |pass.lookups| == |row.ids|
      modifies this
      ensures Valid() && Follows(old(row), old(gens), row, gens) && (old(Settled(World())) ==> Settled(World()))
      ensures RefresherInv(row, gens, f) && f.snapshot == snapshot &&
        |f.items| <= f.tried == |snapshot.ids| == |row.ids|
      ensures NoneFails(pass.lookups) ==> |f.items| == |snapshot.ids| && ReadSince(f.items, snapshot.ids, old(gens))
      ensures Undisturbed(pass) ==> row == old(row)
    {
      KnownIds(row, gens, Fresh(snapshot));
      hide WorldInv, RunInv, RefresherInv, Settled, Follows, ReadSince, Later, NoneFails;
      f := ReadItems(snapshot, pass.lookups);
      ghost var row1, gens1 := row, gens;
      Interleave(pass.before);
      FollowsKeepsRefresherInv(row1, gens1, row, gens, f);
      FollowsTrans(old(row), old(gens), row1, gens1, row, gens);
      KnownIds(row, gens, f);
    }

    method Write(f: Refresher, mayWrite: bool) returns (saved: bool)
      requires |f.items| <= |f.snapshot.ids|
      modifies this`row
      ensures saved <==> mayWrite || !Writes(f)
      ensures row == if saved then Saved(old(row), f) else old(row)
      ensures saved && GoesOn(f) ==> row.status == RunFailed && f.snapshot.status != RunFailed
    {
      hide CompletedIds, CurrentOf, AnyItem;
      var failed, cancelled, terminal, current := Summarize(f.items);
      if failed && f.snapshot.status != RunFailed {
        saved := SaveFailure(f, mayWrite);
      } else if failed {
        saved := true;
      } else {
        saved := SaveProgress(f, cancelled, terminal, current, mayWrite);
      }
    }

    /** `cancel`: the request is recorded first and only from ACTIVE, then every unfinished Generation is cancelled as
        far as the queue allows, then the run is read again and refreshed. It can end as COMPLETED only if another
        refresh had read the row before the request and not written yet. */
    method Cancel(cancels: seq<InteractiveSteps.Event>, passes: seq<Pass>) returns (saved: bool)
      requires Valid() && |passes| >= 2 && forall p :: p in passes ==> |p.lookups| == |row.ids|
      modifies this
      ensures Valid() && Follows(old(row), old(gens), row, gens)
      ensures row.status != Active && (old(row).status == Active ==> row.cancelRequested)
      ensures old(row).status == Active && old(NoneViable(World())) ==> row.status != RunCompleted
      ensures (forall p :: p in passes ==> p.saved) ==> saved
      ensures
        (saved && OnlyGenerations(cancels) && forall p :: p in passes ==> Undisturbed(p) && NoneFails(p.lookups)) ==>
          Decided(Requested(old(row)), old(gens), row)
    {
      hide WorldInv, RunInv, RefresherInv, Follows, Decided, Later;
      StepKeepsWorldInv(World(), RequestCancel);
      StepFollows(World(), RequestCancel);
      row := Requested(row);
      ghost var row1 := row;
      assert old(row).status == Active && old(NoneViable(World())) ==> Settled(World());
      Interleave(cancels);
      FollowsTrans(old(row), old(gens), row1, old(gens), row, gens);
      WhatFollowsKeeps(row1, old(gens), row, gens);
      WhatFollowsKeeps(old(row), old(gens), row, gens);
      ghost var row2, gens2 := row, gens;
      RowIsOwnSnapshot(World());
      saved := Refresh(row, passes);
      FollowsTrans(old(row), old(gens), row2, gens2, row, gens);
      WhatFollowsKeeps(row2, gens2, row, gens);
      DecidedEarlier(row1, old(gens), gens2, row);
    }
  }

  /** These items were read, in the order of the IDs, when the Generations were as given or later. */
  ghost predicate ReadSince(items: seq<Item>, ids: seq<nat>, gens: Generations) {
    && |items| <= |ids|
    && forall k :: 0 <= k < |items| ==>
         ids[k] in gens && (gens[ids[k]].Terminal() ==> items[k] == Item(ids[k], gens[ids[k]]))
  }

  lemma NoneFailsSnoc(lookups: seq<Lookup>, i: nat)
    requires i < |lookups|
    ensures NoneFails(lookups[..i + 1]) <==> NoneFails(lookups[..i]) && !lookups[i].fails
  {
    assert lookups[..i + 1] == lookups[..i] + [lookups[i]];
  }

  lemma ReadOn(f: Refresher, gens: Generations, now: Generations)
    requires ReadSince(f.items, f.snapshot.ids, gens) && Later(gens, now) && |f.items| == f.tried < |f.snapshot.ids|
    requires f.snapshot.ids[f.tried] in now
    ensures ReadSince(HasRead(f, now, false).items, f.snapshot.ids, gens)
  {
  }

  /** There is something to write. */
  predicate Writes(f: Refresher) {
    if AnyItem(f.items, Failed) then f.snapshot.status != RunFailed
    else
      || CompletedIds(f.snapshot.ids, f.items) != f.snapshot.completedIds || CurrentOf(f.items) != f.snapshot.current
      || Decision(f).Some?
  }

  /** What an undisturbed refresh of a run makes of Generations that were in these states, or later ones: a failed one
      fails the run, and when all have ended the run is completed or, if that was asked for or one of them was
      cancelled, cancelled; every completed one is listed. */
  ghost predicate Decided(row: InteractiveRun, gens: Generations, t: InteractiveRun) {
    !row.status.Terminal() ==>
      && (SomeIn(row.ids, gens, Failed) ==> t.status == RunFailed)
      && (row.ids != [] && AllEnded(row.ids, gens) && !SomeIn(row.ids, gens, Failed) ==>
            t.status ==
            if row.status == Cancelling || SomeIn(row.ids, gens, Cancelled) then RunCancelled else RunCompleted)
      && (forall id :: id in row.ids && id in gens && gens[id] == Completed ==> id in t.completedIds)
  }

  lemma DecidedEarlier(row: InteractiveRun, gens: Generations, now: Generations, t: InteractiveRun)
    requires Later(gens, now)
    ensures Decided(row, now, t) ==> Decided(row, gens, t)
  {
    if SomeIn(row.ids, gens, Failed) {
      var id :| id in row.ids && id in gens && gens[id] == Failed;
      assert now[id] == Failed;
    }
    if SomeIn(row.ids, gens, Cancelled) {
      var id :| id in row.ids && id in gens && gens[id] == Cancelled;
      assert now[id] == Cancelled;
    }
    if AllEnded(row.ids, gens) {
      assert AllEnded(row.ids, now);
    }
  }

  lemma FailedStaysDecided(row: InteractiveRun, gens: Generations, t: InteractiveRun, u: InteractiveRun)
    ensures Decided(row, gens, t) && t.status == u.status &&
      (forall id :: id in t.completedIds ==> id in u.completedIds)
      ==> Decided(row, gens, u)
  {
  }

  ghost predicate SomeIn(ids: seq<nat>, gens: Generations, status: GenStatus) {
    exists id :: id in ids && id in gens && gens[id] == status
  }

  ghost predicate AllEnded(ids: seq<nat>, gens: Generations) {
    forall id :: id in ids ==> id in gens && gens[id].Terminal()
  }

  lemma GenStepLeavesTheRow(w: InteractiveSteps.World, e: InteractiveSteps.Event)
    requires InteractiveSteps.Enabled(w, e)
    ensures e.GenStep? ==> InteractiveSteps.Apply(w, e).row == w.row
  {
  }

  lemma KnownIds(row: InteractiveRun, gens: Generations, f: Refresher)
    requires RefresherInv(row, gens, f)
    ensures f.snapshot.ids == row.ids && |f.items| <= f.tried && forall id :: id in row.ids ==> id in gens
  {
  }

  lemma WhatFollowsKeeps(row: InteractiveRun, gens: Generations, row': InteractiveRun, gens': Generations)
    requires Follows(row, gens, row', gens')
    ensures row'.ids == row.ids && Later(gens, gens') && (row'.status == Active ==> row.status == Active)
    ensures row.cancelRequested ==> row'.cancelRequested
  {
  }

  lemma RowHasRunInv(w: InteractiveSteps.World)
    requires WorldInv(w)
    ensures RunInv(w.row, w.gens)
  {
  }

  lemma RowIsOwnSnapshot(w: InteractiveSteps.World)
    requires WorldInv(w)
    ensures RunInv(w.row, w.gens) && RefresherInv(w.row, w.gens, Fresh(w.row))
  {
    FreshInv(w.row, w.gens);
  }

  lemma AnyItemSnoc(items: seq<Item>, item: Item, status: GenStatus)
    ensures AnyItem(items + [item], status) <==> AnyItem(items, status) || item.status == status
  {
    if AnyItem(items, status) {
      var k :| 0 <= k < |items| && items[k].status == status;
      assert (items + [item])[k].status == status;
    }
    assert (items + [item])[|items|] == item;
  }

  lemma AllTerminalSnoc(items: seq<Item>, item: Item)
    ensures AllTerminal(items + [item]) <==> AllTerminal(items) && item.status.Terminal()
  {
    assert (items + [item])[|items|] == item;
    assert forall k :: 0 <= k < |items| ==> (items + [item])[k] == items[k];
  }

  /** A write keeps the invariant, and nobody but a viable refresher writes COMPLETED. */
  lemma WriteKeeps(w: InteractiveSteps.World, f: Refresher)
    requires WorldInv(w) && RefresherInv(w.row, w.gens, f) && f.tried == |w.row.ids|
    ensures var t := w.(row := Saved(w.row, f));
      && WorldInv(t) && Follows(w.row, w.gens, t.row, t.gens)
      && (Settled(w) && f.snapshot.status != Active ==> Settled(t))
  {
    var t := w.(row := Saved(w.row, f));
    SaveKeepsRunInv(w.row, w.gens, f);
    hide Saved, RunInv;
    forall r | r in t.refreshers ensures RefresherInv(t.row, t.gens, t.refreshers[r]) {
      FollowsKeepsRefresherInv(w.row, w.gens, t.row, t.gens, w.refreshers[r]);
    }
    if Settled(w) && f.snapshot.status != Active {
      SavesNotCompleted(w.row, w.gens, f);
    }
  }

  lemma UndisturbedWrite(row: InteractiveRun, gens: Generations, f: Refresher)
    requires RunInv(row, gens) && RefresherInv(row, gens, f) && f.tried == |row.ids| && f.snapshot == row
    ensures row.status.Terminal() ==> Saved(row, f).status == row.status && !GoesOn(f)
    ensures Saved(row, f).status == RunCompleted ==> row.status == RunCompleted || row.status == Active
  {
    if row.status.Terminal() {
      OwnTerminalStatusStays(row, gens, f);
    } else {
      SavesNotCompleted(row, gens, f);
    }
  }

  lemma SuccessfulReading(row: InteractiveRun, gens: Generations, f: Refresher)
    requires RunInv(row, gens) && f.snapshot == row && |f.items| == |row.ids|
    requires ReadSince(f.items, row.ids, gens)
    ensures forall id :: id in row.completedIds ==> id in Saved(row, f).completedIds
    ensures Decided(row, gens, Saved(row, f))
  {
    forall id | id in row.completedIds ensures Item(id, Completed) in f.items {
      var k :| 0 <= k < |row.ids| && row.ids[k] == id;
      assert f.items[k] == Item(id, Completed);
    }
    hide CurrentOf, Subsequence;
    if AllEnded(row.ids, gens) {
      assert forall k :: 0 <= k < |row.ids| ==> row.ids[k] in row.ids && f.items[k].status.Terminal();
    }
  }
}
