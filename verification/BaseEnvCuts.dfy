/**
 * A marker move that stops between its two writes leaves the record naming an account the marker does not.
 * The next job then judges as if an older clauth had switched: what that moves, and what it cannot.
 */
module BaseEnvCuts {
  import opened Wrappers
  import opened Json
  import opened BaseEnv
  import opened BaseEnvHome
  import opened BaseEnvCells
  import opened BaseEnvTheorems

  /** The record is stamped and the files read, whether or not record and marker agree. */
  predicate Stamped(disk: Disk) {
    && disk.record.RecordOn? && !disk.record.record.migrating
    && disk.accounts.state.Some? && !disk.live.BadLive?
  }

  /** Every key is as it was, and the next job judges as after a switch it did not see. */
  lemma CutMoveLeavesApart(disk: Disk, active: Option<Name>, key: Key)
    requires Trusted(disk)
    ensures var cut := MarkerMoved(disk, active, 1);
      && Stamped(cut) && CellOf(cut, key) == CellOf(disk, key)
      && JudgeIn(cut) == if active == MarkerOf(disk.accounts) then Recorded else Unseen
  {}

  /** The next job that lands then moves the user's value of a key exactly when it misreads the live value:
      a covered key the user deleted, or a live value some account carries too. */
  lemma CutMoveMovesValueExactlyWhen(disk: Disk, active: Option<Name>, job: Job, key: Key)
    requires Trusted(disk) && KeepsBaseValue(key) && active != MarkerOf(disk.accounts)
    requires var cut := MarkerMoved(disk, active, 1); Lands(cut, job) && RoleOf(cut, job, key) != Untouched
    ensures var cut := MarkerMoved(disk, active, 1);
      UserValue(CellOf(AfterJob(cut, job, 3), key)) != UserValue(CellOf(disk, key))
      <==> Misjudges(Unseen, CellOf(disk, key), key, OutgoingIn(cut, job))
  {
    CutMoveLeavesApart(disk, active, key);
    UserValueMovesExactlyWhenMisjudged(MarkerMoved(disk, active, 1), job, key);
  }

  /** A cover as clauth left it is never misread. */
  lemma CutMoveKeepsCovers(disk: Disk, active: Option<Name>, job: Job, key: Key)
    requires Trusted(disk) && KeepsBaseValue(key)
    requires var cell := CellOf(disk, key);
      cell.entry.Some? && cell.live.Some? && cell.entry.value.WroteLive(cell.live.value)
    requires Lands(MarkerMoved(disk, active, 1), job)
    ensures var cut := MarkerMoved(disk, active, 1);
      UserValue(CellOf(AfterJob(cut, job, 3), key)) == CellOf(disk, key).entry.value.base
  {
    var cut := MarkerMoved(disk, active, 1);
    CutMoveLeavesApart(disk, active, key);
    if RoleOf(cut, job, key) != Untouched {
      UserValueMovesExactlyWhenMisjudged(cut, job, key);
    }
  }

  /** Moving the marker again ends as the move that did not stop; moving it elsewhere leaves the record
      naming the first account. */
  lemma MoveAgain(disk: Disk, active: Option<Name>, elsewhere: Option<Name>)
    requires Trusted(disk) && active != MarkerOf(disk.accounts)
    ensures MoveMarker(MarkerMoved(disk, active, 1), active) == MoveMarker(disk, active)
    ensures Trusted(MoveMarker(MarkerMoved(disk, active, 1), elsewhere)) <==> elsewhere == active
  {}

  /* ---------- over every run ---------- */

  /** A step as before, or a marker move that stops between its writes. */
  datatype AnyStep = Whole(step: Step) | CutMove(active: Option<Name>)

  function NextAny(disk: Disk, step: AnyStep): Disk {
    match step
    case Whole(step) => Next(disk, step)
    case CutMove(active) => MarkerMoved(disk, active, 1)
  }

  function RunAny(disk: Disk, steps: seq<AnyStep>): Disk
    decreases |steps|
  {
    if steps == [] then disk else RunAny(NextAny(disk, steps[0]), steps[1..])
  }

  function MeantAny(disk: Disk, steps: seq<AnyStep>, key: Key, meant: Option<Json>): Option<Json>
    decreases |steps|
  {
    if steps == [] then meant
    else
      var next := if steps[0].Whole? then Meant(disk, steps[0].step, key, meant) else meant;
      MeantAny(NextAny(disk, steps[0]), steps[1..], key, next)
  }

  /** The step is no edit that looks like clauth's own, and no job that misreads the key. */
  predicate Readable(disk: Disk, step: AnyStep, key: Key) {
    step.Whole? ==>
      && ToldApart(disk, step.step, key)
      && (step.step.RunJob? && Lands(disk, step.step.job) ==>
            !Misjudges(JudgeIn(disk), CellOf(disk, key), key, OutgoingIn(disk, step.step.job)))
  }

  predicate AllReadable(disk: Disk, steps: seq<AnyStep>, key: Key)
    decreases |steps|
  {
    steps != [] ==> Readable(disk, steps[0], key) && AllReadable(NextAny(disk, steps[0]), steps[1..], key)
  }

  lemma CellKeepsUnlessMisjudged(cell: Cell, role: Role, judge: Judge, key: Key, out: Outgoing, stage: nat)
    requires !Misjudges(judge, cell, key, out)
    ensures UserValue(CellAfter(cell, role, LiveOwnerOf(cell.entry, judge, key, cell.live, out), stage))
         == UserValue(cell)
  {}

  lemma JobKeepsStamped(disk: Disk, job: Job, stage: nat)
    requires Stamped(disk)
    ensures Stamped(AfterJob(disk, job, stage))
  {
    if Lands(disk, job) {
      AfterLanding(disk, job, stage);
    }
  }

  lemma StepKeepsUnlessMisjudged(disk: Disk, step: AnyStep, key: Key)
    requires Stamped(disk) && KeepsBaseValue(key) && Readable(disk, step, key)
    ensures Stamped(NextAny(disk, step))
    ensures UserValue(CellOf(NextAny(disk, step), key)) ==
      if step.Whole? then Meant(disk, step.step, key, UserValue(CellOf(disk, key))) else UserValue(CellOf(disk, key))
  {
    if step.Whole? && step.step.RunJob? {
      var job, stage := step.step.job, step.step.stage;
      JobKeepsStamped(disk, job, stage);
      if Lands(disk, job) {
        JobByCell(disk, job, stage, key);
        CellKeepsUnlessMisjudged(CellOf(disk, key), RoleOf(disk, job, key), JudgeIn(disk), key, OutgoingIn(disk, job), stage);
      } else {
        StampKeepsCells(disk, job, stage, key);
      }
    }
  }

  /** Over every run of jobs cut short after any write, marker moves cut between theirs, account edits and
      user edits, the user's value of a key stays recoverable, as long as no job misreads the key: and a job
      can misread it only while a move that stopped is on record. */
  lemma {:induction false} RunKeepsUnlessMisjudged(disk: Disk, steps: seq<AnyStep>, key: Key)
    requires Stamped(disk) && KeepsBaseValue(key) && AllReadable(disk, steps, key)
    ensures Stamped(RunAny(disk, steps))
    ensures UserValue(CellOf(RunAny(disk, steps), key)) == MeantAny(disk, steps, key, UserValue(CellOf(disk, key)))
    decreases |steps|
  {
    if steps == [] {
    } else {
      StepKeepsUnlessMisjudged(disk, steps[0], key);
      RunKeepsUnlessMisjudged(NextAny(disk, steps[0]), steps[1..], key);
    }
  }

  lemma TrustedMisreadsNothing(disk: Disk, job: Job, key: Key)
    requires Trusted(disk)
    ensures !Misjudges(JudgeIn(disk), CellOf(disk, key), key, OutgoingIn(disk, job))
  {}
}
