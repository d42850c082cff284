/**
 * The identity strip a switch owes `~/.claude.json`: a strip that cannot be done at once is recorded in
 * a stamped marker, and whoever holds the sync lock next strips the file and clears the marker it read.
 * Any number of processes take these steps in any order, and Claude Code writes the file at any time.
 */
module StripMarker {
  import opened Wrappers

  type Proc = nat

  /** Each mark writes a stamp of its own. */
  type Stamp = nat

  /** The home file: not there, caught mid-write, not an object, or an object with or without the cached
      identity (`rest` stands for its other keys). */
  datatype Home = Missing | Torn | NotObject | Object(account: bool, rest: nat)

  /** Nothing in the file names an account. */
  predicate Clean(home: Home) {
    home.Missing? || (home.Object? && !home.account)
  }

  /** Why a process strips: a switch just moved the active account, or a pass honours the marker. */
  datatype Kind = AfterSwitch | Honour

  /** Where a process is. `stamp` is the marker it read before it began. */
  datatype Pc =
    | Idle
    | Wants(kind: Kind)
    | Locked(kind: Kind)
    | AtStat(kind: Kind, stamp: Option<Stamp>)
    | AtRead(kind: Kind, stamp: Option<Stamp>, stat: nat)
    | AtRestat(kind: Kind, stamp: Option<Stamp>, stat: nat, rest: nat)
    | AtWrite(kind: Kind, stamp: Option<Stamp>, rest: nat)
    | AtReread(kind: Kind, stamp: Option<Stamp>)
    | AtClear(read: Stamp)
    | Deferred(kind: Kind)
    | Busy
    | Leaving

  /** What happened, for the record: a strip recorded, or a holder that had read a stamp seeing the file
      as it then was. */
  datatype Event = Marked(stamp: Stamp) | Observed(proc: Proc, stamp: Stamp, home: Home)

  /** `stat` is the file's time and size; two writes may leave the same. */
  datatype State = State(
    marker: Option<Stamp>,
    home: Home,
    stat: nat,
    lock: Option<Proc>,
    pcs: map<Proc, Pc>,
    next: Stamp,
    log: seq<Event>)
  {
    function At(proc: Proc): Pc {
      Lookup(pcs, proc).GetOr(Idle)
    }

    function Go(proc: Proc, pc: Pc): State {
      this.(pcs := pcs[proc := pc])
    }
  }

  /** A process takes its next step; `fails` is any failure of the file access it makes, `stat` what its
      write leaves. The others are Claude Code's writes, a process starting, and one that dies. */
  datatype Step =
    | ClaudeCode(home: Home, stat: nat)
    | Start(proc: Proc, kind: Kind)
    | Continue(proc: Proc, fails: bool, stat: nat)
    | Crash(proc: Proc)

  /** The file was seen with nothing to strip, or stripped: the marker read before may be cleared. */
  function StripDone(state: State, proc: Proc, stamp: Option<Stamp>): State {
    if stamp.None? then state.Go(proc, Leaving)
    else state.Go(proc, AtClear(stamp.value)).(log := state.log + [Observed(proc, stamp.value, state.home)])
  }

  /** A strip recorded as owed, over whatever marker is there. */
  function WithMark(state: State): State {
    state.(marker := Some(state.next), next := state.next + 1, log := state.log + [Marked(state.next)])
  }

  function Leave(state: State, proc: Proc): State {
    state.Go(proc, Idle).(lock := if state.lock == Some(proc) then None else state.lock)
  }

  function Continued(state: State, proc: Proc, fails: bool, stat: nat): State {
    match state.At(proc)
    case Idle => state
    case Wants(kind) =>
      if state.lock.None? && !fails then state.Go(proc, Locked(kind)).(lock := Some(proc))
      else state.Go(proc, if kind.AfterSwitch? then Busy else Idle)
    case Locked(kind) =>
      if kind.Honour? && state.marker.None? then state.Go(proc, Leaving)
      else state.Go(proc, AtStat(kind, if fails then None else state.marker))
    case AtStat(kind, stamp) =>
      if fails then state.Go(proc, Deferred(kind))
      else if state.home.Missing? then StripDone(state, proc, stamp)
      else state.Go(proc, AtRead(kind, stamp, state.stat))
    case AtRead(kind, stamp, read) =>
      if fails then state.Go(proc, Deferred(kind))
      else (match state.home
        case Missing => StripDone(state, proc, stamp)
        case Torn => state.Go(proc, Deferred(kind))
        case NotObject => state.Go(proc, Deferred(kind))
        case Object(account, rest) =>
          if account then state.Go(proc, AtRestat(kind, stamp, read, rest)) else StripDone(state, proc, stamp))
    case AtRestat(kind, stamp, read, rest) =>
      if fails || state.home.Missing? || state.stat != read then state.Go(proc, Deferred(kind))
      else state.Go(proc, AtWrite(kind, stamp, rest))
    case AtWrite(kind, stamp, rest) =>
      if fails then state.Go(proc, Deferred(kind))
      else state.Go(proc, AtReread(kind, stamp)).(home := Object(false, rest), stat := stat)
    case AtReread(kind, stamp) =>
      if !fails && state.home.Object? && !state.home.account then StripDone(state, proc, stamp)
      else state.Go(proc, Deferred(kind))
    case AtClear(stamp) =>
      var left := state.Go(proc, Leaving);
      if !fails && state.marker == Some(stamp) then left.(marker := None) else left
    case Deferred(kind) =>
      if kind.AfterSwitch? && !fails then WithMark(state.Go(proc, Leaving)) else state.Go(proc, Leaving)
    case Busy => if fails then state.Go(proc, Idle) else WithMark(state.Go(proc, Idle))
    case Leaving => Leave(state, proc)
  }

  function Next(state: State, step: Step): State {
    match step
    case ClaudeCode(home, stat) => state.(home := home, stat := stat)
    case Start(proc, kind) => if state.At(proc).Idle? then state.Go(proc, Wants(kind)) else state
    case Continue(proc, fails, stat) => Continued(state, proc, fails, stat)
    case Crash(proc) => Leave(state, proc)
  }

  function Run(state: State, steps: seq<Step>): State
    decreases |steps|
  {
    if steps == [] then state else Run(Next(state, steps[0]), steps[1..])
  }

  /* ---------- one holder at a time ---------- */

  predicate Holds(pc: Pc) {
    !pc.Idle? && !pc.Wants? && !pc.Busy?
  }

  predicate LockIsHeldByHolders(state: State) {
    forall proc :: proc in state.pcs && Holds(state.pcs[proc]) ==> state.lock == Some(proc)
  }

  lemma StepKeepsLock(state: State, step: Step)
    requires LockIsHeldByHolders(state)
    ensures LockIsHeldByHolders(Next(state, step))
  {}

  /** Over every run at most one process at a time is past the lock. */
  lemma {:induction false} OneHolder(state: State, steps: seq<Step>, a: Proc, b: Proc)
    requires LockIsHeldByHolders(state)
    ensures var end := Run(state, steps); Holds(end.At(a)) && Holds(end.At(b)) ==> a == b
    decreases |steps|
  {
    if steps == [] {
    } else {
      StepKeepsLock(state, steps[0]);
      OneHolder(Next(state, steps[0]), steps[1..], a, b);
    }
  }

  /* ---------- no recorded strip is forgotten ---------- */

  /** After entry `i`, which recorded `stamp`, a newer strip was recorded, or a holder that had read this
      stamp saw the file with no identity in it. */
  predicate Settled(log: seq<Event>, i: nat, stamp: Stamp) {
    exists j :: i < j < |log| && (log[j].Marked? || (log[j].stamp == stamp && Clean(log[j].home)))
  }

  predicate SettledWherever(log: seq<Event>, stamp: Stamp) {
    forall i :: 0 <= i < |log| && log[i] == Marked(stamp) ==> Settled(log, i, stamp)
  }

  /** Every recorded strip is in the marker still, or settled. */
  predicate Accounted(log: seq<Event>, marker: Option<Stamp>) {
    forall i :: 0 <= i < |log| && log[i].Marked? ==> marker == Some(log[i].stamp) || Settled(log, i, log[i].stamp)
  }

  predicate Below(log: seq<Event>, next: Stamp) {
    forall i :: 0 <= i < |log| && log[i].Marked? ==> log[i].stamp < next
  }

  /** The stamp a process carries, or is about to clear. */
  function StampOf(pc: Pc): Option<Stamp> {
    match pc
    case AtStat(_, stamp) => stamp
    case AtRead(_, stamp, _) => stamp
    case AtRestat(_, stamp, _, _) => stamp
    case AtWrite(_, stamp, _) => stamp
    case AtReread(_, stamp) => stamp
    case AtClear(stamp) => Some(stamp)
    case _ => None
  }

  /** The stamps read are of marks made, and a marker about to be cleared is settled. */
  predicate PcSound(pc: Pc, log: seq<Event>, next: Stamp) {
    && (StampOf(pc).Some? ==> StampOf(pc).value < next)
    && (pc.AtClear? ==> SettledWherever(log, pc.read))
  }

  predicate Sound(state: State) {
    && Accounted(state.log, state.marker) && Below(state.log, state.next)
    && (state.marker.Some? ==> state.marker.value < state.next)
    && forall proc :: proc in state.pcs ==> PcSound(state.pcs[proc], state.log, state.next)
  }

  lemma {:induction false} SettledStays(log: seq<Event>, more: Event, i: nat, stamp: Stamp)
    requires Settled(log, i, stamp)
    ensures Settled(log + [more], i, stamp)
  {
    var j :| i < j < |log| && (log[j].Marked? || (log[j].stamp == stamp && Clean(log[j].home)));
    assert (log + [more])[j] == log[j];
  }

  /** A process's place stays sound as the log grows, but for a mark of the stamp it holds. */
  lemma PcStaysSound(pc: Pc, log: seq<Event>, more: Event, next: Stamp, later: Stamp)
    requires PcSound(pc, log, next) && next <= later
    requires more.Marked? ==> more.stamp == next
    ensures PcSound(pc, log + [more], later)
  {
    if pc.AtClear? {
      forall i | 0 <= i < |log + [more]| && (log + [more])[i] == Marked(pc.read)
        ensures Settled(log + [more], i, pc.read)
      {
        assert i < |log| && log[i] == Marked(pc.read);
        SettledStays(log, more, i, pc.read);
      }
    }
  }

  lemma DoneIsSound(state: State, proc: Proc, stamp: Option<Stamp>)
    requires Sound(state) && Clean(state.home)
    requires stamp.Some? ==> stamp.value < state.next
    ensures Sound(StripDone(state, proc, stamp))
  {
    if stamp.Some? {
      var more := Observed(proc, stamp.value, state.home);
      var log := state.log + [more];
      assert log[|state.log|] == more;
      forall i | 0 <= i < |log| && log[i].Marked?
        ensures state.marker == Some(log[i].stamp) || Settled(log, i, log[i].stamp)
      {
        if state.marker != Some(state.log[i].stamp) {
          SettledStays(state.log, more, i, state.log[i].stamp);
        }
      }
      forall other | other in state.pcs ensures PcSound(state.pcs[other], log, state.next) {
        PcStaysSound(state.pcs[other], state.log, more, state.next, state.next);
      }
      assert SettledWherever(log, stamp.value);
    }
  }

  lemma MarkIsSound(state: State)
    requires Sound(state)
    ensures Sound(WithMark(state))
  {
    var more := Marked(state.next);
    var log := state.log + [more];
    assert log[|state.log|] == more;
    forall other | other in state.pcs ensures PcSound(state.pcs[other], log, state.next + 1) {
      PcStaysSound(state.pcs[other], state.log, more, state.next, state.next + 1);
    }
  }

  /** Clearing a marker whose stamp is settled leaves every strip accounted for. */
  lemma ClearIsSound(state: State, proc: Proc, stamp: Stamp, fails: bool)
    requires Sound(state) && state.At(proc) == AtClear(stamp)
    ensures Sound(Continued(state, proc, fails, 0))
  {}

  lemma GoIsSound(state: State, proc: Proc, pc: Pc)
    requires Sound(state) && PcSound(pc, state.log, state.next)
    ensures Sound(state.Go(proc, pc))
  {}

  lemma LookIsSound(state: State, proc: Proc, fails: bool, stat: nat)
    requires Sound(state)
    requires state.At(proc).AtStat? || state.At(proc).AtRead? || state.At(proc).AtReread?
    ensures Sound(Continued(state, proc, fails, stat))
  {
    var pc := state.At(proc);
    assert PcSound(pc, state.log, state.next);
    GoIsSound(state, proc, Deferred(pc.kind));
    if Clean(state.home) {
      DoneIsSound(state, proc, pc.stamp);
    } else if pc.AtStat? {
      GoIsSound(state, proc, AtRead(pc.kind, pc.stamp, state.stat));
    } else if pc.AtRead? && state.home.Object? {
      GoIsSound(state, proc, AtRestat(pc.kind, pc.stamp, pc.stat, state.home.rest));
    }
  }

  lemma WriteIsSound(state: State, proc: Proc, fails: bool, stat: nat)
    requires Sound(state)
    requires state.At(proc).AtRestat? || state.At(proc).AtWrite?
    ensures Sound(Continued(state, proc, fails, stat))
  {}

  lemma ContinueIsSound(state: State, proc: Proc, fails: bool, stat: nat)
    requires Sound(state)
    ensures Sound(Continued(state, proc, fails, stat))
  {
    var pc := state.At(proc);
    if pc.AtStat? || pc.AtRead? || pc.AtReread? {
      LookIsSound(state, proc, fails, stat);
    } else if pc.AtRestat? || pc.AtWrite? {
      WriteIsSound(state, proc, fails, stat);
    } else if pc.AtClear? {
      ClearIsSound(state, proc, pc.read, fails);
    } else if pc.Deferred? {
      GoIsSound(state, proc, Leaving);
      MarkIsSound(state.Go(proc, Leaving));
    } else if pc.Busy? {
      GoIsSound(state, proc, Idle);
      MarkIsSound(state.Go(proc, Idle));
    }
  }

  lemma StepIsSound(state: State, step: Step)
    requires Sound(state)
    ensures Sound(Next(state, step))
  {
    match step {
      case Continue(proc, fails, stat) => ContinueIsSound(state, proc, fails, stat);
      case _ =>
    }
  }

  lemma {:induction false} RunIsSound(state: State, steps: seq<Step>)
    requires Sound(state)
    ensures Sound(Run(state, steps))
    decreases |steps|
  {
    if steps == [] {
    } else {
      StepIsSound(state, steps[0]);
      RunIsSound(Next(state, steps[0]), steps[1..]);
    }
  }

  /** Nothing recorded, nobody stripping. */
  predicate Fresh(state: State) {
    state.marker.None? && state.pcs == map[] && state.log == [] && state.lock.None?
  }

  /** Over every interleaving of switches, passes, deaths and Claude Code's writes, a recorded strip is in
      the marker still, or a newer one was recorded after it, or after it a holder that had read its stamp
      saw the home file missing or with no identity in it. */
  lemma NoStripForgotten(start: State, steps: seq<Step>, i: nat)
    requires Fresh(start)
    requires i < |Run(start, steps).log| && Run(start, steps).log[i].Marked?
    ensures var end := Run(start, steps);
      end.marker == Some(end.log[i].stamp) || Settled(end.log, i, end.log[i].stamp)
  {
    RunIsSound(start, steps);
  }

  /** One step takes a stamp out of the marker only by recording a newer one, or by clearing it in a
      process that had read it, once it is settled. */
  lemma StampGoesOnlySettled(state: State, step: Step, stamp: Stamp)
    requires Sound(state) && state.marker == Some(stamp) && Next(state, step).marker != Some(stamp)
    ensures (Next(state, step).marker.Some? && Next(state, step).marker.value > stamp)
      || (step.Continue? && state.At(step.proc) == AtClear(stamp) && SettledWherever(state.log, stamp))
  {}

  /* ---------- a pass nobody gets in the way of ---------- */

  /** Steps of one process, none of them failing. */
  function Steps(proc: Proc, stat: nat, n: nat): seq<Step> {
    if n == 0 then [] else [Continue(proc, false, stat)] + Steps(proc, stat, n - 1)
  }

  lemma OneStep(state: State, proc: Proc, stat: nat, n: nat)
    ensures Run(state, Steps(proc, stat, n + 1)) == Run(Continued(state, proc, false, stat), Steps(proc, stat, n))
  {
    assert Steps(proc, stat, n + 1)[1..] == Steps(proc, stat, n);
  }

  /** What a pass over the file leaves: the identity is gone, every other key is kept, and nothing is owed.
      A file it cannot read as an object is left, and a switch then records the strip it owes. */
  predicate Passed(before: State, after: State, kind: Kind) {
    if kind.Honour? && before.marker.None? then after.home == before.home && after.marker.None?
    else if before.home.Torn? || before.home.NotObject? then
      after.home == before.home && after.marker == if kind.AfterSwitch? then Some(before.next) else before.marker
    else
      after.marker.None? && after.home == if before.home.Object? then Object(false, before.home.rest) else Missing
  }

  /** Before the file is looked at: the lock is taken and the marker read. */
  lemma PassBegins(state: State, proc: Proc, kind: Kind, stat: nat)
    requires state.At(proc) == Wants(kind) && state.lock.None? && (kind.Honour? ==> state.marker.Some?)
    ensures Run(state, Steps(proc, stat, 9)) ==
      Run(state.Go(proc, AtStat(kind, state.marker)).(lock := Some(proc)), Steps(proc, stat, 7))
  {
    OneStep(state, proc, stat, 8);
    OneStep(state.Go(proc, Locked(kind)).(lock := Some(proc)), proc, stat, 7);
    assert state.pcs[proc := Locked(kind)][proc := AtStat(kind, state.marker)] == state.pcs[proc := AtStat(kind, state.marker)];
  }

  /** Once the file is seen stripped, the marker goes and the lock is let go. */
  lemma PassEnds(state: State, proc: Proc, stamp: Option<Stamp>, stat: nat, n: nat)
    requires state.lock == Some(proc) && stamp == state.marker && n >= 2
    ensures var end := Run(StripDone(state, proc, stamp), Steps(proc, stat, n));
      end.At(proc).Idle? && end.lock.None? && end.marker.None? && end.home == state.home
  {
    var done := StripDone(state, proc, stamp);
    var next := Continued(done, proc, false, stat);
    OneStep(done, proc, stat, n - 1);
    OneStep(next, proc, stat, n - 2);
    IdleStays(Continued(next, proc, false, stat), proc, stat, n - 2);
  }

  lemma {:induction false} IdleStays(state: State, proc: Proc, stat: nat, n: nat)
    requires state.At(proc).Idle?
    ensures Run(state, Steps(proc, stat, n)) == state
    decreases n
  {
    if n == 0 {
    } else {
      OneStep(state, proc, stat, n - 1);
      IdleStays(state, proc, stat, n - 1);
    }
  }

  /** A file that cannot be read as an object is left, and a switch records the strip. */
  lemma PassDefers(state: State, proc: Proc, kind: Kind, stat: nat, n: nat)
    requires state.lock == Some(proc) && state.At(proc) == Deferred(kind) && n >= 2
    ensures var end := Run(state, Steps(proc, stat, n));
      && end.At(proc).Idle? && end.lock.None? && end.home == state.home
      && end.marker == if kind.AfterSwitch? then Some(state.next) else state.marker
  {
    var next := Continued(state, proc, false, stat);
    OneStep(state, proc, stat, n - 1);
    OneStep(next, proc, stat, n - 2);
    IdleStays(Continued(next, proc, false, stat), proc, stat, n - 2);
  }

  /** The identity is there: it is taken out, and the file read again. */
  lemma PassStrips(state: State, proc: Proc, kind: Kind, stat: nat)
    requires state.lock == Some(proc) && state.home.Object?
    requires state.At(proc) == AtRestat(kind, state.marker, state.stat, state.home.rest)
    ensures var end := Run(state, Steps(proc, stat, 5));
      end.At(proc).Idle? && end.lock.None? && end.marker.None? && end.home == Object(false, state.home.rest)
  {
    var s1 := Continued(state, proc, false, stat);
    var s2 := Continued(s1, proc, false, stat);
    OneStep(state, proc, stat, 4);
    OneStep(s1, proc, stat, 3);
    OneStep(s2, proc, stat, 2);
    PassEnds(s2, proc, state.marker, stat, 2);
  }

  /** A process that nobody gets in the way of leaves the file so, and the lock free. */
  lemma LonePass(state: State, proc: Proc, kind: Kind, stat: nat)
    requires state.At(proc) == Wants(kind) && state.lock.None?
    ensures var end := Run(state, Steps(proc, stat, 9));
      end.At(proc).Idle? && end.lock.None? && Passed(state, end, kind)
  {
    if kind.Honour? && state.marker.None? {
      NothingOwed(state, proc, stat);
    } else {
      PassBegins(state, proc, kind, stat);
      var begun := state.Go(proc, AtStat(kind, state.marker)).(lock := Some(proc));
      OneStep(begun, proc, stat, 6);
      if state.home.Missing? {
        PassEnds(begun, proc, state.marker, stat, 6);
      } else {
        var looked := Continued(begun, proc, false, stat);
        OneStep(looked, proc, stat, 5);
        if !state.home.Object? {
          PassDefers(Continued(looked, proc, false, stat), proc, kind, stat, 5);
        } else if state.home.account {
          PassStrips(Continued(looked, proc, false, stat), proc, kind, stat);
        } else {
          PassEnds(looked, proc, state.marker, stat, 5);
        }
      }
    }
  }

  lemma NothingOwed(state: State, proc: Proc, stat: nat)
    requires state.At(proc) == Wants(Honour) && state.lock.None? && state.marker.None?
    ensures var end := Run(state, Steps(proc, stat, 9));
      end.At(proc).Idle? && end.lock.None? && end.marker.None? && end.home == state.home
  {
    var s1 := Continued(state, proc, false, stat);
    var s2 := Continued(s1, proc, false, stat);
    OneStep(state, proc, stat, 8);
    OneStep(s1, proc, stat, 7);
    OneStep(s2, proc, stat, 6);
    IdleStays(Continued(s2, proc, false, stat), proc, stat, 6);
  }

  /* ---------- what a switch owes, whatever gets in its way ---------- */

  /** The process is on its way through the strip a switch owes, or about to record it. */
  predicate Owes(pc: Pc) {
    match pc
    case Wants(kind) => kind.AfterSwitch?
    case Locked(kind) => kind.AfterSwitch?
    case AtStat(kind, _) => kind.AfterSwitch?
    case AtRead(kind, _, _) => kind.AfterSwitch?
    case AtRestat(kind, _, _, _) => kind.AfterSwitch?
    case AtWrite(kind, _, _) => kind.AfterSwitch?
    case AtReread(kind, _) => kind.AfterSwitch?
    case Deferred(kind) => kind.AfterSwitch?
    case Busy => true
    case _ => false
  }

  /** In this step the process records a strip, or holds the lock and finds the file with no identity. */
  predicate Discharges(state: State, step: Step, proc: Proc) {
    && step.Continue? && step.proc == proc
    && (|| (Holds(state.At(proc)) && Clean(state.home))
        || (Next(state, step).marker == Some(state.next) && Next(state, step).log == state.log + [Marked(state.next)]))
  }

  /** The process does not die in this step, nor fail to write the marker. */
  predicate Unbroken(state: State, step: Step, proc: Proc) {
    && step != Crash(proc)
    && !(step.Continue? && step.proc == proc && step.fails && (state.At(proc).Busy? || state.At(proc).Deferred?))
  }

  lemma OwesUntilDischarged(state: State, step: Step, proc: Proc)
    requires Owes(state.At(proc)) && Unbroken(state, step, proc)
    ensures Owes(Next(state, step).At(proc)) || Discharges(state, step, proc)
  {}

  predicate UnbrokenRun(state: State, steps: seq<Step>, proc: Proc)
    decreases |steps|
  {
    steps != [] ==> Unbroken(state, steps[0], proc) && UnbrokenRun(Next(state, steps[0]), steps[1..], proc)
  }

  /** Over every interleaving, a switch that is through with the strip it owed has recorded one, or has held
      the lock over a file with no identity: with the lock held by another, a file caught mid-write or one
      Claude Code wrote again it does not end without. */
  lemma {:induction false} SwitchStripsOrRecords(state: State, steps: seq<Step>, proc: Proc) returns (k: nat)
    requires Owes(state.At(proc)) && UnbrokenRun(state, steps, proc)
    requires !Owes(Run(state, steps).At(proc))
    ensures k < |steps| && Discharges(Run(state, steps[..k]), steps[k], proc)
    decreases |steps|
  {
    if Discharges(state, steps[0], proc) {
      k := 0;
      assert steps[..0] == [];
    } else {
      OwesUntilDischarged(state, steps[0], proc);
      var later := SwitchStripsOrRecords(Next(state, steps[0]), steps[1..], proc);
      k := later + 1;
      assert steps[..k][1..] == steps[1..][..later] && steps[..k][0] == steps[0];
    }
  }

  /** Where another holds the lock a switch records its strip in two steps and leaves the file, and a pass
      that honours the marker leaves everything. */
  lemma HeldLockDefers(state: State, proc: Proc, kind: Kind, fails: bool, stat: nat)
    requires state.At(proc) == Wants(kind) && state.lock.Some?
    ensures var end := Run(state, [Continue(proc, fails, stat), Continue(proc, false, stat)]);
      && end.At(proc).Idle? && end.home == state.home && end.stat == state.stat && end.lock == state.lock
      && end.marker == (if kind.AfterSwitch? then Some(state.next) else state.marker)
      && end.log == (if kind.AfterSwitch? then state.log + [Marked(state.next)] else state.log)
      && forall other :: other != proc ==> end.At(other) == state.At(other)
  {
    var first, second := Continue(proc, fails, stat), Continue(proc, false, stat);
    var next := Next(state, first);
    assert [first, second][1..] == [second] && [second][1..] == [];
    assert Run(state, [first, second]) == Run(next, [second]) == Next(next, second);
  }

  /* ---------- a write of Claude Code's that a strip meets ---------- */

  /** The step writes the home file. */
  predicate WritesHome(state: State, step: Step) {
    step.ClaudeCode? || (step.Continue? && !step.fails && state.At(step.proc).AtWrite?)
  }

  /** The time and size each write leaves were never there before. */
  predicate NewStats(state: State, steps: seq<Step>, seen: set<nat>)
    decreases |steps|
  {
    steps != [] ==>
      var writes := WritesHome(state, steps[0]);
      && (writes ==> steps[0].stat !in seen)
      && NewStats(Next(state, steps[0]), steps[1..], if writes then seen + {steps[0].stat} else seen)
  }

  /** What a process read of the file is what is there while its time and size are. */
  predicate PcReadsRight(pc: Pc, state: State, seen: set<nat>) {
    match pc
    case AtRead(_, _, stat) => stat in seen
    case AtRestat(_, _, stat, rest) => stat in seen && (state.stat == stat ==> state.home == Object(true, rest))
    case _ => true
  }

  predicate ReadsRight(state: State, seen: set<nat>) {
    state.stat in seen && forall proc :: proc in state.pcs ==> PcReadsRight(state.pcs[proc], state, seen)
  }

  lemma StepReadsRight(state: State, step: Step, seen: set<nat>)
    requires ReadsRight(state, seen) && (WritesHome(state, step) ==> step.stat !in seen)
    ensures ReadsRight(Next(state, step), if WritesHome(state, step) then seen + {step.stat} else seen)
  {}

  lemma {:induction false} RunReadsRight(state: State, steps: seq<Step>, seen: set<nat>) returns (later: set<nat>)
    requires ReadsRight(state, seen) && NewStats(state, steps, seen)
    ensures ReadsRight(Run(state, steps), later)
    decreases |steps|
  {
    if steps == [] {
      later := seen;
    } else {
      StepReadsRight(state, steps[0], seen);
      later := RunReadsRight(Next(state, steps[0]), steps[1..],
                             if WritesHome(state, steps[0]) then seen + {steps[0].stat} else seen);
    }
  }

  /** Over every interleaving, while no write leaves a time and size that were there before, a strip that goes on to
      write has looked again at a file that is still the one it read: whatever Claude Code wrote since the read, it
      has deferred to. */
  lemma StripDefersToNewerWrites(start: State, steps: seq<Step>, proc: Proc, fails: bool, stat: nat)
    requires Fresh(start) && NewStats(start, steps, {start.stat})
    requires Run(start, steps).At(proc).AtRestat?
    ensures var met := Run(start, steps);
      Next(met, Continue(proc, fails, stat)).At(proc).AtWrite? ==> met.home == Object(true, met.At(proc).rest)
  {
    var seen := RunReadsRight(start, steps, {start.stat});
  }
}
