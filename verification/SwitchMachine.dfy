/** The switch as a process runs it, one write at a time, and the unattended switch over a disk that
    other processes change between its holds. */
module SwitchMachine {
  import opened Wrappers
  import opened Credentials
  import opened Journal
  import opened SwitchProtocol
  import opened SwitchTheorems
  import ActiveMarker

  /** A step of a switch did what its plan says, as far as the disk took the writes. */
  predicate Ran(before: Disk, after: Disk, room: nat, left: nat, plan: Plan, outcome: Outcome) {
    && after == Done(before, Taken(plan.writes, room))
    && left == Left(plan.writes, room)
    && outcome == if room < |plan.writes| then Failed else plan.outcome
  }

  lemma RanBoth(before: Disk, middle: Disk, after: Disk, room: nat, left: nat, last: nat,
                first: Plan, rest: Plan, outcome: Outcome)
    requires Ran(before, middle, room, left, first, Switched)
    requires Ran(middle, after, left, last, rest, outcome)
    ensures middle == Done(before, first.writes)
    ensures Ran(before, after, room, last, AndThen(first, rest), outcome)
  {
    TakenTogether(before, first.writes, rest.writes, Changed, room);
    if room == |first.writes| {
      assert Taken(rest.writes, 0) == [];
    }
  }

  lemma RanStopped(before: Disk, after: Disk, room: nat, left: nat, first: Plan, rest: Plan, outcome: Outcome)
    requires Ran(before, after, room, left, first, outcome) && outcome != Switched
    ensures Ran(before, after, room, left, AndThen(first, rest), outcome)
  {
    TakenTogether(before, first.writes, rest.writes, Changed, room);
  }

  lemma RanOne(before: Disk, write: Write, room: nat, outcome: Outcome)
    ensures Ran(before, if room == 0 then before else Changed(before, write), room, Left([write], room),
                Plan([write], outcome), if room == 0 then Failed else outcome)
  {
    ReplayOne(before, write, Changed);
    if room == 0 {
      assert Taken([write], 0) == [];
    }
  }

  lemma RanNothing(before: Disk, room: nat, outcome: Outcome)
    ensures Ran(before, before, room, room, Plan([], outcome), outcome)
  {}

  class Machine {
    var record: ActiveMarker.Record
    var credentials: map<string, Content>
    var sessions: map<string, Content>
    var live: Live
    var room: nat

    function Files(): Disk
      reads this
    {
      Disk(record, credentials, sessions, live)
    }

    method Commit(write: Write) returns (ok: bool)
      modifies this
      ensures ok <==> old(room) > 0
      ensures Files() == if ok then Changed(old(Files()), write) else old(Files())
      ensures room == Left([write], old(room))
    {
      if room == 0 {
        return false;
      }
      match write {
        case PutStore(name, content) => credentials := credentials[name := content];
        case PutLive(slot) => live := slot;
        case SetActive(name) => record := record.(active := Some(name));
      }
      room := room - 1;
      ok := true;
    }

    method ForceLinkProfileCredentials(name: string) returns (outcome: Outcome)
      modifies this
      ensures Ran(old(Files()), Files(), old(room), room, ForceLink(old(Files()), name), outcome)
    {
      if !Linkable(Files(), name) && live.Missing? {
        return Switched;
      }
      var slot := if Linkable(Files(), name) then Link(name, InstallSource(Files(), name)) else Missing;
      RanOne(Files(), PutLive(slot), room, Switched);
      var ok := Commit(PutLive(slot));
      outcome := if ok then Switched else Failed;
    }

    method LinkProfileCredentials(name: string) returns (outcome: Outcome)
      modifies this
      ensures Ran(old(Files()), Files(), old(room), room, GuardedLink(old(Files()), name), outcome)
    {
      if live.Regular? || live.Sealed? {
        var found, target := Files().LiveContent(), Expected(Files(), name);
        if !SameAccess(found, target) && found != target {
          return Refused;
        }
      }
      outcome := ForceLinkProfileCredentials(name);
    }

    /** Store the live login into the active profile. */
    method SnapshotUnchecked(active: string) returns (outcome: Outcome)
      modifies this
      ensures Ran(old(Files()), Files(), old(room), room, CaptureLive(old(Files()), active), outcome)
    {
      if HasSessionToken(Files(), active) || active !in record.roster || record.active != Some(active) {
        return Switched;
      }
      if live.Sealed? {
        return Failed;
      }
      var found := Files().LiveContent();
      if found.None? {
        return Switched;
      }
      var login := ReadLogin(found.value);
      if login.Torn? {
        return Failed;
      }
      if IsEmpty(login) || StoredElsewhere(Files(), active, login) {
        return Switched;
      }
      var existing := Files().FileAt(active, CredentialsFile);
      var json := if existing.Some? && existing.value.Doc? then Some(existing.value.json) else None;
      var put := PutStore(active, WithLogin(login.oauth, json));
      RanOne(Files(), put, room, Switched);
      var ok := Commit(put);
      outcome := if ok then Switched else Failed;
    }

    method AdoptLogin(active: string) returns (outcome: Outcome)
      requires IsFirstLogin(Files(), active)
      modifies this
      ensures Ran(old(Files()), Files(), old(room), room, AdoptFirstLogin(old(Files()), active), outcome)
    {
      ghost var start, capture := Files(), CaptureLive(Files(), active);
      outcome := SnapshotUnchecked(active);
      if outcome != Switched {
        RanStopped(start, Files(), old(room), room, capture, Onward, outcome);
        return;
      }
      ghost var captured, left := Files(), room;
      RanNothing(captured, left, Switched);
      RanBoth(start, captured, captured, old(room), left, left, capture, Onward, Switched);
      if Expected(Files(), active).None? {
        return Failed;
      }
      outcome := ForceLinkProfileCredentials(active);
      RanBoth(start, captured, Files(), old(room), left, room, capture, ForceLink(captured, active), outcome);
    }

    method SnapshotActive(torn: bool) returns (outcome: Outcome)
      modifies this
      ensures Ran(old(Files()), Files(), old(room), room, Snapshot(old(Files()), old(record).active, torn), outcome)
    {
      if record.active.None? {
        return Switched;
      }
      var active := record.active.value;
      if torn && live == Link(active, CredentialsFile) {
        return Switched;
      }
      if ClassifyLink(Files(), active).Diverged? {
        if IsFirstLogin(Files(), active) {
          outcome := AdoptLogin(active);
        } else {
          outcome := Switched;
        }
        return;
      }
      outcome := SnapshotUnchecked(active);
    }

    /** Capture the live login by force, and require that it landed. */
    method ForceCaptureLiveLogin() returns (outcome: Outcome)
      modifies this
      ensures Ran(old(Files()), Files(), old(room), room, ForceCapture(old(Files()), old(record).active), outcome)
    {
      if record.active.None? {
        return Switched;
      }
      var active := record.active.value;
      ghost var start, capture := Files(), CaptureLive(Files(), active);
      outcome := SnapshotUnchecked(active);
      if outcome != Switched {
        RanStopped(start, Files(), old(room), room, capture, Onward, outcome);
        return;
      }
      RanNothing(Files(), room, Switched);
      RanBoth(start, Files(), Files(), old(room), room, room, capture, Onward, Switched);
      outcome := if DivergedAndUnsaved(Files(), active) then Refused else Switched;
    }

    method FinishSwitch(name: string, guarded: bool, settings: bool) returns (outcome: Outcome)
      modifies this
      ensures Ran(old(Files()), Files(), old(room), room, LinkAndFinish(old(Files()), name, guarded, settings), outcome)
    {
      ghost var start := Files();
      ghost var link := if guarded then GuardedLink(start, name) else ForceLink(start, name);
      if guarded {
        outcome := LinkProfileCredentials(name);
      } else {
        outcome := ForceLinkProfileCredentials(name);
      }
      if outcome != Switched {
        RanStopped(start, Files(), old(room), room, link, Finish(name, settings), outcome);
        return;
      }
      ghost var linked, left := Files(), room;
      if !settings {
        outcome := Failed;
        RanNothing(linked, left, Failed);
      } else {
        RanOne(linked, SetActive(name), room, Switched);
        var ok := Commit(SetActive(name));
        outcome := if ok then Switched else Failed;
      }
      RanBoth(start, linked, Files(), old(room), left, room, link, Finish(name, settings), outcome);
    }

    /** One hold of a switch of any flavor. */
    method Hold(call: Call) returns (outcome: Outcome)
      modifies this
      ensures Ran(old(Files()), Files(), old(room), room, PlanOf(old(Files()), call), outcome)
    {
      if !ActiveMarker.SwitchTargetOk(record, call.memory, call.name) {
        return Refused;
      }
      if record.active == Some(call.name) {
        if SavesIntoActive(Files(), call) {
          outcome := SaveOwnLogin(call);
        } else if !SavedElsewhere(Files(), call.name) {
          outcome := AlreadyActive;
        } else if !call.gated {
          outcome := GateNeeded;
        } else {
          ghost var link := ForceLink(Files(), call.name);
          outcome := ForceLinkProfileCredentials(call.name);
          outcome := if outcome == Switched then Relinked else outcome;
        }
        return;
      }
      if !call.gated {
        return GateNeeded;
      }
      outcome := SwitchAway(call);
    }

    method SaveOwnLogin(call: Call) returns (outcome: Outcome)
      requires call.flavor.Reconcile? && record.active == Some(call.name)
      modifies this
      ensures Ran(old(Files()), Files(), old(room), room, SaveIntoActive(old(Files()), call), outcome)
    {
      if !CoversLive(Files(), call.flavor.login) {
        return Refused;
      }
      ghost var start, capture := Files(), ForceCapture(Files(), record.active);
      outcome := ForceCaptureLiveLogin();
      if outcome != Switched {
        RanStopped(start, Files(), old(room), room, capture,
                   Plan(ForceLink(Done(start, capture.writes), call.name).writes, SavedIntoActive), outcome);
        return;
      }
      ghost var captured, left := Files(), room;
      outcome := ForceLinkProfileCredentials(call.name);
      outcome := if outcome == Switched then SavedIntoActive else outcome;
      RanBoth(start, captured, Files(), old(room), left, room, capture,
              Plan(ForceLink(captured, call.name).writes, SavedIntoActive), outcome);
    }

    method SwitchAway(call: Call) returns (outcome: Outcome)
      modifies this
      ensures Ran(old(Files()), Files(), old(room), room, Away(old(Files()), call), outcome)
    {
      ghost var start := Files();
      var unsaved := record.active.Some? && DivergedAndUnsaved(Files(), record.active.value);
      ghost var first;
      match call.flavor {
        case Discard(answered) =>
          if Unanswered(Files(), answered, AnyLive) && unsaved {
            return Refused;
          }
          outcome := FinishSwitch(call.name, false, call.settings);
          return;
        case Plain =>
          first := Snapshot(start, record.active, call.torn);
          outcome := SnapshotActive(call.torn);
        case Reconcile(answered, login) =>
          if Unanswered(Files(), answered, login) {
            if unsaved {
              return Refused;
            }
            first := Snapshot(start, record.active, call.torn);
            outcome := SnapshotActive(call.torn);
          } else {
            first := ForceCapture(start, record.active);
            outcome := ForceCaptureLiveLogin();
          }
      }
      var guarded := call.flavor.Plain? && unsaved;
      ghost var rest := LinkAndFinish(Done(start, first.writes), call.name, guarded, call.settings);
      assert Away(start, call) == AndThen(first, rest);
      if outcome != Switched {
        RanStopped(start, Files(), old(room), room, first, rest, outcome);
        return;
      }
      ghost var taken, left := Files(), room;
      outcome := FinishSwitch(call.name, guarded, call.settings);
      RanBoth(start, taken, Files(), old(room), left, room, first, rest, outcome);
    }
  }
}
