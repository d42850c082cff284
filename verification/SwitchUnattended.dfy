/** The switch nobody watches: its gate, its reads and its holds are apart, and other processes change
    the disk between any two of them. */
module SwitchUnattended {
  import opened Wrappers
  import opened SwitchProtocol
  import opened SwitchTheorems
  import opened SwitchMachine
  import SwitchOutcomes
  import ActiveMarker

  /** What the caller chose beforehand for an unsaved live login. */
  datatype Choice = Overwrite | DiscardLogin | NewProfile

  /** One hold: the disk it found and left, the call it ran, and how often the gate had passed for the
      target by then. */
  datatype Trace = Trace(before: Disk, after: Disk, call: Call, passes: nat)

  /** The hold was for the target, ran gated exactly when the gate had passed, and otherwise left the
      login that was live. */
  predicate Vouched(hold: Trace, name: string) {
    && hold.call.name == name
    && (hold.call.gated <==> hold.passes > 0)
    && (hold.passes > 0 || SameLive(hold.before, hold.after))
  }

  /** The flavor a divergence calls for; none where the caller chose nothing it can do unattended. */
  function FlavorFor(outgoing: Option<string>, diverged: bool, choice: Option<Choice>): Option<Flavor> {
    if !diverged then Some(Plain)
    else match choice
      case Some(Overwrite) => Some(Reconcile(outgoing, AnyLive))
      case Some(DiscardLogin) => Some(Discard(outgoing))
      case _ => None
  }

  predicate Diverges(disk: Disk) {
    disk.record.active.Some? && DivergedAndUnsaved(disk, disk.record.active.value)
  }

  /** The flavor acts on the caller's choice alone, for the account that was active at the read, and is
      plain where nothing unsaved was live then. */
  predicate Answers(flavor: Flavor, read: Disk, choice: Option<Choice>) {
    && (flavor.Plain? <==> !Diverges(read))
    && (flavor.Reconcile? ==> choice == Some(Overwrite) && flavor.answered == read.record.active && flavor.login.AnyLive?)
    && (flavor.Discard? ==> choice == Some(DiscardLogin) && flavor.answered == read.record.active)
  }

  /** An unsaved login is live, and the caller chose nothing that can be done unattended. */
  predicate Unanswerable(read: Disk, choice: Option<Choice>) {
    Diverges(read) && choice != Some(Overwrite) && choice != Some(DiscardLogin)
  }

  /** The read finds a live login that is nobody's, told by the files it finds. */
  lemma DivergesExactlyWhen(read: Disk)
    ensures Diverges(read) <==>
      read.record.active.Some? && SwitchOutcomes.Unsaved(read, read.record.active.value)
  {
    if read.record.active.Some? {
      SwitchOutcomes.AsksExactlyWhen(read, read.record.active.value);
    }
  }

  /** Other processes had the disk in between. */
  method Meet(machine: Machine, disk: Disk)
    modifies machine
    ensures machine.Files() == disk && machine.room == old(machine.room)
  {
    machine.record, machine.credentials, machine.sessions, machine.live :=
      disk.record, disk.credentials, disk.sessions, disk.live;
  }

  /** One attempt: read the outgoing account, then hold. Nothing is held where nobody can answer. */
  method Attempt(machine: Machine, name: string, memory: ActiveMarker.Memory, choice: Option<Choice>,
                 torn: bool, settings: bool, gated: bool, passes: nat, read: Disk, held: Disk)
    returns (outcome: Outcome, holds: seq<Trace>)
    requires gated <==> passes > 0
    modifies machine
    ensures |holds| <= 1 && (holds == [] ==> outcome == Refused)
    ensures holds == [] <==> Unanswerable(read, choice)
    ensures |holds| == 1 ==> holds[0].before == held && holds[0].after == machine.Files()
    ensures |holds| == 1 ==> Answers(holds[0].call.flavor, read, choice)
    ensures |holds| == 1 ==> Vouched(holds[0], name) && holds[0].passes == passes
    ensures |holds| == 1 && outcome == GateNeeded ==> holds[0].after == holds[0].before
  {
    Meet(machine, read);
    var flavor := FlavorFor(machine.record.active, Diverges(machine.Files()), choice);
    if flavor.None? {
      return Refused, [];
    }
    var call := Call(name, flavor.value, gated, memory, torn, settings);
    Meet(machine, held);
    ghost var roomThen := machine.room;
    outcome := machine.Hold(call);
    holds := [Trace(held, machine.Files(), call, passes)];
    GateNeededWritesNothing(held, call);
    if !gated {
      UngatedInstallsNothing(held, call, roomThen);
    }
  }

  lemma GateNeededWritesNothing(disk: Disk, call: Call)
    ensures PlanOf(disk, call).outcome == GateNeeded ==> PlanOf(disk, call).writes == []
  {
    if call.gated || disk.record.active == Some(call.name) {
      GatedNeedsNoGate(disk, call);
    }
  }

  lemma GatedNeedsNoGate(disk: Disk, call: Call)
    ensures Away(disk, call).outcome != GateNeeded
    ensures SavesIntoActive(disk, call) ==> SaveIntoActive(disk, call).outcome != GateNeeded
  {
    TakenOutcomes(disk, disk.record.active, call.torn);
    forall x: Disk, guarded ensures Plainly(LinkAndFinish(x, call.name, guarded, call.settings).outcome) {
      LinkOutcomes(x, call.name, guarded, call.settings);
    }
  }

  /** The switch installs a stored login only in a hold after the gate passed for the target, whatever
      disks it meets (`meets`, in the order of its reads and holds); one that found no gate needed and
      then needed one wrote nothing, and runs again once behind the gate. */
  method SwitchNoninteractive(machine: Machine, name: string, memory: ActiveMarker.Memory, choice: Option<Choice>,
                              torn: bool, settings: bool, meets: nat -> Disk, gate: nat -> bool)
    returns (outcome: Outcome, holds: seq<Trace>)
    modifies machine
    ensures |holds| <= 2
    ensures forall i :: 0 <= i < |holds| ==> Vouched(holds[i], name) && (holds[i].passes > 0 ==> gate(0) || gate(1))
    ensures |holds| == 2 ==> holds[0].after == holds[0].before && holds[1].passes > 0
    ensures Moved(outcome) ==> holds != []
    ensures var disabled := name in memory.profiles && memory.profiles[name];
      && (disabled ==> holds == [])
      && (!disabled && gate(0) && !Unanswerable(meets(2), choice) ==> holds != [])
    ensures holds != [] && outcome != Refused ==> holds[|holds| - 1].after == machine.Files()
  {
    Meet(machine, meets(0));
    var previous := machine.record.active;
    if name in memory.profiles && memory.profiles[name] {
      return Refused, [];
    }
    Meet(machine, meets(1));
    var gated := previous != Some(name) || SavedElsewhere(machine.Files(), name);
    var passes := 0;
    if gated {
      if !gate(0) {
        return Refused, [];
      }
      passes := 1;
    }
    outcome, holds := Attempt(machine, name, memory, choice, torn, settings, gated, passes, meets(2), meets(3));
    if gated || outcome != GateNeeded {
      return;
    }
    if !gate(1) {
      return Refused, holds;
    }
    var again;
    outcome, again := Attempt(machine, name, memory, choice, torn, settings, true, 1, meets(4), meets(5));
    holds := holds + again;
  }
}
