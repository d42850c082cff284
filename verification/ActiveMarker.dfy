/**
 * The active marker: `profiles.toml` names the active account and the roster, each account's own
 * directory says whether it is disabled. Every operation runs under the state lock in a process whose
 * memory may be arbitrarily old, and may stop between any two writes.
 */
module ActiveMarker {
  import opened Wrappers
  import opened Journal

  type Name = string

  /** `dirs` are the profile directories there are, with the disabled flag each one's config holds. */
  datatype Record = Record(active: Option<Name>, roster: seq<Name>, dirs: map<Name, bool>)
  {
    /** A directory that is missing, or has no config, reads as enabled. */
    predicate Disabled(name: Name) {
      name in dirs && dirs[name]
    }
  }

  /** What a process remembers: the marker, and the accounts it loaded with their disabled flags. */
  datatype Memory = Memory(active: Option<Name>, profiles: map<Name, bool>)

  datatype Write =
    | SaveState(active: Option<Name>, roster: seq<Name>)
    | PutConfig(name: Name, disabled: bool)
    | RemoveDir(name: Name)
    | MoveDir(from: Name, to: Name)

  function Applied(record: Record, write: Write): Record {
    match write
    case SaveState(active, roster) => record.(active := active, roster := roster)
    case PutConfig(name, disabled) => record.(dirs := record.dirs[name := disabled])
    case RemoveDir(name) => record.(dirs := record.dirs - {name})
    case MoveDir(from, to) =>
      if from in record.dirs then record.(dirs := (record.dirs - {from})[to := record.dirs[from]]) else record
  }

  /* ---------- names ---------- */

  function Lower(c: char): char {
    if 'A' <= c <= 'Z' then c + 32 as char else c
  }

  /** A name up to ASCII case. */
  function Fold(name: Name): Name {
    seq(|name|, i requires 0 <= i < |name| => Lower(name[i]))
  }

  /** Some account other than `spare` has the name, up to case. */
  predicate NameTaken(roster: seq<Name>, name: Name, spare: Option<Name>) {
    exists i :: 0 <= i < |roster| && Fold(roster[i]) == Fold(name) && Some(roster[i]) != spare
  }

  function Without(roster: seq<Name>, name: Name): seq<Name> {
    if roster == [] then []
    else (if roster[0] == name then [] else [roster[0]]) + Without(roster[1..], name)
  }

  /** The first `from` replaced by `to`. */
  function Renamed(roster: seq<Name>, from: Name, to: Name): seq<Name> {
    if roster == [] then []
    else if roster[0] == from then [to] + roster[1..]
    else [roster[0]] + Renamed(roster[1..], from, to)
  }

  function With(roster: seq<Name>, name: Name): seq<Name> {
    if name in roster then roster else roster + [name]
  }

  /* ---------- what each operation writes ---------- */

  /** The operations, with what they learn outside this record: whether the rest of a switch goes
      through and captures the live login, whether a link lands, whether the account is still the one
      claimed, whether a session is live, and any other refusal. */
  datatype Op =
    | Switch(name: Name, captures: bool, proceeds: bool)
    | SwitchOff(captures: bool)
    | CreateBlank(name: Name, allowed: bool)
    | Capture(name: Name, allowed: bool, links: bool)
    | Overwrite(name: Name, sameAccount: bool, clears: bool, links: bool)
    | Delete(name: Name, allowed: bool)
    | Rename(from: Name, to: Name, allowed: bool)
    | Disable(name: Name, session: bool)
    | Enable(name: Name)
    | ClearLogin(name: Name)
    | Adopt(name: Name, sameAccount: bool)

  /** A switch target is rostered on disk, known to the process, and disabled in neither copy. */
  predicate SwitchTargetOk(record: Record, memory: Memory, name: Name) {
    && name in record.roster
    && name in memory.profiles && !memory.profiles[name]
    && !record.Disabled(name)
  }

  /** A profile saved with the flag its config already holds. */
  function Resave(record: Record, name: Name): Write {
    PutConfig(name, record.Disabled(name))
  }

  /** The capture of the live login into the active account. */
  function CaptureWrites(record: Record, captures: bool): seq<Write> {
    if captures && record.active.Some? && record.active.value in record.roster
    then [Resave(record, record.active.value)] else []
  }

  /** Putting back what a create's first write replaced. */
  function Undo(record: Record, name: Name): Write {
    if name in record.dirs then PutConfig(name, record.dirs[name]) else RemoveDir(name)
  }

  /** An overwrite: the marker cleared first when the active account is disowned, the login saved, then
      the account activated when no other is and it is enabled. */
  function OverwriteWrites(record: Record, memory: Memory, name: Name, clears: bool, links: bool): seq<Write> {
    var active := if clears then None else record.active;
    var cleared := if clears then [SaveState(None, record.roster)] else [];
    var activated :=
      if active.Some? then [SaveState(active, record.roster)]
      else if record.Disabled(name) then [SaveState(None, record.roster)]
      else if links then [SaveState(Some(name), record.roster)]
      else [];
    cleared + (if name in memory.profiles then [Resave(record, name)] + activated else [])
  }

  /** An overwrite ends with the account saved, and active where no other account is and it may be. */
  predicate Activates(record: Record, memory: Memory, name: Name, clears: bool, links: bool) {
    name in memory.profiles && ((!clears && record.active.Some?) || record.Disabled(name) || links)
  }

  function DeleteWrites(record: Record, name: Name): seq<Write> {
    var gone := if name in record.dirs then [RemoveDir(name)] else [];
    gone + [SaveState(if record.active == Some(name) then None else record.active, Without(record.roster, name))]
  }

  function RenameWrites(record: Record, from: Name, to: Name): seq<Write> {
    var moved := if from in record.dirs then [MoveDir(from, to)] else [];
    moved + [SaveState(if record.active == Some(from) then Some(to) else record.active,
                       Renamed(record.roster, from, to))]
  }

  function Plan(record: Record, memory: Memory, op: Op): seq<Write> {
    match op
    case Switch(name, captures, proceeds) =>
      if !SwitchTargetOk(record, memory, name) || record.active == Some(name) then []
      else CaptureWrites(record, captures) + (if proceeds then [SaveState(Some(name), record.roster)] else [])
    case SwitchOff(captures) =>
      if record.active.None? then []
      else CaptureWrites(record, captures) + [SaveState(None, record.roster)]
    case CreateBlank(name, allowed) =>
      if !allowed || NameTaken(record.roster, name, None) then []
      else [PutConfig(name, false), SaveState(record.active, With(record.roster, name))]
    case Capture(name, allowed, links) =>
      if !allowed || NameTaken(record.roster, name, None) then []
      else if record.active.None? && !links then [PutConfig(name, false), Undo(record, name)]
      else [PutConfig(name, false),
            SaveState(if record.active.None? then Some(name) else record.active, With(record.roster, name))]
    case Overwrite(name, sameAccount, clears, links) =>
      if name !in record.roster || !sameAccount then []
      else OverwriteWrites(record, memory, name, clears, links)
    case Delete(name, allowed) => if allowed then DeleteWrites(record, name) else []
    case Rename(from, to, allowed) =>
      if !allowed || from !in record.roster || NameTaken(record.roster, to, Some(from)) then []
      else if from in record.dirs && to in record.dirs && from != to then []
      else RenameWrites(record, from, to)
    case Disable(name, session) =>
      if name !in memory.profiles || name !in record.roster || record.Disabled(name) then []
      else if memory.active == Some(name) || record.active == Some(name) || session then []
      else [PutConfig(name, true)]
    case Enable(name) =>
      if name !in memory.profiles || name !in record.roster || !record.Disabled(name) then []
      else [PutConfig(name, false)]
    case ClearLogin(name) =>
      if name !in record.roster || name !in memory.profiles then []
      else [Resave(record, name)] + if record.active == Some(name) then [SaveState(None, record.roster)] else []
    case Adopt(name, sameAccount) =>
      if name !in record.roster || !sameAccount then [] else [SaveState(Some(name), record.roster)]
  }

  /** The record after an operation whose first `room` writes land. */
  function After(record: Record, memory: Memory, op: Op, room: nat): Record {
    Replay(record, Taken(Plan(record, memory, op), room), Applied)
  }

  /* ---------- the marker ---------- */

  /** The marker, when set, names a rostered and enabled account. */
  predicate MarkerHolds(record: Record) {
    record.active.Some? ==> record.active.value in record.roster && !record.Disabled(record.active.value)
  }

  /** The marker, when set, names a rostered account, enabled or not. */
  predicate MarkerRostered(record: Record) {
    record.active.Some? ==> record.active.value in record.roster
  }

  /** No directory outside the roster says disabled. */
  predicate OrphansEnabled(record: Record) {
    forall name :: name in record.dirs && record.dirs[name] ==> name in record.roster
  }

  lemma {:induction false} WithoutHas(roster: seq<Name>, gone: Name, name: Name)
    ensures name in Without(roster, gone) <==> name in roster && name != gone
    decreases |roster|
  {
    if roster == [] {
    } else {
      WithoutHas(roster[1..], gone, name);
    }
  }

  lemma {:induction false} RenamedHas(roster: seq<Name>, from: Name, to: Name, name: Name)
    requires from in roster
    ensures to in Renamed(roster, from, to)
    ensures name in roster && name != from ==> name in Renamed(roster, from, to)
    decreases |roster|
  {
    if roster[0] == from {
    } else {
      RenamedHas(roster[1..], from, to, name);
    }
  }

  /** Putting a name the adopt confirmed on the marker, without asking whether it is disabled. */
  predicate AdoptsDisabled(record: Record, op: Op) {
    op.Adopt? && op.sameAccount && op.name in record.roster && record.Disabled(op.name)
  }

  /** Renaming the active account when its directory is gone and the new name's says disabled. */
  predicate RenamesOntoDisabled(record: Record, op: Op) {
    && op.Rename? && op.allowed && record.active == Some(op.from)
    && !NameTaken(record.roster, op.to, Some(op.from))
    && op.from !in record.dirs && record.Disabled(op.to)
  }
}
