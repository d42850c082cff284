/**
 * The switch: which login Claude Code's live credential file serves, whether it is saved anywhere, and
 * what each flavor of switch writes. A switch runs under the state lock over the disk as it then is;
 * what it found out before (a gate, an answer to a prompt) may be out of date. Keys beside a login are
 * not modelled here.
 */
module SwitchProtocol {
  import opened Wrappers
  import opened Credentials
  import opened ActiveMarker
  import Journal

  datatype StoreFile = CredentialsFile | SessionFile

  /** The live file: none, a link clauth put there, a file of Claude Code's own, or one of its own whose
      bytes cannot be read. */
  datatype Live = Missing | Link(name: Name, file: StoreFile) | Regular(content: Content) | Sealed(content: Content)

  /** `credentials` are the profiles' stored logins, `sessions` their long-lived tokens. */
  datatype Disk = Disk(record: Record, credentials: map<Name, Content>, sessions: map<Name, Content>, live: Live)
  {
    function FileAt(name: Name, file: StoreFile): Option<Content> {
      if file.CredentialsFile? then Lookup(credentials, name) else Lookup(sessions, name)
    }

    /** The bytes the live path reads as, through a link or not; none where the read fails. */
    function LiveContent(): Option<Content> {
      match live
      case Missing => None
      case Link(name, file) => FileAt(name, file)
      case Regular(content) => Some(content)
      case Sealed(_) => None
    }

    /** The bytes there, whether they can be read or not. */
    function LiveBytes(): Option<Content> {
      if live.Sealed? then Some(live.content) else LiveContent()
    }
  }

  /* ---------- logins ---------- */

  function AccessOf(parsed: Parsed): Option<string> {
    if parsed.Login? then NonEmpty(Some(parsed.oauth.accessToken)) else None
  }

  function RefreshOf(parsed: Parsed): Option<string> {
    if parsed.Login? then NonEmpty(parsed.oauth.refreshToken) else None
  }

  /** A file that parses and holds no usable login: no block, or a logged-out shell. */
  predicate IsEmpty(parsed: Parsed) {
    !parsed.Torn? && AccessOf(parsed).None? && RefreshOf(parsed).None?
  }

  function LoginIn(content: Option<Content>): Parsed {
    if content.Some? then ReadLogin(content.value) else Torn
  }

  /** Both files parse, and hold the same non-empty access token. */
  predicate SameAccess(live: Option<Content>, stored: Option<Content>) {
    AccessOf(LoginIn(live)).Some? && AccessOf(LoginIn(live)) == AccessOf(LoginIn(stored))
  }

  /* ---------- what a switch asks about the live login ---------- */

  predicate HasSessionToken(disk: Disk, name: Name) {
    var login := LoginIn(disk.FileAt(name, SessionFile));
    login.Login? && login.oauth.refreshToken.None?
  }

  function InstallSource(disk: Disk, name: Name): StoreFile {
    if HasSessionToken(disk, name) then SessionFile else CredentialsFile
  }

  function Expected(disk: Disk, name: Name): Option<Content> {
    disk.FileAt(name, InstallSource(disk, name))
  }

  datatype LinkState = LinkedTo | Diverged | Absent

  function ClassifyLink(disk: Disk, active: Name): LinkState {
    match disk.live
    case Missing => Absent
    case Link(name, file) =>
      if name == active && file == InstallSource(disk, active) then LinkedTo else Diverged
    case Regular(content) =>
      if SameAccess(Some(content), Expected(disk, active)) then LinkedTo else Diverged
    case Sealed(_) => Diverged
  }

  /** Another rostered profile's stored login has this login's refresh token. */
  predicate StoredElsewhere(disk: Disk, name: Name, login: Parsed) {
    RefreshOf(login).Some? && ChainHeldElsewhere(disk.record.roster, disk.credentials, name, RefreshOf(login).value)
  }

  predicate SavedElsewhere(disk: Disk, active: Name) {
    StoredElsewhere(disk, active, LoginIn(disk.LiveContent()))
  }

  /** The profile stores nothing to install and the live file holds a completed login of nobody's. */
  predicate IsFirstLogin(disk: Disk, active: Name) {
    && Expected(disk, active).None? && disk.live.Regular?
    && !ReadLogin(disk.live.content).Torn? && !IsEmpty(ReadLogin(disk.live.content))
    && !SavedElsewhere(disk, active)
  }

  predicate IsShell(disk: Disk) {
    disk.LiveContent().Some? && IsEmpty(LoginIn(disk.LiveContent()))
  }

  predicate InOwnStore(disk: Disk, active: Name) {
    || disk.live.Link?
    || SameAccess(disk.LiveContent(), disk.FileAt(active, CredentialsFile))
    || SameAccess(disk.LiveContent(), disk.FileAt(active, SessionFile))
  }

  predicate DivergedAndUnsaved(disk: Disk, active: Name) {
    && ClassifyLink(disk, active).Diverged?
    && !IsFirstLogin(disk, active) && !IsShell(disk)
    && !InOwnStore(disk, active) && !SavedElsewhere(disk, active)
  }

  /* ---------- writes ---------- */

  datatype Write = PutStore(name: Name, content: Content) | PutLive(live: Live) | SetActive(name: Name)

  function Changed(disk: Disk, write: Write): Disk {
    match write
    case PutStore(name, content) => disk.(credentials := disk.credentials[name := content])
    case PutLive(live) => disk.(live := live)
    case SetActive(name) => disk.(record := disk.record.(active := Some(name)))
  }

  function Done(disk: Disk, writes: seq<Write>): Disk {
    Journal.Replay(disk, writes, Changed)
  }

  datatype Outcome =
    | Switched
    | SavedIntoActive
    | Relinked
    | AlreadyActive
    | GateNeeded
    | Refused       // a target that may not be switched onto, a login nobody answered for, a guarded link
    | Failed        // a live file that does not read, a settings write

  datatype Plan = Plan(writes: seq<Write>, outcome: Outcome)

  /** A plan that goes on after `first`, unless that one ended it; `first` ends well as `Switched`. */
  function AndThen(first: Plan, rest: Plan): Plan {
    if first.outcome == Switched then Plan(first.writes + rest.writes, rest.outcome) else first
  }

  const Onward := Plan([], Switched)

  /** The install source is there and parses. */
  predicate Linkable(disk: Disk, name: Name) {
    !LoginIn(Expected(disk, name)).Torn?
  }

  /** Putting a profile's install source live, or nothing when it has none. */
  function ForceLink(disk: Disk, name: Name): Plan {
    if Linkable(disk, name) then Plan([PutLive(Link(name, InstallSource(disk, name)))], Switched)
    else if disk.live.Missing? then Onward
    else Plan([PutLive(Missing)], Switched)
  }

  /** The same, refused over a live file of Claude Code's own that is not the profile's. Two files that
      read as nothing compare as the same bytes. */
  function GuardedLink(disk: Disk, name: Name): Plan {
    if (disk.live.Regular? || disk.live.Sealed?) && !SameAccess(disk.LiveContent(), Expected(disk, name))
       && disk.LiveContent() != Expected(disk, name)
    then Plan([], Refused)
    else ForceLink(disk, name)
  }

  /** The live login stored into the active profile, where it is one no other profile stores. */
  function CaptureLive(disk: Disk, active: Name): Plan {
    var live := disk.LiveContent();
    if HasSessionToken(disk, active) || active !in disk.record.roster || disk.record.active != Some(active) then Onward
    else if disk.live.Sealed? then Plan([], Failed)
    else if live.None? then Onward
    else if ReadLogin(live.value).Torn? then Plan([], Failed)
    else if IsEmpty(ReadLogin(live.value)) || StoredElsewhere(disk, active, ReadLogin(live.value)) then Onward
    else
      var existing := disk.FileAt(active, CredentialsFile);
      var json := if existing.Some? && existing.value.Doc? then Some(existing.value.json) else None;
      Plan([PutStore(active, WithLogin(ReadLogin(live.value).oauth, json))], Switched)
  }

  function AdoptFirstLogin(disk: Disk, active: Name): Plan {
    var capture := CaptureLive(disk, active);
    var captured := Done(disk, capture.writes);
    if capture.outcome != Switched then capture
    else if Expected(captured, active).None? then Plan(capture.writes, Failed)
    else AndThen(capture, ForceLink(captured, active))
  }

  /** The snapshot before a plain switch. `torn` is the process's note that the active profile's store
      did not parse when it was loaded. */
  function Snapshot(disk: Disk, active: Option<Name>, torn: bool): Plan {
    if active.None? then Onward
    else if torn && disk.live == Link(active.value, CredentialsFile) then Onward
    else if ClassifyLink(disk, active.value).Diverged? then
      if IsFirstLogin(disk, active.value) then AdoptFirstLogin(disk, active.value) else Onward
    else CaptureLive(disk, active.value)
  }

  /** The forced capture a divergence answer asks for, which must have landed. */
  function ForceCapture(disk: Disk, active: Option<Name>): Plan {
    if active.None? then Onward
    else
      var capture := CaptureLive(disk, active.value);
      if capture.outcome != Switched then capture
      else if DivergedAndUnsaved(Done(disk, capture.writes), active.value) then Plan(capture.writes, Refused)
      else capture
  }

  /** The settings write and the marker. */
  function Finish(name: Name, settings: bool): Plan {
    if settings then Plan([SetActive(name)], Switched) else Plan([], Failed)
  }

  /** Links the target and finishes, once the outgoing login is dealt with. */
  function LinkAndFinish(disk: Disk, name: Name, guarded: bool, settings: bool): Plan {
    AndThen(if guarded then GuardedLink(disk, name) else ForceLink(disk, name), Finish(name, settings))
  }

  /* ---------- the flavors ---------- */

  /** Which live login an answer was about: whatever is live, or the one a prompt read. */
  datatype Answered = AnyLive | Seen(access: Option<string>)

  predicate CoversLive(disk: Disk, answer: Answered) {
    answer.Seen? ==> AccessOf(LoginIn(disk.LiveContent())) == answer.access
  }

  datatype Flavor =
    | Plain
    | Discard(answered: Option<Name>)
    | Reconcile(answered: Option<Name>, login: Answered)

  /** A call: the target, the flavor, whether the caller ran the gate, the process's memory, and how
      the settings write goes. */
  datatype Call = Call(
    name: Name,
    flavor: Flavor,
    gated: bool,
    memory: Memory,
    torn: bool,
    settings: bool)

  /** A switch onto the account already active: it moves only off a login another account stores. */
  function OntoActive(disk: Disk, call: Call): Plan {
    if !SavedElsewhere(disk, call.name) then Plan([], AlreadyActive)
    else if !call.gated then Plan([], GateNeeded)
    else Plan(ForceLink(disk, call.name).writes, Relinked)
  }

  /** The answer does not cover the account disk names active, or its live login. */
  predicate Unanswered(disk: Disk, answered: Option<Name>, login: Answered) {
    disk.record.active != answered || !CoversLive(disk, login)
  }

  predicate RefusesUnanswered(disk: Disk, answered: Option<Name>, login: Answered) {
    && Unanswered(disk, answered, login)
    && disk.record.active.Some? && DivergedAndUnsaved(disk, disk.record.active.value)
  }

  predicate SavesIntoActive(disk: Disk, call: Call) {
    && call.flavor.Reconcile? && call.flavor.answered == Some(call.name)
    && disk.record.active == Some(call.name) && DivergedAndUnsaved(disk, call.name)
  }

  function SaveIntoActive(disk: Disk, call: Call): Plan
    requires call.flavor.Reconcile?
  {
    if !CoversLive(disk, call.flavor.login) then Plan([], Refused)
    else
      var capture := ForceCapture(disk, disk.record.active);
      if capture.outcome != Switched then capture
      else
        var link := ForceLink(Done(disk, capture.writes), call.name);
        Plan(capture.writes + link.writes, SavedIntoActive)
  }

  /** A switch away, of a caller that ran the gate. */
  function Away(disk: Disk, call: Call): Plan {
    match call.flavor
    case Plain =>
      var guarded := disk.record.active.Some? && DivergedAndUnsaved(disk, disk.record.active.value);
      var snapshot := Snapshot(disk, disk.record.active, call.torn);
      AndThen(snapshot, LinkAndFinish(Done(disk, snapshot.writes), call.name, guarded, call.settings))
    case Discard(answered) =>
      if RefusesUnanswered(disk, answered, AnyLive) then Plan([], Refused)
      else LinkAndFinish(disk, call.name, false, call.settings)
    case Reconcile(answered, login) =>
      if RefusesUnanswered(disk, answered, login) then Plan([], Refused)
      else
        var taken := if Unanswered(disk, answered, login) then Snapshot(disk, disk.record.active, call.torn)
                     else ForceCapture(disk, disk.record.active);
        AndThen(taken, LinkAndFinish(Done(disk, taken.writes), call.name, false, call.settings))
  }

  function PlanOf(disk: Disk, call: Call): Plan {
    if !SwitchTargetOk(disk.record, call.memory, call.name) then Plan([], Refused)
    else if SavesIntoActive(disk, call) then SaveIntoActive(disk, call)
    else if disk.record.active == Some(call.name) then OntoActive(disk, call)
    else if !call.gated then Plan([], GateNeeded)
    else Away(disk, call)
  }

  /** The disk after a call whose first `room` writes land. */
  function After(disk: Disk, call: Call, room: nat): Disk {
    Done(disk, Journal.Taken(PlanOf(disk, call).writes, room))
  }
}
