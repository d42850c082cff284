/**
 * The long-lived token of a profile: `session-token.json` (the sidecar), the mint preserved beside
 * it in `session-token.static.json` (the backup), and the quarantine. Every operation is a plan of
 * single-file writes worked out under the state lock; the class runs it on a disk that may stop
 * taking writes, which is also where a crash leaves it.
 */
module Sidecar {
  import opened Wrappers
  import opened Json
  import opened Credentials
  import opened NonLoginKeys
  import opened Journal

  /* ---------- what a token file holds ---------- */

  datatype SidecarKind = Mint | Rolling | Misfilled

  const SETUP_TOKEN_SCOPES := ["user:inference", "user:sessions:claude_code"]

  predicate BeyondMint(scopes: seq<string>) {
    exists i :: 0 <= i < |scopes| && scopes[i] !in SETUP_TOKEN_SCOPES
  }

  function SidecarKindOf(oauth: OAuth): SidecarKind {
    if oauth.refreshToken.Some? then Misfilled
    else if oauth.subscriptionType.Some? then Rolling
    else if oauth.scopes.Some? && BeyondMint(oauth.scopes.value) then Rolling
    else Mint
  }

  predicate HoldsKind(content: Content, kind: SidecarKind) {
    ReadLogin(content).Login? && SidecarKindOf(ReadLogin(content).oauth) == kind
  }

  predicate IsMint(content: Content) {
    HoldsKind(content, Mint)
  }

  /** Milliseconds since the epoch, far enough below the 64-bit limit to add a year to. */
  type Clock = t: int | 0 <= t < 0x4000_0000_0000_0000 witness 0

  const SETUP_TOKEN_ASSUMED_LIFETIME_MS := 365 * 24 * 60 * 60 * 1000
  const BACKUP_EXPIRY_GRACE_MS := 5 * 60 * 1000

  /** An expiry, none meaning unbounded, with life left past the grace. */
  predicate Lives(expiry: Option<I64>, now: Clock) {
    expiry.None? || expiry.value > now + BACKUP_EXPIRY_GRACE_MS
  }

  predicate AtLeast(expiry: Option<I64>, other: Option<I64>) {
    expiry.None? || (other.Some? && expiry.value >= other.value)
  }

  datatype BackupVerdict = LiveMint | Expired | NoMint

  function ClassifyBackup(content: Content, now: Clock): BackupVerdict {
    if !IsMint(content) then NoMint
    else if Lives(ReadLogin(content).oauth.expiresAt, now) then LiveMint
    else Expired
  }

  const RATE_LIMIT_TIER_KEY := "rateLimitTier"

  /** What a rolling stamp writes of a usage chain: no refresh token, and of the keys clauth has no
      field for the rate-limit tier alone. */
  function RollingProjection(chain: OAuth): OAuth {
    var tier := Lookup(chain.extra, RATE_LIMIT_TIER_KEY);
    OAuth(chain.accessToken, None, chain.expiresAt, chain.scopes, chain.subscriptionType,
          if tier.Some? && tier.value.Str? then map[RATE_LIMIT_TIER_KEY := tier.value] else map[])
  }

  function MintOf(token: string, now: Clock): OAuth {
    OAuth(token, None, Some(now + SETUP_TOKEN_ASSUMED_LIFETIME_MS), Some(SETUP_TOKEN_SCOPES), None, map[])
  }

  /* ---------- the files and their writes ---------- */

  datatype Slot = SessionToken | StaticToken | Store

  datatype Files = Files(
    sidecar: Option<Content>,
    backup: Option<Content>,
    store: Option<Content>,
    quarantine: seq<Content>)
  {
    function At(slot: Slot): Option<Content> {
      match slot
      case SessionToken => sidecar
      case StaticToken => backup
      case Store => store
    }

    function With(slot: Slot, content: Option<Content>): Files {
      match slot
      case SessionToken => this.(sidecar := content)
      case StaticToken => this.(backup := content)
      case Store => this.(store := content)
    }
  }

  /** One atomic change of the disk. */
  datatype Write = Put(slot: Slot, content: Content) | Remove(slot: Slot) | Quarantine(content: Content)

  function Applied(files: Files, write: Write): Files {
    match write
    case Put(slot, content) => files.With(slot, Some(content))
    case Remove(slot) => files.With(slot, None)
    case Quarantine(content) => files.(quarantine := files.quarantine + [content])
  }

  function Run(files: Files, writes: seq<Write>): Files {
    Replay(files, writes, Applied)
  }

  /** What an operation finds around it: whether non-login keys are kept, the live credential file
      where it can be saved from, the logins signed out of (dropped by `forget`), the clock, and the
      files a read fails on. */
  datatype World = World(
    preserve: bool,
    live: Option<Json>,
    forget: Json -> Json,
    now: Clock,
    unreadable: set<Slot>)

  /* ---------- what the operations decide ---------- */

  /** The sidecar read as a login; nothing when it is absent, fails to read or holds none. */
  function SidecarLogin(files: Files, world: World): Option<OAuth> {
    if files.sidecar.Some? && SessionToken !in world.unreadable && ReadLogin(files.sidecar.value).Login?
    then Some(ReadLogin(files.sidecar.value).oauth)
    else None
  }

  predicate SeenMisfilled(files: Files, world: World) {
    var login := SidecarLogin(files, world);
    login.Some? && login.value.refreshToken.Some?
  }

  function InstallSource(files: Files, world: World): Slot {
    var login := SidecarLogin(files, world);
    if login.Some? && login.value.refreshToken.None? then SessionToken else Store
  }

  /** Saving the live file's non-login keys into the install source that holds the same login. */
  function SyncWrites(files: Files, world: World): seq<Write> {
    var slot := InstallSource(files, world);
    var store := files.At(slot);
    if !world.preserve || world.live.None? || store.None? || slot in world.unreadable || !store.value.Doc? then []
    else
      var held := store.value.json;
      var live := world.forget(world.live.value);
      if AccessToken(held).Some? && AccessToken(live) == AccessToken(held) && Copied(held, live) != held
      then [Put(slot, Doc(Copied(held, live)))]
      else []
  }

  /** The bytes a sidecar writer publishes: `rebuilt` with the non-login keys the account keeps. */
  function KeepNonLogin(rebuilt: Content, files: Files, world: World): Content {
    var slot := if files.sidecar.Some? then SessionToken else Store;
    var source := files.At(slot);
    if !world.preserve || source.None? || slot in world.unreadable || !source.value.Doc? || !rebuilt.Doc? then rebuilt
    else if slot.SessionToken? then
      if HoldsKind(source.value, Misfilled) then rebuilt else Doc(Copied(rebuilt.json, source.value.json))
    else Doc(Copied(rebuilt.json, world.forget(source.value.json)))
  }

  datatype Outcome =
    | Done
    | Refused         // the chain's grant reads like a mint's
    | NotMisfilled
    | NoLiveBackup
    | ReadFailed
    | WriteFailed

  datatype Plan = Plan(writes: seq<Write>, outcome: Outcome)

  /** A plan whose writes come after `before`. */
  function Then(before: seq<Write>, plan: Plan): Plan {
    Plan(before + plan.writes, plan.outcome)
  }

  /** Whether the backup in place outlives the sidecar's mint, so that it stays. */
  predicate BackupStands(backup: Content, mint: OAuth, now: Clock) {
    ClassifyBackup(backup, now).LiveMint? && AtLeast(ReadLogin(backup).oauth.expiresAt, mint.expiresAt)
  }

  function PreservePlan(files: Files, world: World): Plan {
    if files.sidecar.None? then Plan([], Done)
    else if SessionToken in world.unreadable then Plan([], ReadFailed)
    else
      var raw := files.sidecar.value;
      if !IsMint(raw) then Plan([], Done)
      else if files.backup.None? then Plan([Put(StaticToken, raw)], Done)
      else if StaticToken in world.unreadable then Plan([], ReadFailed)
      else
        var held := files.backup.value;
        if BackupStands(held, ReadLogin(raw).oauth, world.now) then Plan([], Done)
        else if ClassifyBackup(held, world.now).NoMint? then Plan([Quarantine(held), Put(StaticToken, raw)], Done)
        else Plan([Put(StaticToken, raw)], Done)
  }

  /** A stamp, once the live file is saved. */
  function StampRest(files: Files, world: World, rolled: OAuth): Plan {
    var preserved := PreservePlan(files, world);
    if preserved.outcome != Done then preserved
    else
      var kept := KeepNonLogin(FileOf(rolled), Run(files, preserved.writes), world);
      Then(preserved.writes, Plan([Put(SessionToken, kept)], Done))
  }

  function StampPlan(files: Files, world: World, chain: OAuth): Plan {
    var rolled := RollingProjection(chain);
    if SidecarKindOf(rolled) == Mint then Plan([], Refused)
    else
      var saved := SyncWrites(files, world);
      Then(saved, StampRest(Run(files, saved), world, rolled))
  }

  function RemintPlan(files: Files, world: World, token: string): Plan {
    var saved := SyncWrites(files, world);
    var kept := KeepNonLogin(FileOf(MintOf(token, world.now)), Run(files, saved), world);
    Then(saved, Plan([Put(SessionToken, kept)], Done))
  }

  function RemintWithBackupPlan(files: Files, world: World, token: string): Plan {
    var saved := SyncWrites(files, world);
    var kept := KeepNonLogin(FileOf(MintOf(token, world.now)), Run(files, saved), world);
    Then(saved, Plan([Put(SessionToken, kept), Put(StaticToken, kept)], Done))
  }

  /** Reading the backup to put it back: `Done` when it holds a live mint, and a slot holding no mint
      is emptied into the quarantine. */
  function BackupPlan(files: Files, world: World): Plan {
    if files.backup.None? then Plan([], NoLiveBackup)
    else if StaticToken in world.unreadable then Plan([], ReadFailed)
    else
      match ClassifyBackup(files.backup.value, world.now)
      case LiveMint => Plan([], Done)
      case Expired => Plan([], NoLiveBackup)
      case NoMint => Plan([Quarantine(files.backup.value), Remove(StaticToken)], NoLiveBackup)
  }

  function HealPlan(files: Files, world: World): Plan {
    if !SeenMisfilled(files, world) then Plan([], NotMisfilled)
    else
      var read := BackupPlan(files, world);
      if read.outcome != Done then read
      else
        var saved := SyncWrites(files, world);
        Then(saved, Plan([Quarantine(files.sidecar.value), Put(SessionToken, files.backup.value), Remove(StaticToken)],
                         Done))
  }

  /** A restore, once the live file is saved. */
  function RestoreRest(files: Files, world: World, mint: Content): Plan {
    var aside := if SeenMisfilled(files, world) then [Quarantine(files.sidecar.value)] else [];
    var kept := KeepNonLogin(mint, files, world);
    Then(aside, Plan([Put(SessionToken, kept), Remove(StaticToken)], Done))
  }

  function RestorePlan(files: Files, world: World): Plan {
    var read := BackupPlan(files, world);
    if read.outcome != Done then read
    else
      var saved := SyncWrites(files, world);
      Then(saved, RestoreRest(Run(files, saved), world, files.backup.value))
  }

  function QuarantinePlan(files: Files, world: World): Plan {
    if !SeenMisfilled(files, world) then Plan([], NotMisfilled)
    else Plan([Quarantine(files.sidecar.value), Remove(SessionToken)], Done)
  }

  datatype Op =
    | Stamp(chain: OAuth)
    | Remint(token: string)
    | RemintWithBackup(token: string)
    | Heal
    | Restore
    | QuarantineMisfill

  function PlanOf(files: Files, world: World, op: Op): Plan {
    match op
    case Stamp(chain) => StampPlan(files, world, chain)
    case Remint(token) => RemintPlan(files, world, token)
    case RemintWithBackup(token) => RemintWithBackupPlan(files, world, token)
    case Heal => HealPlan(files, world)
    case Restore => RestorePlan(files, world)
    case QuarantineMisfill => QuarantinePlan(files, world)
  }

  /** The disk after an operation whose first `room` writes land. */
  function After(files: Files, world: World, op: Op, room: nat): Files {
    Run(files, Taken(PlanOf(files, world, op).writes, room))
  }
}
