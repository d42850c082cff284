# What clauth keeps while it swaps accounts

clauth moves several Claude accounts through one live credential file and one live settings file. Several
processes do so with old copies of the state in memory, Claude Code writes beside them, and a run can end
between any two file writes. This project models the parts of clauth that have to survive that, and proves
what they keep.

- **Env covers** (`BaseEnv*`). An account's `[env]` keys cover the user's own values in `settings.json`; a
  record written before and after the live write remembers them. The settle, the judgments it makes, the live
  write and its stages are modelled as they run, and refined key by key (`BaseEnvCells`).
- **The long-lived token** (`Sidecar*`, over `Credentials` and `NonLoginKeys`). The sidecar, the preserved
  mint and the quarantine, under stamps, re-mints, heals, restores and the pre-clear.
- **Merges of logins** (`TokenMerge`, `NonLoginKeys`, `McpSync`). What stays of a key two stores hold, and the
  sync of MCP logins over many stores.
- **The Keychain item** (`BareItem*`). Who the login in the bare item belongs to, how it is saved, and when a
  writer may replace it.
- **Switches** (`Switch*`) and **the active marker** (`ActiveMarker*`). The three flavors of switch, the
  unattended one, and every operation that touches the roster.
- **The job stores** (`JobStore*`). The read of Claude Code's job directories and the queries on it.
- **Words and keys** (`ShellWords`, `SpawnArgs*`, `ProjectKey`). Shell quoting and the helper command, the walk
  over the words handed to `claude`, and Claude Code's project key.
- **The owed identity strip** (`StripMarker`).

How it is put together. A disk is a value; every operation that writes more than one file is a plan of single
writes worked out from the disk under the lock, and a class runs it write by write on a disk that may stop
taking them (`Journal` has what is common to all plans). A failed write and a crash leave the same thing, a
prefix of the plan, so "at each cut" below covers both. A process's memory is an arbitrary value. What clauth
learns from outside (the network, the clock, a read that fails, a prompt) is an argument with no restriction on
it unless one is named. Digests and token fingerprints are injective.

Properties that turned out not to hold of the code, with the exact condition:

- Merging is not associative when a plain value stands between two maps of entries and the first has something
  to add to the last: the entries are dropped (`TokenMerge.AssociativeExactlyWhen`).
- A stamp can lower the best mint held, when both mints have expired and the backup's outlasted the sidecar's
  (`SidecarTheorems.StampLowersExactlyWhen`); a restore lowers it whenever the sidecar's mint outlasts the
  backup's (`RestoreLowersExactlyWhen`), and overwrites a mis-fill unsaved when the read of it fails
  (`RestoreLosesMisfillExactlyWhen`).
- A Keychain login that names no expiry can be replaced though no store holds it or a better one
  (`BareItemTheorems.KeptForNothingExactlyWhen`): the carry reads no expiry and no login alike, as zero.
- The active marker can come to name a disabled account: through a rename of a disabled account that stopped
  between moving its directory and saving the roster (`ActiveMarkerTheorems.CutRenameBreaksMarker`), and through
  the adoption of a captured login, which does not ask (`MarkerBreaksExactlyWhen`).
- A write that cannot read the Keychain item goes ahead over a login nobody saved: an install after any failed
  read, a sign-out after one that found no locked keychain (`UngrantedGoesExactlyWhen`).
- Folding the settings flags out can hand a word to the flag before them: exactly when settings flags stand
  between a flag with an optional value and a unit that starts with no dash (`SpawnArgsUnits.RegroupsExactlyWhen`).
- A plain switch loses a live login whose file cannot be read when its target has nothing to install and no store
  holds the login (`SwitchTheorems.LosesUnreadExactlyWhen`): the guard compares two failed reads as the same bytes.
- A marker move that stops between its writes lets the next job move the user's value of a key it misreads
  (`BaseEnvCuts.CutMoveMovesValueExactlyWhen`); a cover is never misread.
- A discard answered for one account still drops a login when another account has become active and its login
  is a first one nobody stores (`SwitchTheorems.DropsUnansweredExactlyWhen`): the gate that asks leaves first
  logins to the snapshot, which a discard does not run.
- The query on a directory does not fail closed inside a tree or profile directory that could not be read
  (`JobStoreFailures.SparesUnderFailsClosedExactlyWhen`). It is asked of profile directories alone.
- Which tree a conversation runs in depends on the order the job directories are listed in, unless there is one
  answer to give (`JobStoreSessions.SameInEveryOrderExactlyWhen`): where every store reads whole, when the records
  that name it name one tree, a tree's own store outdoing the global one. What a sweep spares does not depend on it.
- The printed helper command does not give the account name back when a piece of the quoted program is the
  subcommand (`ShellWords.HelperNamesBackExactlyWhen`).

## Model

| member | source | states |
|---|---|---|
| BaseEnv.SettleCustomEnv | src/claude.rs:6692-6816 | the settle: the env it leaves, the record image before the live write and the one after it, and its two refusals, all as the specification of the whole settle gives them |
| BaseEnv.CaptureCovers | src/claude.rs:6756-6788 | the pass over covered keys fills both record images: every covered key gets its entry in each, no other entry moves |
| BaseEnv.UncoverKeys | src/claude.rs:6790-6803 | the pass over keys leaving the file gives each the user's value or takes it away, and retires its entry |
| BaseEnvHome.BuildEnv | src/claude.rs:7030-7095 | the env block a build writes: each field-owned key set from its own profile field or cleared, the account's own env last |
| BaseEnvHome.ModelKeysSet | src/claude.rs:7055-7072 | the loop over the model keys gives each its own field and moves no other key |
| BaseEnvHome.Home.LandLiveSettings | src/claude.rs:6179-6208 | the order of the three writes, which of them happen, and what a failure at each leaves |
| BaseEnvHome.Home.ApplyProfile | src/claude.rs:6094-6121 | an apply leaves the files its plan gives up to the write that failed, and changes nothing when it refuses |
| BaseEnvHome.Home.ReleaseSavedBaseEnv | src/claude.rs:6138-6167 | the put-back of a switch-off, in the same terms |
| BaseEnvHome.Home.SaveActive | src/profile.rs:3485-3501 | a marker move notes the record first, only while the two agreed, and stops before either write |
| BaseEnvCells.JobByCell | src/claude.rs:6692-6816 | a job acts on each key by itself: the whole-file computation refines a function of one key's live value and entry, at every stage of its writes |
| BaseEnvTheorems.UserValueMovesExactlyWhenMisjudged | src/claude.rs:6624-6650 | a job that lands moves the user's value of a key exactly when its judgment misreads the live value, for all three judgments |
| BaseEnvTheorems.RunKeepsUserValue | src/claude.rs:6179-6208 | over every run of applies and put-backs cut after any write, marker moves, account edits and user edits, the user's value of a key is the one the user last gave it |
| BaseEnvTheorems.ReleaseGivesUserValuesBack | src/claude.rs:6138-6167 | after any such run a switch-off that lands puts that value back into the live file |
| BaseEnvTheorems.RetryLands | src/claude.rs:6179-6208 | a job retried after a crash at any point ends in exactly the files an uninterrupted run reaches, whichever way the record was found |
| BaseEnvTheorems.RetriesLand | src/claude.rs:6179-6208 | the same after any number of crashes, each at its own point |
| BaseEnvTheorems.ApplyTwice | src/claude.rs:6756-6810 | applying an account already applied changes nothing, whatever outgoing keys the second apply is given |
| BaseEnvCuts.CutMoveMovesValueExactlyWhen | src/profile.rs:3485-3501 | after a marker move that stopped between its writes, the next job that lands moves the user's value exactly when it misreads it as after an unseen switch |
| BaseEnvCuts.CutMoveKeepsCovers | src/claude.rs:6624-6650 | a key still as clauth wrote it keeps its base through such a job |
| BaseEnvCuts.MoveAgain | src/profile.rs:3485-3501 | moving the marker again to the same account ends as the whole move; to another it does not |
| BaseEnvCuts.RunKeepsUnlessMisjudged | src/claude.rs:6179-6208 | over every run, cut marker moves included, the user's value of a key stays recoverable as long as no job misreads it |
| BaseEnvCuts.TrustedMisreadsNothing | src/claude.rs:6624-6650 | and while record and marker agree no job does |
| BaseEnvTheorems.ApplyServesAccount | src/claude.rs:7030-7095 | an apply that does not fail leaves the account's own env, and its profile fields' values, in the live file, also when it finds nothing to write |
| BaseEnvFields.EachFieldUnderItsKey | src/claude.rs:7039-7071 | an apply that does not fail leaves each profile field under its own key, the account's own env ahead of it, and a key without either gone |
| BaseEnvFields.EffortIsLive | src/claude.rs:7073-7083 | the effort field is the live effort unless the account's env names the key, and an apply that lands leaves an empty one where nothing sets it |
| BaseEnvFields.AuthTokenIsGone | src/claude.rs:7047-7051 | an apply that lands leaves no auth token but the account's own env's |
| BaseEnvConditions.UserKeysAre | src/claude.rs:6438-6440 | the keys whose base value is kept are all but the eight that profile fields own |
| BaseEnvConditions.RefusedExactlyWhen | src/claude.rs:6692-6735 | a job is refused, and with which failure, exactly over a live file, a roster or a record that does not read, where some key needs the record |
| BaseEnvConditions.FaultLeaves | src/claude.rs:6179-6208 | which files a failed first, live or last write leaves, and that the last one's is no error |
| BaseEnvConditions.MoveFaultLeaves | src/profile.rs:3485-3501 | a marker move that fails leaves the marker, and a failed note of the record that too |
| BaseEnvConditions.UnseenMovesExactlyWhen | src/claude.rs:6624-6650 | after a switch the record did not see, a job takes from the user exactly a saved value whose key is gone and a live value some account gives the key, where clauth did not write it and it is not the saved one |
| BaseEnvConditions.SecondApplyWritesNoRecord | src/claude.rs:6756-6788 | applying an account already applied writes neither record |
| BaseEnvConditions.AsideRefusedExactlyWhen | src/claude.rs:6698-6735 | a build of another file is refused only where a key of the user's is to be given back there |
| BaseEnvConditions.AsideKeepsTheRecord | src/claude.rs:6736-6810 | it covers nothing: the record it would leave is the one found, less the keys given back |
| BaseEnvMigration.CarryExactlyWhen | src/claude.rs:6564-6585 | which live values without an entry a first apply takes for clauth's, told by what each account's own file holds |
| BaseEnvConditions.AskedAre | src/claude.rs:6545-6583 | the accounts asked first are the active one if rostered, all of them when none is active, and none where an edit brings its own maps |
| BaseEnvMigration.MigrationTakesTheOutgoing | src/claude.rs:6624-6650 | the first job that lands leaves nothing of an outgoing account's own value to the user |
| BaseEnvMigration.MigrationKeepsTheUsers | src/claude.rs:6624-6650 | while every account reads, a value none of them carries stays the user's |
| BaseEnvMigration.MigrationKeepsAnEdit | src/claude.rs:6545-6583 | so does one an outgoing account names with another value, whoever else carries it |
| BaseEnvOlder.EvidenceEndsExactlyWhen | src/claude.rs:6071-6084 | the mismatch an older clauth leaves ends only with a job that lands, or with the marker's return to the recorded account |
| BaseEnvOlder.RunKeepsBase | src/claude.rs:6606-6650 | over any switches of an older clauth, marker moves and crashed applies, a covered key's entry keeps the user's value and stays recognisable |
| BaseEnvOlder.CoveredIsTraced | src/claude.rs:6606-6650 | every key clauth covers when an older clauth takes over starts out recognisable so |
| BaseEnvOlder.BaseComesBack | src/claude.rs:6732-6754 | after any number of them the next job that lands gives the user's value back |
| BaseEnvOlder.ReturnTripKeepsBase | src/claude.rs:6606-6650 | an older clauth that comes back to the recorded account loses nothing |
| Credentials.WrittenLoginReadsBack | src/profile.rs:274-299 | a login written and read back is the login, the keys clauth has no field for included |
| Credentials.RewriteKeepsTheBlock | src/profile.rs:274-299 | a login read and written back keeps every key of its block, a named one unless it was null |
| Credentials.RewrittenLogin | src/profile.rs:5166-5197 | a file rewritten with a login reads as that login, whatever else it keeps |
| TokenMerge.TokenRuleIsMaximum | src/claude.rs:5240-5277 | the token rule is the right-biased maximum over being a token, being usable and expiry, and applies exactly when either side is a token |
| TokenMerge.LoginOutlivesSignedOut | src/claude.rs:5257-5264 | a copy that can log in outlives one that cannot, on whichever side it is |
| TokenMerge.LaterLoginStays | src/claude.rs:5265-5276 | of two that can, the one that expires later stays, the source where they expire together |
| TokenMerge.TokenIsNotEmptied | src/claude.rs:5250-5256 | a token is never replaced by something that is none |
| TokenMerge.FresherCopy | src/claude.rs:5219-5237 | the merge computes the copy the algebra below is about |
| TokenMerge.AssociativeExactlyWhen | src/claude.rs:5219-5237 | merging three copies is associative if and only if not: a plain value stands between two maps of entries, and merging the first into the last would change the last |
| TokenMerge.AssociativeOnObjects | src/claude.rs:5219-5237 | on object values it always is |
| TokenMerge.PlainValueBetweenMapsDropsAnEntry | src/claude.rs:5219-5237 | an input on which it is not |
| TokenMerge.Idempotent | src/claude.rs:5219-5237 | merging a copy with itself changes nothing |
| TokenMerge.NeverRegresses | src/claude.rs:5219-5277 | nothing a merge keeps ranks below what either side held, entry by entry in a map of tokens |
| NonLoginKeys.MergeFresherKey | src/claude.rs:5181-5203 | one key of a store after a merge, and that the change reported is a change |
| NonLoginKeys.CopyNonLoginKeys | src/claude.rs:5158-5170 | the merge of one store into another, and that the change reported is a change |
| NonLoginKeys.LoginKeysUntouched | src/claude.rs:4053-4058 | no number of merges, of whatever sources, touches a login key |
| NonLoginKeys.TokensNeverRegress | src/claude.rs:5149-5170 | no number of merges loses a key or replaces a token by one that ranks below it |
| NonLoginKeys.EntriesNeverRegress | src/claude.rs:5149-5170 | where every source holds a map of entries under a key, none of its entries is deleted or replaced by a lower one |
| NonLoginKeys.CopyTwice | src/claude.rs:5158-5170 | merging the same source again changes nothing |
| McpSync.McpSyncWinners | src/claude.rs:4271-4295 | the winners loop computes the best usable copy of each server over the sources in order |
| McpSync.McpSyncApply | src/claude.rs:4304-4334 | the apply loop merges the winners into one target and reports exactly the servers it changed |
| McpSync.WinnerIsHeld | src/claude.rs:4271-4295 | a winner is one of the usable copies held |
| McpSync.WinnerIsBest | src/claude.rs:4271-4295 | every server some source holds a usable copy of has a winner, which ranks no lower |
| McpSync.OnePassConverges | src/claude.rs:4271-4334 | after one pass all stores hold the same copy of every server any of them held a usable copy of, and no such copy outranks it |
| McpSync.PassTouchesNothingElse | src/claude.rs:4304-4334 | no other key, and no server without a usable copy, changes in any store |
| McpSync.OddStoreIsLeft | src/claude.rs:4304-4315 | a store that is no object, or whose MCP logins are none, is left as it is |
| McpSync.SecondPassWritesNothing | src/claude.rs:4271-4334 | a second pass changes no store |
| SidecarFolder.Folder.StampRollingToken | src/claude.rs:391-441 | a stamp leaves its plan's writes up to the one the disk refused, and reports success only when all landed |
| SidecarFolder.Folder.PreserveStaticMint | src/claude.rs:476-558 | the same for the preservation of the mint, with its loud read failures |
| SidecarFolder.Folder.WriteSessionToken | src/claude.rs:344-375 | the same for a re-mint |
| SidecarFolder.Folder.WriteSessionTokenWithBackup | src/claude.rs:567-605 | the same for the re-mint that writes both files |
| SidecarFolder.Folder.HealMisfilledSidecar | src/claude.rs:629-666 | the same for a heal |
| SidecarFolder.Folder.LiveBackup | src/claude.rs:938-964 | the read of the backup: whether it holds a live mint, and the quarantine of one that holds none |
| SidecarFolder.Folder.RestoreStaticMint | src/claude.rs:970-1018 | the same for a restore |
| SidecarFolder.Folder.QuarantineMisfilledSidecar | src/claude.rs:681-695 | the same for the pre-clear |
| SidecarTheorems.KeepKeepsLogin | src/claude.rs:5317-5352 | the keys a sidecar writer keeps never change the login the file reads as |
| SidecarKeys.LiveKeysAreSaved | src/claude.rs:5354-5412 | the save before a sidecar is rewritten leaves the live file's keys beside the login in the store it came from, a token never regressing |
| SidecarKeys.SidecarKeysSurvive | src/claude.rs:5317-5352 | a stamp, re-mint or restore that ends well loses no key beside the login that the sidecar held and ranks none lower, and keeps its value where nothing is saved from the live file and the new file names no such key |
| SidecarKeys.StoreKeysComeAlong | src/claude.rs:5321-5343 | with no sidecar yet the keys come from the account's other store, less the logins signed out of |
| SidecarKeys.NothingElseComesAlong | src/claude.rs:5318-5338 | a mis-fill's keys do not come along, nor does anything with the setting off: the sidecar left is the new file itself |
| SidecarKeys.NewLogins | src/claude.rs:391-441 | a stamped file has the chain's access token and expiry and no refresh token, a re-minted one the given token for a year |
| SidecarTheorems.LiveMintSurvives | src/claude.rs:391-1018 | an operation that starts with a live mint in the sidecar or the backup has one in one of them at each cut |
| SidecarTheorems.StampsNeverLowerTheMint | src/claude.rs:476-558 | over any run of stamps, each cut anywhere, an expiry a mint reached and that lives at each stamp is still reached |
| SidecarTheorems.StampLowersExactlyWhen | src/claude.rs:517-558 | counting expired mints too, a stamp lowers the best one exactly when the backup's has expired and outlasted the sidecar's |
| SidecarTheorems.StampCanLowerTheMint | src/claude.rs:517-558 | two expired mints on which it does |
| SidecarTheorems.StampResult | src/claude.rs:391-441 | a stamp that ends well leaves exactly the chain's bearer in the sidecar, classified as rolling, and which mint the backup holds |
| SidecarTheorems.RemintResult | src/claude.rs:344-605 | a re-mint leaves the new mint in the sidecar; the one with a backup the same file in both |
| SidecarTheorems.PutBackResult | src/claude.rs:629-1018 | a heal or restore that ends well leaves the backup's login, a live mint with no refresh token, in the sidecar, and an empty backup slot |
| SidecarOutcomes.StampEnds | src/claude.rs:391-558 | a stamp is refused for a chain that reads as a setup token, fails where it cannot preserve one, and else leaves the one that was there in the backup, unless the backup's lasts as long; what each slot and the quarantine then hold |
| SidecarOutcomes.HealEnds | src/claude.rs:629-666 | a heal goes ahead exactly on a mis-fill it read with a living backup; what each slot and the quarantine then hold, and when it does not |
| SidecarOutcomes.RestoreEnds | src/claude.rs:938-1018 | a restore goes ahead exactly on a living backup, in the same terms |
| SidecarOutcomes.PreClearEnds | src/claude.rs:681-695 | a pre-clear goes ahead exactly on a mis-fill it read, and leaves it in the quarantine alone |
| SidecarTheorems.RestoreLowersExactlyWhen | src/claude.rs:970-1018 | a restore lowers the best mint exactly when the sidecar's outlasts the backup's |
| SidecarTheorems.MisfillIsKept | src/claude.rs:629-1018 | heal, restore and pre-clear overwrite a mis-filled sidecar only once its bytes are in the quarantine, at each cut |
| SidecarTheorems.RestoreLosesMisfillExactlyWhen | src/claude.rs:993-1008 | a restore overwrites a mis-fill unsaved exactly when the read of the sidecar failed |
| SidecarTheorems.RunKeepsBackupAMint | src/claude.rs:494-558 | over any run of all operations the backup holds nothing, what it held at first, or a mint: never a mis-fill or a rolling bearer; and the quarantine only grows |
| SidecarTheorems.NoMintBackupIsKept | src/claude.rs:546-557 | a backup that is no mint is displaced only once its bytes are in the quarantine, by every operation but the re-mint that writes both files |
| BareItem.BareItemTokenHolders | src/claude.rs:2043-2064 | the loop names exactly the profiles one of whose files holds the item's login, each once |
| BareItem.HoldersOfAllFiles | src/claude.rs:2245-2261 | over every store file of the roster those are the profiles holding it on disk |
| BareItemMachine.FillAnchors | src/claude.rs:2309-2339 | the loop of lookups, which stops at one that is pending |
| BareItemMachine.FillKeepsAnchors | src/claude.rs:2309-2339 | the lookups replace no cached account, and cache one only where that profile's own live login answered it |
| BareItemMachine.LookedUpAnchors | src/claude.rs:2788-2840 | so the accounts a settle goes by are those cached when it read the item, and answers of the stores' own logins |
| BareItemMachine.DecideSettle | src/claude.rs:2788-2840 | the settle lets the write go on exactly when there is nothing to strand, names an owner only when that profile alone has the account the item's login answered, and asks or waits in exactly the cases that call for it |
| BareItemMachine.Machine.CarryBareItemLoginInto | src/claude.rs:2491-2539 | what the carry does to the owner's store, by its gates in their order |
| BareItemMachine.Machine.SettleBareItemBeforeWrite | src/claude.rs:2788-2858 | a key to replace the item by is handed out only for a login the owner's store kept its own over, on the disk at the carry |
| BareItemMachine.Machine.SaveBareItemInto | src/claude.rs:2947-2961 | the save a user picked hands out a key only where the picked store kept its own |
| BareItemMachine.Machine.InstallItem | src/claude.rs:1702-1750 | an install leaves an item the guard keeps, and goes ahead over one it could not read |
| BareItemMachine.Machine.SignOutItem | src/keychain.rs:1624-1639 | a sign-out leaves an item the guard keeps and one in a locked keychain, and deletes one whose read failed otherwise |
| BareItemMachine.Machine.RestoreBareItem | src/claude.rs:3549-3586 | the put-back is skipped when another account became active, and otherwise is an install or a sign-out, each with its own arm over a failed read |
| BareItemMachine.Machine.CorrectBareItem | src/claude.rs:3178-3329 | the daemon's correction puts back over a login exactly when it is saved, spent or kept below its owner's and is not the active account's own, and adopts it exactly when it was saved into the active account |
| BareItemTheorems.SavedIsHeld | src/claude.rs:2491-2539 | a saved login is what the owner's file now reads as; every other file and key is as it was |
| BareItemTheorems.SavedNeedsNoPlacement | src/claude.rs:2449-2470 | and the guard then lets the item go without any placement |
| BareItemTheorems.CarryKeepsChainsApart | src/profile.rs:5666-5716 | a carry never puts one rotating chain into two profiles' stores |
| BareItemTheorems.KeptHoldsNoEarlier | src/claude.rs:1925-1936 | over a login that names an expiry, a store keeps its own only where that expires no earlier, or where the item's was spent |
| BareItemTheorems.CarryOverwritesOlder | src/claude.rs:2518-2522 | a carry writes only over a store that reads as no login, or as one that expires strictly earlier than the item's |
| BareItemTheorems.CarryNeverLowersExpiry | src/claude.rs:1925-1936 | no carry lowers when any profile's stored login expires, none reading as zero |
| BareItemTheorems.CarrySavesExactlyWhen | src/claude.rs:2491-2539 | the exact files on which a carry saves |
| BareItemTheorems.RunNeverLowersExpiry | src/claude.rs:2449-2858 | nor does any run of settles, corrections, saves and writes: only another process can |
| BareItemTheorems.SpentNeedsNoPlacement | src/claude.rs:2265-2269 | a login some rostered profile's record names spent needs no placement |
| BareItemTheorems.KeptForNothingExactlyWhen | src/claude.rs:1925-1936 | a login can be kept below a store that holds nothing as good exactly when it names no expiry past zero |
| BareItemTheorems.KeepsNothingAsGoodExactlyWhen | src/claude.rs:1925-1936 | on one disk, a store that kept its own over a login not spent holds nothing as good exactly when its file holds no login that parses |
| BareItemTheorems.SettleEarns | src/claude.rs:2788-2858 | a settle hands out a key only for a login that the store of the one profile with the login's account kept its own over |
| BareItemAnswers.GuardExactlyWhen | src/claude.rs:2449-2470 | the item may be replaced exactly when it holds no rotating pair, a profile stores its refresh token or has spent it, or the writer names it |
| BareItemAnswers.SettledExactlyWhenReplaceable | src/claude.rs:2788-2858 | over a disk nobody changes meanwhile a settle ends well exactly when the guard then lets the write go with the key it hands out |
| BareItemAnswers.PutBackFitsTheGuard | src/claude.rs:3178-3329 | so a correction puts another login in only where the guard lets it |
| BareItemAnswers.AdoptedIsTheActives | src/claude.rs:3178-3329 | a login it leaves as adopted is what the active account's file reads as |
| BareItemAnswers.OwnIsLeftAndOthersGo | src/claude.rs:3178-3329 | it leaves a login the active account alone stores, and puts that account's back over one stored elsewhere or spent |
| BareItemAnswers.LookupsAreMade | src/claude.rs:2309-2339 | where no lookup is left pending, every profile whose login answered an account has one cached, and none without one has a login the lookup is pending on |
| BareItemAnswers.AccountIsTheCached | src/claude.rs:2788-2840 | an owner goes by the id its account was first cached under now |
| BareItemAnswers.AccountIsTheClaimed | src/claude.rs:2788-2840 | or, not cached now, by the one it can be claimed by |
| BareItemAnswers.ExpiredExactlyWhen | src/claude.rs:2721-2729 | a login that parses has expired exactly when it names an expiry not after the clock |
| BareItemAnswers.CachedOwnerIsNamed | src/claude.rs:2788-2840 | a login answered for an account that one profile has cached is carried into that profile, and nobody is looked up |
| BareItemTheorems.CorrectionEarns | src/claude.rs:3178-3329 | so does the daemon's correction |
| BareItemTheorems.NoLoginStranded | src/claude.rs:2449-2858 | in every interleaving of settles, corrections, saves, other processes and Claude Code, a write changes an item only if its refresh token is saved or spent, or the write could not read it, or the profile that has the login's account held one expiring no earlier, or the user chose so |
| BareItemTheorems.UngrantedGoesExactlyWhen | src/keychain.rs:1835-1866 | a login not saved, spent or granted is written over exactly when the write's own read failed and it is an install, or a sign-out over no locked keychain |
| BareItemTheorems.UnreadItemIsWrittenOver | src/keychain.rs:1835-1866 | a login on which each of these happens |
| SwitchMachine.Machine.SnapshotUnchecked | src/claude.rs:7296-7413 | the capture of the live login: when it writes, when it writes nothing, when it fails |
| SwitchMachine.Machine.AdoptLogin | src/claude.rs:7278-7294 | the adoption of a first login, which must have been captured before it is relinked |
| SwitchMachine.Machine.SnapshotActive | src/claude.rs:7244-7266 | the snapshot before a plain switch |
| SwitchMachine.Machine.LinkProfileCredentials | src/claude.rs:5690-5770 | the guarded link: refused over a live file of Claude Code's own that is not the target's, two files that read as nothing comparing alike |
| SwitchMachine.Machine.ForceLinkProfileCredentials | src/claude.rs:7449-7493 | the forcing link, and the removal when there is nothing to link |
| SwitchMachine.Machine.ForceCaptureLiveLogin | src/actions.rs:569-577 | the forced capture, which must have landed |
| SwitchMachine.Machine.Hold | src/actions.rs:414-705 | one hold of a switch of any flavor does what its plan says, as far as the disk took the writes |
| SwitchTheorems.NotUnsavedIsHeld | src/claude.rs:1611-1618 | a live file no gate calls unsaved, and no first login, is held by a profile's store |
| SwitchTheorems.UnsavedExactlyWhen | src/claude.rs:1611-1618 | a switch asks about a live login exactly when it is Claude Code's own file, is no shell, nobody stores it, and it is no first login |
| SwitchTheorems.NoLoginIsLost | src/actions.rs:414-705 | while disk names an account active, at each write of a plain or reconciled switch the live login, unless a logged-out shell, is in the live file still or in some profile's store, but for a live file that cannot be read |
| SwitchTheorems.LosesUnreadExactlyWhen | src/claude.rs:5726-5735 | such a switch loses the login exactly when it is a plain one onto a target with nothing to install and no store holds the login |
| SwitchTheorems.PlainSwitchCanLoseAnUnreadLogin | src/claude.rs:5726-5735 | an input on which it does |
| SwitchTheorems.SwitchedLoginIsHeld | src/actions.rs:414-705 | a plain or reconciled switch that ends well, but for that one, ends with the login that was live in a store |
| SwitchTheorems.SwitchServesTarget | src/actions.rs:414-705 | a switch of any flavor that ends well leaves the live slot linked to the target's own store, or empty where that has nothing to install, and the target active |
| SwitchTheorems.OntoActiveExactlyWhen | src/actions.rs:421-430 | onto the account already active a switch relinks, or asks for the gate, exactly when the live login's refresh token is in another rostered account's store and not in its own |
| SwitchTheorems.SavesIntoActiveExactlyWhen | src/actions.rs:658-691 | the exact files and answer on which it saves the live login into the account instead |
| SwitchOutcomes.AsksExactlyWhen | src/claude.rs:1611-1618 | when a live login is nobody's, told by the files and the tokens in them |
| SwitchOutcomes.PlainSwitchEnds | src/actions.rs:449-465 | how a plain switch ends, and which account's store is left with the live login, from the files alone |
| SwitchOutcomes.DiscardEnds | src/actions.rs:522-556 | a discard is refused over an unsaved login of an account it was not answered for, and stores nothing |
| SwitchOutcomes.AnsweredReconcileEnds | src/actions.rs:682-691 | a reconcile answered for this account and login saves it; when that fails, and when it is refused |
| SwitchOutcomes.UnansweredReconcileEnds | src/actions.rs:493-508 | one answered for another is refused over an unsaved login and otherwise goes as a plain switch |
| SwitchOutcomes.SaveIntoActiveEnds | src/actions.rs:663-669 | how the save into the active account ends; the marker stays |
| SwitchOutcomes.NoneActiveEnds | src/actions.rs:449-465 | with no account active nothing is asked or stored |
| SwitchTheorems.WritesOnlyWhatWasAnswered | src/actions.rs:499-513 | over an unsaved login a reconciled switch writes anything only where the answer was about that account and that login |
| SwitchTheorems.DropsOnlyWhatWasAnswered | src/actions.rs:522-556 | a switch that drops a login is that one, or a discard whose answer was about the account active then, or over that account's first login |
| SwitchTheorems.DropsUnansweredExactlyWhen | src/actions.rs:499-556 | a discard answered for another account drops a login exactly when it goes ahead over an unheld first login |
| SwitchTheorems.DiscardCanDropAFirstLogin | src/actions.rs:522-556 | an input on which it does |
| SwitchTheorems.UngatedWritesNothing | src/actions.rs:414-430 | a call that ran no gate plans no write but in the arm that saves the active account's own live login |
| SwitchTheorems.UngatedInstallsNothing | src/actions.rs:658-691 | and in that arm the login served stays the one that was live, at each write |
| SwitchTheorems.SwitchKeepsMarker | src/actions.rs:1576-1605 | a switch leaves the roster alone and marks only a rostered, enabled target active |
| SwitchUnattended.Attempt | src/actions.rs:1381-1420 | one attempt holds with the flavor its read of the outgoing login and the caller's choice call for, about the account active at that read, and holds nothing where nobody can answer |
| SwitchUnattended.DivergesExactlyWhen | src/actions.rs:1381-1420 | when its read finds a live login that is nobody's, told by the files |
| SwitchUnattended.SwitchNoninteractive | src/actions.rs:1261-1441 | whatever peers write between its reads and holds, the unattended switch changes the live login only in a hold after the gate passed for that target, and its one retry follows a hold that wrote nothing |
| ActiveMarkerHome.Home.SwitchProfile | src/actions.rs:273-466 | a switch's effect on the record and on the process's memory |
| ActiveMarkerHome.Home.SwitchOffAccount | src/actions.rs:1472-1512 | a switch-off clears the account disk names, not the one memory does |
| ActiveMarkerHome.Home.CreateBlankProfile | src/actions.rs:3548-3587 | a create takes a name nobody folds onto, and leaves the marker |
| ActiveMarkerHome.Home.CaptureIntoProfile | src/actions.rs:4472-4622 | a capture's new account, activated only when no account is, and its undo |
| ActiveMarkerHome.Home.OverwriteCapturedProfile | src/actions.rs:4828-5095 | an overwrite's effect, its best-effort disowning included |
| ActiveMarkerHome.Home.DeleteProfile | src/actions.rs:2413-2549 | a delete removes the directory, the name and the marker that named it |
| ActiveMarkerHome.Home.RenameProfile | src/actions.rs:2205-2363 | a rename moves the directory, the name and the marker |
| ActiveMarkerHome.Home.DisableProfile | src/actions.rs:3474-3503 | a disable flips the flag only of an account active neither on disk nor in memory |
| ActiveMarkerHome.Home.EnableProfile | src/actions.rs:3511-3527 | an enable clears the flag disk holds |
| ActiveMarkerTheorems.StepKeepsMarker | src/actions.rs:273-298 | each operation, by a process with any memory, keeps the marker on a rostered and enabled account at each of its writes, but for two |
| ActiveMarkerTheorems.MarkerBreaksExactlyWhen | src/actions.rs:2205-2363 | the exact steps that break it |
| ActiveMarkerTheorems.RunKeepsMarker | src/actions.rs:271-5095 | over every interleaving, each operation cut anywhere, the marker holds unless an adoption named a disabled account or a rename of a disabled one stopped between its writes |
| ActiveMarkerTheorems.CutRenameBreaksMarker | src/actions.rs:2318-2339 | a run on which that stop does break it |
| ActiveMarkerTheorems.RunKeepsRostered | src/actions.rs:271-5095 | over every interleaving at all, those two included, the marker names a rostered account |
| ActiveMarkerResults.SwitchResult | src/actions.rs:273-466 | a switch that lands marks the target, rostered and enabled on disk and in memory, and changes no roster or flag |
| ActiveMarkerResults.SwitchOffResult | src/actions.rs:1472-1512 | a switch-off leaves no account marked and changes no roster or flag |
| ActiveMarkerResults.CreateResult | src/actions.rs:3548-3587 | a create appends the account, enabled, exactly where it is allowed and no account has its name up to case; the marker stays |
| ActiveMarkerResults.CaptureResult | src/actions.rs:4472-4622 | a capture appends the account and marks it where none was marked; one that could not be linked leaves everything as it was |
| ActiveMarkerResults.OverwriteResult | src/actions.rs:4828-5095 | which account an overwrite leaves marked |
| ActiveMarkerResults.DeleteResult | src/actions.rs:2413-2549 | a deleted account leaves the directories, the roster and the marker; another account's marker stays, and every other name |
| ActiveMarkerResults.RenameResult | src/actions.rs:2205-2363 | a rename replaces the name where it stood, on the roster, the marker and the directories, and the flag goes with it |
| ActiveMarkerResults.RenameRefused | src/actions.rs:2205-2262 | it changes nothing onto a name another account has up to case, or another directory |
| ActiveMarkerResults.DisableResult | src/actions.rs:3474-3503 | a disable flips the flag exactly of a rostered, known, enabled account with no session, active neither on disk nor in memory |
| ActiveMarkerResults.EnableResult | src/actions.rs:3511-3527 | an enable clears it exactly of a rostered, known account that disk has disabled |
| ActiveMarkerResults.ClearLoginResult | src/actions.rs:5102-5170 | a cleared login takes the marker off that account alone |
| ActiveMarkerResults.AdoptResult | src/tui/app.rs:29216-29222 | an adoption marks the account, rostered and confirmed, whether or not it is disabled |
| ActiveMarkerResults.RunKeepsNamesApart | src/actions.rs:271-5095 | over every interleaving, each operation cut anywhere, no two accounts come to have one name up to case |
| ActiveMarkerResults.RetryLandsExactlyWhen | src/actions.rs:271-5095 | an operation stopped after any write and run again leaves what it would have left uninterrupted exactly when it is no capture stopped before its undo |
| JobStoreReader.RecordlessJobDir | src/claude_jobs.rs:959-993 | the loop's verdict on a record-less directory is a function of the set of its items |
| JobStoreReader.NamedTrees.ReadJobsDir | src/claude_jobs.rs:814-937 | one store's verdict is a function of the set of its entries, and its sets are those of the entries before the first that fails |
| JobStoreReader.ReadTree | src/claude_jobs.rs:741-771 | one runtime tree's own store, and what is recorded of one that cannot be read |
| JobStoreReader.ReadAll | src/claude_jobs.rs:690-776 | one read of every store |
| JobStoreTheorems.SparesWhateverTheOrder | src/claude_jobs.rs:291-333 | whether a tree is spared, and whether an unfinished job holds it, is a function of the sets of entries, in spite of the early exits |
| JobStoreTheorems.SparesUnderWhateverTheOrder | src/claude_jobs.rs:427-549 | so is whether a directory is spared, and which unfinished trees are under it |
| JobStoreTheorems.UnfinishedJobsWhateverTheOrder | src/claude_jobs.rs:455-476 | so are the jobs counted as running, and whether the count is short |
| JobStoreTheorems.ListingOrderIsIrrelevant | src/claude_jobs.rs:281-549 | two listings of the same stores are answered alike |
| JobStoreTheorems.AnswersNest | src/claude_jobs.rs:324-549 | a tree an unfinished job holds is spared; a directory with unfinished trees or an unreadable store under it is spared |
| JobStoreFailures.SparesFailsClosed | src/claude_jobs.rs:281-333 | whatever more of the stores cannot be read, a tree a better reading spares is spared, and one it finds an unfinished job on is held |
| JobStoreFailures.UnderFailsClosed | src/claude_jobs.rs:427-549 | so is a directory that lies inside nothing unreadable, and its unfinished trees are all there or the answer is refused |
| JobStoreFailures.SparesUnderFailsClosedExactlyWhen | src/claude_jobs.rs:570-594 | the query on a directory fails closed exactly where it spares it, or the directory does not resolve, or lies inside nothing unreadable |
| JobStoreFailures.DoubtSpares | src/claude_jobs.rs:553-594 | a path whose identity cannot be told is spared wherever any identity of it would be, and one that is gone never is |
| JobStoreRecords.GlobalRecordCounts | src/claude_jobs.rs:886-905 | a record of the global store that names a tree has it spared whatever its state, and held by an unfinished job while its job runs |
| JobStoreRecords.OwnRecordCounts | src/claude_jobs.rs:881-905 | so has one of the tree's own store, unless the tree is isolated and the job has ended |
| JobStoreRecords.SparesExactlyWhen | src/claude_jobs.rs:291-333 | where every store reads whole, a tree is spared, and held by an unfinished job, exactly when such a record names it |
| JobStoreRecords.UnderExactlyWhen | src/claude_jobs.rs:427-549 | and a directory exactly when one lies under it, the unfinished ones being those answered |
| JobStoreRecords.FiledExactlyWhen | src/claude_jobs.rs:893-935 | the job ids filed under each tree, the settings files named and the trees whose flags cannot be told are exactly those of the records that count |
| JobStoreRecords.SparesSettingsExactlyWhen | src/claude_jobs.rs:485-508 | a settings file is spared exactly when a job that counts was started with it, or one on a tree that owns it with flags nobody can tell |
| JobStoreRecords.EndedRecordIsInert | src/claude_jobs.rs:886-890 | the record of an ended job in an isolated tree's store changes no answer, whatever else the stores hold |
| JobStoreDoubts.RecordlessMeans | src/claude_jobs.rs:959-993 | which leavings of a removed job, and which copies of a record being written, a directory without a record is read by |
| JobStoreDoubts.BlindExactlyWhen | src/claude_jobs.rs:690-740 | when a read answers nothing, and when a job being created holds it up |
| JobStoreDoubts.UnrecordedSparesAll | src/claude_jobs.rs:843-852 | an unrecorded job directory in the global store spares every tree, unless a removed job left it |
| JobStoreDoubts.ScopesAre | src/claude_jobs.rs:741-776 | the scopes nothing is known of are those of the profile directories not listed and of the trees whose own store is in doubt |
| JobStoreDoubts.DoubtedStoreSpares | src/claude_jobs.rs:553-594 | a tree in doubt is spared with all in it, a directory over one too, and the count of running jobs says it is short |
| JobStoreSessions.ReadAnswers | src/claude_jobs.rs:270-279 | the tree of a conversation after a read is the one the last record read gives |
| JobStoreSessions.AnswerIsOneOf | src/claude_jobs.rs:690-937 | whatever the order, it is one of the answers the sets of entries allow |
| JobStoreSessions.EachAnswerComesOut | src/claude_jobs.rs:690-937 | and each of those comes out in some order |
| JobStoreSessions.SameInEveryOrderExactlyWhen | src/claude_jobs.rs:270-279 | the tree is the same in every order of the same listings if and only if they allow one answer |
| JobStoreSessions.WholeStoresAgreeExactlyWhen | src/claude_jobs.rs:814-937 | where every store reads whole they do exactly when the records that name the conversation name one tree: those of trees' own stores, or of the global one where none of theirs does |
| JobStoreSessions.LooseStoresAgreeExactlyWhen | src/claude_jobs.rs:814-937 | where a store that stops at a failing entry names it, exactly when every other record that counts names that same tree, and there is one |
| JobStoreTheorems.SessionTreeDependsOnOrder | src/claude_jobs.rs:270-279 | two listings of two jobs that differ |
| ShellWords.Quote | src/claude.rs:6857-6906 | the quoting loop |
| ShellWords.QuotedIsOneWord | src/cc_exempt.rs:235-237 | a quoted string is read back by a shell whole, as one piece of one word, whatever characters it holds and whatever follows |
| ShellWords.PlainExactlyWhen | src/claude.rs:6857-6906 | a string is printed unquoted exactly when it is letters, digits and characters no shell minds |
| ShellWords.SpecialsNeedQuotes | src/cc_exempt.rs:235-237 | left unquoted, a character that means something to a shell would not be read as itself |
| ShellWords.BlankParts | src/claude.rs:6838-6846 | and a blank would part the word |
| ShellWords.HelperSplits | src/claude.rs:6838-6846 | a shell splits the printed command into exactly the program, the subcommand and the name |
| ShellWords.ProfileNameFromHelper | src/claude.rs:5864-5885 | the scan for the subcommand and the name after it |
| ShellWords.HelperNamesBackExactlyWhen | src/claude.rs:5864-5885 | every valid name is read back from the printed command exactly when no piece of the quoted program is the subcommand, and no name otherwise |
| SpawnArgs.FoldArgs | src/cc_exempt.rs:584-635 | the walk computes the fold |
| SpawnArgs.FindOptionsEnd | src/cc_exempt.rs:650-659 | the other walk finds where the flags end |
| SpawnArgsTheorems.FoldTwice | src/cc_exempt.rs:584-635 | folding what a fold kept gives no settings, the same words and the same advisor |
| SpawnArgsTheorems.ExactlySettingsGo | src/cc_exempt.rs:584-635 | the list splits into flags with their values; what is kept is all of them but the settings flags, and the value is the last one's |
| SpawnArgsTheorems.FoldFailsExactlyWhen | src/cc_exempt.rs:610-619 | the fold fails exactly when the walk ends at a settings flag with no word to take |
| SpawnArgsTheorems.TailIsVerbatim | src/cc_exempt.rs:650-659 | everything from the end of the flags on passes through, and is where the kept list's flags end |
| SpawnArgsAdvisor.AdvisorIsTheLast | src/cc_exempt.rs:622-645 | the advisor is the last one a flag names that is not blank, trimmed, in either spelling, and none exactly when no flag names one |
| SpawnArgsAdvisor.TrimCuts | src/cc_exempt.rs:637-645 | trimming takes white space alone, and all of it, off both ends |
| SpawnArgsAdvisor.ValueFlagTakesAnyWord | src/cc_exempt.rs:661-675 | a flag that takes a value takes the next word whatever it is, another flag or the end mark included |
| SpawnArgsAdvisor.ClusterTakesAny | src/cc_exempt.rs:678-694 | a cluster of boolean short flags that ends in `n` is such a flag |
| SpawnArgsAdvisor.ClusterTakesAnyWord | src/cc_exempt.rs:666-694 | and takes the next word too |
| SpawnArgsAdvisor.OptionalTakesUndashed | src/cc_exempt.rs:661-675 | one with an optional value takes a word with no dash |
| SpawnArgsAdvisor.OptionalLeavesDashed | src/cc_exempt.rs:661-675 | and leaves one with a dash to be read as a flag |
| SpawnArgsUnits.RegroupsExactlyWhen | src/cc_exempt.rs:584-675 | what a fold keeps has every flag's words as they were if and only if no settings flags stand between a one-word flag with an optional value and a kept unit that starts with no dash |
| SpawnArgsTheorems.FoldCanMoveAValue | src/cc_exempt.rs:666-675 | lists on which a word is taken so |
| SpawnArgsTheorems.ResumeTakesThePrompt | src/cc_exempt.rs:666-675 | `claude -r` before a folded settings flag and a prompt is such a flag |
| ProjectKey.HashCodeUnits | src/cc_exempt.rs:77-83 | the loop of wrapping 32-bit steps ends at the absolute value of the base-31 polynomial of the units reduced once to a signed 32-bit number |
| ProjectKey.Utf16ReadsBack | src/cc_exempt.rs:58-66 | the units hashed and sanitized are the string's UTF-16: they read back as its characters |
| ProjectKey.PolynomialFromTheFront | src/cc_exempt.rs:77-83 | each unit weighs 31 to the power of the units after it |
| ProjectKey.WrapRange | src/cc_exempt.rs:77-83 | the reduction is to the signed 32-bit number that differs by a multiple of 2^32 |
| ProjectKey.ToBase36 | src/cc_exempt.rs:86-97 | the digits pushed and reversed are the base-36 numeral |
| ProjectKey.Base36ReadsBack | src/cc_exempt.rs:86-97 | the numeral reads back as the number, with no leading zero |
| ProjectKey.Key | src/cc_exempt.rs:58-73 | the key is the sanitized units, cut and hashed past 200, and at most 207 letters, digits and dashes |
| StripMarker.OneHolder | src/claude_json.rs:702-712 | at most one process at a time is past the sync lock |
| StripMarker.NoStripForgotten | src/claude_json.rs:491-907 | over every interleaving of switches, passes, deaths and Claude Code's writes, a recorded strip is in the marker still, or a newer one was recorded after it, or after it a holder that had read its stamp saw the home file missing or with no identity in it |
| StripMarker.StampGoesOnlySettled | src/claude_json.rs:525-540 | one step takes a stamp out of the marker only by a newer mark, or by clearing it in a process that had read it, once it is settled |
| StripMarker.LonePass | src/claude_json.rs:777-897 | a strip nobody gets in the way of takes the identity out and nothing else, leaves no strip owed, and lets the lock go; over a file it cannot parse a switch records the strip |
| StripMarker.SwitchStripsOrRecords | src/claude_json.rs:777-802 | over every interleaving a switch is through with its strip only once it has recorded one, or held the lock over a file with no identity |
| StripMarker.HeldLockDefers | src/claude_json.rs:796-800 | where another holds the lock a switch records its strip and leaves the file, and a pass that honours the marker leaves everything |
| StripMarker.StripDefersToNewerWrites | src/claude_json.rs:829-882 | over every interleaving, while no write leaves a time and size that were there before, a strip goes on to write only a file that is still the one it read |

## Left out

- File, symlink, permission and Keychain subprocess mechanics: a path is a map entry, a rename one step, the Keychain one more slot that may not be readable.
- HTTP and OAuth refresh: the gate and the `/profile` lookup are arbitrary answers.
- Settings outside the `env` block (`model`, `advisorModel`, `apiKeyHelper`): a switch writes them with it, and they carry no record.
- BaseEnvTheorems.RunKeepsUserValue: a user edit that equals a value clauth wrote under the key is excluded, since nothing tells it apart.
- BaseEnvOlder.BaseComesBack: the roster's env values stay as they are and the user makes no edit meanwhile, and no step moves the marker back onto the recorded account (`ReturnTripKeepsBase` has that case).
- TokenMerge.TokenRuleIsMaximum: a number with a fraction is a rational, so the rounding of a floating-point expiry is not modelled.
- Credentials.WrittenLoginReadsBack: a credentials file whose top level is a JSON array, which the parser would also take, is read as torn.
- SidecarTheorems.MisfillIsKept: stamping over a mis-fill, re-minting over one and the clear commands keep no evidence, by design, and are left out; so are the readings and revocations noted beside the writes, and the size cap of one reader.
- SidecarTheorems.LiveMintSurvives: a read that fails fails for the whole operation, which holds the lock throughout.
- BareItemTheorems.NoLoginStranded: an access token identifies a login's refresh token and expiry; account ids are compared as trimmed already; the prompt of an interactive entry is its answer. The lookup memo and its windows, a `security` write that fails (it changes nothing), a save as a new profile, and the bytes a failed read brought back, which are set aside first, are left out.
- SwitchTheorems.NoLoginIsLost: the discard answer (which `DropsOnlyWhatWasAnswered` is about), a switch with no account active and the automatic switch-off drop an unsaved live login by choice and are excluded. A link is one clauth put there, into a profile's store. Files equal as JSON count as equal bytes. Keys beside a login, the Keychain half of a relink and the settings a switch writes are not in this part.
- SwitchTheorems.SwitchedLoginIsHeld: an account on the marker is on the roster (`ActiveMarkerTheorems.RunKeepsRostered` keeps that, over every run). A profile's stores can be read.
- ActiveMarkerResults.RetryLandsExactlyWhen: the second run gets the answers from outside that the first did; that a create is refused over an orphan directory holding a login is one of them.
- ActiveMarkerTheorems.RunKeepsMarker: hand edits of `profiles.toml` and of an account's config are excluded, as are file systems on which two spellings of a name are one directory.
- JobStoreTheorems.SparesUnderWhateverTheOrder: which unreadable store a refusal names first depends on the order and is left out of the answer, as are `names`, `job_ids_naming` and the log-line queries.
- JobStoreRecords.SparesSettingsExactlyWhen: the file and the trees that own it have paths that can be told; where they cannot, the query answers yes while anything is named.
- JobStoreReader.NamedTrees.ReadJobsDir: a record is its parsed fields; the parse, its fallback and the path a failure names are left out.
- ShellWords.HelperSplits: the quoting of the Windows shell, and a first word that reads as a variable assignment, which a program's absolute path never does.
- SpawnArgs.FoldArgs: what is done with the folded settings value, and the worktree resolution behind a project key's base.
- StripMarker.NoStripForgotten: the comparison and the delete of a marker are one step, as the source documents the window between them as accepted; a mark whose own write fails records nothing; the bound on retries and its log line are left out.
- Small latches, setters, sockets, prompts, message texts and platform fallbacks: they would only add easy members.
