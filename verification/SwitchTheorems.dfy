/** What no switch loses, and what an ungated one never does. */
module SwitchTheorems {
  import opened Wrappers
  import opened Credentials
  import opened Journal
  import ActiveMarker
  import opened SwitchProtocol

  /* ---------- a login is held ---------- */

  predicate SameLogin(a: Parsed, b: Parsed) {
    || (AccessOf(a).Some? && AccessOf(a) == AccessOf(b))
    || (RefreshOf(a).Some? && RefreshOf(a) == RefreshOf(b))
  }

  /** A profile's file holds these bytes, or this login. */
  predicate HeldAt(disk: Disk, name: string, file: StoreFile, content: Content) {
    var held := disk.FileAt(name, file);
    held.Some? && (held.value == content || SameLogin(ReadLogin(held.value), ReadLogin(content)))
  }

  ghost predicate Held(disk: Disk, content: Content) {
    exists name, file :: HeldAt(disk, name, file, content)
  }

  /** The login is in the live file still, or in some profile's store. */
  ghost predicate Safe(disk: Disk, content: Content) {
    disk.live == Regular(content) || disk.live == Sealed(content) || Held(disk, content)
  }

  /** A write puts nothing but this login into a store. */
  predicate Saves(write: Write, content: Content) {
    write.PutStore? ==> SameLogin(ReadLogin(write.content), ReadLogin(content))
  }

  predicate AllSave(writes: seq<Write>, content: Content) {
    forall i :: 0 <= i < |writes| ==> Saves(writes[i], content)
  }

  lemma StaysHeld(disk: Disk, write: Write, content: Content)
    requires Held(disk, content) && Saves(write, content)
    ensures Held(Changed(disk, write), content)
  {
    var name, file :| HeldAt(disk, name, file, content);
    if write.PutStore? && write.name == name {
      assert HeldAt(Changed(disk, write), name, if file.CredentialsFile? then CredentialsFile else file, content);
    } else {
      assert HeldAt(Changed(disk, write), name, file, content);
    }
  }

  lemma {:induction false} HeldStaysSafe(disk: Disk, writes: seq<Write>, content: Content)
    requires Held(disk, content) && AllSave(writes, content)
    ensures Throughout(disk, writes, Changed, x => Safe(x, content))
    decreases |writes|
  {
    if writes == [] {
    } else {
      StaysHeld(disk, writes[0], content);
      HeldStaysSafe(Changed(disk, writes[0]), writes[1..], content);
    }
  }

  /** It is enough that the first write saves an unheld login. */
  lemma FirstWriteSaves(disk: Disk, writes: seq<Write>, content: Content)
    requires Safe(disk, content) && AllSave(writes, content)
    requires writes != [] && !Held(disk, content) ==> writes[0].PutStore?
    ensures Throughout(disk, writes, Changed, x => Safe(x, content))
  {
    if Held(disk, content) {
      HeldStaysSafe(disk, writes, content);
    } else if writes != [] {
      var next := Changed(disk, writes[0]);
      assert HeldAt(next, writes[0].name, CredentialsFile, content);
      HeldStaysSafe(next, writes[1..], content);
    }
  }

  /* ---------- what the questions about the live login mean ---------- */

  lemma SameAccessIsHeld(disk: Disk, name: string, file: StoreFile, content: Content)
    requires SameAccess(Some(content), disk.FileAt(name, file))
    ensures Held(disk, content)
  {
    assert HeldAt(disk, name, file, content);
  }

  lemma StoredElsewhereIsHeld(disk: Disk, name: string, content: Content)
    requires StoredElsewhere(disk, name, ReadLogin(content))
    ensures Held(disk, content)
  {
    var refresh := RefreshOf(ReadLogin(content)).value;
    var i :| 0 <= i < |disk.record.roster| && HoldsChain(disk.credentials, disk.record.roster[i], refresh);
    assert HeldAt(disk, disk.record.roster[i], CredentialsFile, content);
  }

  /** A live file no gate calls unsaved, and no first login, is held. */
  lemma NotUnsavedIsHeld(disk: Disk, active: string, content: Content)
    requires disk.live == Regular(content) && !IsEmpty(ReadLogin(content))
    requires !DivergedAndUnsaved(disk, active) && !IsFirstLogin(disk, active)
    ensures Held(disk, content)
  {
    if ClassifyLink(disk, active).LinkedTo? {
      SameAccessIsHeld(disk, active, InstallSource(disk, active), content);
    } else if SavedElsewhere(disk, active) {
      StoredElsewhereIsHeld(disk, active, content);
    } else if SameAccess(disk.LiveContent(), disk.FileAt(active, CredentialsFile)) {
      SameAccessIsHeld(disk, active, CredentialsFile, content);
    } else {
      SameAccessIsHeld(disk, active, SessionFile, content);
    }
  }

  /** A linked live file's bytes are in a store. */
  lemma LinkedIsHeld(disk: Disk, content: Content)
    requires disk.live.Link? && disk.LiveContent() == Some(content)
    ensures Held(disk, content)
  {
    assert HeldAt(disk, disk.live.name, disk.live.file, content);
  }

  /* ---------- what a capture writes ---------- */

  lemma CaptureSaves(disk: Disk, active: string)
    ensures var writes := CaptureLive(disk, active).writes;
      && |writes| <= 1
      && (writes != [] ==> writes[0].PutStore? && writes[0].name == active && disk.LiveContent().Some?
                           && ReadLogin(writes[0].content) == ReadLogin(disk.LiveContent().value)
                           && ReadLogin(disk.LiveContent().value).Login?
                           && AllSave(writes, disk.LiveContent().value))
  {
    var writes := CaptureLive(disk, active).writes;
    if writes != [] {
      var oauth := ReadLogin(disk.LiveContent().value).oauth;
      var existing := disk.FileAt(active, CredentialsFile);
      RewrittenLogin(oauth, if existing.Some? && existing.value.Doc? then Some(existing.value.json) else None);
    }
  }

  /** A first login of the active account is captured. */
  lemma FirstLoginIsCaptured(disk: Disk, active: string)
    requires IsFirstLogin(disk, active)
    requires active in disk.record.roster && disk.record.active == Some(active)
    ensures CaptureLive(disk, active).writes != [] && CaptureLive(disk, active).outcome == Switched
  {}

  /** A live login as the theorem protects it: anything but nothing and a logged-out shell. */
  predicate Protected(disk: Disk, content: Content) {
    disk.LiveBytes() == Some(content) && !IsEmpty(ReadLogin(content))
  }

  lemma StartsSafe(disk: Disk, content: Content)
    requires Protected(disk, content)
    ensures Safe(disk, content)
  {
    if disk.live.Link? {
      LinkedIsHeld(disk, content);
    }
  }

  lemma SnapshotSaves(disk: Disk, active: string, torn: bool, content: Content)
    requires Protected(disk, content)
    requires active in disk.record.roster && disk.record.active == Some(active)
    ensures var plan := Snapshot(disk, Some(active), torn);
      && AllSave(plan.writes, content)
      && (plan.writes != [] && !Held(disk, content) ==> plan.writes[0].PutStore?)
      && (plan.writes == [] && !DivergedAndUnsaved(disk, active) ==> Held(disk, content) || plan.outcome != Switched)
  {
    CaptureSaves(disk, active);
    if disk.live.Link? {
      LinkedIsHeld(disk, content);
    } else if IsFirstLogin(disk, active) {
      FirstLoginIsCaptured(disk, active);
    } else if !DivergedAndUnsaved(disk, active) {
      NotUnsavedIsHeld(disk, active, content);
    }
  }

  lemma ForceCaptureSaves(disk: Disk, active: string, content: Content)
    requires Protected(disk, content)
    requires active in disk.record.roster && disk.record.active == Some(active)
    ensures var plan := ForceCapture(disk, Some(active));
      && AllSave(plan.writes, content)
      && (plan.writes != [] ==> plan.writes[0].PutStore?)
      && (plan.writes == [] ==> Held(disk, content) || plan.outcome != Switched)
  {
    CaptureSaves(disk, active);
    if disk.live.Link? {
      LinkedIsHeld(disk, content);
    } else if IsFirstLogin(disk, active) {
      FirstLoginIsCaptured(disk, active);
    } else if !DivergedAndUnsaved(disk, active) {
      NotUnsavedIsHeld(disk, active, content);
    }
  }

  /** A guarded link goes ahead only over a login the target stores. */
  lemma GuardedLinkIsHeld(disk: Disk, name: string, content: Content)
    requires disk.live == Regular(content) && GuardedLink(disk, name).outcome == Switched
    ensures Held(disk, content)
  {
    var target := Expected(disk, name);
    if target == Some(content) {
      assert HeldAt(disk, name, InstallSource(disk, name), content);
    } else {
      SameAccessIsHeld(disk, name, InstallSource(disk, name), content);
    }
  }

  /* ---------- no login is lost ---------- */

  /** The writes save only this login, and the first of them does unless it is held already. */
  ghost predicate SavesFirst(disk: Disk, writes: seq<Write>, content: Content) {
    AllSave(writes, content) && (writes != [] && !Held(disk, content) ==> writes[0].PutStore?)
  }

  lemma LinkSavesNothing(disk: Disk, name: string, guarded: bool, settings: bool, content: Content)
    ensures AllSave(ForceLink(disk, name).writes, content)
    ensures AllSave(LinkAndFinish(disk, name, guarded, settings).writes, content)
  {}

  lemma AndThenSavesFirst(disk: Disk, first: Plan, rest: Plan, content: Content)
    requires SavesFirst(disk, first.writes, content) && AllSave(rest.writes, content)
    requires first.writes == [] && first.outcome == Switched && !Held(disk, content) ==> rest.writes == []
    ensures SavesFirst(disk, AndThen(first, rest).writes, content)
  {}

  lemma PlainSaves(disk: Disk, call: Call, content: Content)
    requires Protected(disk, content) && call.flavor.Plain?
    requires disk.live.Sealed? ==> Expected(disk, call.name).Some?
    requires disk.record.active.Some? && ActiveMarker.MarkerRostered(disk.record)
    ensures SavesFirst(disk, Away(disk, call).writes, content)
  {
    var active := disk.record.active.value;
    var snapshot := Snapshot(disk, disk.record.active, call.torn);
    var guarded := DivergedAndUnsaved(disk, active);
    var rest := LinkAndFinish(Done(disk, snapshot.writes), call.name, guarded, call.settings);
    SnapshotSaves(disk, active, call.torn, content);
    LinkSavesNothing(Done(disk, snapshot.writes), call.name, guarded, call.settings, content);
    if disk.live.Regular? && guarded && snapshot.writes == [] && GuardedLink(disk, call.name).outcome == Switched {
      GuardedLinkIsHeld(disk, call.name, content);
    }
    AndThenSavesFirst(disk, snapshot, rest, content);
  }

  lemma ReconcileSaves(disk: Disk, call: Call, content: Content)
    requires Protected(disk, content) && call.flavor.Reconcile?
    requires disk.record.active.Some? && ActiveMarker.MarkerRostered(disk.record)
    ensures SavesFirst(disk, Away(disk, call).writes, content)
  {
    var active := disk.record.active.value;
    SnapshotSaves(disk, active, call.torn, content);
    ForceCaptureSaves(disk, active, content);
    var taken := if Unanswered(disk, call.flavor.answered, call.flavor.login)
                 then Snapshot(disk, disk.record.active, call.torn) else ForceCapture(disk, disk.record.active);
    if !RefusesUnanswered(disk, call.flavor.answered, call.flavor.login) {
      var rest := LinkAndFinish(Done(disk, taken.writes), call.name, false, call.settings);
      LinkSavesNothing(Done(disk, taken.writes), call.name, false, call.settings, content);
      AndThenSavesFirst(disk, taken, rest, content);
    }
  }

  lemma SaveIntoActiveSaves(disk: Disk, call: Call, content: Content)
    requires Protected(disk, content) && call.flavor.Reconcile? && SavesIntoActive(disk, call)
    requires ActiveMarker.MarkerRostered(disk.record)
    ensures SavesFirst(disk, SaveIntoActive(disk, call).writes, content)
  {
    var capture := ForceCapture(disk, disk.record.active);
    ForceCaptureSaves(disk, call.name, content);
    LinkSavesNothing(Done(disk, capture.writes), call.name, false, true, content);
  }

  /** A plain switch onto a target with nothing to install, over a live file that cannot be read. */
  predicate DropsUnread(disk: Disk, call: Call) {
    && disk.live.Sealed? && call.flavor.Plain? && Expected(disk, call.name).None?
    && ActiveMarker.SwitchTargetOk(disk.record, call.memory, call.name)
    && call.gated && disk.record.active != Some(call.name)
  }

  /** The first write of a plain or reconciled switch saves the live login, unless it is held. */
  lemma PlanSaves(disk: Disk, call: Call, content: Content)
    requires Protected(disk, content) && !call.flavor.Discard? && !DropsUnread(disk, call)
    requires disk.record.active.Some? && ActiveMarker.MarkerRostered(disk.record)
    ensures SavesFirst(disk, PlanOf(disk, call).writes, content)
  {
    if SavesIntoActive(disk, call) {
      SaveIntoActiveSaves(disk, call, content);
    } else if disk.record.active == Some(call.name) {
      if SavedElsewhere(disk, call.name) {
        StoredElsewhereIsHeld(disk, call.name, content);
      }
      LinkSavesNothing(disk, call.name, false, true, content);
    } else if call.flavor.Plain? {
      if PlanOf(disk, call).writes != [] {
        PlainSaves(disk, call, content);
      }
    } else {
      ReconcileSaves(disk, call, content);
    }
  }

  /** While disk names an account active, a plain or reconciled switch loses no login: at each of its
      writes the live login, unless a logged-out shell, is in the live file still or in some profile's
      store, whatever the live file is: a link, a file of Claude Code's, one that does not parse, a
      first login, or a login another account stores; but for one that cannot be read
      (`LosesUnreadExactlyWhen`). */
  lemma NoLoginIsLost(disk: Disk, call: Call, content: Content, room: nat)
    requires Protected(disk, content) && !call.flavor.Discard?
    requires disk.record.active.Some? && ActiveMarker.MarkerRostered(disk.record)
    ensures Safe(After(disk, call, room), content) || DropsUnread(disk, call)
  {
    StartsSafe(disk, content);
    if !DropsUnread(disk, call) {
      PlanSaves(disk, call, content);
      FirstWriteSaves(disk, PlanOf(disk, call).writes, content);
      AtEveryCut(disk, PlanOf(disk, call).writes, Changed, x => Safe(x, content), room);
    }
  }

  /** A switch that is no discard loses the live login in one case: the file it is in cannot be read, the
      switch is a plain one onto a target with nothing to install, and no store holds the login. */
  lemma LosesUnreadExactlyWhen(disk: Disk, call: Call, content: Content)
    requires Protected(disk, content) && !call.flavor.Discard?
    requires disk.record.active.Some? && ActiveMarker.MarkerRostered(disk.record)
    ensures (exists room: nat :: !Safe(After(disk, call, room), content)) <==>
      DropsUnread(disk, call) && !Held(disk, content)
  {
    if room: nat :| !Safe(After(disk, call, room), content) {
      NoLoginIsLost(disk, call, content, room);
      if Held(disk, content) {
        HeldIsNotLost(disk, call, content, room);
      }
    }
    if DropsUnread(disk, call) && !Held(disk, content) {
      UnreadIsRemoved(disk, call);
      RelinkDrops(disk, call, content);
    }
  }

  lemma HeldIsNotLost(disk: Disk, call: Call, content: Content, room: nat)
    requires DropsUnread(disk, call) && Held(disk, content)
    ensures Safe(After(disk, call, room), content)
  {
    var writes := PlanOf(disk, call).writes;
    if disk.record.active.Some? {
      CaptureSaves(disk, disk.record.active.value);
    }
    assert AllSave(writes, content);
    HeldStaysSafe(disk, writes, content);
    AtEveryCut(disk, writes, Changed, x => Safe(x, content), room);
  }

  /** The guard lets the unread file go: its bytes and the target's read alike, as none. */
  lemma UnreadIsRemoved(disk: Disk, call: Call)
    requires DropsUnread(disk, call)
    ensures var writes := PlanOf(disk, call).writes; writes != [] && writes[0] == PutLive(Missing)
  {}

  predicate Moved(outcome: Outcome) {
    outcome.Switched? || outcome.Relinked? || outcome.SavedIntoActive?
  }

  /** The live slot is linked to the profile's install source, or empty where that holds nothing that
      parses. */
  predicate Serves(disk: Disk, name: string) {
    disk.live == if Linkable(disk, name) then Link(name, InstallSource(disk, name)) else Missing
  }

  lemma ForceLinkMoves(disk: Disk, name: string)
    ensures ForceLink(disk, name).outcome == Switched
    ensures var after := Done(disk, ForceLink(disk, name).writes);
      after == disk.(live := after.live) && Serves(after, name)
  {
    var writes := ForceLink(disk, name).writes;
    if writes != [] {
      ReplayOne(disk, writes[0], Changed);
    }
  }

  lemma LinkAndFinishMoves(disk: Disk, name: string, guarded: bool, settings: bool)
    requires LinkAndFinish(disk, name, guarded, settings).outcome == Switched
    ensures var after := Done(disk, LinkAndFinish(disk, name, guarded, settings).writes);
      Serves(after, name) && after.record.active == Some(name)
  {
    var writes := ForceLink(disk, name).writes;
    ForceLinkMoves(disk, name);
    ReplayTogether(disk, writes, [SetActive(name)], Changed);
    ReplayOne(Done(disk, writes), SetActive(name), Changed);
  }

  lemma AndThenMoves(disk: Disk, first: Plan, rest: Plan)
    requires first.outcome == Switched
    ensures Done(disk, AndThen(first, rest).writes) == Done(Done(disk, first.writes), rest.writes)
  {
    ReplayTogether(disk, first.writes, rest.writes, Changed);
  }

  lemma LinkedAfter(disk: Disk, first: Plan, name: string, guarded: bool, settings: bool)
    requires AndThen(first, LinkAndFinish(Done(disk, first.writes), name, guarded, settings)).outcome == Switched
    ensures var after := Done(disk, AndThen(first, LinkAndFinish(Done(disk, first.writes), name, guarded, settings)).writes);
      Serves(after, name) && after.record.active == Some(name)
  {
    LinkAndFinishMoves(Done(disk, first.writes), name, guarded, settings);
    AndThenMoves(disk, first, LinkAndFinish(Done(disk, first.writes), name, guarded, settings));
  }

  lemma AwayIsLinked(disk: Disk, call: Call)
    requires Away(disk, call).outcome == Switched
    ensures var after := Done(disk, Away(disk, call).writes);
      Serves(after, call.name) && after.record.active == Some(call.name)
  {
    match call.flavor {
      case Plain =>
        var guarded := disk.record.active.Some? && DivergedAndUnsaved(disk, disk.record.active.value);
        LinkedAfter(disk, Snapshot(disk, disk.record.active, call.torn), call.name, guarded, call.settings);
      case Discard(answered) =>
        LinkAndFinishMoves(disk, call.name, false, call.settings);
      case Reconcile(answered, login) =>
        var taken := if Unanswered(disk, answered, login) then Snapshot(disk, disk.record.active, call.torn)
                     else ForceCapture(disk, disk.record.active);
        LinkedAfter(disk, taken, call.name, false, call.settings);
    }
  }

  predicate Plainly(outcome: Outcome) {
    outcome.Switched? || outcome.Refused? || outcome.Failed?
  }

  lemma TakenOutcomes(disk: Disk, active: Option<string>, torn: bool)
    ensures Plainly(Snapshot(disk, active, torn).outcome) && Plainly(ForceCapture(disk, active).outcome)
  {}

  lemma LinkOutcomes(disk: Disk, name: string, guarded: bool, settings: bool)
    ensures Plainly(LinkAndFinish(disk, name, guarded, settings).outcome)
  {}

  lemma AwayOutcomes(disk: Disk, call: Call)
    ensures Moved(Away(disk, call).outcome) ==> Away(disk, call).outcome == Switched
  {
    var active := disk.record.active;
    TakenOutcomes(disk, active, call.torn);
    forall x: Disk, guarded ensures Plainly(LinkAndFinish(x, call.name, guarded, call.settings).outcome) {
      LinkOutcomes(x, call.name, guarded, call.settings);
    }
  }

  /** A switch of any flavor that ends well serves its target: the live slot is linked to the target's
      own store, or empty where that has nothing to install, and the target is the account active. */
  lemma SwitchServesTarget(disk: Disk, call: Call)
    requires Moved(PlanOf(disk, call).outcome)
    ensures var after := Done(disk, PlanOf(disk, call).writes);
      && Serves(after, call.name) && after.record.active == Some(call.name)
      && !ClassifyLink(after, call.name).Diverged?
  {
    if SavesIntoActive(disk, call) {
      var capture := ForceCapture(disk, disk.record.active);
      var captured := Done(disk, capture.writes);
      CaptureSaves(disk, call.name);
      if capture.writes != [] {
        assert capture.writes == [capture.writes[0]];
        ReplayOne(disk, capture.writes[0], Changed);
      }
      ForceLinkMoves(captured, call.name);
      AndThenMoves(disk, capture, ForceLink(captured, call.name));
    } else if disk.record.active == Some(call.name) {
      ForceLinkMoves(disk, call.name);
    } else {
      AwayOutcomes(disk, call);
      AwayIsLinked(disk, call);
    }
  }

  /** A plain or reconciled switch that ends well ends with the login that was live held by some
      profile's store. */
  lemma SwitchedLoginIsHeld(disk: Disk, call: Call, content: Content)
    requires Protected(disk, content) && !call.flavor.Discard?
    requires disk.record.active.Some? && ActiveMarker.MarkerRostered(disk.record)
    requires Moved(PlanOf(disk, call).outcome)
    ensures Held(Done(disk, PlanOf(disk, call).writes), content) || DropsUnread(disk, call)
  {
    NoLoginIsLost(disk, call, content, |PlanOf(disk, call).writes|);
    SwitchServesTarget(disk, call);
  }

  /* ---------- what an answer covers ---------- */

  /** No store of the active profile has the live login's access token, and no other profile's its refresh
      token. */
  predicate Unstored(disk: Disk, active: string) {
    && !SameAccess(disk.LiveContent(), disk.FileAt(active, CredentialsFile))
    && !SameAccess(disk.LiveContent(), disk.FileAt(active, SessionFile))
    && !SavedElsewhere(disk, active)
  }

  /** A switch asks what to do with the live login exactly when its file cannot be read, or it is in a file
      of Claude Code's own, is no logged-out shell, nobody stores it, and it is no first login of an
      account that has none. */
  lemma UnsavedExactlyWhen(disk: Disk, active: string)
    ensures DivergedAndUnsaved(disk, active) <==>
      || disk.live.Sealed?
      || (&& disk.live.Regular? && !IsEmpty(ReadLogin(disk.live.content)) && Unstored(disk, active)
          && (Expected(disk, active).Some? || ReadLogin(disk.live.content).Torn?))
  {}

  /** A switch that drops a login drops one it was answered for: a discard, and the account the answer
      was about is the one active when the switch runs. */
  lemma DropsOnlyWhatWasAnswered(disk: Disk, call: Call, content: Content, room: nat)
    requires Protected(disk, content)
    requires disk.record.active.Some? && ActiveMarker.MarkerRostered(disk.record)
    requires !Safe(After(disk, call, room), content)
    ensures call.flavor.Discard? || DropsUnread(disk, call)
    ensures call.flavor.Discard? ==>
      call.flavor.answered == disk.record.active || IsFirstLogin(disk, disk.record.active.value)
  {
    var active := disk.record.active.value;
    var writes := PlanOf(disk, call).writes;
    if !call.flavor.Discard? {
      NoLoginIsLost(disk, call, content, room);
    } else {
      StartsSafe(disk, content);
      if Held(disk, content) {
        assert AllSave(writes, content);
        HeldStaysSafe(disk, writes, content);
        AtEveryCut(disk, writes, Changed, x => Safe(x, content), room);
      } else if disk.live.Regular? && !DivergedAndUnsaved(disk, active) && !IsFirstLogin(disk, active) {
        NotUnsavedIsHeld(disk, active, content);
      }
    }
  }

  /** A discard for an account no longer active still drops a login in one case: a first login of the
      account now active, which nobody stores and no gate calls unsaved. */
  lemma DropsUnansweredExactlyWhen(disk: Disk, call: Call, content: Content)
    requires Protected(disk, content) && call.flavor.Discard? && call.flavor.answered != disk.record.active
    requires disk.record.active.Some? && ActiveMarker.MarkerRostered(disk.record)
    ensures (exists room: nat :: !Safe(After(disk, call, room), content)) <==>
      && ActiveMarker.SwitchTargetOk(disk.record, call.memory, call.name)
      && call.gated && disk.record.active != Some(call.name)
      && IsFirstLogin(disk, disk.record.active.value) && !Held(disk, content)
  {
    var writes := PlanOf(disk, call).writes;
    if room: nat :| !Safe(After(disk, call, room), content) {
      DropsOnlyWhatWasAnswered(disk, call, content, room);
      StartsSafe(disk, content);
      if Held(disk, content) {
        assert AllSave(writes, content);
        HeldStaysSafe(disk, writes, content);
        AtEveryCut(disk, writes, Changed, x => Safe(x, content), room);
      }
    }
    if && ActiveMarker.SwitchTargetOk(disk.record, call.memory, call.name)
       && call.gated && disk.record.active != Some(call.name)
       && IsFirstLogin(disk, disk.record.active.value) && !Held(disk, content)
    {
      assert writes != [] && writes[0].PutLive? && (writes[0].live.Missing? || writes[0].live.Link?);
      RelinkDrops(disk, call, content);
    }
  }

  lemma RelinkDrops(disk: Disk, call: Call, content: Content)
    requires !Held(disk, content)
    requires var writes := PlanOf(disk, call).writes;
      writes != [] && writes[0].PutLive? && (writes[0].live.Missing? || writes[0].live.Link?)
    ensures !Safe(After(disk, call, 1), content)
  {
    FirstWriteLands(disk, call);
    OnlyStoresHold(disk, After(disk, call, 1), content);
  }

  lemma FirstWriteLands(disk: Disk, call: Call)
    requires PlanOf(disk, call).writes != []
    ensures After(disk, call, 1) == Changed(disk, PlanOf(disk, call).writes[0])
  {
    var writes := PlanOf(disk, call).writes;
    assert Taken(writes, 1) == [writes[0]];
    ReplayOne(disk, writes[0], Changed);
  }

  lemma OnlyStoresHold(before: Disk, after: Disk, content: Content)
    requires before.credentials == after.credentials && before.sessions == after.sessions
    ensures Held(after, content) <==> Held(before, content)
  {
    if Held(after, content) {
      var name, file :| HeldAt(after, name, file, content);
      assert HeldAt(before, name, file, content);
    }
    if Held(before, content) {
      var name, file :| HeldAt(before, name, file, content);
      assert HeldAt(after, name, file, content);
    }
  }

  const FIRST_LOGIN := OAuth("at", Some("rt"), None, None, None, map[])

  /** The account `a` is active, and its first login is not saved yet. */
  const BEFORE_DISCARD :=
    Disk(ActiveMarker.Record(Some("a"), ["a", "b", "c"], map[]), map[], map[], Regular(FileOf(FIRST_LOGIN)))

  /** A switch onto `c` that may discard the login of `b`. */
  const DISCARD_OF_B :=
    Call("c", Discard(Some("b")), true, ActiveMarker.Memory(None, map["c" := false]), false, true)

  /** It happens: `b` was active at the prompt, and `a` is by the switch. */
  lemma DiscardCanDropAFirstLogin()
    ensures exists room: nat :: !Safe(After(BEFORE_DISCARD, DISCARD_OF_B, room), FileOf(FIRST_LOGIN))
  {
    WrittenLoginReadsBack(FIRST_LOGIN);
    assert ["a", "b", "c"][0] == "a" && ["a", "b", "c"][2] == "c";
    assert "a"[0] != "b"[0] && "a"[0] != "c"[0];
    assert IsFirstLogin(BEFORE_DISCARD, "a");
    assert !Held(BEFORE_DISCARD, FileOf(FIRST_LOGIN));
    DropsUnansweredExactlyWhen(BEFORE_DISCARD, DISCARD_OF_B, FileOf(FIRST_LOGIN));
  }

  /** A switch onto `c`, which stores nothing, while the live file cannot be read. */
  const BEFORE_REMOVAL := BEFORE_DISCARD.(live := Sealed(FileOf(FIRST_LOGIN)))
  const ONTO_NOTHING := DISCARD_OF_B.(flavor := Plain)

  /** It loses the login. */
  lemma PlainSwitchCanLoseAnUnreadLogin()
    ensures exists room: nat :: !Safe(After(BEFORE_REMOVAL, ONTO_NOTHING, room), FileOf(FIRST_LOGIN))
  {
    WrittenLoginReadsBack(FIRST_LOGIN);
    assert ["a", "b", "c"][0] == "a" && ["a", "b", "c"][2] == "c";
    assert "a"[0] != "c"[0];
    assert DropsUnread(BEFORE_REMOVAL, ONTO_NOTHING);
    assert !Held(BEFORE_REMOVAL, FileOf(FIRST_LOGIN));
    LosesUnreadExactlyWhen(BEFORE_REMOVAL, ONTO_NOTHING, FileOf(FIRST_LOGIN));
  }

  /** Over an unsaved login a reconciled switch writes anything only where the answer was about that
      account and that login. */
  lemma WritesOnlyWhatWasAnswered(disk: Disk, call: Call, i: nat)
    requires call.flavor.Reconcile? && disk.record.active.Some?
    requires DivergedAndUnsaved(disk, disk.record.active.value)
    requires i < |PlanOf(disk, call).writes|
    ensures call.flavor.answered == disk.record.active
    ensures call.flavor.login.Seen? ==> AccessOf(LoginIn(disk.LiveContent())) == call.flavor.login.access
  {}

  /* ---------- a switch onto the account already active ---------- */

  /** The live login's refresh token is in another rostered profile's stored login, and not in this one's. */
  predicate ServesAnother(disk: Disk, name: string) {
    var live := disk.LiveContent();
    && live.Some? && ReadLogin(live.value).Login? && ReadLogin(live.value).oauth.refreshToken.Some?
    && var refresh := ReadLogin(live.value).oauth.refreshToken.value;
       && refresh != "" && !HoldsChain(disk.credentials, name, refresh)
       && exists i :: 0 <= i < |disk.record.roster| && disk.record.roster[i] != name
                      && HoldsChain(disk.credentials, disk.record.roster[i], refresh)
  }

  /** Onto the account already active a switch moves exactly off a login another account stores: gated, it
      relinks to the account's own store; ungated, it asks for the gate; and over any other live login it
      answers that there is nothing to do. */
  lemma OntoActiveExactlyWhen(disk: Disk, call: Call)
    requires ActiveMarker.SwitchTargetOk(disk.record, call.memory, call.name)
    requires disk.record.active == Some(call.name) && !SavesIntoActive(disk, call)
    ensures var plan := PlanOf(disk, call);
      if !ServesAnother(disk, call.name) then plan.outcome == AlreadyActive && plan.writes == []
      else if !call.gated then plan.outcome == GateNeeded && plan.writes == []
      else
        var after := Done(disk, plan.writes);
        && plan.outcome == Relinked && |plan.writes| <= 1
        && Serves(after, call.name) && after == disk.(live := after.live)
  {
    if ServesAnother(disk, call.name) && call.gated {
      ForceLinkMoves(disk, call.name);
    }
  }

  /** The save arm: an answer for the account already active, whose live login nobody stores. */
  lemma SavesIntoActiveExactlyWhen(disk: Disk, call: Call)
    ensures SavesIntoActive(disk, call) <==>
      && call.flavor.Reconcile? && call.flavor.answered == Some(call.name) && disk.record.active == Some(call.name)
      && (|| disk.live.Sealed?
          || (&& disk.live.Regular? && !IsEmpty(ReadLogin(disk.live.content)) && Unstored(disk, call.name)
              && (Expected(disk, call.name).Some? || ReadLogin(disk.live.content).Torn?)))
  {
    UnsavedExactlyWhen(disk, call.name);
  }

  /* ---------- the gate ---------- */

  /** A switch that ran no gate writes nothing, but for the arm that saves the active account's own
      live login. */
  lemma UngatedWritesNothing(disk: Disk, call: Call)
    requires !call.gated
    ensures PlanOf(disk, call).writes == [] || SavesIntoActive(disk, call)
  {}

  /** The two disks serve the same live login. */
  predicate SameLive(before: Disk, after: Disk) {
    after.LiveContent() == before.LiveContent() || SameLogin(LoginIn(after.LiveContent()), LoginIn(before.LiveContent()))
  }

  /** And in that arm the login served stays the one that was live, at each write: no stored login is
      installed. */
  lemma UngatedInstallsNothing(disk: Disk, call: Call, room: nat)
    requires !call.gated
    ensures SameLive(disk, After(disk, call, room))
  {
    var writes := PlanOf(disk, call).writes;
    UngatedWritesNothing(disk, call);
    if writes != [] {
      SaveIntoActiveServesTheSame(disk, call);
      AtEveryCut(disk, writes, Changed, x => SameLive(disk, x), room);
    }
  }

  lemma SaveIntoActiveServesTheSame(disk: Disk, call: Call)
    requires SavesIntoActive(disk, call)
    ensures Throughout(disk, SaveIntoActive(disk, call).writes, Changed, x => SameLive(disk, x))
  {
    var capture := ForceCapture(disk, disk.record.active);
    CaptureSaves(disk, call.name);
    if CoversLive(disk, call.flavor.login) && capture.writes != [] {
      var put := capture.writes[0];
      assert capture.writes == [put];
      var captured := Changed(disk, put);
      ReplayOne(disk, put, Changed);
      assert disk.live.Regular?;
      ThroughoutOne(disk, put, Changed, x => SameLive(disk, x));
      if capture.outcome == Switched {
        var link := PutLive(Link(call.name, CredentialsFile));
        assert InstallSource(captured, call.name) == CredentialsFile;
        assert ForceLink(captured, call.name).writes == [link];
        ThroughoutOne(captured, link, Changed, x => SameLive(disk, x));
        ThroughoutBoth(disk, [put], [link], Changed, x => SameLive(disk, x));
      }
    }
  }

  /* ---------- the marker ---------- */

  predicate MarksOnly(writes: seq<Write>, name: string) {
    forall i :: 0 <= i < |writes| && writes[i].SetActive? ==> writes[i].name == name
  }

  lemma {:induction false} MarkerMovesTo(disk: Disk, writes: seq<Write>, name: string)
    requires MarksOnly(writes, name)
    ensures var record := Done(disk, writes).record;
      record == disk.record || record == disk.record.(active := Some(name))
    decreases |writes|
  {
    if writes == [] {
    } else {
      MarkerMovesTo(Changed(disk, writes[0]), writes[1..], name);
    }
  }

  lemma MarksBoth(first: seq<Write>, rest: seq<Write>, name: string)
    requires MarksOnly(first, name) && MarksOnly(rest, name)
    ensures MarksOnly(first + rest, name)
  {}

  lemma TakenMarksNothing(disk: Disk, active: Option<string>, torn: bool, name: string)
    ensures MarksOnly(Snapshot(disk, active, torn).writes, name)
    ensures MarksOnly(ForceCapture(disk, active).writes, name)
  {
    if active.Some? {
      CaptureSaves(disk, active.value);
      var captured := Done(disk, CaptureLive(disk, active.value).writes);
      MarksBoth(CaptureLive(disk, active.value).writes, ForceLink(captured, active.value).writes, name);
    }
  }

  lemma AwayMarks(disk: Disk, call: Call)
    ensures MarksOnly(Away(disk, call).writes, call.name)
  {
    var active := disk.record.active;
    TakenMarksNothing(disk, active, call.torn, call.name);
    match call.flavor {
      case Plain =>
        var guarded := active.Some? && DivergedAndUnsaved(disk, active.value);
        LinkMarks(disk, Snapshot(disk, active, call.torn), call, guarded);
      case Discard(_) =>
        LinkMarks(disk, Onward, call, false);
      case Reconcile(answered, login) =>
        LinkMarks(disk, Snapshot(disk, active, call.torn), call, false);
        LinkMarks(disk, ForceCapture(disk, active), call, false);
    }
  }

  lemma LinkMarks(disk: Disk, first: Plan, call: Call, guarded: bool)
    requires MarksOnly(first.writes, call.name)
    ensures var rest := LinkAndFinish(Done(disk, first.writes), call.name, guarded, call.settings);
      MarksOnly(rest.writes, call.name) && MarksOnly(AndThen(first, rest).writes, call.name)
  {
    MarksBoth(first.writes, LinkAndFinish(Done(disk, first.writes), call.name, guarded, call.settings).writes, call.name);
  }

  /** A switch leaves the record alone, or marks the target active: one rostered, and enabled on disk
      and in memory. So it keeps a marker that names a rostered and enabled account. */
  lemma SwitchKeepsMarker(disk: Disk, call: Call, room: nat)
    ensures var record := After(disk, call, room).record;
      || record == disk.record
      || (record == disk.record.(active := Some(call.name))
          && ActiveMarker.SwitchTargetOk(disk.record, call.memory, call.name))
    ensures ActiveMarker.MarkerHolds(disk.record) ==> ActiveMarker.MarkerHolds(After(disk, call, room).record)
  {
    var writes := PlanOf(disk, call).writes;
    AwayMarks(disk, call);
    TakenMarksNothing(disk, disk.record.active, call.torn, call.name);
    assert MarksOnly(writes, call.name);
    MarkerMovesTo(disk, Taken(writes, room), call.name);
    if writes == [] {
      assert Taken(writes, room) == [];
    }
  }
}
