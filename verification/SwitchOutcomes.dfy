/** How each flavor of switch away from an account ends, and what it leaves in the stores, told by the files and
    the logins in them. */
module SwitchOutcomes {
  import opened Wrappers
  import opened Credentials
  import Journal
  import opened ActiveMarker
  import opened SwitchProtocol
  import opened SwitchTheorems

  /* ---------- the files, and the logins in them ---------- */

  /** The account's sidecar holds a login with no refresh token. */
  predicate LongLived(disk: Disk, name: Name) {
    && name in disk.sessions && ReadLogin(disk.sessions[name]).Login?
    && ReadLogin(disk.sessions[name]).oauth.refreshToken.None?
  }

  /** What a switch onto the account installs: its long-lived token where it has one, else its own login. */
  function Own(disk: Disk, name: Name): Option<Content> {
    if LongLived(disk, name) then Some(disk.sessions[name]) else Lookup(disk.credentials, name)
  }

  /** A login with a token in it. */
  predicate Usable(content: Content) {
    && ReadLogin(content).Login?
    && (ReadLogin(content).oauth.accessToken != "" || ReadLogin(content).oauth.refreshToken !in {None, Some("")})
  }

  /** The file is there and its login has the same access token, which is not empty. */
  predicate SameToken(content: Content, stored: Option<Content>) {
    && ReadLogin(content).Login? && ReadLogin(content).oauth.accessToken != ""
    && stored.Some? && ReadLogin(stored.value).Login?
    && ReadLogin(stored.value).oauth.accessToken == ReadLogin(content).oauth.accessToken
  }

  /** Another rostered account stores the login's refresh token, and this one does not. */
  predicate OfAnother(disk: Disk, name: Name, content: Content) {
    && ReadLogin(content).Login? && ReadLogin(content).oauth.refreshToken !in {None, Some("")}
    && !HoldsChain(disk.credentials, name, ReadLogin(content).oauth.refreshToken.value)
    && exists other :: other in disk.record.roster && other != name
                       && HoldsChain(disk.credentials, other, ReadLogin(content).oauth.refreshToken.value)
  }

  lemma OfAnotherIsStored(disk: Disk, name: Name, content: Content)
    ensures OfAnother(disk, name, content) <==> StoredElsewhere(disk, name, ReadLogin(content))
  {
    var login := ReadLogin(content);
    if OfAnother(disk, name, content) {
      var other :| other in disk.record.roster && other != name
                   && HoldsChain(disk.credentials, other, login.oauth.refreshToken.value);
      var i :| 0 <= i < |disk.record.roster| && disk.record.roster[i] == other;
    }
  }

  lemma OwnIsInstalled(disk: Disk, name: Name)
    ensures Expected(disk, name) == Own(disk, name)
    ensures InstallSource(disk, name) == if LongLived(disk, name) then SessionFile else CredentialsFile
  {}

  /** The live login is nobody's: its file cannot be read, or is one of Claude Code's own that is no logged-out
      shell, whose login neither store of the account has nor another account's, and which is no first login of
      an account with nothing to install. */
  predicate Unsaved(disk: Disk, active: Name) {
    || disk.live.Sealed?
    || (&& disk.live.Regular? && (Usable(disk.live.content) || ReadLogin(disk.live.content).Torn?)
        && !SameToken(disk.live.content, Lookup(disk.credentials, active))
        && !SameToken(disk.live.content, Lookup(disk.sessions, active))
        && !OfAnother(disk, active, disk.live.content)
        && (Own(disk, active).Some? || ReadLogin(disk.live.content).Torn?))
  }

  lemma AsksExactlyWhen(disk: Disk, active: Name)
    ensures DivergedAndUnsaved(disk, active) <==> Unsaved(disk, active)
  {
    UnsavedExactlyWhen(disk, active);
    if disk.live.Regular? {
      OfAnotherIsStored(disk, active, disk.live.content);
    }
  }

  /* ---------- what the stores are left with ---------- */

  /** The login of the live file can be saved into the account: it parses and has a token, the account has no
      long-lived one, and the login is no other account's. */
  predicate Savable(disk: Disk, active: Name, content: Content) {
    Usable(content) && !LongLived(disk, active) && !OfAnother(disk, active, content)
  }

  /** The live file is the account's own: a link to its login, or one of Claude Code's with its access token, or
      its first login. */
  predicate IsItsOwn(disk: Disk, active: Name, content: Content) {
    || disk.live == Link(active, CredentialsFile)
    || (disk.live == Regular(content)
        && (SameToken(content, Lookup(disk.credentials, active)) || active !in disk.credentials))
  }

  /** Nothing is stored but, into one account, a login that reads as the live one. */
  predicate StoresOnly(before: Disk, after: Disk, name: Name, content: Content) {
    && after.sessions == before.sessions
    && after.credentials - {name} == before.credentials - {name}
    && name in after.credentials && ReadLogin(after.credentials[name]) == ReadLogin(content)
  }

  predicate StoresNothing(before: Disk, after: Disk) {
    after.sessions == before.sessions && after.credentials == before.credentials
  }

  lemma CaptureStores(disk: Disk, active: Name)
    requires active in disk.record.roster && disk.record.active == Some(active)
    ensures var capture, live := CaptureLive(disk, active), disk.LiveContent();
      && (live.Some? && Savable(disk, active, live.value) ==>
            capture.outcome == Switched && StoresOnly(disk, Done(disk, capture.writes), active, live.value))
      && (!(live.Some? && Savable(disk, active, live.value)) ==> capture.writes == [])
      && (capture.outcome != Switched <==>
            !LongLived(disk, active) && (disk.live.Sealed? || (live.Some? && ReadLogin(live.value).Torn?)))
      && (capture.outcome != Switched ==> capture.outcome == Failed)
  {
    var capture, live := CaptureLive(disk, active), disk.LiveContent();
    OwnIsInstalled(disk, active);
    CaptureSaves(disk, active);
    if live.Some? {
      OfAnotherIsStored(disk, active, live.value);
    }
    if capture.writes != [] {
      assert capture.writes == [capture.writes[0]];
      Journal.ReplayOne(disk, capture.writes[0], Changed);
    }
  }

  /** The live file is a link to the account's own login, which does not parse, and the process has not noted
      that. */
  predicate TornStore(disk: Disk, active: Name, noted: bool) {
    && disk.live == Link(active, CredentialsFile) && !LongLived(disk, active) && !noted
    && active in disk.credentials && ReadLogin(disk.credentials[active]).Torn?
  }

  /** A snapshot saves the live login. */
  predicate SnapshotTakes(disk: Disk, active: Name, noted: bool) {
    var live := disk.LiveContent();
    && live.Some? && Savable(disk, active, live.value) && IsItsOwn(disk, active, live.value)
    && !(noted && disk.live == Link(active, CredentialsFile))
  }

  lemma SnapshotStores(disk: Disk, active: Name, noted: bool)
    requires active in disk.record.roster && disk.record.active == Some(active)
    ensures var taken := Snapshot(disk, Some(active), noted);
      && taken.outcome == (if TornStore(disk, active, noted) then Failed else Switched)
      && (SnapshotTakes(disk, active, noted) ==>
            StoresOnly(disk, Done(disk, taken.writes), active, disk.LiveContent().value))
      && (!SnapshotTakes(disk, active, noted) ==> taken.writes == [])
  {
    OwnIsInstalled(disk, active);
    CaptureStores(disk, active);
    if disk.live.Regular? {
      OfAnotherIsStored(disk, active, disk.live.content);
    }
    if IsFirstLogin(disk, active) {
      AdoptStores(disk, active);
    }
  }

  lemma AdoptStores(disk: Disk, active: Name)
    requires active in disk.record.roster && disk.record.active == Some(active) && IsFirstLogin(disk, active)
    ensures var taken := AdoptFirstLogin(disk, active);
      taken.outcome == Switched && StoresOnly(disk, Done(disk, taken.writes), active, disk.live.content)
  {
    var capture := CaptureLive(disk, active);
    var captured := Done(disk, capture.writes);
    OwnIsInstalled(disk, active);
    OfAnotherIsStored(disk, active, disk.live.content);
    CaptureStores(disk, active);
    OwnIsInstalled(captured, active);
    ForceLinkMoves(captured, active);
    AndThenMoves(disk, capture, ForceLink(captured, active));
  }

  /* ---------- how each flavor ends ---------- */

  lemma LinkEnds(disk: Disk, name: Name, guarded: bool, settings: bool)
    ensures var plan, live := LinkAndFinish(disk, name, guarded, settings), disk.LiveContent();
      && StoresNothing(disk, Done(disk, plan.writes))
      && plan.outcome ==
           if guarded && (disk.live.Regular? || disk.live.Sealed?)
              && live != Own(disk, name) && !(live.Some? && SameToken(live.value, Own(disk, name))) then Refused
           else if settings then Switched else Failed
  {
    OwnIsInstalled(disk, name);
    ForceLinkMoves(disk, name);
    var link := ForceLink(disk, name).writes;
    Journal.ReplayTogether(disk, link, [SetActive(name)], Changed);
    Journal.ReplayOne(Done(disk, link), SetActive(name), Changed);
    assert link + [] == link;
  }

  /** A gated switch of a process that may make it, away from the account disk has active. */
  predicate LeavesAccount(disk: Disk, call: Call, active: Name) {
    && SwitchTargetOk(disk.record, call.memory, call.name) && call.gated
    && disk.record.active == Some(active) && active in disk.record.roster && active != call.name
  }

  /** A plain switch over a login nobody saved is refused, unless the target has the same; else it fails on an
      account's own store that does not parse. Leaving a login of the account's own, it saves it. */
  lemma PlainSwitchEnds(disk: Disk, call: Call, active: Name)
    requires call.flavor.Plain? && LeavesAccount(disk, call, active)
    ensures var plan, live, own := PlanOf(disk, call), disk.LiveContent(), Own(disk, call.name);
      && plan.outcome ==
           (if Unsaved(disk, active) && live != own && !(live.Some? && SameToken(live.value, own)) then Refused
            else if TornStore(disk, active, call.torn) || !call.settings then Failed else Switched)
      && (if SnapshotTakes(disk, active, call.torn) && !Unsaved(disk, active)
          then StoresOnly(disk, Done(disk, plan.writes), active, live.value)
          else StoresNothing(disk, Done(disk, plan.writes)))
  {
    var taken := Snapshot(disk, Some(active), call.torn);
    var next := Done(disk, taken.writes);
    AsksExactlyWhen(disk, active);
    SnapshotStores(disk, active, call.torn);
    LinkEnds(next, call.name, Unsaved(disk, active), call.settings);
    if taken.outcome == Switched {
      AndThenMoves(disk, taken, LinkAndFinish(next, call.name, Unsaved(disk, active), call.settings));
    }
  }

  /** A discard is refused over an unsaved login of an account it was not answered for, and stores nothing. */
  lemma DiscardEnds(disk: Disk, call: Call, active: Name)
    requires call.flavor.Discard? && LeavesAccount(disk, call, active)
    ensures var plan := PlanOf(disk, call);
      && plan.outcome ==
           (if call.flavor.answered != Some(active) && Unsaved(disk, active) then Refused
            else if call.settings then Switched else Failed)
      && StoresNothing(disk, Done(disk, plan.writes))
  {
    AsksExactlyWhen(disk, active);
    LinkEnds(disk, call.name, false, call.settings);
  }

  /** The access token of the live login, if there is one. */
  function LiveToken(disk: Disk): Option<string> {
    var live := disk.LiveContent();
    if live.Some? && ReadLogin(live.value).Login? && ReadLogin(live.value).oauth.accessToken != ""
    then Some(ReadLogin(live.value).oauth.accessToken) else None
  }

  /** A reconcile's answer is about this account, and about the login now live where a prompt read one. */
  predicate AnswersFor(disk: Disk, flavor: Flavor, active: Name)
    requires flavor.Reconcile?
  {
    flavor.answered == Some(active) && (flavor.login.Seen? ==> flavor.login.access == LiveToken(disk))
  }

  /** The live file cannot be read, or does not parse, and is to be saved. */
  predicate CannotSave(disk: Disk, active: Name) {
    var live := disk.LiveContent();
    !LongLived(disk, active) && (disk.live.Sealed? || (live.Some? && ReadLogin(live.value).Torn?))
  }

  /** The live login is nobody's still once it is saved: the account's long-lived token keeps it out, or it has no
      access token to tell it by. */
  predicate StaysUnsaved(disk: Disk, active: Name) {
    if LongLived(disk, active) then Unsaved(disk, active)
    else && disk.live.Regular? && Savable(disk, active, disk.live.content)
         && ReadLogin(disk.live.content).oauth.accessToken == ""
  }

  lemma CaptureSettles(disk: Disk, active: Name)
    requires active in disk.record.roster && disk.record.active == Some(active) && !CannotSave(disk, active)
    ensures Unsaved(Done(disk, CaptureLive(disk, active).writes), active) <==> StaysUnsaved(disk, active)
  {
    var captured := Done(disk, CaptureLive(disk, active).writes);
    CaptureStores(disk, active);
    CaptureSaves(disk, active);
    if CaptureLive(disk, active).writes != [] {
      assert CaptureLive(disk, active).writes == [CaptureLive(disk, active).writes[0]];
      Journal.ReplayOne(disk, CaptureLive(disk, active).writes[0], Changed);
      assert captured.live == disk.live;
    }
  }

  /** What a forced capture comes to. */
  lemma ForceCaptureEnds(disk: Disk, active: Name)
    requires active in disk.record.roster && disk.record.active == Some(active)
    ensures var taken, live := ForceCapture(disk, Some(active)), disk.LiveContent();
      && taken.outcome ==
           (if CannotSave(disk, active) then Failed else if StaysUnsaved(disk, active) then Refused else Switched)
      && (if live.Some? && Savable(disk, active, live.value)
          then StoresOnly(disk, Done(disk, taken.writes), active, live.value) else taken.writes == [])
  {
    CaptureStores(disk, active);
    var captured := Done(disk, CaptureLive(disk, active).writes);
    AsksExactlyWhen(captured, active);
    if !CannotSave(disk, active) {
      CaptureSettles(disk, active);
    }
  }

  /** A reconcile answered for this account and this login saves it; it fails where the login cannot be read,
      and is refused where it stays unsaved. */
  lemma AnsweredReconcileEnds(disk: Disk, call: Call, active: Name)
    requires call.flavor.Reconcile? && LeavesAccount(disk, call, active) && AnswersFor(disk, call.flavor, active)
    ensures var plan, live := PlanOf(disk, call), disk.LiveContent();
      && plan.outcome ==
           (if CannotSave(disk, active) then Failed else if StaysUnsaved(disk, active) then Refused
            else if call.settings then Switched else Failed)
      && (if live.Some? && Savable(disk, active, live.value)
          then StoresOnly(disk, Done(disk, plan.writes), active, live.value)
          else StoresNothing(disk, Done(disk, plan.writes)))
  {
    var taken := ForceCapture(disk, Some(active));
    assert !Unanswered(disk, call.flavor.answered, call.flavor.login);
    ForceCaptureEnds(disk, active);
    var next := Done(disk, taken.writes);
    LinkEnds(next, call.name, false, call.settings);
    if taken.outcome == Switched {
      AndThenMoves(disk, taken, LinkAndFinish(next, call.name, false, call.settings));
    }
  }

  /** One answered for another account or another login is refused over an unsaved one, and otherwise goes as a
      plain switch does. */
  lemma UnansweredReconcileEnds(disk: Disk, call: Call, active: Name)
    requires call.flavor.Reconcile? && LeavesAccount(disk, call, active) && !AnswersFor(disk, call.flavor, active)
    ensures var plan, live := PlanOf(disk, call), disk.LiveContent();
      && plan.outcome ==
           (if Unsaved(disk, active) then Refused
            else if TornStore(disk, active, call.torn) || !call.settings then Failed else Switched)
      && (if !Unsaved(disk, active) && SnapshotTakes(disk, active, call.torn)
          then StoresOnly(disk, Done(disk, plan.writes), active, live.value)
          else StoresNothing(disk, Done(disk, plan.writes)))
  {
    var taken := Snapshot(disk, Some(active), call.torn);
    assert Unanswered(disk, call.flavor.answered, call.flavor.login);
    AsksExactlyWhen(disk, active);
    SnapshotStores(disk, active, call.torn);
    var next := Done(disk, taken.writes);
    LinkEnds(next, call.name, false, call.settings);
    if taken.outcome == Switched {
      AndThenMoves(disk, taken, LinkAndFinish(next, call.name, false, call.settings));
    }
  }

  /** The save arm ends so too, without a switch: the account stays the active one. */
  lemma SaveIntoActiveEnds(disk: Disk, call: Call, active: Name)
    requires call.flavor.Reconcile? && call.name == active && disk.record.active == Some(active)
    requires SwitchTargetOk(disk.record, call.memory, active)
    requires call.flavor.answered == Some(active) && Unsaved(disk, active)
    ensures var plan, live := PlanOf(disk, call), disk.LiveContent();
      var after := Done(disk, plan.writes);
      if !AnswersFor(disk, call.flavor, active) then plan.outcome == Refused && plan.writes == []
      else
        && plan.outcome == (if CannotSave(disk, active) then Failed
                            else if StaysUnsaved(disk, active) then Refused else SavedIntoActive)
        && after.record == disk.record
        && (if live.Some? && Savable(disk, active, live.value)
            then StoresOnly(disk, after, active, live.value) else StoresNothing(disk, after))
  {
    AsksExactlyWhen(disk, active);
    ForceCaptureEnds(disk, active);
    var capture := ForceCapture(disk, Some(active));
    var captured := Done(disk, capture.writes);
    ForceLinkMoves(captured, active);
    Journal.ReplayTogether(disk, capture.writes, ForceLink(captured, active).writes, Changed);
    CaptureSaves(disk, active);
    if capture.writes != [] {
      assert capture.writes == [capture.writes[0]];
      Journal.ReplayOne(disk, capture.writes[0], Changed);
    }
  }

  /** With no account active there is nothing to save or to ask, whatever the flavor. */
  lemma NoneActiveEnds(disk: Disk, call: Call)
    requires SwitchTargetOk(disk.record, call.memory, call.name) && call.gated && disk.record.active.None?
    ensures var plan := PlanOf(disk, call);
      && plan.outcome == (if call.settings then Switched else Failed)
      && StoresNothing(disk, Done(disk, plan.writes))
  {
    LinkEnds(disk, call.name, false, call.settings);
    AndThenMoves(disk, Onward, LinkAndFinish(disk, call.name, false, call.settings));
  }
}
