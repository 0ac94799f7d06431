/**
 * What the privileged sequences of module Flash promise: which commands they
 * issue and in what order, what they skip after a failure, which lines they
 * add to the message list and which dialogs they show.
 */
module FlashFacts {
  import opened Text
  import opened Platform
  import opened Flash
  import InstallMode
  import Compatibility

  /**
   * The commands the recovery staging issues, stated as a nesting of the
   * steps: the listing always, mkdir only when the listing fails, the copy
   * only when the directory is there, the command file only after the copy.
   */
  function StagingCommands(o: Oracle, path: string): seq<Action> {
    var needDir := o.ExitCode(LIST_RECOVERY_DIR) != 0;
    var dirReady := !needDir || o.ExitCode(MAKE_RECOVERY_DIR) == 0;
    var copied := o.ExitCode(CopyCommand(path)) == 0;
    [Run(LIST_RECOVERY_DIR, false)]
    + (if needDir then [Run(MAKE_RECOVERY_DIR, true)] else [])
    + (if dirReady then [Run(CopyCommand(path), true)] + (if copied then [Run(RecoveryCommand(path), false)] else []) else [])
  }

  /** The staging succeeds exactly when every step it reaches exits with 0. */
  predicate StagingSucceeds(o: Oracle, path: string) {
    && (o.ExitCode(LIST_RECOVERY_DIR) == 0 || o.ExitCode(MAKE_RECOVERY_DIR) == 0)
    && o.ExitCode(CopyCommand(path)) == 0
    && o.ExitCode(RecoveryCommand(path)) == 0
  }

  /** Staging succeeds exactly when StagingSucceeds, shows no dialog and keeps the shell state. */
  lemma StageRecoveryOutcome(o: Oracle, w: World, path: string)
    ensures var s := StageRecovery(o, w, path);
      && (s.ok <==> StagingSucceeds(o, path))
      && s.world.dialogs == w.dialogs && s.world.started == w.started && s.world.hadSegfault == w.hadSegfault
  {
    var d := EnsureRecoveryDir(o, w);
    assert d.ok <==> o.ExitCode(LIST_RECOVERY_DIR) == 0 || o.ExitCode(MAKE_RECOVERY_DIR) == 0;
    assert d.world.dialogs == w.dialogs && d.world.started == w.started && d.world.hadSegfault == w.hadSegfault;
    if d.ok {
      var c := CopyPayload(o, d.world, path);
      assert c.ok <==> o.ExitCode(CopyCommand(path)) == 0 && o.ExitCode(RecoveryCommand(path)) == 0;
    }
  }

  /** The listing always runs; mkdir runs exactly when the listing fails. */
  lemma EnsureRecoveryDirCommands(o: Oracle, w: World)
    ensures var d := EnsureRecoveryDir(o, w);
      && d.world.log == w.log + [Run(LIST_RECOVERY_DIR, false)]
                              + (if o.ExitCode(LIST_RECOVERY_DIR) != 0 then [Run(MAKE_RECOVERY_DIR, true)] else [])
      && (d.ok <==> o.ExitCode(LIST_RECOVERY_DIR) == 0 || o.ExitCode(MAKE_RECOVERY_DIR) == 0)
  {
  }

  /** The copy always runs; the command file is written exactly when the copy succeeds. */
  lemma CopyPayloadCommands(o: Oracle, w: World, path: string)
    ensures var c := CopyPayload(o, w, path);
      && c.world.log == w.log + [Run(CopyCommand(path), true)]
                              + (if o.ExitCode(CopyCommand(path)) == 0 then [Run(RecoveryCommand(path), false)] else [])
  {
  }

  /** Staging issues exactly StagingCommands, in that order. */
  lemma StageRecoveryCommands(o: Oracle, w: World, path: string)
    ensures StageRecovery(o, w, path).world.log == w.log + StagingCommands(o, path)
  {
    var d := EnsureRecoveryDir(o, w);
    EnsureRecoveryDirCommands(o, w);
    var head := [Run(LIST_RECOVERY_DIR, false)] + (if o.ExitCode(LIST_RECOVERY_DIR) != 0 then [Run(MAKE_RECOVERY_DIR, true)] else []);
    assert d.world.log == w.log + head;
    if d.ok {
      CopyPayloadCommands(o, d.world, path);
      var tail := [Run(CopyCommand(path), true)]
                  + (if o.ExitCode(CopyCommand(path)) == 0 then [Run(RecoveryCommand(path), false)] else []);
      assert StagingCommands(o, path) == head + tail;
      var c := CopyPayload(o, d.world, path);
      assert StageRecovery(o, w, path) == c;
      AppendAssoc(w.log, head, tail);
    } else {
      assert StagingCommands(o, path) == head;
      assert StageRecovery(o, w, path).world.log == w.log + head;
    }
  }

  /** On success the last command writes the recovery's command file for the payload's file name. */
  lemma StageRecoveryLastCommand(o: Oracle, w: World, path: string)
    requires StagingSucceeds(o, path)
    ensures var s := StageRecovery(o, w, path);
      s.ok && s.world.log[|s.world.log| - 1] == Run("echo --update_package=/cache/recovery/" + BaseName(path) + " > /cache/recovery/command", false)
  {
  }

  /** Each failing step ends the message list with an empty line and its own failure line. */
  lemma StageRecoveryFailureLines(o: Oracle, w: World, path: string)
    ensures var s := StageRecovery(o, w, path);
      var m := s.world.messages;
      && (o.ExitCode(LIST_RECOVERY_DIR) != 0 && o.ExitCode(MAKE_RECOVERY_DIR) != 0 ==>
            m[|m| - 2..] == [Raw(""), CreateDirectoryFailed(RECOVERY_DIR)])
      && ((o.ExitCode(LIST_RECOVERY_DIR) == 0 || o.ExitCode(MAKE_RECOVERY_DIR) == 0) && o.ExitCode(CopyCommand(path)) != 0 ==>
            m[|m| - 2..] == [Raw(""), CopyFailed(path, "/cache")])
      && ((o.ExitCode(LIST_RECOVERY_DIR) == 0 || o.ExitCode(MAKE_RECOVERY_DIR) == 0) && o.ExitCode(CopyCommand(path)) == 0
            && o.ExitCode(RecoveryCommand(path)) != 0 ==>
            m[|m| - 2..] == [Raw(""), WritingRecoveryCommandFailed])
  {
  }

  /**
   * On KitKat and older an incompatible device stops at once: the probe's
   * errors and the not-compatible line are added, and nothing is run or
   * extracted.
   */
  lemma PrepareIncompatibleStops(cfg: Config, probe: ProbeState, o: Oracle, w: World, path: string)
    requires cfg.sdk <= Compatibility.SDK_KITKAT && !probe.isCompatible
    ensures var s := PrepareAutoFlash(cfg, probe, o, w, path);
      && !s.ok
      && s.world.log == w.log && s.world.dialogs == w.dialogs
      && s.world.messages == w.messages + Raws(probe.errors) + [PhoneNotCompatible(cfg.sdk, cfg.cpuAbi)]
  {
  }

  /** Above KitKat nothing is extracted and the staging runs on its own. */
  lemma PrepareAboveKitKat(cfg: Config, probe: ProbeState, o: Oracle, w: World, path: string)
    requires cfg.sdk > Compatibility.SDK_KITKAT
    ensures PrepareAutoFlash(cfg, probe, o, w, path) == StageRecovery(o, w, path)
    ensures PrepareAutoFlash(cfg, probe, o, w, path).world.log == w.log + StagingCommands(o, path)
  {
    StageRecoveryCommands(o, w, path);
  }

  /**
   * On KitKat and older, a compatible device whose app_process cannot be
   * extracted gets an alert, and no shell command is run.
   */
  lemma PrepareLegacyExtractFails(cfg: Config, probe: ProbeState, o: Oracle, w: World, path: string)
    requires cfg.sdk <= Compatibility.SDK_KITKAT && probe.isCompatible && !o.CanExtract(probe.appProcessName)
    ensures var s := PrepareAutoFlash(cfg, probe, o, w, path);
      && !s.ok
      && s.world.log == w.log + [Extract(probe.appProcessName, cfg.baseDir + "bin/app_process", PERMS_OWNER_ALL)]
      && s.world.dialogs == w.dialogs + [Alert(cfg.localize(FileExtractFailed("app_process")))]
      && s.world.messages == w.messages
  {
  }

  /**
   * On KitKat and older, when app_process is extracted but the bridge jar is
   * not, the list ends with "" and a failure naming the jar; no shell command
   * runs and no dialog is shown.
   */
  lemma PrepareLegacyJarFails(cfg: Config, probe: ProbeState, o: Oracle, w: World, path: string)
    requires cfg.sdk <= Compatibility.SDK_KITKAT && probe.isCompatible
    requires o.CanExtract(probe.appProcessName) && !o.CanExtract(Some(BRIDGE_JAR))
    ensures var s := PrepareAutoFlash(cfg, probe, o, w, path);
      && !s.ok
      && s.world.log == w.log
           + [Extract(probe.appProcessName, cfg.baseDir + "bin/app_process", PERMS_OWNER_ALL),
              Extract(Some(BRIDGE_JAR), cfg.baseDir + "bin/" + BRIDGE_JAR, PERMS_WORLD_READ)]
      && s.world.messages == w.messages + [FileCopying(BRIDGE_JAR), Raw(""), FileExtractFailed(BRIDGE_JAR)]
      && s.world.dialogs == w.dialogs
  {
  }

  /**
   * On KitKat and older with both assets in place, the two extractions and a
   * sync come first, then exactly the staging commands.
   */
  lemma PrepareLegacyCommands(cfg: Config, probe: ProbeState, o: Oracle, w: World, path: string)
    requires cfg.sdk <= Compatibility.SDK_KITKAT && probe.isCompatible
    requires o.CanExtract(probe.appProcessName) && o.CanExtract(Some(BRIDGE_JAR))
    ensures var s := PrepareAutoFlash(cfg, probe, o, w, path);
      && s.world.log == w.log
           + [Extract(probe.appProcessName, cfg.baseDir + "bin/app_process", PERMS_OWNER_ALL),
              Extract(Some(BRIDGE_JAR), cfg.baseDir + "bin/" + BRIDGE_JAR, PERMS_WORLD_READ),
              Run(SYNC, true)]
           + StagingCommands(o, path)
      && (s.ok <==> StagingSucceeds(o, path))
  {
    var bridge := StageLegacyBridge(cfg, probe, o, w);
    StageRecoveryCommands(o, bridge.world, path);
    StageRecoveryOutcome(o, bridge.world, path);
  }

  /**
   * reboot: without a shell only the root-failed alert; with one, the boot
   * flag is touched exactly for "recovery", then the reboot command runs,
   * an alert appears exactly when it exits non-zero, and busybox is removed
   * last. The shared message list is never touched.
   */
  lemma RebootFacts(cfg: Config, o: Oracle, w: World, mode: Option<string>)
    ensures var r := Reboot(cfg, o, w, mode);
      && r.messages == w.messages
      && (!w.started && !o.rootGranted ==>
            r.log == w.log && r.dialogs == w.dialogs + [Alert(cfg.localize(RootFailed))])
      && (w.started || o.rootGranted ==>
            && r.started
            && r.log == w.log + (if mode == Some("recovery") then [Run(TOUCH_BOOT_FLAG, true)] else [])
                              + [Run(RebootCommand(mode), true), BusyboxRemoval]
            && (o.ExitCode(RebootCommand(mode)) == 0 ==> r.dialogs == w.dialogs)
            && (o.ExitCode(RebootCommand(mode)) != 0 ==>
                  r.dialogs == w.dialogs + [Alert(Render(cfg, RebootOutput(o, mode) + [Raw(""), RebootFailed]))]))
  {
  }

  /** The reboot command names the mode after a space, or is bare for a null mode. */
  lemma RebootCommandShape(mode: Option<string>)
    ensures mode.None? ==> RebootCommand(mode) == "reboot"
    ensures mode.Some? ==>
      && |RebootCommand(mode)| == 7 + |mode.value|
      && RebootCommand(mode)[..7] == "reboot "
      && RebootCommand(mode)[7..] == mode.value
  {
  }

  /**
   * softReboot runs its one command without busybox and removes nothing;
   * an alert appears exactly when it exits non-zero.
   */
  lemma SoftRebootFacts(cfg: Config, o: Oracle, w: World)
    ensures var r := SoftReboot(cfg, o, w);
      && r.messages == w.messages
      && (w.started || o.rootGranted ==>
            && r.started
            && r.log == w.log + [Run(SOFT_REBOOT, false)]
            && (o.ExitCode(SOFT_REBOOT) == 0 ==> r.dialogs == w.dialogs)
            && (o.ExitCode(SOFT_REBOOT) != 0 ==>
                  r.dialogs == w.dialogs + [Alert(Render(cfg, Raws(o.Output(SOFT_REBOOT)) + [Raw(""), RebootFailed]))]))
      && (!w.started && !o.rootGranted ==>
            r.log == w.log && r.dialogs == w.dialogs + [Alert(cfg.localize(RootFailed))])
  {
  }

  /**
   * offerRebootToRecovery adds the note for the mode, an empty line and the
   * question, and shows all of it in the confirmation dialog.
   */
  lemma OfferAddsQuestion(cfg: Config, o: Oracle, w: World, file: string, installMode: int, answer: Answer)
    ensures var r := OfferRebootToRecovery(cfg, o, w, file, installMode, answer);
      var note := if installMode == InstallMode.INSTALL_MODE_RECOVERY_AUTO then AutoFlashNote(file) else ManualFlashNote(file);
      && r.messages == w.messages + [note, Raw(""), RebootRecoveryConfirmation]
      && |r.dialogs| > |w.dialogs|
      && r.dialogs[|w.dialogs|] == Confirm(Render(cfg, r.messages))
  {
    var asked := AskRebootToRecovery(cfg, w, file, installMode);
    if answer.Yes? {
      RebootFacts(cfg, o, asked, Some("recovery"));
    }
  }

  /**
   * On yes the reboot into recovery follows; on no, automatic mode removes
   * the command file, then the staged file, then busybox, and manual mode
   * issues nothing; a no changes nothing but the log. Dismissing the
   * dialog stops right after the question: nothing is rebooted and nothing
   * is removed, in either mode.
   */
  lemma OfferOutcome(cfg: Config, o: Oracle, w: World, file: string, installMode: int, answer: Answer)
    ensures var asked := AskRebootToRecovery(cfg, w, file, installMode);
      var r := OfferRebootToRecovery(cfg, o, w, file, installMode, answer);
      && (answer.Yes? ==> r == Reboot(cfg, o, asked, Some("recovery")))
      && (answer.No? && installMode == InstallMode.INSTALL_MODE_RECOVERY_AUTO ==>
            r.log == w.log + [Run(REMOVE_COMMAND_FILE, true), Run(RemoveStaged(file), true), BusyboxRemoval])
      && (answer.No? && installMode != InstallMode.INSTALL_MODE_RECOVERY_AUTO ==> r.log == w.log)
      && (answer.No? ==>
            && r.messages == asked.messages && r.dialogs == asked.dialogs
            && r.hadSegfault == asked.hadSegfault && r.started == asked.started)
      && (answer.Dismissed? ==> r == asked && r.log == w.log)
  {
  }

  /** A manual install mode, or a refusal, only clears the message list. */
  lemma DownloadFinishedStops(cfg: Config, probe: ProbeState, o: Oracle, w: World, storedMode: int,
                              localFilename: string, title: string, accepted: bool, answer: Answer)
    requires storedMode == InstallMode.INSTALL_MODE_RECOVERY_MANUAL || !accepted
    ensures OnDownloadFinished(cfg, probe, o, w, storedMode, localFilename, title, accepted, answer) == w.(messages := [])
  {
  }

  /**
   * Once the user accepts and the shell starts, the reboot is offered in
   * automatic mode for the download's title, whether or not the staging
   * succeeded; declining then deletes /cache/recovery/<title>, and
   * dismissing the question leaves the staged files in place.
   */
  lemma DownloadFinishedOffers(cfg: Config, probe: ProbeState, o: Oracle, w: World, storedMode: int,
                               localFilename: string, title: string, answer: Answer)
    requires InstallMode.GetInstallMode(storedMode) != InstallMode.INSTALL_MODE_RECOVERY_MANUAL
    requires w.started || o.rootGranted
    ensures var staged := PrepareAutoFlash(cfg, probe, o, w.(messages := [], started := true), localFilename);
      var r := OnDownloadFinished(cfg, probe, o, w, storedMode, localFilename, title, true, answer);
      && r == OfferRebootToRecovery(cfg, o, staged.world, title, InstallMode.INSTALL_MODE_RECOVERY_AUTO, answer)
      && r.dialogs[|staged.world.dialogs|] == Confirm(Render(cfg, staged.world.messages + [AutoFlashNote(title), Raw(""), RebootRecoveryConfirmation]))
      && (answer.No? ==> r.log[|r.log| - 3..] == [Run(REMOVE_COMMAND_FILE, true), Run("rm /cache/recovery/" + title, true), BusyboxRemoval])
      && (answer.Dismissed? ==> r.log == staged.world.log)
  {
    var staged := PrepareAutoFlash(cfg, probe, o, w.(messages := [], started := true), localFilename);
    OfferAddsQuestion(cfg, o, staged.world, title, InstallMode.INSTALL_MODE_RECOVERY_AUTO, answer);
    OfferOutcome(cfg, o, staged.world, title, InstallMode.INSTALL_MODE_RECOVERY_AUTO, answer);
  }

  /**
   * Once the user accepts, a denied root shell ends the handler: the list is
   * cleared, only the root_failed alert appears, and nothing runs.
   */
  lemma DownloadFinishedNoRoot(cfg: Config, probe: ProbeState, o: Oracle, w: World, storedMode: int,
                               localFilename: string, title: string, answer: Answer)
    requires InstallMode.GetInstallMode(storedMode) != InstallMode.INSTALL_MODE_RECOVERY_MANUAL
    requires !w.started && !o.rootGranted
    ensures var r := OnDownloadFinished(cfg, probe, o, w, storedMode, localFilename, title, true, answer);
      && r.log == w.log && r.messages == [] && !r.started
      && r.dialogs == w.dialogs + [Alert(cfg.localize(RootFailed))]
  {
  }

  /** The oracle of a rooted device on which every command succeeds and prints nothing. */
  const ALL_SUCCEED := Oracle(true, map[], map[], {})

  /** With every command succeeding, staging <dir>/<name> lists, copies and writes the command file. */
  lemma StagingAllSucceed(w: World, dir: string, name: string)
    requires '/' !in name && name != []
    ensures StageRecovery(ALL_SUCCEED, w, dir + "/" + name).world.log == w.log + [
        Run("ls /cache/recovery", false),
        Run("cp -a " + dir + "/" + name + " /cache/recovery/", true),
        Run("echo --update_package=/cache/recovery/" + name + " > /cache/recovery/command", false)]
  {
    var path := dir + "/" + name;
    BaseNameOfJoin(dir, name);
    assert CopyCommand(path) == "cp -a " + dir + "/" + name + " /cache/recovery/";
    assert RecoveryCommand(path) == "echo --update_package=/cache/recovery/" + name + " > /cache/recovery/command";
    assert StagingCommands(ALL_SUCCEED, path) == [
        Run(LIST_RECOVERY_DIR, false), Run(CopyCommand(path), true), Run(RecoveryCommand(path), false)];
    StageRecoveryCommands(ALL_SUCCEED, w, path);
  }

  /**
   * A Lollipop device on which every command succeeds: accepting and
   * confirming a download saved as <dir>/<name> lists the staging
   * directory, copies the zip, writes the command file naming <name>,
   * touches the boot flag, reboots into recovery and removes busybox, in
   * that order.
   */
  lemma DownloadFinishedAllSucceed(localize: Msg -> string, w: World, dir: string, name: string, title: string)
    requires '/' !in name && name != []
    ensures var cfg := Config(21, "arm64-v8a", "/data/app/", localize);
      var r := OnDownloadFinished(cfg, ProbeState(true, [], None), ALL_SUCCEED, w,
                                  InstallMode.INSTALL_MODE_RECOVERY_AUTO, dir + "/" + name, title, true, Yes);
      r.log == w.log + [
        Run("ls /cache/recovery", false),
        Run("cp -a " + dir + "/" + name + " /cache/recovery/", true),
        Run("echo --update_package=/cache/recovery/" + name + " > /cache/recovery/command", false),
        Run("touch /cache/recovery/boot", true),
        Run("reboot recovery", true),
        BusyboxRemoval]
  {
    var cfg := Config(21, "arm64-v8a", "/data/app/", localize);
    var w0 := w.(messages := [], started := true);
    var staged := PrepareAutoFlash(cfg, ProbeState(true, [], None), ALL_SUCCEED, w0, dir + "/" + name);
    StagingAllSucceed(w0, dir, name);
    var asked := AskRebootToRecovery(cfg, staged.world, title, InstallMode.INSTALL_MODE_RECOVERY_AUTO);
    assert asked.log == staged.world.log && asked.started;
    assert RebootCommand(Some("recovery")) == "reboot recovery";
    RebootFacts(cfg, ALL_SUCCEED, asked, Some("recovery"));
  }
}
