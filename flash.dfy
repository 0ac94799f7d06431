/**
 * The privileged sequences of the installer screen, as functions of the state
 * they start from: staging a downloaded zip for the recovery to flash
 * (prepareAutoFlash), offering the reboot into recovery and cleaning up when
 * it is declined (offerRebootToRecovery), the reboots themselves, and the
 * download-finished handler that strings them together.
 */
module Flash {
  import opened Text
  import opened Platform
  import InstallMode
  import Compatibility

  const RECOVERY_DIR := "/cache/recovery"
  const LIST_RECOVERY_DIR := "ls /cache/recovery"
  const MAKE_RECOVERY_DIR := "mkdir /cache/recovery"
  const REMOVE_COMMAND_FILE := "rm /cache/recovery/command"
  const TOUCH_BOOT_FLAG := "touch /cache/recovery/boot"
  const SOFT_REBOOT := "setprop ctl.restart surfaceflinger; setprop ctl.restart zygote"
  const SYNC := "sync"
  const BRIDGE_JAR := "UrsaXpBridge.jar"
  /** Permission bits 00700 and 00644. */
  const PERMS_OWNER_ALL := 448
  const PERMS_WORLD_READ := 420

  /** Copies the payload into the staging directory, keeping its attributes. */
  function CopyCommand(path: string): string {
    "cp -a " + path + " /cache/recovery/"
  }

  /** Writes the one-line command file the recovery reads on its next start. */
  function RecoveryCommand(path: string): string {
    "echo --update_package=/cache/recovery/" + BaseName(path) + " > /cache/recovery/command"
  }

  /** Removes a staged payload. */
  function RemoveStaged(file: string): string {
    "rm /cache/recovery/" + file
  }

  /** "reboot", or "reboot <mode>". */
  function RebootCommand(mode: Option<string>): string {
    if mode.Some? then "reboot " + mode.value else "reboot"
  }

  /**
   * One line of the message log. Raw lines are shell output, probe errors and
   * the empty separators; every other constructor is a string resource with
   * its format arguments.
   */
  datatype Msg =
    | Raw(text: string)
    | PhoneNotCompatible(sdk: int, cpuAbi: string)
    | FileExtractFailed(asset: string)
    | FileCopying(file: string)
    | CreatingDirectory(dir: string)
    | CreateDirectoryFailed(dir: string)
    | CopyFailed(file: string, dest: string)
    | WritingRecoveryCommand
    | WritingRecoveryCommandFailed
    | AutoFlashNote(file: string)
    | ManualFlashNote(file: string)
    | RebootRecoveryConfirmation
    | RebootFailed
    | RootFailed

  /** A dialog put in front of the user: an alert, or a yes/no confirmation. */
  datatype Dialog = Alert(text: string) | Confirm(text: string)

  /**
   * The user's response to a yes/no dialog that can be cancelled: one of its
   * two buttons, or dismissing it (the back key or a tap outside), which runs
   * neither button's callback.
   */
  datatype Answer = Yes | No | Dismissed

  /**
   * What the fragment knows about the device and its resources: the SDK level,
   * Build.CPU_ABI, XposedApp.BASE_DIR and the localised text of each resource.
   */
  datatype Config = Config(sdk: int, cpuAbi: string, baseDir: string, localize: Msg -> string)

  /** What the compatibility probe left behind. */
  datatype ProbeState = ProbeState(isCompatible: bool, errors: seq<string>, appProcessName: Option<string>)

  /**
   * Everything an install or reboot sequence can change: whether the root
   * shell is running, the device's action log, the shared message list, the
   * dialogs shown so far and the segmentation-fault flag.
   */
  datatype World = World(started: bool, log: seq<Action>, messages: seq<Msg>, dialogs: seq<Dialog>, hadSegfault: bool)

  /** The state after a step that can fail, and whether it succeeded. */
  datatype Step = Step(ok: bool, world: World)

  /** Shell output and probe errors, one raw line each. */
  function Raws(lines: seq<string>): seq<Msg> {
    if lines == [] then [] else [Raw(lines[0])] + Raws(lines[1..])
  }

  function TextOf(cfg: Config, m: Msg): string {
    if m.Raw? then m.text else cfg.localize(m)
  }

  function Texts(cfg: Config, msgs: seq<Msg>): seq<string> {
    if msgs == [] then [] else [TextOf(cfg, msgs[0])] + Texts(cfg, msgs[1..])
  }

  /** TextUtils.join("\n", messages).trim() */
  function Render(cfg: Config, msgs: seq<Msg>): string {
    Trim(JoinLines(Texts(cfg, msgs)))
  }

  function Say(w: World, msgs: seq<Msg>): World {
    w.(messages := w.messages + msgs)
  }

  function Record(w: World, a: Action): World {
    w.(log := w.log + [a])
  }

  /** Runs a command; its output joins the message list when a list was passed. */
  function Exec(o: Oracle, w: World, command: string, withBusybox: bool, keepOutput: bool): World {
    var w1 := Record(w, Run(command, withBusybox));
    if keepOutput then Say(w1, Raws(o.Output(command))) else w1
  }

  /** showAlert: shows the text and sets the segmentation-fault flag from it. */
  function ShowAlert(w: World, text: string): World {
    w.(dialogs := w.dialogs + [Alert(text)], hadSegfault := HasSegfaultMarker(text))
  }

  /** showConfirmDialog: as showAlert, with a yes/no dialog. */
  function ShowConfirmDialog(w: World, text: string): World {
    w.(dialogs := w.dialogs + [Confirm(text)], hadSegfault := HasSegfaultMarker(text))
  }

  /** startShell: acquire root, or alert root_failed. */
  function StartShell(cfg: Config, o: Oracle, w: World): Step {
    if w.started || o.rootGranted then Step(true, w.(started := true))
    else Step(false, ShowAlert(w, cfg.localize(RootFailed)))
  }

  /**
   * The first half of prepareAutoFlash on KitKat and older: extract
   * app_process and the bridge jar, then sync.
   */
  function StageLegacyBridge(cfg: Config, probe: ProbeState, o: Oracle, w: World): Step {
    var w1 := Record(w, Extract(probe.appProcessName, cfg.baseDir + "bin/app_process", PERMS_OWNER_ALL));
    if !o.CanExtract(probe.appProcessName) then
      Step(false, ShowAlert(w1, cfg.localize(FileExtractFailed("app_process"))))
    else
      var w2 := Record(Say(w1, [FileCopying(BRIDGE_JAR)]), Extract(Some(BRIDGE_JAR), cfg.baseDir + "bin/" + BRIDGE_JAR, PERMS_WORLD_READ));
      if !o.CanExtract(Some(BRIDGE_JAR)) then
        Step(false, Say(w2, [Raw(""), FileExtractFailed(BRIDGE_JAR)]))
      else
        Step(true, Exec(o, w2, SYNC, true, true))
  }

  /** Makes sure /cache/recovery exists: list it, and create it when the listing fails. */
  function EnsureRecoveryDir(o: Oracle, w: World): Step {
    var w1 := Exec(o, w, LIST_RECOVERY_DIR, false, false);
    if o.ExitCode(LIST_RECOVERY_DIR) == 0 then Step(true, w1)
    else
      var w2 := Exec(o, Say(w1, [CreatingDirectory(RECOVERY_DIR)]), MAKE_RECOVERY_DIR, true, true);
      if o.ExitCode(MAKE_RECOVERY_DIR) != 0 then
        Step(false, Say(w2, [Raw(""), CreateDirectoryFailed(RECOVERY_DIR)]))
      else
        Step(true, w2)
  }

  /** Copies the payload into /cache/recovery and writes the recovery command file. */
  function CopyPayload(o: Oracle, w: World, path: string): Step {
    var w3 := Exec(o, Say(w, [FileCopying(path)]), CopyCommand(path), true, true);
    if o.ExitCode(CopyCommand(path)) != 0 then
      Step(false, Say(w3, [Raw(""), CopyFailed(path, "/cache")]))
    else
      var w4 := Exec(o, Say(w3, [WritingRecoveryCommand]), RecoveryCommand(path), false, true);
      if o.ExitCode(RecoveryCommand(path)) != 0 then
        Step(false, Say(w4, [Raw(""), WritingRecoveryCommandFailed]))
      else
        Step(true, w4)
  }

  /**
   * The second half of prepareAutoFlash: make sure /cache/recovery exists,
   * copy the payload there and write the recovery command file.
   */
  function StageRecovery(o: Oracle, w: World, path: string): Step {
    var d := EnsureRecoveryDir(o, w);
    if !d.ok then d else CopyPayload(o, d.world, path)
  }

  /** prepareAutoFlash */
  function PrepareAutoFlash(cfg: Config, probe: ProbeState, o: Oracle, w: World, path: string): Step {
    if cfg.sdk <= Compatibility.SDK_KITKAT then
      if !probe.isCompatible then
        Step(false, Say(w, Raws(probe.errors) + [PhoneNotCompatible(cfg.sdk, cfg.cpuAbi)]))
      else
        var bridge := StageLegacyBridge(cfg, probe, o, w);
        if !bridge.ok then bridge else StageRecovery(o, bridge.world, path)
    else
      StageRecovery(o, w, path)
  }

  /** The boot flag that some kernels read is touched only before a reboot into recovery. */
  function IssueRebootFlag(w: World, mode: Option<string>): World {
    if mode == Some("recovery") then Record(w, Run(TOUCH_BOOT_FLAG, true)) else w
  }

  /** The reboot's own message list: what the touch and the reboot print. */
  function RebootOutput(o: Oracle, mode: Option<string>): seq<Msg> {
    (if mode == Some("recovery") then Raws(o.Output(TOUCH_BOOT_FLAG)) else []) + Raws(o.Output(RebootCommand(mode)))
  }

  /** reboot(mode) */
  function Reboot(cfg: Config, o: Oracle, w: World, mode: Option<string>): World {
    var s := StartShell(cfg, o, w);
    if !s.ok then s.world
    else
      var command := RebootCommand(mode);
      var w1 := Record(IssueRebootFlag(s.world, mode), Run(command, true));
      var w2 := if o.ExitCode(command) != 0 then ShowAlert(w1, Render(cfg, RebootOutput(o, mode) + [Raw(""), RebootFailed])) else w1;
      Record(w2, BusyboxRemoval)
  }

  /** softReboot: restart the compositor and zygote only. */
  function SoftReboot(cfg: Config, o: Oracle, w: World): World {
    var s := StartShell(cfg, o, w);
    if !s.ok then s.world
    else
      var w1 := Record(s.world, Run(SOFT_REBOOT, false));
      if o.ExitCode(SOFT_REBOOT) != 0 then ShowAlert(w1, Render(cfg, Raws(o.Output(SOFT_REBOOT)) + [Raw(""), RebootFailed]))
      else w1
  }

  /** The note on the flash mode and the question, shown with the whole log. */
  function AskRebootToRecovery(cfg: Config, w: World, file: string, installMode: int): World {
    var note := if installMode == InstallMode.INSTALL_MODE_RECOVERY_AUTO then AutoFlashNote(file) else ManualFlashNote(file);
    var w1 := Say(w, [note, Raw(""), RebootRecoveryConfirmation]);
    ShowConfirmDialog(w1, Render(cfg, w1.messages))
  }

  /**
   * offerRebootToRecovery: add the mode's note and the question, show the
   * whole log, then reboot into recovery on yes; on no, undo the staging but
   * only in automatic mode. The dialog can be cancelled: dismissing it does
   * neither, and leaves the staged files in place.
   */
  function OfferRebootToRecovery(cfg: Config, o: Oracle, w: World, file: string, installMode: int, answer: Answer): World {
    var w2 := AskRebootToRecovery(cfg, w, file, installMode);
    if answer.Yes? then Reboot(cfg, o, w2, Some("recovery"))
    else if answer.No? && installMode == InstallMode.INSTALL_MODE_RECOVERY_AUTO then
      Record(Record(Record(w2, Run(REMOVE_COMMAND_FILE, true)), Run(RemoveStaged(file), true)), BusyboxRemoval)
    else w2
  }

  /**
   * onDownloadFinished: clear the log; unless the mode is manual and if the
   * user accepts, take root, stage the zip and offer the reboot, always in
   * automatic mode and whatever the staging returned.
   */
  function OnDownloadFinished(cfg: Config, probe: ProbeState, o: Oracle, w: World, storedMode: int,
                              localFilename: string, title: string, accepted: bool, answer: Answer): World
  {
    var w0 := w.(messages := []);
    if InstallMode.GetInstallMode(storedMode) == InstallMode.INSTALL_MODE_RECOVERY_MANUAL || !accepted then w0
    else
      var s := StartShell(cfg, o, w0);
      if !s.ok then s.world
      else
        var staged := PrepareAutoFlash(cfg, probe, o, s.world, localFilename);
        OfferRebootToRecovery(cfg, o, staged.world, title, InstallMode.INSTALL_MODE_RECOVERY_AUTO, answer)
  }
}
