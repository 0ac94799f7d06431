/**
 * InstallerFragment: the installer screen's state and the methods that change
 * it step by step. Each method is proved to leave the state that the matching
 * function of module Flash (or Compatibility) describes.
 */
module Installer {
  import opened Text
  import opened Platform
  import opened Flash
  import InstallMode
  import Compatibility

  class InstallerFragment {
    /** Build.VERSION.SDK_INT */
    const sdk: int
    /** Build.CPU_ABI */
    const cpuAbi: string
    /** XposedApp.BASE_DIR */
    const baseDir: string
    /** AssetUtil.getBinariesFolder() */
    const binariesFolder: string
    /** The localised text of each string resource. */
    const localize: Msg -> string
    /** The root shell and asset extractor (mRootUtil, AssetUtil). */
    const device: Device

    /**
     * The message list shared by the install sequence. In the app it is a
     * static list shared by every fragment, so a new fragment need not find
     * it empty; onDownloadFinished clears it before any use, so the empty
     * start here changes no result.
     */
    var messages: seq<Msg>
    var compatibilityErrors: seq<string>
    /** APP_PROCESS_NAME: the asset path of the probe binary, once chosen. */
    var appProcessName: Option<string>
    var isCompatible: bool
    var hadSegmentationFault: bool
    /** The dialogs shown, oldest first. */
    var dialogs: seq<Dialog>

    constructor (sdk: int, cpuAbi: string, baseDir: string, binariesFolder: string, localize: Msg -> string, device: Device)
      ensures this.sdk == sdk && this.cpuAbi == cpuAbi && this.baseDir == baseDir
      ensures this.binariesFolder == binariesFolder && this.localize == localize && this.device == device
      ensures messages == [] && compatibilityErrors == [] && appProcessName == None
      ensures !isCompatible && !hadSegmentationFault && dialogs == []
    {
      this.sdk := sdk;
      this.cpuAbi := cpuAbi;
      this.baseDir := baseDir;
      this.binariesFolder := binariesFolder;
      this.localize := localize;
      this.device := device;
      messages := [];
      compatibilityErrors := [];
      appProcessName := None;
      isCompatible := false;
      hadSegmentationFault := false;
      dialogs := [];
    }

    function Cfg(): Config {
      Config(sdk, cpuAbi, baseDir, localize)
    }

    function Probe(): ProbeState
      reads this
    {
      ProbeState(isCompatible, compatibilityErrors, appProcessName)
    }

    /** The part of the state the privileged sequences read and change. */
    function Snapshot(): World
      reads this, device
    {
      World(device.started, device.log, messages, dialogs, hadSegmentationFault)
    }

    /**
     * checkAppProcessCompatibility: run the test binary, collect every stderr
     * line, and pass exactly when the first stdout line carries the version
     * prefix.
     */
    method CheckAppProcessCompatibility(run: Compatibility.ProbeRun) returns (ok: bool)
      modifies this`compatibilityErrors
      ensures ok == Compatibility.ProbePasses(appProcessName, run)
      ensures compatibilityErrors == old(compatibilityErrors) + Compatibility.ProbeErrors(appProcessName, run)
    {
      if appProcessName.None? {
        return false;
      }
      match run
      case ExtractFailed =>
        compatibilityErrors := compatibilityErrors + [Compatibility.EXTRACT_FAILED_ERROR];
        return false;
      case SpawnFailed(message) =>
        compatibilityErrors := compatibilityErrors + [message];
        return false;
      case Ran(firstLine, stderr, readError) =>
        var i := 0;
        while i < |stderr|
          invariant 0 <= i <= |stderr|
          invariant compatibilityErrors == old(compatibilityErrors) + stderr[..i]
        {
          compatibilityErrors := compatibilityErrors + [stderr[i]];
          i := i + 1;
        }
        assert stderr[..|stderr|] == stderr;
        if readError.Some? {
          compatibilityErrors := compatibilityErrors + [readError.value];
          return false;
        }
        ok := firstLine.Some? && StartsWith(firstLine.value, Compatibility.PROBE_PREFIX);
    }

    /** checkCompatibility: clear the error list, then probe. */
    method CheckCompatibility(run: Compatibility.ProbeRun) returns (ok: bool)
      modifies this`compatibilityErrors
      ensures ok == Compatibility.ProbePasses(appProcessName, run)
      ensures compatibilityErrors == Compatibility.ProbeErrors(appProcessName, run)
    {
      compatibilityErrors := [];
      ok := CheckAppProcessCompatibility(run);
    }

    /**
     * The SDK dispatch in onCreateView: assume compatible, and probe with the
     * binary for SDK 15, 16 to 18, or 19.
     */
    method DetectCompatibility(run: Compatibility.ProbeRun)
      modifies this`appProcessName, this`isCompatible, this`compatibilityErrors
      ensures Compatibility.ProbeBinary(sdk).None? ==>
        isCompatible && appProcessName == old(appProcessName) && compatibilityErrors == old(compatibilityErrors)
      ensures Compatibility.ProbeBinary(sdk).Some? ==>
        && appProcessName == Some(binariesFolder + Compatibility.ProbeBinary(sdk).value)
        && isCompatible == Compatibility.ProbePasses(appProcessName, run)
        && compatibilityErrors == Compatibility.ProbeErrors(appProcessName, run)
    {
      isCompatible := true;
      if sdk == 15 {
        appProcessName := Some(binariesFolder + "app_process_xposed_sdk15");
        isCompatible := CheckCompatibility(run);
      } else if 16 <= sdk <= 18 {
        appProcessName := Some(binariesFolder + "app_process_xposed_sdk16");
        isCompatible := CheckCompatibility(run);
      } else if sdk == 19 {
        appProcessName := Some(binariesFolder + "app_process_xposed_sdk19");
        isCompatible := CheckCompatibility(run);
      }
    }

    /** showAlert */
    method ShowAlert(text: string)
      modifies this`dialogs, this`hadSegmentationFault
      ensures Snapshot() == Flash.ShowAlert(old(Snapshot()), text)
    {
      dialogs := dialogs + [Alert(text)];
      hadSegmentationFault := HasSegfaultMarker(text);
    }

    /** showConfirmDialog; the user's answer is handled by the caller. */
    method ShowConfirmDialog(text: string)
      modifies this`dialogs, this`hadSegmentationFault
      ensures Snapshot() == Flash.ShowConfirmDialog(old(Snapshot()), text)
    {
      dialogs := dialogs + [Confirm(text)];
      hadSegmentationFault := HasSegfaultMarker(text);
    }

    /** onResume: forget the segmentation fault seen by the last dialog. */
    method OnResume()
      modifies this`hadSegmentationFault
      ensures !hadSegmentationFault
    {
      hadSegmentationFault := false;
    }

    /** startShell */
    method StartShell() returns (ok: bool)
      modifies this`dialogs, this`hadSegmentationFault, device`started
      ensures Step(ok, Snapshot()) == Flash.StartShell(Cfg(), device.oracle, old(Snapshot()))
    {
      ok := device.StartShell();
      if ok {
        return true;
      }
      ShowAlert(localize(RootFailed));
      return false;
    }

    /** The legacy half of prepareAutoFlash: extract app_process and the bridge jar, then sync. */
    method StageLegacyBridge() returns (ok: bool)
      modifies this`messages, this`dialogs, this`hadSegmentationFault, device`log
      ensures Step(ok, Snapshot()) == Flash.StageLegacyBridge(Cfg(), Probe(), device.oracle, old(Snapshot()))
    {
      var extracted := device.WriteAsset(appProcessName, baseDir + "bin/app_process", PERMS_OWNER_ALL);
      if !extracted {
        ShowAlert(localize(FileExtractFailed("app_process")));
        return false;
      }
      messages := messages + [FileCopying(BRIDGE_JAR)];
      extracted := device.WriteAsset(Some(BRIDGE_JAR), baseDir + "bin/" + BRIDGE_JAR, PERMS_WORLD_READ);
      if !extracted {
        messages := messages + [Raw(""), FileExtractFailed(BRIDGE_JAR)];
        return false;
      }
      var _, output := device.Execute(SYNC, true);
      messages := messages + Raws(output);
      return true;
    }

    /** List /cache/recovery and create it when the listing fails. */
    method EnsureRecoveryDir() returns (ok: bool)
      modifies this`messages, device`log
      ensures Step(ok, Snapshot()) == Flash.EnsureRecoveryDir(device.oracle, old(Snapshot()))
    {
      var code, output := device.Execute(LIST_RECOVERY_DIR, false);
      if code != 0 {
        messages := messages + [CreatingDirectory(RECOVERY_DIR)];
        code, output := device.Execute(MAKE_RECOVERY_DIR, true);
        messages := messages + Raws(output);
        if code != 0 {
          messages := messages + [Raw(""), CreateDirectoryFailed(RECOVERY_DIR)];
          return false;
        }
      }
      return true;
    }

    /** Copy the zip at `path` to /cache/recovery and write the recovery command file. */
    method CopyPayload(path: string) returns (ok: bool)
      modifies this`messages, device`log
      ensures Step(ok, Snapshot()) == Flash.CopyPayload(device.oracle, old(Snapshot()), path)
    {
      messages := messages + [FileCopying(path)];
      var code, output := device.Execute(CopyCommand(path), true);
      messages := messages + Raws(output);
      if code != 0 {
        messages := messages + [Raw(""), CopyFailed(path, "/cache")];
        return false;
      }
      messages := messages + [WritingRecoveryCommand];
      code, output := device.Execute(RecoveryCommand(path), false);
      messages := messages + Raws(output);
      if code != 0 {
        messages := messages + [Raw(""), WritingRecoveryCommandFailed];
        return false;
      }
      return true;
    }

    /** prepareAutoFlash: stage the zip at `path` for the recovery. */
    method PrepareAutoFlash(path: string) returns (ok: bool)
      modifies this`messages, this`dialogs, this`hadSegmentationFault, device`log
      ensures Step(ok, Snapshot()) == Flash.PrepareAutoFlash(Cfg(), Probe(), device.oracle, old(Snapshot()), path)
    {
      if sdk <= Compatibility.SDK_KITKAT {
        if !isCompatible {
          messages := messages + Raws(compatibilityErrors);
          messages := messages + [PhoneNotCompatible(sdk, cpuAbi)];
          return false;
        }
        ok := StageLegacyBridge();
        if !ok {
          return false;
        }
      }
      ok := EnsureRecoveryDir();
      if !ok {
        return false;
      }
      ok := CopyPayload(path);
    }

    /** reboot(mode); None stands for a null mode. */
    method Reboot(mode: Option<string>)
      modifies this`dialogs, this`hadSegmentationFault, device`started, device`log
      ensures Snapshot() == Flash.Reboot(Cfg(), device.oracle, old(Snapshot()), mode)
    {
      var started := StartShell();
      if !started {
        return;
      }
      var local: seq<Msg> := [];
      var command := "reboot";
      if mode.Some? {
        command := "reboot " + mode.value;
        if mode.value == "recovery" {
          var _, output := device.Execute(TOUCH_BOOT_FLAG, true);
          local := Raws(output);
        }
      }
      var code, output := device.Execute(command, true);
      local := local + Raws(output);
      if code != 0 {
        local := local + [Raw(""), RebootFailed];
        ShowAlert(Render(Cfg(), local));
      }
      device.RemoveBusybox();
    }

    /** softReboot */
    method SoftReboot()
      modifies this`dialogs, this`hadSegmentationFault, device`started, device`log
      ensures Snapshot() == Flash.SoftReboot(Cfg(), device.oracle, old(Snapshot()))
    {
      var started := StartShell();
      if !started {
        return;
      }
      var code, output := device.Execute(SOFT_REBOOT, false);
      var local := Raws(output);
      if code != 0 {
        local := local + [Raw(""), RebootFailed];
        ShowAlert(Render(Cfg(), local));
      }
    }

    /** Add the mode's note and the question, then show the whole list in a yes/no dialog. */
    method AskRebootToRecovery(file: string, installMode: int)
      modifies this`messages, this`dialogs, this`hadSegmentationFault
      ensures Snapshot() == Flash.AskRebootToRecovery(Cfg(), old(Snapshot()), file, installMode)
    {
      var note := if installMode == InstallMode.INSTALL_MODE_RECOVERY_AUTO then AutoFlashNote(file) else ManualFlashNote(file);
      messages := messages + [note];
      messages := messages + [Raw("")];
      messages := messages + [RebootRecoveryConfirmation];
      assert messages == old(messages) + [note, Raw(""), RebootRecoveryConfirmation];
      ShowConfirmDialog(Render(Cfg(), messages));
    }

    /**
     * offerRebootToRecovery; `answer` is the user's response to the
     * confirmation dialog, which can also be dismissed.
     */
    method OfferRebootToRecovery(file: string, installMode: int, answer: Answer)
      modifies this`messages, this`dialogs, this`hadSegmentationFault, device`started, device`log
      ensures Snapshot() == Flash.OfferRebootToRecovery(Cfg(), device.oracle, old(Snapshot()), file, installMode, answer)
    {
      AskRebootToRecovery(file, installMode);
      if answer.Yes? {
        Reboot(Some("recovery"));
      } else if answer.No? && installMode == InstallMode.INSTALL_MODE_RECOVERY_AUTO {
        var _, _ := device.Execute(REMOVE_COMMAND_FILE, true);
        var _, _ := device.Execute(RemoveStaged(file), true);
        device.RemoveBusybox();
      }
    }

    /**
     * onDownloadFinished; `accepted` is the answer to the install warning and
     * `answer` the response to the reboot question.
     */
    method OnDownloadFinished(storedMode: int, localFilename: string, title: string, accepted: bool, answer: Answer)
      modifies this`messages, this`dialogs, this`hadSegmentationFault, device`started, device`log
      ensures Snapshot() == Flash.OnDownloadFinished(Cfg(), old(Probe()), device.oracle, old(Snapshot()),
                                                     storedMode, localFilename, title, accepted, answer)
    {
      messages := [];
      if InstallMode.GetInstallMode(storedMode) == InstallMode.INSTALL_MODE_RECOVERY_MANUAL {
        return;
      }
      if !accepted {
        return;
      }
      var started := StartShell();
      if !started {
        return;
      }
      var _ := PrepareAutoFlash(localFilename);
      OfferRebootToRecovery(title, InstallMode.INSTALL_MODE_RECOVERY_AUTO, answer);
    }
  }
}
