# Xposed installer core: recovery flashing, reboots, compatibility probe and theme helpers

This project models the core of the installer screen of an Xposed framework
installer for Android (`InstallerFragment`) and the small theme helpers of
`ThemeUtil`, and proves what they promise.

- **Recovery flashing.** `prepareAutoFlash` stages a downloaded zip in
  `/cache/recovery` through a root shell. On KitKat and older it first
  extracts `app_process` and the bridge jar, then syncs. After that it lists
  the staging directory, makes it if the listing fails, copies the zip and
  writes the recovery command file. A failed app_process extraction shows
  an alert and ends the sequence without adding to the shared message list.
  A failed bridge-jar extraction, mkdir, copy or command-file write adds an
  empty line and that step's failure message to the list and ends the
  sequence. A failed listing is not a failure; it only leads to mkdir. The
  exit code of the sync is ignored.
- **Offering the reboot.** `offerRebootToRecovery` adds a note and a
  question, then shows the whole list in a yes/no dialog. Yes reboots into
  recovery. No undoes the staging, but only in automatic mode. The dialog
  can also be dismissed, which does neither.
- **Reboots.** `reboot` touches a boot flag before a recovery reboot,
  alerts on a non-zero exit, and removes busybox after the reboot command,
  whatever its exit code. Without a root shell it only shows the root-failed
  alert.
  `softReboot` restarts the compositor and zygote.
- **Download handler.** `onDownloadFinished` strings these together.
- **Compatibility probe.** The SDK level picks a test binary. Its first
  stdout line decides pass or fail, and its stderr lines become the error
  list.
- **Small rules.** These are the clamped install mode, the version-number
  parser `extractIntPart`, the SDK filter over the installer list, the CPU
  architecture bucket, and the case-insensitive "segmentation fault"
  heuristic applied to the text of every alert and confirmation shown through
  `showAlert` and `showConfirmDialog`.
- **Theme.** `ThemeUtil` contributes the clamped theme index, the
  light-status-bar bit of a view's flag word, and the decision to recreate
  an activity.

The model has three layers:

- **Platform (`platform.dfy`).** The root shell and the asset extractor are
  an oracle class `Device`. Its fixed `Oracle` answers each command with an
  exit code (0 for commands it does not list) and output lines. Every
  action is recorded in `log`.
- **Flash (`flash.dfy`).** Every privileged sequence is a pure function
  over a value `World`: shell started, action log, message list, dialogs
  shown, and segmentation-fault flag. `flash_facts.dfy` proves which
  commands these functions issue and in what order, what they skip after a
  failure, which lines they add, and which dialogs they show.
- **Installer (`installer.dfy`).** The class `InstallerFragment` has the
  fragment's own fields. Its methods change them step by step, with the
  early returns of the Java methods. Each method is proved to leave exactly the
  state that the matching Flash function describes.

String resources are the constructors of `Flash.Msg`, with the localisation
as a parameter. The reboot question and the reboot-failed alerts show
`Trim(JoinLines(...))` of their localised lines. The root-failed and
file-extract-failed alerts show the resource text as it is.

The model keeps these behaviours of the code as they are:

- `softReboot` runs its command with the plain shell, not the busybox
  toolset, and does not remove busybox afterwards.
- The compatibility probe has no timeout.
- Declining the reboot removes `/cache/recovery/<download title>`, which
  need not be the file that was copied.
- `onDownloadFinished` ignores whether the staging succeeded and always
  offers the reboot in automatic mode.
- Both the install prompt of `onDownloadFinished` and the reboot question
  can be dismissed. Only the warning shown when the screen opens cannot.
  Dismissing the install prompt runs no callback, so the model treats it
  as `accepted == false`. Dismissing the reboot question runs neither
  callback either. In automatic mode this leaves `/cache/recovery/command`
  and the staged zip on the device, with no reboot and no cleanup.

## Model

| member | source | states |
|---|---|---|
| Text.ContainsIffOccurs | app/src/main/java/de/ursa/android/gomxpf/installer/InstallerFragment.java:576 | String.contains holds exactly when the pattern occurs at some index |
| Text.LowerChar | app/src/main/java/de/ursa/android/gomxpf/installer/InstallerFragment.java:576 | toLowerCase(Locale.US) on one char: A-Z move up by 32, every other char is kept |
| Text.LowerAscii | app/src/main/java/de/ursa/android/gomxpf/installer/InstallerFragment.java:576 | lower-casing keeps the length and lower-cases each char in place |
| Text.SegfaultMarkerAt | app/src/main/java/de/ursa/android/gomxpf/installer/InstallerFragment.java:576 | the segmentation-fault flag is set exactly when some window of the lower-cased text spells "segmentation fault" |
| Text.SegfaultMarkerIgnoresCase | app/src/main/java/de/ursa/android/gomxpf/installer/InstallerFragment.java:603 | lower-casing is idempotent, so the flag is the same for a text and its lower-cased form |
| Text.TrimStartRemovesPrefix | app/src/main/java/de/ursa/android/gomxpf/installer/InstallerFragment.java:736 | the leading part trim removes is exactly the longest prefix of chars up to U+0020 |
| Text.TrimEndRemovesSuffix | app/src/main/java/de/ursa/android/gomxpf/installer/InstallerFragment.java:736 | the trailing part trim removes is exactly the longest suffix of chars up to U+0020 |
| Text.TrimIsCore | app/src/main/java/de/ursa/android/gomxpf/installer/InstallerFragment.java:736 | the dialog text is a substring of the joined lines, only whitespace is cut, and neither end is whitespace |
| Text.BaseNameIsLastSegment | app/src/main/java/de/ursa/android/gomxpf/installer/InstallerFragment.java:718 | File.getName drops the trailing '/' of the path, then takes the longest '/'-free suffix of what is left; that suffix is preceded by '/' unless it is all that is left, and it is empty exactly when the path is empty or all '/' |
| Text.BaseNameIgnoresTrailingSlash | app/src/main/java/de/ursa/android/gomxpf/installer/InstallerFragment.java:718 | a trailing '/' does not change File.getName |
| Text.BaseNameOfJoin | app/src/main/java/de/ursa/android/gomxpf/installer/InstallerFragment.java:718 | the name of dir + "/" + name is name when name is a non-empty segment without '/', and the name of dir when name is empty |
| Numbers.ToInt32 | app/src/main/java/de/ursa/android/gomxpf/installer/InstallerFragment.java:108 | Java int arithmetic: the result is in the 32-bit range, congruent to the exact value mod 2^32, and equal to it when it fits |
| Numbers.LeadingDigits | app/src/main/java/de/ursa/android/gomxpf/installer/InstallerFragment.java:105-110 | the scanned part is a prefix made of digits, followed by the end of the string or a non-digit |
| Numbers.LeadingDigitsIsRun | app/src/main/java/de/ursa/android/gomxpf/installer/InstallerFragment.java:105-110 | any digit run that stops at the end or at a non-digit is the scanned prefix |
| Numbers.WrapStep | app/src/main/java/de/ursa/android/gomxpf/installer/InstallerFragment.java:108 | wrapping after each `result * 10 + digit` step equals wrapping the exact value once |
| Numbers.ExtractIntPart | app/src/main/java/de/ursa/android/gomxpf/installer/InstallerFragment.java:103-113 | the loop returns the decimal value of the leading digit run, wrapped to a Java int |
| Numbers.ExtractIntPartExample | app/src/main/java/de/ursa/android/gomxpf/installer/InstallerFragment.java:176 | "89-beta" gives 89 |
| Numbers.ExtractIntPartNoDigits | app/src/main/java/de/ursa/android/gomxpf/installer/InstallerFragment.java:103-113 | an empty string, or one starting with a non-digit, gives 0 |
| Numbers.ExtractIntPartIgnoresTail | app/src/main/java/de/ursa/android/gomxpf/installer/InstallerFragment.java:108-109 | nothing after the first non-digit affects the result |
| InstallMode.GetInstallMode | app/src/main/java/de/ursa/android/gomxpf/installer/InstallerFragment.java:654-659 | the mode is in 0..2, equals the stored value when that is in range, and is NORMAL otherwise |
| InstallMode.GetInstallModeText | app/src/main/java/de/ursa/android/gomxpf/installer/InstallerFragment.java:661-672 | a label is always returned; the IllegalStateException cannot be reached |
| InstallMode.LabelRoundTrip | app/src/main/java/de/ursa/android/gomxpf/installer/InstallerFragment.java:661-672 | the label shown names the clamped mode in effect |
| InstallMode.OutOfRangeIsNormal | app/src/main/java/de/ursa/android/gomxpf/installer/InstallerFragment.java:656-657 | a stored value outside 0..2 shows the NORMAL label |
| InstallMode.GetInstallModeIdempotent | app/src/main/java/de/ursa/android/gomxpf/installer/InstallerFragment.java:654-659 | clamping a clamped mode changes nothing |
| Catalog.FilterBySdk | app/src/main/java/de/ursa/android/gomxpf/installer/InstallerFragment.java:124-131 | every installer kept has the requested sdk and comes from the list, and the result is no longer than the list |
| Catalog.FilterBySdkAppend | app/src/main/java/de/ursa/android/gomxpf/installer/InstallerFragment.java:124-131 | filtering keeps list order: filtering a + b gives the filtered a followed by the filtered b |
| Catalog.FilterBySdkKeepsMatches | app/src/main/java/de/ursa/android/gomxpf/installer/InstallerFragment.java:124-131 | each installer with the requested sdk is kept as often as it is listed; any other installer is dropped |
| Catalog.GetInstallersBySdk | app/src/main/java/de/ursa/android/gomxpf/installer/InstallerFragment.java:124-131 | the loop's list is exactly the filtered installer list |
| Catalog.GetArch | app/src/main/java/de/ursa/android/gomxpf/installer/InstallerFragment.java:465-481 | the result is one of x86, x86_64, arm64 or arm; it is x86 or x86_64 exactly for those ABI strings and arm64 exactly for other ABIs starting with "arm64"; below Lollipop a missing os.arch is a failure |
| Compatibility.ProbeBinary | app/src/main/java/de/ursa/android/gomxpf/installer/InstallerFragment.java:204-214 | SDK 15, 16-18 and 19 get the sdk15, sdk16 and sdk19 binary; no other level is probed |
| Compatibility.ProbeOutcome | app/src/main/java/de/ursa/android/gomxpf/installer/InstallerFragment.java:612-644 | no binary fails with no errors; a failed extraction fails with "could not write app_process to cache"; a failed spawn fails with its exception message; the stderr lines come first and in order; a read error fails and adds its message after them; a clean run passes exactly when the first line carries the prefix |
| Compatibility.NoVersionLineFails | app/src/main/java/de/ursa/android/gomxpf/installer/InstallerFragment.java:639 | a null first line, or one without "Xposed version: ", fails |
| Compatibility.VersionLinePasses | app/src/main/java/de/ursa/android/gomxpf/installer/InstallerFragment.java:639 | "Xposed version: 89" with an empty stderr passes with no errors |
| Platform.Device.constructor | app/src/main/java/de/ursa/android/gomxpf/installer/InstallerFragment.java:84 | a new shell is not started and has done nothing |
| Platform.Device.StartShell | app/src/main/java/de/ursa/android/gomxpf/installer/InstallerFragment.java:647 | the shell runs afterwards exactly when it already ran or root is granted |
| Platform.Device.Execute | app/src/main/java/de/ursa/android/gomxpf/installer/InstallerFragment.java:699 | one command is recorded, with or without busybox, and its exit code and output come from the oracle |
| Platform.Device.WriteAsset | app/src/main/java/de/ursa/android/gomxpf/installer/InstallerFragment.java:682 | one extraction is recorded; it succeeds exactly when the asset is named and can be extracted |
| Platform.Device.RemoveBusybox | app/src/main/java/de/ursa/android/gomxpf/installer/InstallerFragment.java:790 | the busybox removal is recorded |
| FlashFacts.StageRecoveryOutcome | app/src/main/java/de/ursa/android/gomxpf/installer/InstallerFragment.java:699-724 | staging succeeds exactly when the directory exists or is made and the copy and the command file both succeed; it shows no dialog |
| FlashFacts.EnsureRecoveryDirCommands | app/src/main/java/de/ursa/android/gomxpf/installer/InstallerFragment.java:699-707 | the listing always runs; mkdir runs exactly when the listing fails; the step fails exactly when both fail |
| FlashFacts.CopyPayloadCommands | app/src/main/java/de/ursa/android/gomxpf/installer/InstallerFragment.java:709-722 | the copy always runs; the command file is written exactly when the copy succeeds |
| FlashFacts.StageRecoveryCommands | app/src/main/java/de/ursa/android/gomxpf/installer/InstallerFragment.java:699-724 | staging issues ls, then mkdir only if ls failed, then cp only if the directory is there, then echo only if cp succeeded, and nothing else |
| FlashFacts.StageRecoveryLastCommand | app/src/main/java/de/ursa/android/gomxpf/installer/InstallerFragment.java:718-724 | on success the last command is `echo --update_package=/cache/recovery/<file name> > /cache/recovery/command` |
| FlashFacts.StageRecoveryFailureLines | app/src/main/java/de/ursa/android/gomxpf/installer/InstallerFragment.java:699-722 | a failing mkdir, cp or echo ends the message list with "" and that step's own failure message |
| FlashFacts.PrepareIncompatibleStops | app/src/main/java/de/ursa/android/gomxpf/installer/InstallerFragment.java:675-680 | on KitKat and older an incompatible device fails with the probe errors and the not-compatible line added, and nothing is run, extracted or shown |
| FlashFacts.PrepareAboveKitKat | app/src/main/java/de/ursa/android/gomxpf/installer/InstallerFragment.java:674-675 | above KitKat nothing is extracted and only the staging commands run |
| FlashFacts.PrepareLegacyExtractFails | app/src/main/java/de/ursa/android/gomxpf/installer/InstallerFragment.java:682-686 | a failed app_process extraction shows the file_extract_failed alert and runs no shell command |
| FlashFacts.PrepareLegacyJarFails | app/src/main/java/de/ursa/android/gomxpf/installer/InstallerFragment.java:688-694 | a failed bridge-jar extraction after app_process ends the list with "" and the file_extract_failed line naming the jar, and runs no shell command and shows no dialog |
| FlashFacts.PrepareLegacyCommands | app/src/main/java/de/ursa/android/gomxpf/installer/InstallerFragment.java:675-724 | with both assets present, the app_process and jar extractions and a sync precede exactly the staging commands, and the outcome is the staging's |
| FlashFacts.RebootFacts | app/src/main/java/de/ursa/android/gomxpf/installer/InstallerFragment.java:771-791 | without a shell only the root_failed alert appears; otherwise the boot flag is touched exactly for "recovery", the reboot command runs, busybox is removed last, an alert appears exactly on a non-zero exit, and the shared message list is untouched |
| FlashFacts.RebootCommandShape | app/src/main/java/de/ursa/android/gomxpf/installer/InstallerFragment.java:777-780 | the command is "reboot" for a null mode and "reboot " followed by the mode otherwise |
| FlashFacts.SoftRebootFacts | app/src/main/java/de/ursa/android/gomxpf/installer/InstallerFragment.java:759-769 | with a shell, exactly the restart command runs without busybox; on a non-zero exit one alert shows the trimmed join of its output, "" and reboot_failed, and on a zero exit no dialog appears; without a shell nothing runs and only the root_failed alert appears |
| FlashFacts.OfferAddsQuestion | app/src/main/java/de/ursa/android/gomxpf/installer/InstallerFragment.java:727-736 | the mode's note, "" and the question are added, and the next dialog is a confirmation showing the trimmed join of the whole list |
| FlashFacts.OfferOutcome | app/src/main/java/de/ursa/android/gomxpf/installer/InstallerFragment.java:737-756 | yes reboots into recovery; no in automatic mode removes the command file, the staged file and busybox, in that order; no in manual mode issues nothing; a dismissed dialog leaves the state right after the question, with nothing rebooted or removed; a no changes only the log, leaving the messages, dialogs, segmentation-fault flag and shell state as the question left them |
| FlashFacts.DownloadFinishedStops | app/src/main/java/de/ursa/android/gomxpf/installer/InstallerFragment.java:794-799 | a manual install mode, or a refused warning, only clears the message list |
| FlashFacts.DownloadFinishedOffers | app/src/main/java/de/ursa/android/gomxpf/installer/InstallerFragment.java:800-811 | once accepted with a shell, the reboot is offered in automatic mode whatever the staging returned; declining deletes /cache/recovery/<download title>, and dismissing the question leaves the staging log as it is |
| FlashFacts.DownloadFinishedNoRoot | app/src/main/java/de/ursa/android/gomxpf/installer/InstallerFragment.java:803-806 | once accepted, a denied root shell clears the list, shows only the root_failed alert, and runs and stages nothing |
| FlashFacts.StagingAllSucceed | app/src/main/java/de/ursa/android/gomxpf/installer/InstallerFragment.java:699-724 | when every command succeeds, staging <dir>/<name>, for a non-empty name without '/', runs ls, cp and an echo naming <name> |
| FlashFacts.DownloadFinishedAllSucceed | app/src/main/java/de/ursa/android/gomxpf/installer/InstallerFragment.java:794-811 | on a Lollipop device where everything succeeds, accepting and confirming runs ls, cp, echo, touch, "reboot recovery" and the busybox removal, in that order |
| Installer.InstallerFragment.constructor | app/src/main/java/de/ursa/android/gomxpf/installer/InstallerFragment.java:78-85 | a new fragment has an empty message and error list, no probe binary, and no segmentation fault |
| Installer.InstallerFragment.CheckAppProcessCompatibility | app/src/main/java/de/ursa/android/gomxpf/installer/InstallerFragment.java:612-644 | the loop appends every stderr line in order, then the read error if any, and the verdict is the probe rule |
| Installer.InstallerFragment.CheckCompatibility | app/src/main/java/de/ursa/android/gomxpf/installer/InstallerFragment.java:607-610 | the error list is cleared first, so afterwards it holds exactly this probe's errors |
| Installer.InstallerFragment.DetectCompatibility | app/src/main/java/de/ursa/android/gomxpf/installer/InstallerFragment.java:204-214 | levels without a probe binary are compatible and leave the errors alone; the others record the binary path and take the probe's verdict and errors |
| Installer.InstallerFragment.ShowAlert | app/src/main/java/de/ursa/android/gomxpf/installer/InstallerFragment.java:555-578 | the alert is shown and the segmentation-fault flag is set from its text |
| Installer.InstallerFragment.ShowConfirmDialog | app/src/main/java/de/ursa/android/gomxpf/installer/InstallerFragment.java:588-605 | the confirmation is shown and the segmentation-fault flag is set from its text |
| Installer.InstallerFragment.OnResume | app/src/main/java/de/ursa/android/gomxpf/installer/InstallerFragment.java:503-506 | the segmentation-fault flag is cleared |
| Installer.InstallerFragment.StartShell | app/src/main/java/de/ursa/android/gomxpf/installer/InstallerFragment.java:646-652 | returns whether the shell runs; on failure the root_failed alert is shown |
| Installer.InstallerFragment.StageLegacyBridge | app/src/main/java/de/ursa/android/gomxpf/installer/InstallerFragment.java:682-696 | the extraction steps leave the state and result of Flash.StageLegacyBridge |
| Installer.InstallerFragment.EnsureRecoveryDir | app/src/main/java/de/ursa/android/gomxpf/installer/InstallerFragment.java:699-707 | the listing and mkdir steps leave the state and result of Flash.EnsureRecoveryDir |
| Installer.InstallerFragment.CopyPayload | app/src/main/java/de/ursa/android/gomxpf/installer/InstallerFragment.java:709-724 | the copy and command-file steps leave the state and result of Flash.CopyPayload |
| Installer.InstallerFragment.PrepareAutoFlash | app/src/main/java/de/ursa/android/gomxpf/installer/InstallerFragment.java:674-725 | the step-by-step method leaves the state and result of Flash.PrepareAutoFlash |
| Installer.InstallerFragment.Reboot | app/src/main/java/de/ursa/android/gomxpf/installer/InstallerFragment.java:771-791 | the method leaves the state of Flash.Reboot, whose properties RebootFacts states |
| Installer.InstallerFragment.SoftReboot | app/src/main/java/de/ursa/android/gomxpf/installer/InstallerFragment.java:759-769 | the method leaves the state of Flash.SoftReboot |
| Installer.InstallerFragment.AskRebootToRecovery | app/src/main/java/de/ursa/android/gomxpf/installer/InstallerFragment.java:728-736 | the note, "" and the question are added and the confirmation shows them, as Flash.AskRebootToRecovery |
| Installer.InstallerFragment.OfferRebootToRecovery | app/src/main/java/de/ursa/android/gomxpf/installer/InstallerFragment.java:727-757 | the method leaves the state of Flash.OfferRebootToRecovery for the user's yes, no or dismissal |
| Installer.InstallerFragment.OnDownloadFinished | app/src/main/java/de/ursa/android/gomxpf/installer/InstallerFragment.java:794-811 | the method leaves the state of Flash.OnDownloadFinished for the answer to the install warning and the yes, no or dismissal of the reboot question |
| Theme.GetSelectTheme | app/src/main/java/de/robv/android/xposed/installer/util/ThemeUtil.java:42-45 | the index is within THEMES, equals the stored value when that is in range, and is 0 otherwise |
| Theme.GetSelectThemeIdempotent | app/src/main/java/de/robv/android/xposed/installer/util/ThemeUtil.java:42-45 | selecting from a selected index changes nothing |
| Theme.WithLightStatusBar | app/src/main/java/de/robv/android/xposed/installer/util/ThemeUtil.java:85-89 | the light bit is set and every other bit is unchanged |
| Theme.WithoutLightStatusBar | app/src/main/java/de/robv/android/xposed/installer/util/ThemeUtil.java:91-96 | the light bit is cleared and every other bit is unchanged |
| Theme.SetLightIdempotent | app/src/main/java/de/robv/android/xposed/installer/util/ThemeUtil.java:85-89 | setting the light bit twice is setting it once |
| Theme.ClearLightIdempotent | app/src/main/java/de/robv/android/xposed/installer/util/ThemeUtil.java:91-96 | clearing the light bit twice is clearing it once |
| Theme.SetThenClearRestores | app/src/main/java/de/robv/android/xposed/installer/util/ThemeUtil.java:85-96 | set then clear gives back the flags exactly when the light bit was clear |
| Theme.ClearThenSetRestores | app/src/main/java/de/robv/android/xposed/installer/util/ThemeUtil.java:85-96 | clear then set gives back the flags exactly when the light bit was set |
| Theme.StatusBarFlags | app/src/main/java/de/robv/android/xposed/installer/util/ThemeUtil.java:75-82 | below SDK 23 the flags are unchanged; otherwise the light bit is set exactly for a light colour; other bits never change |
| Theme.StatusBarFlagsIdempotent | app/src/main/java/de/robv/android/xposed/installer/util/ThemeUtil.java:75-82 | applying the same colour twice is applying it once |
| Theme.SetLightStatusBar | app/src/main/java/de/robv/android/xposed/installer/util/ThemeUtil.java:84-89 | the read-modify-write leaves the flags WithLightStatusBar describes |
| Theme.ClearLightStatusBar | app/src/main/java/de/robv/android/xposed/installer/util/ThemeUtil.java:91-96 | the read-modify-write leaves the flags WithoutLightStatusBar describes |
| Theme.ApplyStatusBarLight | app/src/main/java/de/robv/android/xposed/installer/util/ThemeUtil.java:75-82 | the view's flags become StatusBarFlags of the old flags |
| Theme.OutOfRangeThemeRecreates | app/src/main/java/de/robv/android/xposed/installer/util/ThemeUtil.java:52-56 | an activity whose theme index is outside THEMES is always recreated |
| Theme.SetTheme | app/src/main/java/de/robv/android/xposed/installer/util/ThemeUtil.java:47-50 | mTheme becomes the selected index and the style applied is THEMES at that index |
| Theme.ReloadTheme | app/src/main/java/de/robv/android/xposed/installer/util/ThemeUtil.java:52-56 | the activity is recreated once exactly when the selected index differs from mTheme |
| Theme.SetThemeThenReload | app/src/main/java/de/robv/android/xposed/installer/util/ThemeUtil.java:47-56 | reloading right after setTheme with the same preference never recreates |

## Left out

- The insides of RootUtil, AssetUtil, DownloadsUtil, NavUtil and XposedZip are not part of this model. The shell and the extractor are an oracle with fixed answers per command and per asset name.
- Process spawning, stream reading and deleting the probe binary. The probe's possible outcomes are an input (`Compatibility.ProbeRun`), and only the rule that reads them is modelled.
- `File.getAbsolutePath` and the `File.toString` in the copy messages. The copy command and messages use the path as given. `Text.BaseName` models the part of the path normalisation that `File.getName` depends on (dropping trailing '/').
- Text.LowerChar, Text.LowerAscii: case mapping outside ASCII in `toLowerCase(Locale.US)` is not modelled; non-ASCII chars are kept as they are. The segmentation-fault flag is unaffected. The only non-ASCII chars Java lowers to ASCII are U+0130 and U+212A. U+0130 becomes "i" followed by U+0307, and U+212A becomes 'k'. Neither can complete "segmentation fault".
- A null IOException message, which Java adds to the error list as null. The model carries the message as a string.
- `refreshKnownIssue`, which depends on file existence and class probing on the device.
- The `JSONParser` task and its `onPostExecute`, whose success branch cannot be reached because the JSON code is commented out.
- Dialog widgets, toasts, spinners, views, permission requests and UI-thread hops. A dialog is recorded with its text; the user's answers are parameters.
- The `areYouSure` prompts and the menu dispatch that lead to install, uninstall and the reboots.
- In this build `installers` is never assigned: its loading code is commented out, so the list is always null and the call to `getInstallersBySdk` is never reached. `Catalog.GetInstallersBySdk` models the filter on a given list.
- Concurrency between background tasks and the UI thread. Each sequence is one sequential run.
- In ThemeUtil: `isDark` (HSL lightness below 0.65) is a boolean input. `darkenColor`, `getColor`, `setColors`, `tintStatusBar`, `colorizeToolbar`, `drawableToBitmap` and `getThemeColor` are colour arithmetic and drawing.
- The preferences store. The stored theme and install mode are integer inputs.
- SettingsActivity, AboutActivity and BootReceiver.
