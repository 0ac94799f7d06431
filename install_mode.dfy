/**
 * The persisted install mode: an integer preference clamped to the three known
 * modes, and the label shown for it.
 */
module InstallMode {

  const INSTALL_MODE_NORMAL := 0
  const INSTALL_MODE_RECOVERY_AUTO := 1
  const INSTALL_MODE_RECOVERY_MANUAL := 2

  /** The string resources install_mode_normal, _recovery_auto, _recovery_manual. */
  datatype Label = NormalLabel | RecoveryAutoLabel | RecoveryManualLabel

  /** A label, or the IllegalStateException naming an unknown mode. */
  datatype LabelOrError = Known(shown: Label) | UnknownMode(mode: int)

  /**
   * getInstallMode: the stored "install_mode" preference, with every value
   * outside NORMAL..RECOVERY_MANUAL read as NORMAL.
   */
  function GetInstallMode(stored: int): (mode: int)
    ensures INSTALL_MODE_NORMAL <= mode <= INSTALL_MODE_RECOVERY_MANUAL
    ensures INSTALL_MODE_NORMAL <= stored <= INSTALL_MODE_RECOVERY_MANUAL ==> mode == stored
    ensures stored < INSTALL_MODE_NORMAL || stored > INSTALL_MODE_RECOVERY_MANUAL ==> mode == INSTALL_MODE_NORMAL
  {
    if stored < INSTALL_MODE_NORMAL || stored > INSTALL_MODE_RECOVERY_MANUAL then INSTALL_MODE_NORMAL else stored
  }

  /**
   * getInstallModeText: the label of the clamped mode. The switch falls
   * through to an IllegalStateException for any other value, which the
   * clamping makes unreachable.
   */
  function GetInstallModeText(stored: int): (r: LabelOrError)
    ensures r.Known?
  {
    var mode := GetInstallMode(stored);
    if mode == INSTALL_MODE_NORMAL then Known(NormalLabel)
    else if mode == INSTALL_MODE_RECOVERY_AUTO then Known(RecoveryAutoLabel)
    else if mode == INSTALL_MODE_RECOVERY_MANUAL then Known(RecoveryManualLabel)
    else UnknownMode(mode)
  }

  /** The mode a label stands for. */
  function ModeOfLabel(l: Label): int {
    match l
    case NormalLabel => INSTALL_MODE_NORMAL
    case RecoveryAutoLabel => INSTALL_MODE_RECOVERY_AUTO
    case RecoveryManualLabel => INSTALL_MODE_RECOVERY_MANUAL
  }

  /** The label shown always names the mode in effect, so distinct modes get distinct labels. */
  lemma LabelRoundTrip(stored: int)
    ensures ModeOfLabel(GetInstallModeText(stored).shown) == GetInstallMode(stored)
  {
  }

  /** Out-of-range preferences behave exactly like NORMAL. */
  lemma OutOfRangeIsNormal(stored: int)
    requires stored < INSTALL_MODE_NORMAL || stored > INSTALL_MODE_RECOVERY_MANUAL
    ensures GetInstallModeText(stored) == GetInstallModeText(INSTALL_MODE_NORMAL)
  {
  }

  /** Clamping is idempotent. */
  lemma GetInstallModeIdempotent(stored: int)
    ensures GetInstallMode(GetInstallMode(stored)) == GetInstallMode(stored)
  {
  }
}
