/**
 * ThemeUtil: the theme preference, clamped to the themes the app ships, and
 * the light-status-bar bit of a view's system UI flag word.
 */
module Theme {
  import opened Text

  /** The three styles of THEMES, in index order. */
  datatype Style = Light | Dark | DarkBlack

  const THEMES: seq<Style> := [Light, Dark, DarkBlack]

  /** Build.VERSION_CODES.M: the first level with a light status bar. */
  const SDK_M := 23

  /** View.SYSTEM_UI_FLAG_LIGHT_STATUS_BAR */
  const LIGHT_STATUS_BAR: bv32 := 0x2000

  /**
   * getSelectTheme: the stored "theme" preference when it names one of the
   * themes, otherwise the first theme.
   */
  function GetSelectTheme(stored: int): (theme: int)
    ensures 0 <= theme < |THEMES|
    ensures 0 <= stored < |THEMES| ==> theme == stored
    ensures stored < 0 || stored >= |THEMES| ==> theme == 0
  {
    if 0 <= stored < |THEMES| then stored else 0
  }

  /** Selecting a theme twice selects the same one. */
  lemma GetSelectThemeIdempotent(stored: int)
    ensures GetSelectTheme(GetSelectTheme(stored)) == GetSelectTheme(stored)
  {
  }

  /** Whether the light-status-bar bit is set. */
  predicate IsLight(flags: bv32) {
    flags & LIGHT_STATUS_BAR != 0
  }

  /** Every flag bit except the light-status-bar bit. */
  function OtherFlags(flags: bv32): bv32 {
    flags & !LIGHT_STATUS_BAR
  }

  /** The flag word with the light-status-bar bit set (flags |= LIGHT_STATUS_BAR). */
  function WithLightStatusBar(flags: bv32): (r: bv32)
    ensures IsLight(r)
    ensures OtherFlags(r) == OtherFlags(flags)
  {
    flags | LIGHT_STATUS_BAR
  }

  /** The flag word with the light-status-bar bit cleared (flags &= ~LIGHT_STATUS_BAR). */
  function WithoutLightStatusBar(flags: bv32): (r: bv32)
    ensures !IsLight(r)
    ensures OtherFlags(r) == OtherFlags(flags)
  {
    flags & !LIGHT_STATUS_BAR
  }

  /**
   * A flag word is fixed by its light-status-bar bit and its other bits;
   * the four facts below follow from this.
   */
  lemma FlagsDeterminedByParts(a: bv32, b: bv32)
    requires IsLight(a) == IsLight(b)
    requires OtherFlags(a) == OtherFlags(b)
    ensures a == b
  {
  }

  /** Setting the bit twice sets it once. */
  lemma SetLightIdempotent(flags: bv32)
    ensures WithLightStatusBar(WithLightStatusBar(flags)) == WithLightStatusBar(flags)
  {
    var once := WithLightStatusBar(flags);
    FlagsDeterminedByParts(WithLightStatusBar(once), once);
  }

  /** Clearing the bit twice clears it once. */
  lemma ClearLightIdempotent(flags: bv32)
    ensures WithoutLightStatusBar(WithoutLightStatusBar(flags)) == WithoutLightStatusBar(flags)
  {
    var once := WithoutLightStatusBar(flags);
    FlagsDeterminedByParts(WithoutLightStatusBar(once), once);
  }

  /** Setting then clearing gives back every word whose bit was clear, and no other. */
  lemma SetThenClearRestores(flags: bv32)
    ensures WithoutLightStatusBar(WithLightStatusBar(flags)) == flags <==> !IsLight(flags)
  {
    var back := WithoutLightStatusBar(WithLightStatusBar(flags));
    if !IsLight(flags) {
      FlagsDeterminedByParts(back, flags);
    }
  }

  /** Clearing then setting gives back every word whose bit was set, and no other. */
  lemma ClearThenSetRestores(flags: bv32)
    ensures WithLightStatusBar(WithoutLightStatusBar(flags)) == flags <==> IsLight(flags)
  {
    var back := WithLightStatusBar(WithoutLightStatusBar(flags));
    if IsLight(flags) {
      FlagsDeterminedByParts(back, flags);
    }
  }

  /**
   * The flag word applyStatusBarLight leaves: unchanged below Marshmallow,
   * otherwise the light bit set for a light colour and cleared for a dark one.
   * The colour's darkness is an input.
   */
  function StatusBarFlags(sdk: int, isDark: bool, flags: bv32): (r: bv32)
    ensures sdk < SDK_M ==> r == flags
    ensures sdk >= SDK_M ==> (IsLight(r) <==> !isDark)
    ensures OtherFlags(r) == OtherFlags(flags)
  {
    if sdk < SDK_M then flags
    else if !isDark then WithLightStatusBar(flags)
    else WithoutLightStatusBar(flags)
  }

  /** Applying the same colour twice changes nothing the second time. */
  lemma StatusBarFlagsIdempotent(sdk: int, isDark: bool, flags: bv32)
    ensures StatusBarFlags(sdk, isDark, StatusBarFlags(sdk, isDark, flags)) == StatusBarFlags(sdk, isDark, flags)
  {
    if sdk >= SDK_M {
      if isDark {
        ClearLightIdempotent(flags);
      } else {
        SetLightIdempotent(flags);
      }
    }
  }

  /** A view's system UI visibility flags. */
  class View {
    var systemUiVisibility: bv32

    constructor (flags: bv32)
      ensures systemUiVisibility == flags
    {
      systemUiVisibility := flags;
    }
  }

  /** The part of XposedBaseActivity the theme helpers touch. */
  class Activity {
    /** mTheme: the index of the theme the activity was created with. */
    var mTheme: int
    /** The style last passed to Activity.setTheme, if any. */
    var style: Option<Style>
    /** How many times Activity.recreate was called. */
    var recreations: nat

    constructor ()
      ensures mTheme == 0 && style == None && recreations == 0
    {
      mTheme := 0;
      style := None;
      recreations := 0;
    }
  }

  /** setLightStatusBar: read the flags, or in the bit, write them back. */
  method SetLightStatusBar(view: View)
    modifies view
    ensures view.systemUiVisibility == WithLightStatusBar(old(view.systemUiVisibility))
  {
    var flags := view.systemUiVisibility;
    flags := flags | LIGHT_STATUS_BAR;
    view.systemUiVisibility := flags;
  }

  /** clearLightStatusBar: read the flags, mask the bit out, write them back. */
  method ClearLightStatusBar(view: View)
    modifies view
    ensures view.systemUiVisibility == WithoutLightStatusBar(old(view.systemUiVisibility))
  {
    var flags := view.systemUiVisibility;
    flags := flags & !LIGHT_STATUS_BAR;
    view.systemUiVisibility := flags;
  }

  /** applyStatusBarLight, with the SDK level and the colour's darkness as inputs. */
  method ApplyStatusBarLight(sdk: int, isDark: bool, view: View)
    modifies view
    ensures view.systemUiVisibility == StatusBarFlags(sdk, isDark, old(view.systemUiVisibility))
  {
    if sdk < SDK_M {
      return;
    }
    if !isDark {
      SetLightStatusBar(view);
    } else {
      ClearLightStatusBar(view);
    }
  }

  /** Whether reloadTheme recreates an activity created with theme `current`. */
  predicate NeedsRecreate(stored: int, current: int) {
    GetSelectTheme(stored) != current
  }

  /** An activity whose theme index is out of range is always recreated. */
  lemma OutOfRangeThemeRecreates(stored: int, current: int)
    requires current < 0 || current >= |THEMES|
    ensures NeedsRecreate(stored, current)
  {
  }

  /** setTheme: remember the selected index and apply its style. */
  method SetTheme(stored: int, activity: Activity)
    modifies activity`mTheme, activity`style
    ensures activity.mTheme == GetSelectTheme(stored)
    ensures activity.style == Some(THEMES[activity.mTheme])
  {
    activity.mTheme := GetSelectTheme(stored);
    activity.style := Some(THEMES[activity.mTheme]);
  }

  /** reloadTheme: recreate the activity when the preference names another theme. */
  method ReloadTheme(stored: int, activity: Activity)
    modifies activity`recreations
    ensures activity.recreations == old(activity.recreations) + (if NeedsRecreate(stored, activity.mTheme) then 1 else 0)
  {
    var theme := GetSelectTheme(stored);
    if theme != activity.mTheme {
      activity.recreations := activity.recreations + 1;
    }
  }

  /** setTheme followed by reloadTheme with the same preference never recreates. */
  method SetThemeThenReload(stored: int, activity: Activity)
    modifies activity`mTheme, activity`style, activity`recreations
    ensures activity.mTheme == GetSelectTheme(stored)
    ensures activity.recreations == old(activity.recreations)
  {
    SetTheme(stored, activity);
    ReloadTheme(stored, activity);
  }
}
