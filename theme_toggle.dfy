/** The toggle of components/ThemeToggle.tsx: a button showing an icon and a
    label for the current mode, which moves to the next mode when pressed. */
module ThemeToggle {
  import opened Wrappers
  import opened Theme

  /** The mode a press moves to: system, then light, then dark, then system again. */
  function NextMode(mode: ThemeMode): (next: ThemeMode)
    ensures next != mode
    ensures mode == System <==> next == Fixed(Light)
    ensures mode == Fixed(Light) <==> next == Fixed(Dark)
    ensures mode == Fixed(Dark) <==> next == System
  {
    match mode
    case System => Fixed(Light)
    case Fixed(Light) => Fixed(Dark)
    case Fixed(Dark) => System
  }

  /** The mode after `n` presses. */
  function Pressed(mode: ThemeMode, n: nat): (r: ThemeMode)
    decreases n
  {
    if n == 0 then mode else Pressed(NextMode(mode), n - 1)
  }

  /** Three presses bring every mode back. */
  lemma CycleHasPeriodThree(mode: ThemeMode)
    ensures NextMode(NextMode(NextMode(mode))) == mode
    ensures NextMode(mode) != mode && NextMode(NextMode(mode)) != mode
  {
  }

  /** Only the number of presses modulo three matters. */
  lemma {:induction false} PressesCountModuloThree(mode: ThemeMode, n: nat)
    ensures Pressed(mode, n) == Pressed(mode, n % 3)
    decreases n
  {
    if n >= 3 {
      calc {
        Pressed(mode, n);
        Pressed(NextMode(mode), n - 1);
        Pressed(NextMode(NextMode(mode)), n - 2);
        Pressed(NextMode(NextMode(NextMode(mode))), n - 3);
        { CycleHasPeriodThree(mode); }
        Pressed(mode, n - 3);
        { PressesCountModuloThree(mode, n - 3); }
        Pressed(mode, (n - 3) % 3);
      }
    }
  }

  /** From any mode every mode is reached within three presses. */
  lemma {:induction false} EveryModeReachable(mode: ThemeMode, target: ThemeMode)
    ensures exists n: nat :: n < 3 && Pressed(mode, n) == target
  {
    assert Pressed(mode, 0) == mode;
    assert Pressed(mode, 1) == NextMode(mode);
    assert Pressed(mode, 2) == NextMode(NextMode(mode));
    var n: nat :| n < 3 && Pressed(mode, n) == target by {
      match mode
      case System =>
      case Fixed(Light) =>
      case Fixed(Dark) =>
    }
  }

  /** `getThemeIcon`, given the context's `themeMode` and `isSystemTheme`. */
  function ThemeIcon(themeMode: ThemeMode, isSystemTheme: bool): (icon: string)
    ensures isSystemTheme ==> icon == "phone-portrait-outline"
    ensures !isSystemTheme ==> (icon == "moon" <==> themeMode == Fixed(Dark))
    ensures !isSystemTheme && themeMode != Fixed(Dark) ==> icon == "sunny"
  {
    if isSystemTheme then "phone-portrait-outline"
    else if themeMode == Fixed(Dark) then "moon"
    else "sunny"
  }

  /** `getThemeText`, given the context's `themeMode` and `isSystemTheme`. */
  function ThemeText(themeMode: ThemeMode, isSystemTheme: bool): (text: string)
    ensures isSystemTheme ==> text == "System"
    ensures !isSystemTheme ==> (text == "Dark" <==> themeMode == Fixed(Dark))
    ensures !isSystemTheme && themeMode != Fixed(Dark) ==> text == "Light"
  {
    if isSystemTheme then "System"
    else if themeMode == Fixed(Dark) then "Dark"
    else "Light"
  }

  /** With `isSystemTheme` derived from the mode, icon and label tell the three
      modes apart. */
  lemma IconAndTextDistinguishModes(m1: ThemeMode, m2: ThemeMode)
    ensures ThemeIcon(m1, IsSystemTheme(m1)) == ThemeIcon(m2, IsSystemTheme(m2)) <==> m1 == m2
    ensures ThemeText(m1, IsSystemTheme(m1)) == ThemeText(m2, IsSystemTheme(m2)) <==> m1 == m2
  {
    assert "phone-portrait-outline" != "moon" && "phone-portrait-outline" != "sunny" && "moon" != "sunny";
    assert "System" != "Dark" && "System" != "Light" && "Dark" != "Light";
    assert m2 == System || m2 == Fixed(Light) || m2 == Fixed(Dark) by {
      match m2
      case System =>
      case Fixed(Light) =>
      case Fixed(Dark) =>
    }
    match m1
    case System =>
    case Fixed(Light) =>
    case Fixed(Dark) =>
  }

  /** `cycleTheme`: the press handler, which sets the next mode through the provider. */
  method CycleTheme(provider: ThemeProvider)
    modifies provider`themeMode, provider.store
    ensures provider.themeMode == NextMode(old(provider.themeMode))
    ensures provider.store.saved == Some(provider.themeMode)
  {
    if provider.themeMode == System {
      provider.SetThemeMode(Fixed(Light));
    } else if provider.themeMode == Fixed(Light) {
      provider.SetThemeMode(Fixed(Dark));
    } else {
      provider.SetThemeMode(System);
    }
  }

  /** Pressing the toggle three times in a mounted provider restores the mode
      that was showing and leaves that mode persisted. */
  method PressThreeTimes(saved: Option<ThemeMode>, systemScheme: Option<ColorScheme>)
    returns (start: ThemeMode, modes: seq<ThemeMode>, persisted: Option<ThemeMode>)
    ensures start == saved.GetOr(System)
    ensures modes == [NextMode(start), NextMode(NextMode(start)), start]
    ensures persisted == Some(start)
  {
    var store := new PreferenceStore(saved);
    var provider := new ThemeProvider(store, systemScheme);
    provider.LoadSavedTheme();
    start := provider.themeMode;
    modes := [];
    CycleTheme(provider);
    modes := modes + [provider.themeMode];
    CycleTheme(provider);
    modes := modes + [provider.themeMode];
    CycleTheme(provider);
    modes := modes + [provider.themeMode];
    CycleHasPeriodThree(start);
    persisted := store.saved;
  }
}
