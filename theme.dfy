/** The theme provider of constants/Theme.tsx.

    The app's appearance is either pinned to light or dark, or follows the
    device's colour scheme.  The provider keeps three state cells (`themeMode`,
    `theme`, `isLoaded`), restores the mode from a preference store once on
    mount, and renders nothing until that is done.  React's effects and
    `await` are explicit steps here, taken in the order React runs them. */
module Theme {
  import opened Wrappers

  /** The two concrete appearances, `'light' | 'dark'`. */
  datatype ColorScheme = Light | Dark

  /** `ThemeMode`: a pinned scheme (`'light'` or `'dark'`) or `'system'`. */
  datatype ThemeMode = Fixed(scheme: ColorScheme) | System

  /** What the context hands to consumers (`ThemeContextType`, without the setter). */
  datatype ThemeContextValue = ThemeContextValue(theme: ColorScheme, themeMode: ThemeMode, isSystemTheme: bool)

  const OutsideProvider := "useTheme must be used within a ThemeProvider"

  /** The appearance a mode shows when the device reports `systemScheme`
      (`null` when it reports none). */
  function ResolveTheme(mode: ThemeMode, systemScheme: Option<ColorScheme>): (theme: ColorScheme)
    ensures mode.Fixed? ==> theme == mode.scheme
    ensures mode.System? && systemScheme.Some? ==> theme == systemScheme.value
    ensures mode.System? && systemScheme.None? ==> theme == Light
  {
    if mode == System then systemScheme.GetOr(Light) else mode.scheme
  }

  /** Only the `system` mode depends on the device's scheme. */
  lemma OnlySystemFollowsDevice(mode: ThemeMode, s1: Option<ColorScheme>, s2: Option<ColorScheme>)
    ensures ResolveTheme(mode, s1) != ResolveTheme(mode, s2) ==> mode == System
    ensures mode == System && s1.Some? && s2.Some? ==> (ResolveTheme(mode, s1) == ResolveTheme(mode, s2) <==> s1 == s2)
  {
  }

  function IsSystemTheme(mode: ThemeMode): (b: bool)
    ensures b <==> mode == System
  {
    mode.System?
  }

  /** `useTheme`: the context value, or the error it throws outside a provider. */
  function UseTheme(context: Option<ThemeContextValue>): (r: Result<ThemeContextValue, string>)
    ensures r.Failure? <==> context.None?
    ensures r.Failure? ==> r.error == OutsideProvider
    ensures r.Success? ==> r.value == context.value
  {
    match context
    case None => Failure(OutsideProvider)
    case Some(value) => Success(value)
  }

  /** The persisted preference: the last mode saved, or `null` before any. */
  class PreferenceStore {
    var saved: Option<ThemeMode>

    constructor (saved: Option<ThemeMode>)
      ensures this.saved == saved
    {
      this.saved := saved;
    }

    /** `saveThemeMode` */
    method Save(mode: ThemeMode)
      modifies this
      ensures saved == Some(mode)
    {
      saved := Some(mode);
    }

    /** `loadThemeMode` */
    method Load() returns (mode: Option<ThemeMode>)
      ensures mode == saved
    {
      mode := saved;
    }
  }

  class ThemeProvider {
    var themeMode: ThemeMode
    var theme: ColorScheme
    var isLoaded: bool
    /** What `useColorScheme()` currently reports. */
    var systemColorScheme: Option<ColorScheme>
    const store: PreferenceStore

    /** The first render: mode `system`, appearance `light`, not loaded. */
    constructor (store: PreferenceStore, systemColorScheme: Option<ColorScheme>)
      ensures this.store == store && this.systemColorScheme == systemColorScheme
      ensures themeMode == System && theme == Light && !isLoaded
    {
      this.store := store;
      this.systemColorScheme := systemColorScheme;
      themeMode := System;
      theme := Light;
      isLoaded := false;
    }

    /** The mount effect `loadSavedTheme`: a saved mode replaces the current
        one, no saved mode keeps it, and loading is over either way. */
    method LoadSavedTheme()
      modifies this`themeMode, this`isLoaded
      ensures themeMode == old(store.saved).GetOr(old(themeMode))
      ensures isLoaded
    {
      var savedThemeMode := store.Load();
      if savedThemeMode.Some? {
        themeMode := savedThemeMode.value;
      }
      isLoaded := true;
    }

    /** The effect on `[themeMode, systemColorScheme]`. */
    method ApplyResolution()
      modifies this`theme
      ensures theme == ResolveTheme(themeMode, systemColorScheme)
    {
      if themeMode == System {
        theme := systemColorScheme.GetOr(Light);
      } else {
        theme := themeMode.scheme;
      }
    }

    /** The device's scheme changes; the resolution effect runs again. */
    method SystemColorSchemeChanged(scheme: Option<ColorScheme>)
      modifies this`systemColorScheme, this`theme
      ensures systemColorScheme == scheme
      ensures theme == ResolveTheme(themeMode, scheme)
    {
      systemColorScheme := scheme;
      ApplyResolution();
    }

    /** `setThemeMode`: the state cell and the store both take `mode`. */
    method SetThemeMode(mode: ThemeMode)
      modifies this`themeMode, store
      ensures themeMode == mode && store.saved == Some(mode)
    {
      themeMode := mode;
      store.Save(mode);
    }

    /** What the provider renders: nothing until loaded, then the context value. */
    function Rendered(): (context: Option<ThemeContextValue>)
      reads this
      ensures context.None? <==> !isLoaded
      ensures context.Some? ==> context.value.themeMode == themeMode && context.value.theme == theme
      ensures context.Some? ==> (context.value.isSystemTheme <==> themeMode == System)
    {
      if !isLoaded then None else Some(ThemeContextValue(theme, themeMode, IsSystemTheme(themeMode)))
    }
  }

  /** Mounting a provider over a store: before loading it renders nothing, so
      none of its children mounts; after the load and the resolution effect a
      child's `useTheme` returns the saved mode (or `system`) resolved against
      the device. */
  method MountProvider(saved: Option<ThemeMode>, systemScheme: Option<ColorScheme>)
    returns (before: Option<ThemeContextValue>, after: Result<ThemeContextValue, string>)
    ensures before.None?
    ensures after.Success?
    ensures after.value.themeMode == saved.GetOr(System)
    ensures after.value.theme == ResolveTheme(saved.GetOr(System), systemScheme)
    ensures after.value.isSystemTheme <==> saved.GetOr(System) == System
  {
    var store := new PreferenceStore(saved);
    var provider := new ThemeProvider(store, systemScheme);
    before := provider.Rendered();
    provider.ApplyResolution();
    provider.LoadSavedTheme();
    provider.ApplyResolution();
    after := UseTheme(provider.Rendered());
  }

  /** A mode set through one provider is the mode the next provider over the
      same store loads. */
  method SetThenRemount(saved: Option<ThemeMode>, mode: ThemeMode, systemScheme: Option<ColorScheme>)
    returns (reloaded: ThemeMode)
    ensures reloaded == mode
  {
    var store := new PreferenceStore(saved);
    var first := new ThemeProvider(store, systemScheme);
    first.LoadSavedTheme();
    first.SetThemeMode(mode);
    var second := new ThemeProvider(store, systemScheme);
    second.LoadSavedTheme();
    reloaded := second.themeMode;
  }
}
