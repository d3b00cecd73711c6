/**
  The theme switcher control (front/src/components/ThemeSwitcher.tsx): a
  button that opens and closes a menu listing the registry's themes; picking
  one sets it as the current theme through the provider and closes the menu.
*/
module ThemeSwitcher {
  import opened ThemeContext

  /** `getThemeDescription`: a fixed blurb per theme key, empty for anything else. */
  function ThemeDescription(key: string): (d: string)
    ensures d != "" <==> ParseTheme(key).Some?
  {
    if key == "vintage" then "经典复古风格，温暖的色调和优雅的字体"
    else if key == "agent" then "终端风格，灵光绿文字和命令行界面"
    else if key == "pixel" then "8-bit像素风格，下沉和像素字体"
    else ""
  }

  /** Every theme shows its own description, and no two are the same. */
  lemma DescriptionsDistinct(t1: ThemeType, t2: ThemeType)
    ensures ThemeDescription(ThemeKey(t1)) != ""
    ensures t1 != t2 ==> ThemeDescription(ThemeKey(t1)) != ThemeDescription(ThemeKey(t2))
  {
    KeyRoundTrip(t1);
  }

  datatype Icon = Scroll | Terminal | Gamepad2

  /** `themeIcons`, an object literal indexed by theme key. */
  const ThemeIcons: map<string, Icon> := map["vintage" := Scroll, "agent" := Terminal, "pixel" := Gamepad2]

  /** The icon lookup for the current theme never misses, and each theme has its own icon. */
  lemma IconsTotal()
    ensures forall t :: ThemeKey(t) in ThemeIcons
    ensures forall t1, t2 :: t1 != t2 ==> ThemeIcons[ThemeKey(t1)] != ThemeIcons[ThemeKey(t2)]
    ensures forall k :: k in ThemeIcons ==> ParseTheme(k).Some?
  {
    forall t ensures ThemeKey(t) in ThemeIcons {
      match t
      case Vintage =>
      case Agent =>
      case Pixel =>
    }
  }

  /** For each listed option, whether it is drawn highlighted (with the marker dot). */
  function Highlights(current: ThemeType): (h: seq<bool>)
    ensures |h| == |AvailableThemes()|
    ensures forall i :: 0 <= i < |h| ==> (h[i] <==> AvailableThemes()[i].value == current)
  {
    var options := AvailableThemes();
    seq(|options|, i requires 0 <= i < |options| => options[i].value == current)
  }

  /** Exactly one option is highlighted: the one for the current theme. */
  lemma ExactlyOneHighlighted(current: ThemeType)
    ensures Highlights(current)[IndexOfTheme(current)]
    ensures forall i :: 0 <= i < |Highlights(current)| && Highlights(current)[i] ==> i == IndexOfTheme(current)
  {
    AvailableThemesOnce();
  }

  class ThemeSwitcher {
    var isOpen: bool
    const provider: ThemeProvider

    constructor (p: ThemeProvider)
      ensures provider == p && !isOpen
    {
      provider := p;
      isOpen := false;
    }

    /** The switcher button flips the menu. */
    method ToggleOpen()
      modifies this`isOpen
      ensures isOpen == !old(isOpen)
    {
      isOpen := !isOpen;
    }

    /** `handleThemeChange`: set and persist the theme, then close the menu. */
    method HandleThemeChange(t: ThemeType)
      modifies this`isOpen, provider`currentTheme, provider`storage
      ensures provider.currentTheme == t
      ensures provider.storage == old(provider.storage)[StorageKey := ThemeKey(t)]
      ensures !isOpen
    {
      provider.SetTheme(t);
      isOpen := false;
    }
  }
}
