/**
  The theme registry and the provider that holds the current theme
  (src/contexts/ThemeContext.tsx).

  The registry is a total map from the three theme ids to a configuration
  record. The provider holds the current theme, restores it from browser
  storage, persists every choice under the key "theme", and propagates the
  chosen configuration into the root element as CSS custom properties named
  "--color-<field>", "--font-<field>" and "--effect-<field>", plus a
  "data-theme" attribute and a class name. Browser storage and the root
  element are modelled as maps owned by the provider.
*/
module ThemeContext {
  import opened Wrappers

  datatype ThemeType = Vintage | Agent | Pixel

  /** Every theme, in the order the registry literal declares them. */
  const AllThemes: seq<ThemeType> := [Vintage, Agent, Pixel]

  /** The string a theme is keyed, stored and rendered under. */
  function ThemeKey(t: ThemeType): string {
    match t
    case Vintage => "vintage"
    case Agent => "agent"
    case Pixel => "pixel"
  }

  /** Registry lookup by a string key: the theme whose key it is, if any. */
  function ParseTheme(s: string): (r: Option<ThemeType>)
    ensures r.Some? ==> ThemeKey(r.value) == s
    ensures r.None? ==> forall t :: ThemeKey(t) != s
  {
    if s == "vintage" then Some(Vintage)
    else if s == "agent" then Some(Agent)
    else if s == "pixel" then Some(Pixel)
    else None
  }

  /** Looking up a theme's own key always finds that theme. */
  lemma KeyRoundTrip(t: ThemeType)
    ensures ParseTheme(ThemeKey(t)) == Some(t)
  {
  }

  // ----- the configuration record -----

  datatype Colors = Colors(
    primary: string, secondary: string, accent: string, background: string,
    surface: string, text: string, textSecondary: string, border: string,
    success: string, warning: string, error: string)

  datatype Fonts = Fonts(primary: string, secondary: string, mono: string)

  datatype Effects = Effects(blur: string, shadow: string, glow: string)

  datatype ThemeConfig = ThemeConfig(
    name: string, displayName: string, colors: Colors, fonts: Fonts, effects: Effects)

  /** Field names of each group, in declaration order (the order Object.entries yields). */
  const ColorNames: seq<string> := [
    "primary", "secondary", "accent", "background", "surface", "text",
    "textSecondary", "border", "success", "warning", "error"]
  const FontNames: seq<string> := ["primary", "secondary", "mono"]
  const EffectNames: seq<string> := ["blur", "shadow", "glow"]

  /** The (field name, value) pairs of a color group. */
  function ColorEntries(c: Colors): (e: seq<(string, string)>)
    ensures |e| == |ColorNames|
    ensures forall i :: 0 <= i < |e| ==> e[i].0 == ColorNames[i]
  {
    [("primary", c.primary), ("secondary", c.secondary), ("accent", c.accent),
     ("background", c.background), ("surface", c.surface), ("text", c.text),
     ("textSecondary", c.textSecondary), ("border", c.border),
     ("success", c.success), ("warning", c.warning), ("error", c.error)]
  }

  function FontEntries(f: Fonts): (e: seq<(string, string)>)
    ensures |e| == |FontNames|
    ensures forall i :: 0 <= i < |e| ==> e[i].0 == FontNames[i]
  {
    [("primary", f.primary), ("secondary", f.secondary), ("mono", f.mono)]
  }

  function EffectEntries(x: Effects): (e: seq<(string, string)>)
    ensures |e| == |EffectNames|
    ensures forall i :: 0 <= i < |e| ==> e[i].0 == EffectNames[i]
  {
    [("blur", x.blur), ("shadow", x.shadow), ("glow", x.glow)]
  }

  predicate NonEmptyValues(e: seq<(string, string)>) {
    forall i :: 0 <= i < |e| ==> e[i].1 != ""
  }

  /** The registry `themeConfigs`: total over the three ids. */
  function Config(t: ThemeType): (c: ThemeConfig)
    ensures c.name == ThemeKey(t)
    ensures c.displayName != ""
    ensures NonEmptyValues(ColorEntries(c.colors))
    ensures NonEmptyValues(FontEntries(c.fonts))
    ensures NonEmptyValues(EffectEntries(c.effects))
  {
    match t
    case Vintage =>
      ThemeConfig("vintage", "复古探险家",
        Colors("#8B4513", "#D2691E", "#CD853F", "#F5E6D3", "#FFF8DC", "#2F1B14",
               "#8B4513", "#D2691E", "#228B22", "#FF8C00", "#DC143C"),
        Fonts("\"Crimson Text\", serif", "\"Playfair Display\", serif", "\"Courier New\", monospace"),
        Effects("blur(2px)", "0 4px 8px rgba(139, 69, 19, 0.3)", "0 0 10px rgba(205, 133, 63, 0.5)"))
    case Agent =>
      ThemeConfig("agent", "神秘特工档案",
        Colors("#00FF00", "#FFFFFF", "#FF0000", "#000000", "#1a1a1a", "#00FF00",
               "#FFFFFF", "#00FF00", "#00FF00", "#FFFF00", "#FF0000"),
        Fonts("\"Source Code Pro\", monospace", "\"Inconsolata\", monospace", "\"Source Code Pro\", monospace"),
        Effects("blur(1px)", "0 0 10px rgba(0, 255, 0, 0.5)", "0 0 20px rgba(0, 255, 0, 0.8)"))
    case Pixel =>
      ThemeConfig("pixel", "像素游戏RPG",
        Colors("#FF6B35", "#F7931E", "#FFD23F", "#2E86AB", "#A23B72", "#FFFFFF",
               "#FFD23F", "#FFFFFF", "#4CAF50", "#FF9800", "#F44336"),
        Fonts("\"Press Start 2P\", cursive", "\"Press Start 2P\", cursive", "\"Press Start 2P\", cursive"),
        Effects("none", "4px 4px 0px rgba(0, 0, 0, 0.8)", "0 0 8px rgba(255, 210, 63, 0.6)"))
  }

  // ----- the values exposed by the context -----

  datatype ThemeOption = ThemeOption(value: ThemeType, labelText: string)

  /** The position of a theme in the registry's declaration order. */
  function IndexOfTheme(t: ThemeType): (i: nat)
    ensures i < |AllThemes| && AllThemes[i] == t
  {
    match t
    case Vintage => 0
    case Agent => 1
    case Pixel => 2
  }

  /**
    `availableThemes`: the registry's entries in declaration order, each
    labelled with its display name; every theme appears exactly once.
  */
  function AvailableThemes(): (r: seq<ThemeOption>)
    ensures |r| == |AllThemes|
    ensures forall i :: 0 <= i < |r| ==> r[i].value == AllThemes[i]
    ensures forall i :: 0 <= i < |r| ==> r[i].labelText == Config(r[i].value).displayName
  {
    [ThemeOption(Vintage, Config(Vintage).displayName),
     ThemeOption(Agent, Config(Agent).displayName),
     ThemeOption(Pixel, Config(Pixel).displayName)]
  }

  /** Every theme is offered exactly once, at its own index. */
  lemma AvailableThemesOnce()
    ensures forall i, j :: 0 <= i < j < |AvailableThemes()| ==> AvailableThemes()[i].value != AvailableThemes()[j].value
    ensures forall t :: AvailableThemes()[IndexOfTheme(t)].value == t
  {
  }

  // ----- propagation into the root element -----

  /** The three groups of a configuration that are propagated. */
  datatype Group = ColorGroup | FontGroup | EffectGroup

  function GroupPrefix(g: Group): string {
    match g
    case ColorGroup => "--color-"
    case FontGroup => "--font-"
    case EffectGroup => "--effect-"
  }

  /** The custom-property name of a field: the group's prefix, then the field name verbatim. */
  function VarKey(g: Group, field: string): string {
    GroupPrefix(g) + field
  }

  /** Distinct (group, field) pairs never share a custom-property name. */
  lemma VarKeyInjective(g1: Group, f1: string, g2: Group, f2: string)
    ensures VarKey(g1, f1) == VarKey(g2, f2) <==> g1 == g2 && f1 == f2
  {
    var k1, k2 := VarKey(g1, f1), VarKey(g2, f2);
    assert k1[2] == GroupPrefix(g1)[2] && k2[2] == GroupPrefix(g2)[2];
    assert k1[|GroupPrefix(g1)|..] == f1 && k2[|GroupPrefix(g2)|..] == f2;
  }

  /** Field names of a group, in declaration order. */
  function GroupNames(g: Group): seq<string> {
    match g
    case ColorGroup => ColorNames
    case FontGroup => FontNames
    case EffectGroup => EffectNames
  }

  /** The (field name, value) pairs of one group of a configuration, in declaration order. */
  function Entries(c: ThemeConfig, g: Group): (e: seq<(string, string)>)
    ensures NamesOf(e) == GroupNames(g)
  {
    var e := match g
      case ColorGroup => ColorEntries(c.colors)
      case FontGroup => FontEntries(c.fonts)
      case EffectGroup => EffectEntries(c.effects);
    assert NamesOf(e) == GroupNames(g);
    e
  }

  function NamesOf(e: seq<(string, string)>): (names: seq<string>)
    ensures |names| == |e|
    ensures forall i :: 0 <= i < |e| ==> names[i] == e[i].0
  {
    seq(|e|, i requires 0 <= i < |e| => e[i].0)
  }

  predicate Distinct(names: seq<string>) {
    forall i, j :: 0 <= i < j < |names| ==> names[i] != names[j]
  }

  /** No group repeats a field name. */
  lemma GroupNamesDistinct(g: Group)
    ensures Distinct(GroupNames(g))
  {
  }

  /**
    The custom properties one group writes: each entry in turn, later writes
    overriding earlier ones, as the forEach over Object.entries does.
  */
  function VarsOf(g: Group, entries: seq<(string, string)>): map<string, string>
  {
    if entries == [] then map[]
    else
      var last := entries[|entries| - 1];
      VarsOf(g, entries[..|entries| - 1])[VarKey(g, last.0) := last.1]
  }

  /** The full set of custom properties the effect writes for a theme configuration. */
  function ThemeVariables(c: ThemeConfig): map<string, string> {
    VarsOf(ColorGroup, Entries(c, ColorGroup))
      + VarsOf(FontGroup, Entries(c, FontGroup))
      + VarsOf(EffectGroup, Entries(c, EffectGroup))
  }

  /** The root style after the propagation effect has run with configuration `c`. */
  function AppliedStyle(style: map<string, string>, c: ThemeConfig): map<string, string> {
    style + ThemeVariables(c)
  }

  /** A group writes exactly the names of its own fields. */
  lemma {:induction false} VarsOfDomain(g: Group, e: seq<(string, string)>, h: Group, f: string)
    ensures VarKey(h, f) in VarsOf(g, e) <==> h == g && f in NamesOf(e)
  {
    if e != [] {
      var n := |e|;
      VarsOfDomain(g, e[..n - 1], h, f);
      VarKeyInjective(h, f, g, e[n - 1].0);
      assert NamesOf(e) == NamesOf(e[..n - 1]) + [e[n - 1].0];
    }
  }

  /** Two entry lists with the same field names write the same custom-property names. */
  lemma {:induction false} VarsOfSameKeys(g: Group, e1: seq<(string, string)>, e2: seq<(string, string)>)
    requires NamesOf(e1) == NamesOf(e2)
    ensures VarsOf(g, e1).Keys == VarsOf(g, e2).Keys
  {
    if e1 != [] {
      var n := |e1|;
      assert NamesOf(e1[..n - 1]) == NamesOf(e2[..n - 1]);
      VarsOfSameKeys(g, e1[..n - 1], e2[..n - 1]);
    }
  }

  /** With distinct field names, every entry is read back under its own name with its own value. */
  lemma {:induction false} VarsOfLookup(g: Group, e: seq<(string, string)>, j: nat)
    requires Distinct(NamesOf(e))
    requires j < |e|
    ensures VarKey(g, e[j].0) in VarsOf(g, e)
    ensures VarsOf(g, e)[VarKey(g, e[j].0)] == e[j].1
  {
    var n := |e|;
    if j < n - 1 {
      assert NamesOf(e[..n - 1]) == NamesOf(e)[..n - 1];
      VarsOfLookup(g, e[..n - 1], j);
      VarKeyInjective(g, e[j].0, g, e[n - 1].0);
      assert e[..n - 1][j] == e[j];
    }
  }

  /** Every configuration writes exactly the same custom-property names. */
  lemma ThemeVariablesSameKeys(c1: ThemeConfig, c2: ThemeConfig)
    ensures ThemeVariables(c1).Keys == ThemeVariables(c2).Keys
  {
    VarsOfSameKeys(ColorGroup, Entries(c1, ColorGroup), Entries(c2, ColorGroup));
    VarsOfSameKeys(FontGroup, Entries(c1, FontGroup), Entries(c2, FontGroup));
    VarsOfSameKeys(EffectGroup, Entries(c1, EffectGroup), Entries(c2, EffectGroup));
  }

  /** Field `i` of group `g` is written under its own name with the configuration's value. */
  lemma ThemeVariableValue(c: ThemeConfig, g: Group, i: nat)
    requires i < |GroupNames(g)|
    ensures VarKey(g, GroupNames(g)[i]) in ThemeVariables(c)
    ensures ThemeVariables(c)[VarKey(g, GroupNames(g)[i])] == Entries(c, g)[i].1
  {
    var f := GroupNames(g)[i];
    GroupNamesDistinct(g);
    VarsOfLookup(g, Entries(c, g), i);
    VarsOfDomain(ColorGroup, Entries(c, ColorGroup), g, f);
    VarsOfDomain(FontGroup, Entries(c, FontGroup), g, f);
    VarsOfDomain(EffectGroup, Entries(c, EffectGroup), g, f);
  }

  /**
    After the effect with configuration `c`, every color, font and effect
    field of it is in the root style under its own custom-property name,
    with exactly the configuration's value.
  */
  lemma AppliedStyleHasEveryField(style: map<string, string>, c: ThemeConfig)
    ensures forall g: Group, i :: 0 <= i < |GroupNames(g)| ==>
      VarKey(g, GroupNames(g)[i]) in AppliedStyle(style, c) &&
      AppliedStyle(style, c)[VarKey(g, GroupNames(g)[i])] == Entries(c, g)[i].1
  {
    forall g: Group, i | 0 <= i < |GroupNames(g)|
      ensures VarKey(g, GroupNames(g)[i]) in AppliedStyle(style, c)
      ensures AppliedStyle(style, c)[VarKey(g, GroupNames(g)[i])] == Entries(c, g)[i].1
    {
      ThemeVariableValue(c, g, i);
    }
  }

  /** The seventh color entry is the secondary text color, under its camel-case name. */
  lemma ColorEntrySix(c: ThemeConfig)
    ensures GroupNames(ColorGroup)[6] == "textSecondary"
    ensures Entries(c, ColorGroup)[6] == ("textSecondary", c.colors.textSecondary)
  {
  }

  /** The field name is used verbatim: "textSecondary" lands under "--color-textSecondary". */
  lemma VerbatimFieldName(style: map<string, string>, c: ThemeConfig)
    ensures "--color-textSecondary" in AppliedStyle(style, c)
    ensures AppliedStyle(style, c)["--color-textSecondary"] == c.colors.textSecondary
  {
    ColorEntrySix(c);
    assert VarKey(ColorGroup, "textSecondary") == "--color-textSecondary";
    ThemeVariableValue(c, ColorGroup, 6);
  }

  /** A configuration writes a custom-property name exactly when it names a field of its group. */
  lemma ThemeVariablesDomain(c: ThemeConfig, g: Group, f: string)
    ensures VarKey(g, f) in ThemeVariables(c) <==> f in GroupNames(g)
  {
    VarsOfDomain(ColorGroup, Entries(c, ColorGroup), g, f);
    VarsOfDomain(FontGroup, Entries(c, FontGroup), g, f);
    VarsOfDomain(EffectGroup, Entries(c, EffectGroup), g, f);
  }

  /** No color field is named in kebab case, so the kebab name is no color key. */
  lemma KebabNotColorName()
    ensures "text-secondary" !in GroupNames(ColorGroup)
    ensures VarKey(ColorGroup, "text-secondary") == "--color-text-secondary"
  {
    assert |"text-secondary"| == 14;
    assert forall i :: 0 <= i < |ColorNames| ==> |ColorNames[i]| < 14;
  }

  /** The kebab-case name "--color-text-secondary" is never written, whatever the configuration. */
  lemma KebabNameNeverWritten(c: ThemeConfig)
    ensures "--color-text-secondary" !in ThemeVariables(c)
  {
    KebabNotColorName();
    ThemeVariablesDomain(c, ColorGroup, "text-secondary");
  }

  /** One more entry written over a style is one more update of it. */
  lemma VarsOfStep(style: map<string, string>, g: Group, e: seq<(string, string)>, i: nat)
    requires i < |e|
    ensures style + VarsOf(g, e[..i + 1]) == (style + VarsOf(g, e[..i]))[VarKey(g, e[i].0) := e[i].1]
  {
    assert e[..i + 1][..i] == e[..i];
  }

  lemma MapUnionAbsorbs<K, V>(s: map<K, V>, a: map<K, V>, b: map<K, V>)
    requires a.Keys <= b.Keys
    ensures (s + a) + b == s + b
  {
  }

  /** Applying the same configuration twice leaves the same root style as applying it once. */
  lemma ApplyIdempotent(style: map<string, string>, c: ThemeConfig)
    ensures AppliedStyle(AppliedStyle(style, c), c) == AppliedStyle(style, c)
  {
    MapUnionAbsorbs(style, ThemeVariables(c), ThemeVariables(c));
  }

  /**
    Switching themes overwrites every variable the previous theme wrote:
    nothing of the old theme survives in the root style.
  */
  lemma ApplyOverwrites(style: map<string, string>, c1: ThemeConfig, c2: ThemeConfig)
    ensures AppliedStyle(AppliedStyle(style, c1), c2) == AppliedStyle(style, c2)
  {
    ThemeVariablesSameKeys(c1, c2);
    MapUnionAbsorbs(style, ThemeVariables(c1), ThemeVariables(c2));
  }

  lemma MapUpdateTwice<K, V>(m: map<K, V>, k: K, v1: V, v2: V)
    ensures m[k := v1][k := v2] == m[k := v2]
  {
  }

  lemma MapUnionAssoc<K, V>(s: map<K, V>, a: map<K, V>, b: map<K, V>, c: map<K, V>)
    ensures ((s + a) + b) + c == s + (a + b + c)
  {
  }

  // ----- restoring from storage -----

  /** The storage key the theme is persisted under. */
  const StorageKey: string := "theme"

  /**
    The theme after the restore effect: the stored value when it is present,
    non-empty and a registry key; otherwise the current theme unchanged.
  */
  function RestoredTheme(storage: map<string, string>, current: ThemeType): (r: ThemeType)
    ensures r == current || (StorageKey in storage && storage[StorageKey] == ThemeKey(r))
    ensures StorageKey in storage && ParseTheme(storage[StorageKey]).Some? ==> ThemeKey(r) == storage[StorageKey]
  {
    if StorageKey in storage && storage[StorageKey] != "" && ParseTheme(storage[StorageKey]).Some?
    then ParseTheme(storage[StorageKey]).value
    else current
  }

  /** A theme persisted by `setTheme` is the one restored at the next start. */
  lemma PersistThenRestore(storage: map<string, string>, t: ThemeType)
    ensures RestoredTheme(storage[StorageKey := ThemeKey(t)], Vintage) == t
  {
    KeyRoundTrip(t);
  }

  /** With nothing stored, or a value that is not a registry key, the start theme is vintage. */
  lemma RestoreFallsBack(storage: map<string, string>)
    requires StorageKey !in storage || forall t :: storage[StorageKey] != ThemeKey(t)
    ensures RestoredTheme(storage, Vintage) == Vintage
  {
  }

  // ----- the provider -----

  class ThemeProvider {
    var currentTheme: ThemeType
    /** localStorage, as a map from key to stored string. */
    var storage: map<string, string>
    /** The custom properties set on document.documentElement.style. */
    var rootStyle: map<string, string>
    /** The attributes of document.documentElement. */
    var rootAttributes: map<string, string>
    var rootClassName: string

    /** The provider as first rendered: theme vintage, the browser state as found. */
    constructor (persisted: map<string, string>, style: map<string, string>,
                 attributes: map<string, string>, className: string)
      ensures currentTheme == Vintage
      ensures storage == persisted && rootStyle == style
      ensures rootAttributes == attributes && rootClassName == className
    {
      currentTheme := Vintage;
      storage := persisted;
      rootStyle := style;
      rootAttributes := attributes;
      rootClassName := className;
    }

    /** `themeConfig`: the registry entry of the current theme. */
    function ThemeConfigOf(): (c: ThemeConfig)
      reads this
      ensures c.name == ThemeKey(currentTheme)
    {
      Config(currentTheme)
    }

    /** The restore effect, run once on mount. */
    method Restore()
      modifies this`currentTheme
      ensures currentTheme == RestoredTheme(storage, old(currentTheme))
    {
      if StorageKey in storage {
        var saved := storage[StorageKey];
        if saved != "" {
          var found := ParseTheme(saved);
          if found.Some? {
            currentTheme := found.value;
          }
        }
      }
    }

    /** `setTheme`: adopt `t` and persist it; no other check is made. */
    method SetTheme(t: ThemeType)
      modifies this`currentTheme, this`storage
      ensures currentTheme == t
      ensures storage == old(storage)[StorageKey := ThemeKey(t)]
    {
      currentTheme := t;
      storage := storage[StorageKey := ThemeKey(t)];
    }

    /** Write every entry of one group into the root style, in order. */
    method SetProperties(g: Group, entries: seq<(string, string)>)
      modifies this`rootStyle
      ensures rootStyle == old(rootStyle) + VarsOf(g, entries)
    {
      ghost var style0 := rootStyle;
      for i := 0 to |entries|
        invariant rootStyle == style0 + VarsOf(g, entries[..i])
      {
        var (key, value) := entries[i];
        VarsOfStep(style0, g, entries, i);
        rootStyle := rootStyle[VarKey(g, key) := value];
      }
      assert entries[..|entries|] == entries;
    }

    /**
      The propagation effect for the theme `t` it was scheduled with: all
      custom properties, then the data-theme attribute, then the class name,
      which is replaced wholesale.
    */
    method ApplyTheme(t: ThemeType)
      modifies this`rootStyle, this`rootAttributes, this`rootClassName
      ensures rootStyle == AppliedStyle(old(rootStyle), Config(t))
      ensures rootAttributes == old(rootAttributes)["data-theme" := ThemeKey(t)]
      ensures rootClassName == "theme-" + ThemeKey(t)
    {
      var config := Config(t);
      ghost var before := rootStyle;
      SetProperties(ColorGroup, Entries(config, ColorGroup));
      SetProperties(FontGroup, Entries(config, FontGroup));
      SetProperties(EffectGroup, Entries(config, EffectGroup));
      MapUnionAssoc(before, VarsOf(ColorGroup, Entries(config, ColorGroup)),
        VarsOf(FontGroup, Entries(config, FontGroup)), VarsOf(EffectGroup, Entries(config, EffectGroup)));
      rootAttributes := rootAttributes["data-theme" := ThemeKey(t)];
      rootClassName := "theme-" + ThemeKey(t);
    }

    /**
      Mounting: the restore effect and the propagation effect both run after
      the first render, the latter with the theme that render saw; if restore
      changed the theme, the re-render propagates once more.
    */
    method Mount()
      modifies this`currentTheme, this`rootStyle, this`rootAttributes, this`rootClassName
      ensures currentTheme == RestoredTheme(storage, old(currentTheme))
      ensures rootStyle == AppliedStyle(old(rootStyle), Config(currentTheme))
      ensures rootAttributes == old(rootAttributes)["data-theme" := ThemeKey(currentTheme)]
      ensures rootClassName == "theme-" + ThemeKey(currentTheme)
    {
      var rendered := currentTheme;
      ghost var style0, attrs0 := rootStyle, rootAttributes;
      Restore();
      ApplyTheme(rendered);
      if currentTheme != rendered {
        ApplyTheme(currentTheme);
        ApplyOverwrites(style0, Config(rendered), Config(currentTheme));
        MapUpdateTwice(attrs0, "data-theme", ThemeKey(rendered), ThemeKey(currentTheme));
      }
    }
  }
}
