/** The theme toggle button: dark-mode resolution, the theme a click sets,
    the icon size chosen from the button size, and the accessible label. */
module ThemeToggle {

  datatype Theme = Light | Dark | System

  /** The button sizes of the button variants. */
  datatype Size = Default | Xs | Sm | Lg | Icon | IconXs | IconSm | IconLg

  /** A variant prop: omitted, explicitly null, or given. */
  datatype Prop<T> = Omitted | NullProp | Given(value: T)

  const DefaultVariant: string := "ghost"

  /** `iconSizeMap`. */
  function IconSizeClass(s: Size): string {
    match s
    case Default => "size-5"
    case Xs => "size-3"
    case Sm => "size-4"
    case Lg => "size-6"
    case Icon => "size-5"
    case IconXs => "size-3"
    case IconSm => "size-4"
    case IconLg => "size-6"
  }

  /** The `size` the component works with: the destructuring default
      replaces only an omitted prop, so an explicit null stays null. */
  function EffectiveSize(size: Prop<Size>): (r: Prop<Size>)
    ensures r != Omitted
    ensures size.Given? ==> r == size
    ensures size == Omitted ==> r == Given(Icon)
  {
    if size == Omitted then Given(Icon) else size
  }

  /** The `variant` the button receives, under the same default rule. */
  function EffectiveVariant(variant: Prop<string>): (r: Prop<string>)
    ensures r != Omitted
    ensures variant == Omitted ==> r == Given(DefaultVariant)
    ensures variant != Omitted ==> r == variant
  {
    if variant == Omitted then Given(DefaultVariant) else variant
  }

  /** `iconSizeMap[size ?? 'default']`. */
  function IconSize(size: Prop<Size>): (r: string)
    ensures size.Given? ==> r == IconSizeClass(size.value)
    ensures !size.Given? ==> r == "size-5"
  {
    match EffectiveSize(size)
    case Given(s) => IconSizeClass(s)
    case _ => IconSizeClass(Default)
  }

  /** `isDark`, with the `prefers-color-scheme: dark` media query an input. */
  predicate IsDark(theme: Theme, systemPrefersDark: bool)
    ensures theme != System ==> (IsDark(theme, systemPrefersDark) <==> theme == Dark)
    ensures theme == System ==> (IsDark(theme, systemPrefersDark) <==> systemPrefersDark)
  {
    theme == Dark || (theme == System && systemPrefersDark)
  }

  /** The theme a click sets. */
  function ToggleTarget(theme: Theme, systemPrefersDark: bool): (r: Theme)
    ensures r != System
    ensures r == Light <==> IsDark(theme, systemPrefersDark)
  {
    if IsDark(theme, systemPrefersDark) then Light else Dark
  }

  /** A click always flips the rendered darkness, whatever the system
      preference, and a second click returns to the first rendering. */
  lemma ToggleFlipsDarkness(theme: Theme, systemPrefersDark: bool)
    ensures IsDark(ToggleTarget(theme, systemPrefersDark), systemPrefersDark) == !IsDark(theme, systemPrefersDark)
    ensures IsDark(ToggleTarget(ToggleTarget(theme, systemPrefersDark), systemPrefersDark), systemPrefersDark)
         == IsDark(theme, systemPrefersDark)
    ensures !IsDark(Light, systemPrefersDark)
  {
  }

  /** The button's `aria-label`: it names the theme a click switches to. */
  function AriaLabel(theme: Theme, systemPrefersDark: bool): (r: string)
    ensures r == "Switch to light theme" <==> IsDark(theme, systemPrefersDark)
    ensures r == "Switch to light theme" <==> ToggleTarget(theme, systemPrefersDark) == Light
  {
    if IsDark(theme, systemPrefersDark) then "Switch to light theme" else "Switch to dark theme"
  }
}
