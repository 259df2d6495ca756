/** The theme store: the current colour scheme and a lookup from colour
    key to colour value in that scheme. */
module ThemeContext {
  import opened Wrappers

  /** The five schemes: two general ones and one per kind of colour
      blindness. */
  datatype ThemeMode = Light | Dark | Deuteranopia | Protanopia | Tritanopia

  /** The twenty keys every scheme defines. */
  datatype ColorKey =
    BgPrimary | BgSecondary | BgTertiary | BgCard | BgCardHover
    | TextPrimary | TextSecondary | TextTertiary | TextLight | Border | BorderHover
    | Accent1 | Accent1Light | Accent1Dark | Accent2 | Accent2Light | Accent2Dark | Accent3 | Accent3Light | Accent3Dark

  /** The key as the source spells it. */
  function KeyName(k: ColorKey): string {
    match k
    case BgPrimary => "bgPrimary"
    case BgSecondary => "bgSecondary"
    case BgTertiary => "bgTertiary"
    case BgCard => "bgCard"
    case BgCardHover => "bgCardHover"
    case TextPrimary => "textPrimary"
    case TextSecondary => "textSecondary"
    case TextTertiary => "textTertiary"
    case TextLight => "textLight"
    case Border => "border"
    case BorderHover => "borderHover"
    case Accent1 => "accent1"
    case Accent1Light => "accent1Light"
    case Accent1Dark => "accent1Dark"
    case Accent2 => "accent2"
    case Accent2Light => "accent2Light"
    case Accent2Dark => "accent2Dark"
    case Accent3 => "accent3"
    case Accent3Light => "accent3Light"
    case Accent3Dark => "accent3Dark"
  }

  /** The key a string names, if it names one of the twenty. */
  function ParseKey(s: string): (r: Option<ColorKey>)
    ensures r.Some? ==> KeyName(r.value) == s
  {
    if s == "bgPrimary" then Some(BgPrimary)
    else if s == "bgSecondary" then Some(BgSecondary)
    else if s == "bgTertiary" then Some(BgTertiary)
    else if s == "bgCard" then Some(BgCard)
    else if s == "bgCardHover" then Some(BgCardHover)
    else if s == "textPrimary" then Some(TextPrimary)
    else if s == "textSecondary" then Some(TextSecondary)
    else if s == "textTertiary" then Some(TextTertiary)
    else if s == "textLight" then Some(TextLight)
    else if s == "border" then Some(Border)
    else if s == "borderHover" then Some(BorderHover)
    else if s == "accent1" then Some(Accent1)
    else if s == "accent1Light" then Some(Accent1Light)
    else if s == "accent1Dark" then Some(Accent1Dark)
    else if s == "accent2" then Some(Accent2)
    else if s == "accent2Light" then Some(Accent2Light)
    else if s == "accent2Dark" then Some(Accent2Dark)
    else if s == "accent3" then Some(Accent3)
    else if s == "accent3Light" then Some(Accent3Light)
    else if s == "accent3Dark" then Some(Accent3Dark)
    else None
  }

  function LightPalette(k: ColorKey): string {
    match k
    case BgPrimary => "#FDFCFA"
    case BgSecondary => "#F7F6F3"
    case BgTertiary => "#F0EDE8"
    case BgCard => "rgba(255, 255, 255, 0.8)"
    case BgCardHover => "rgba(255, 255, 255, 0.95)"
    case TextPrimary => "#2D3436"
    case TextSecondary => "#636E72"
    case TextTertiary => "#95A5A6"
    case TextLight => "white"
    case Border => "#E8E5E0"
    case BorderHover => "#D4D0CB"
    case Accent1 => "#7C9885"
    case Accent1Light => "#A4C2AD"
    case Accent1Dark => "#6B8774"
    case Accent2 => "#E09F7D"
    case Accent2Light => "#F0B896"
    case Accent2Dark => "#D88C64"
    case Accent3 => "#B4A5C5"
    case Accent3Light => "#D4C5E0"
    case Accent3Dark => "#9D8DB5"
  }

  function DarkPalette(k: ColorKey): string {
    match k
    case BgPrimary => "#0f0f0f"
    case BgSecondary => "#1a1a1a"
    case BgTertiary => "#2D3436"
    case BgCard => "rgba(26, 26, 26, 0.95)"
    case BgCardHover => "rgba(45, 52, 54, 0.95)"
    case TextPrimary => "#ffffff"
    case TextSecondary => "#d1d5db"
    case TextTertiary => "#9ca3af"
    case TextLight => "white"
    case Border => "#374151"
    case BorderHover => "#4b5563"
    case Accent1 => "#7C9885"
    case Accent1Light => "#A4C2AD"
    case Accent1Dark => "#6B8774"
    case Accent2 => "#E09F7D"
    case Accent2Light => "#F0B896"
    case Accent2Dark => "#D88C64"
    case Accent3 => "#B4A5C5"
    case Accent3Light => "#D4C5E0"
    case Accent3Dark => "#9D8DB5"
  }

  function DeuteranopiaPalette(k: ColorKey): string {
    match k
    case BgPrimary => "#FDFCFA"
    case BgSecondary => "#F7F6F3"
    case BgTertiary => "#F0EDE8"
    case BgCard => "rgba(255, 255, 255, 0.8)"
    case BgCardHover => "rgba(255, 255, 255, 0.95)"
    case TextPrimary => "#2D3436"
    case TextSecondary => "#636E72"
    case TextTertiary => "#95A5A6"
    case TextLight => "white"
    case Border => "#E8E5E0"
    case BorderHover => "#D4D0CB"
    case Accent1 => "#3b82f6"
    case Accent1Light => "#60a5fa"
    case Accent1Dark => "#2563eb"
    case Accent2 => "#f59e0b"
    case Accent2Light => "#fbbf24"
    case Accent2Dark => "#d97706"
    case Accent3 => "#eab308"
    case Accent3Light => "#facc15"
    case Accent3Dark => "#ca8a04"
  }

  function ProtanopiaPalette(k: ColorKey): string {
    match k
    case BgPrimary => "#FDFCFA"
    case BgSecondary => "#F7F6F3"
    case BgTertiary => "#F0EDE8"
    case BgCard => "rgba(255, 255, 255, 0.8)"
    case BgCardHover => "rgba(255, 255, 255, 0.95)"
    case TextPrimary => "#2D3436"
    case TextSecondary => "#636E72"
    case TextTertiary => "#95A5A6"
    case TextLight => "white"
    case Border => "#E8E5E0"
    case BorderHover => "#D4D0CB"
    case Accent1 => "#14b8a6"
    case Accent1Light => "#5eead4"
    case Accent1Dark => "#0d9488"
    case Accent2 => "#3b82f6"
    case Accent2Light => "#60a5fa"
    case Accent2Dark => "#2563eb"
    case Accent3 => "#eab308"
    case Accent3Light => "#facc15"
    case Accent3Dark => "#ca8a04"
  }

  function TritanopiaPalette(k: ColorKey): string {
    match k
    case BgPrimary => "#FDFCFA"
    case BgSecondary => "#F7F6F3"
    case BgTertiary => "#F0EDE8"
    case BgCard => "rgba(255, 255, 255, 0.8)"
    case BgCardHover => "rgba(255, 255, 255, 0.95)"
    case TextPrimary => "#2D3436"
    case TextSecondary => "#636E72"
    case TextTertiary => "#95A5A6"
    case TextLight => "white"
    case Border => "#E8E5E0"
    case BorderHover => "#D4D0CB"
    case Accent1 => "#06b6d4"
    case Accent1Light => "#22d3ee"
    case Accent1Dark => "#0891b2"
    case Accent2 => "#ec4899"
    case Accent2Light => "#f472b6"
    case Accent2Dark => "#db2777"
    case Accent3 => "#ef4444"
    case Accent3Light => "#f87171"
    case Accent3Dark => "#dc2626"
  }

  /** A string names a key exactly when it is that key's spelling. */
  lemma ParseKeyNames(s: string, k: ColorKey)
    ensures ParseKey(s) == Some(k) <==> s == KeyName(k)
  {
    if s == KeyName(k) {
      ParseKeyName(k);
    }
  }

  lemma ParseKeyName(k: ColorKey)
    ensures ParseKey(KeyName(k)) == Some(k)
  {
    match k
    case BgPrimary =>
    case BgSecondary =>
    case BgTertiary =>
    case BgCard =>
    case BgCardHover =>
    case TextPrimary =>
    case TextSecondary =>
    case TextTertiary =>
    case TextLight =>
    case Border =>
    case BorderHover =>
    case Accent1 =>
    case Accent1Light =>
    case Accent1Dark =>
    case Accent2 =>
    case Accent2Light =>
    case Accent2Dark =>
    case Accent3 =>
    case Accent3Light =>
    case Accent3Dark =>
  }

  function Palette(m: ThemeMode, k: ColorKey): string {
    match m
    case Light => LightPalette(k)
    case Dark => DarkPalette(k)
    case Deuteranopia => DeuteranopiaPalette(k)
    case Protanopia => ProtanopiaPalette(k)
    case Tritanopia => TritanopiaPalette(k)
  }

  /** No entry is the empty string, so the `|| colorKey` fallback of
      `getColor` never replaces a defined entry. */
  lemma PaletteNonEmpty(m: ThemeMode, k: ColorKey)
    ensures Palette(m, k) != ""
  {
  }

  /** `getColor(colorKey)` under scheme `m`: the scheme's entry for a known
      key, and the key itself for any other string. */
  function GetColor(m: ThemeMode, colorKey: string): (r: string)
    ensures forall k :: colorKey == KeyName(k) ==> r == Palette(m, k)
    ensures (forall k :: colorKey != KeyName(k)) ==> r == colorKey
  {
    match ParseKey(colorKey)
    case Some(k) =>
      assert forall j :: colorKey == KeyName(j) ==> j == k by {
        forall j | colorKey == KeyName(j) ensures j == k {
          ParseKeyNames(colorKey, j);
        }
      }
      Palette(m, k)
    case None =>
      assert forall k :: colorKey != KeyName(k) by {
        forall k ensures colorKey != KeyName(k) {
          ParseKeyNames(colorKey, k);
        }
      }
      colorKey
  }

  predicate IsAccent(k: ColorKey) {
    k.Accent1? || k.Accent1Light? || k.Accent1Dark? || k.Accent2? || k.Accent2Light?
    || k.Accent2Dark? || k.Accent3? || k.Accent3Light? || k.Accent3Dark?
  }

  /** The background, text and border keys. */
  predicate IsBase(k: ColorKey) {
    !IsAccent(k)
  }

  predicate IsColourBlind(m: ThemeMode) {
    m.Deuteranopia? || m.Protanopia? || m.Tritanopia?
  }

  /** The dark scheme keeps the light scheme's accents. */
  lemma DarkKeepsAccents(k: ColorKey)
    requires IsAccent(k)
    ensures GetColor(Dark, KeyName(k)) == GetColor(Light, KeyName(k))
  {
  }

  /** The colour-blind schemes keep the light scheme's backgrounds, text and
      borders and change only the accents. */
  lemma ColourBlindKeepsBase(m: ThemeMode, k: ColorKey)
    requires IsColourBlind(m) && IsBase(k)
    ensures GetColor(m, KeyName(k)) == GetColor(Light, KeyName(k))
  {
  }

  /** The scheme the store starts with: the stored one, or light when none is
      stored. */
  function InitialTheme(saved: Option<ThemeMode>): (m: ThemeMode)
    ensures saved.None? ==> m == Light
    ensures saved.Some? ==> m == saved.value
  {
    match saved
    case Some(t) => t
    case None => Light
  }

  class ThemeProvider {
    var theme: ThemeMode

    constructor (saved: Option<ThemeMode>)
      ensures theme == InitialTheme(saved)
    {
      theme := InitialTheme(saved);
    }

    method SetTheme(newTheme: ThemeMode)
      modifies this
      ensures theme == newTheme
    {
      theme := newTheme;
    }

    /** `getColor` of the current scheme. */
    function Color(colorKey: string): (r: string)
      reads this
      ensures r == GetColor(theme, colorKey)
    {
      GetColor(theme, colorKey)
    }
  }
}
