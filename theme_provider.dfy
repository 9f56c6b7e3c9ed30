/**
 * The theme state of the React landing page
 * (techcorp/src/theme/ThemeProvider.jsx): the initial theme, the toggle,
 * the effect that mirrors the theme into the document and local storage,
 * and the system colour-scheme listener. React's `setTheme` is modelled as
 * assignment followed by the effect, which React runs only when the value
 * changed.
 */
module ThemeProvider {
  import opened Text
  import opened Document

  /** The `useState` initializer. */
  function InitialTheme(hasWindow: bool, stored: Option<string>, prefersDark: bool): (t: string)
    ensures t == "dark" || t == "light"
    ensures !hasWindow ==> t == "dark"
    ensures hasWindow && (stored == Some("light") || stored == Some("dark")) ==> Some(t) == stored
    ensures hasWindow && stored != Some("light") && stored != Some("dark") ==> (t == "dark" <==> prefersDark)
  {
    if !hasWindow then "dark"
    else if stored == Some("light") || stored == Some("dark") then stored.value
    else if prefersDark then "dark" else "light"
  }

  /** The `toggleTheme` updater `t => t === 'dark' ? 'light' : 'dark'`. */
  function ToggleTheme(t: string): (u: string)
    ensures u == "light" <==> t == "dark"
    ensures u == "dark" <==> t != "dark"
  {
    FlipTheme(Some(t))
  }

  /** Toggling a light or dark theme twice gives it back. */
  lemma {:induction false} ToggleInvolutive(t: string)
    requires t == "dark" || t == "light"
    ensures ToggleTheme(ToggleTheme(t)) == t
  {
    FlipTwice(Some(t));
  }

  /** The provider's state and the page state its effect writes. */
  datatype Page = Page(theme: string, doc: Doc)

  /**
   * The `[theme]` effect: the attribute becomes the theme, and so does the
   * stored entry unless `setItem` throws (`storageOk` false), which the
   * effect swallows.
   */
  function Effect(p: Page, storageOk: bool): (q: Page)
    ensures q.theme == p.theme && q.doc.attr == Some(p.theme)
    ensures storageOk ==> q.doc.stored == Some(p.theme)
    ensures !storageOk ==> q.doc.stored == p.doc.stored
  {
    p.(doc := Doc(Some(p.theme), if storageOk then Some(p.theme) else p.doc.stored))
  }

  /** `setTheme(t)`: a new value re-renders and runs the effect; the same value does nothing. */
  function SetTheme(p: Page, t: string, storageOk: bool): (q: Page)
    ensures q.theme == t
    ensures t == p.theme ==> q == p
    ensures t != p.theme ==> q == Effect(p.(theme := t), storageOk)
  {
    if t == p.theme then p else Effect(p.(theme := t), storageOk)
  }

  /** The toggle. */
  function Toggle(p: Page, storageOk: bool): (q: Page)
    ensures q.theme == ToggleTheme(p.theme) && q.doc.attr == Some(q.theme)
    ensures storageOk ==> q.doc.stored == Some(q.theme)
  {
    SetTheme(p, ToggleTheme(p.theme), storageOk)
  }

  /** The system change handler: the theme follows the system only while nothing is stored. */
  function SystemChange(p: Page, matches: bool, storageOk: bool): (q: Page)
    ensures Truthy(p.doc.stored) ==> q == p
    ensures !Truthy(p.doc.stored) ==> q.theme == (if matches then "dark" else "light")
  {
    if Truthy(p.doc.stored) then p else SetTheme(p, if matches then "dark" else "light", storageOk)
  }

  /** The first render in the browser and its effect, over the markup's attribute. */
  function Mount(markup: Option<string>, stored: Option<string>, prefersDark: bool, storageOk: bool): (p: Page)
    ensures p.theme == InitialTheme(true, stored, prefersDark)
    ensures p.doc.attr == Some(p.theme)
    ensures storageOk ==> p.doc.stored == Some(p.theme)
  {
    Effect(Page(InitialTheme(true, stored, prefersDark), Doc(markup, stored)), storageOk)
  }

  /**
   * Once mounted with working storage the effect has stored the theme, so a
   * system change never applies, before or after any number of toggles.
   */
  lemma {:induction false} SystemChangeInertAfterMount(markup: Option<string>, stored: Option<string>,
                                                       prefersDark: bool, toggles: nat, matches: bool)
    ensures var p := Toggles(Mount(markup, stored, prefersDark, true), toggles);
      SystemChange(p, matches, true) == p
  {
    var p0 := Mount(markup, stored, prefersDark, true);
    TogglesKeepStored(p0, toggles);
  }

  /** The page after `n` toggles with working storage. */
  function Toggles(p: Page, n: nat): Page
    decreases n
  {
    if n == 0 then p else Toggles(Toggle(p, true), n - 1)
  }

  /** With working storage the stored entry keeps matching the theme, which is never empty. */
  lemma {:induction false} TogglesKeepStored(p: Page, n: nat)
    requires p.doc.stored == Some(p.theme) && p.theme != ""
    ensures var q := Toggles(p, n); q.doc.stored == Some(q.theme) && q.theme != ""
    decreases n
  {
    if n > 0 {
      TogglesKeepStored(Toggle(p, true), n - 1);
    }
  }

  /**
   * When storage throws and nothing was stored, the system change does move
   * the mounted theme.
   */
  lemma SystemChangeAppliesWithoutStorage(markup: Option<string>, prefersDark: bool)
    ensures SystemChange(Mount(markup, None, prefersDark, false), !prefersDark, false).theme
         != Mount(markup, None, prefersDark, false).theme
  {
  }
}
