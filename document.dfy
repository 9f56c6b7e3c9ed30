/**
 * The two pieces of page state the theme code of the static sites touches:
 * the `data-theme` attribute of the root element and the `theme` entry of
 * local storage. Either may be absent (`getAttribute` and `getItem` return
 * `null`).
 */
module Document {
  import opened Text

  datatype Doc = Doc(attr: Option<string>, stored: Option<string>)

  /** `current === 'dark' ? 'light' : 'dark'`: anything but dark, absent included, becomes dark. */
  function FlipTheme(current: Option<string>): (next: string)
    ensures next == "light" <==> current == Some("dark")
    ensures next == "dark" <==> current != Some("dark")
  {
    if current == Some("dark") then "light" else "dark"
  }

  /** Flipping a light or dark page twice comes back to the theme it had. */
  lemma {:induction false} FlipTwice(current: Option<string>)
    requires current == Some("dark") || current == Some("light")
    ensures FlipTheme(Some(FlipTheme(current))) == current.value
  {
  }
}
