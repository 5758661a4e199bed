/** The `navigate` helper: push a path unless it is the current one. */
module Navigation {

  /** The router pushes one call of `navigate(href)` issues while the
      current path is `pathname`. */
  function Navigate(pathname: string, href: string): (pushes: seq<string>)
    ensures href == pathname ==> pushes == []
    ensures href != pathname ==> pushes == [href]
    ensures forall k | 0 <= k < |pushes| :: pushes[k] == href
  {
    if href == pathname then [] else [href]
  }

  /** The path after the pushes have been followed. */
  function Follow(pathname: string, pushes: seq<string>): string {
    if pushes == [] then pathname else pushes[|pushes| - 1]
  }

  /** After one `navigate(href)` the current path is `href`, and a repeated
      call pushes nothing. */
  lemma NavigateIsIdempotent(pathname: string, href: string)
    ensures Follow(pathname, Navigate(pathname, href)) == href
    ensures Navigate(Follow(pathname, Navigate(pathname, href)), href) == []
  {
  }
}
