/** The route table of src/App.tsx, used only to check where the
    navigation links lead: every page is a child of the layout route "/". */
module Routes {

  /** The paths the router declares: the index page and its five siblings. */
  const DeclaredPaths: seq<string> := ["/", "/about", "/events", "/projects", "/join", "/contact"]

  /** A link leads to a page only when its path is declared. */
  predicate IsRoute(path: string) {
    path in DeclaredPaths
  }
}
