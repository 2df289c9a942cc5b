/**
  The part of the router this core uses: `navigate(path)` with a bare path,
  which opens that path with an empty query string.
 */
module Router {

  /** The location a screen reads: its path and its parsed query parameters. */
  datatype Location = Location(pathname: string, query: map<string, string>)

  /** `navigate(target)` for a target that carries no query string. */
  function Navigate(target: string): (loc: Location)
    requires '?' !in target
    ensures loc.pathname == target
    ensures forall key :: key !in loc.query
  {
    Location(target, map[])
  }
}
