/** Finding the game's window: a top-level enumeration by title, then one or two
    enumerations of child windows, with fixed picks by position. */
module WindowResolver {
  import opened Screen

  /** The handle list the analysis obtains from an enumeration answer: the engine joins
      the handles with '|', and splitting that text and converting each piece to a number
      turns an empty answer into the single handle 0. */
  function Handles(listed: seq<int>): (hs: seq<int>)
    ensures |hs| >= 1
    ensures listed != [] ==> hs == listed
    ensures listed == [] ==> hs == [0]
  {
    if listed == [] then [0] else listed
  }

  /** Whether the child enumeration under `parent` leads to a window: it must not throw,
      and when it lists several children, the third one must exist and its own
      enumeration must not throw. */
  predicate ChildResolves(e: Engine, parent: int)
  {
    match e.children(parent)
    case None => false
    case Some(cs) =>
      var child := Handles(cs);
      |child| == 1 || (|child| > 2 && e.children(child[2]).Some?)
  }

  /** The windows of the game: the children of the second top-level match, or, when it has
      several, the children of its third child; [] when the search fails. */
  function ResolveWindow(e: Engine): (wins: seq<int>)
    // a window is only ever found under a second top-level match
    ensures wins != [] ==> e.windows.Some? && |e.windows.value| >= 2
    // found exactly when every enumeration on the chosen path succeeds
    ensures wins != [] <==>
      e.windows.Some? && |e.windows.value| >= 2 && ChildResolves(e, e.windows.value[1])
    // a single child (or an empty child list, read as handle 0) is returned as it is
    ensures e.windows.Some? && |e.windows.value| >= 2 && e.children(e.windows.value[1]).Some?
      && |e.children(e.windows.value[1]).value| <= 1
      ==> wins == Handles(e.children(e.windows.value[1]).value)
    // several children: the answer is the enumeration under the third child
    ensures e.windows.Some? && |e.windows.value| >= 2 && ChildResolves(e, e.windows.value[1])
      && |e.children(e.windows.value[1]).value| > 1
      ==> wins == Handles(e.children(e.children(e.windows.value[1]).value[2]).value)
  {
    match e.windows
    case None => []
    case Some(ws) =>
      var hwnds := Handles(ws);
      if |hwnds| > 1 then
        match e.children(hwnds[1])
        case None => []
        case Some(cs) =>
          var child := Handles(cs);
          if |child| == 1 then child
          else if |child| > 2 then
            // with exactly two children, child[2] does not exist: treated as a failed call
            match e.children(child[2])
            case None => []
            case Some(gs) => Handles(gs)
          else []
      else []
  }

  /** No top-level match (an empty enumeration reads as the single handle 0) or a single
      one never resolves a window. */
  lemma AtMostOneTopLevelMatch(e: Engine)
    requires e.windows.Some? && |e.windows.value| <= 1
    ensures ResolveWindow(e) == []
  {
  }

  /** An empty child enumeration under the second top-level match resolves to handle 0:
      the analysis then goes on with that handle. */
  lemma EmptyChildListResolvesToHandleZero(e: Engine)
    requires e.windows.Some? && |e.windows.value| >= 2
    requires e.children(e.windows.value[1]) == Some([])
    ensures ResolveWindow(e) == [0]
  {
  }
}
