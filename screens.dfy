/**
 * Navigation destinations and the routes that address them. `createRoute`
 * takes a variable number of arguments of any type and interpolates their
 * string forms; here the arguments are given already rendered as strings.
 */
module Screens {
  import opened Wrappers

  datatype Screen = Reviews | Detail

  const DetailPrefix: string := "ReviewDetail/"
  const InvalidArgumentCount: string := "Invalid number of arguments"

  /**
   * The route each destination is registered under. Detail's is a template
   * whose argument slot holds the placeholder; the list's route is not a
   * detail route.
   */
  function Route(screen: Screen): (r: string)
    ensures screen == Detail ==> DetailArgument(r) == Some("{reviewId}")
    ensures screen == Reviews ==> DetailArgument(r) == None
  {
    match screen
    case Reviews => "Reviews"
    case Detail => DetailPrefix + "{reviewId}"
  }

  /**
   * Reviews ignores its arguments and returns its own route. Detail needs
   * exactly one argument, which it appends to the prefix; any other count
   * raises an exception with a fixed message.
   */
  function CreateRoute(screen: Screen, args: seq<string>): (r: Result<string, string>)
    ensures screen == Reviews ==> r == Success("Reviews")
    ensures screen == Detail ==> (r.Success? <==> |args| == 1)
    ensures screen == Detail && |args| == 1 ==>
      && |r.value| == |DetailPrefix| + |args[0]|
      && r.value[..|DetailPrefix|] == DetailPrefix
      && r.value[|DetailPrefix|..] == args[0]
    ensures screen == Detail && |args| != 1 ==> r.error == "Invalid number of arguments"
  {
    match screen
    case Reviews => Success(Route(Reviews))
    case Detail =>
      if |args| == 1 then Success(DetailPrefix + args[0]) else Failure(InvalidArgumentCount)
  }

  /** Recovers the review id from a concrete detail route. */
  function DetailArgument(route: string): (a: Option<string>)
    ensures a.Some? <==> |DetailPrefix| <= |route| && route[..|DetailPrefix|] == DetailPrefix
  {
    if |DetailPrefix| <= |route| && route[..|DetailPrefix|] == DetailPrefix then Some(route[|DetailPrefix|..]) else None
  }

  /** Stripping the prefix from a created detail route gives back its argument. */
  lemma DetailRouteRoundTrip(a: string)
    ensures CreateRoute(Detail, [a]).Success?
    ensures DetailArgument(CreateRoute(Detail, [a]).value) == Some(a)
  {
    var route := DetailPrefix + a;
    assert route[..|DetailPrefix|] == DetailPrefix;
    assert route[|DetailPrefix|..] == a;
  }

  /** ... and every route the argument can be read back from is a created one. */
  lemma DetailArgumentRoundTrip(route: string, a: string)
    requires DetailArgument(route) == Some(a)
    ensures CreateRoute(Detail, [a]) == Success(route)
  {
    assert route == route[..|DetailPrefix|] + route[|DetailPrefix|..];
  }
}
