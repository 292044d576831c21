/** Routing of the dialogue model's output to one of four handlers. */
module AiRouter {
  import opened Wrappers
  import opened Json

  datatype Route = Schedule | Inquiry | Smalltalk | Fallback

  datatype Decision = Decision(route: Route, reason: string)

  /** The route's name as it appears in the decision object. */
  function RouteName(r: Route): string
  {
    match r
    case Schedule => "schedule"
    case Inquiry => "inquiry"
    case Smalltalk => "smalltalk"
    case Fallback => "fallback"
  }

  /** `aiContextOutput.intent || "fallback"`. */
  function Intent(out: Value): Value
    requires out != Null
  {
    Or(Get(out, "intent"), Str("fallback"))
  }

  /** The switch: an intent equal (strictly) to one of the three route names
      selects that route; anything else, including a missing, empty or
      non-string intent, selects the fallback. Reading `.intent` of `null`
      throws, hence the requirement. */
  function RouteDecision(out: Value): (d: Decision)
    requires out != Null
    ensures d.reason != ""
    ensures Intent(out) == Str(RouteName(d.route)) || d.route == Fallback
    ensures d.route == Fallback <==>
              !(Intent(out) in {Str("schedule"), Str("inquiry"), Str("smalltalk")})
  {
    match Intent(out)
    case Str("schedule") => Decision(Schedule, "User wants to schedule an appointment.")
    case Str("inquiry") => Decision(Inquiry, "User has a general question or info request.")
    case Str("smalltalk") => Decision(Smalltalk, "User is engaging in small talk or casual conversation.")
    case _ => Decision(Fallback, "No clear or recognized intent.")
  }

  /** An output object naming a route as its intent is routed there, for every route. */
  lemma RouteNameRoundTrip(r: Route, fields: Object)
    requires fields == map["intent" := Str(RouteName(r))]
    ensures RouteDecision(Obj(fields)).route == r
  {
  }

  /** A missing or falsy intent routes to the fallback. */
  lemma FalsyIntentFallsBack(out: Value)
    requires out != Null && !TruthyOpt(Get(out, "intent"))
    ensures RouteDecision(out) == Decision(Fallback, "No clear or recognized intent.")
  {
  }
}
