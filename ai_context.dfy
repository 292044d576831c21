/** Post-processing of the dialogue model's reply in `analyzeContext`: the
    fixed fallback object on any failure, and the "well-being" override. The
    OpenAI call itself is an outcome parameter. */
module AiContext {
  import opened Wrappers
  import opened Json

  const Apology := "I'm experiencing issues. Could you try again shortly?"
  const WellBeingReply := "I'm doing great, thank you! How can I help you today?"
  const WellBeingIntention := "inquire about well-being"

  /** What the call to the model produced: an exception (network, API, or a
      reply without content), text that is not JSON, or a parsed value. */
  datatype GptOutcome = CallFailed(message: string) | Unparsable | Parsed(v: Value)

  /** The object returned from the `catch` block. */
  function FallbackReply(callContext: Object): (r: Object)
    ensures r.Keys == {"intent", "response_text", "nextState", "check_availability",
                       "appointment_details", "collectedDetails", "bookingConfirmed", "updatedContext"}
  {
    var ctx := Obj(callContext);
    map[
      "intent" := Str("fallback"),
      "response_text" := Str(Apology),
      "nextState" := Or(Get(ctx, "currentState"), Str("Initial Greeting")),
      "check_availability" := Bool(false),
      "appointment_details" := Obj(map[]),
      "collectedDetails" := Or(Get(ctx, "collectedDetails"), Obj(map[])),
      "bookingConfirmed" := Bool(false),
      "updatedContext" := Obj(callContext["userIntention" := Str("fallback")])
    ]
  }

  /** `parsed.updatedContext?.userIntention === 'inquire about well-being'`. */
  predicate WellBeing(parsed: Value)
  {
    var uc := Get(parsed, "updatedContext");
    uc.Some? && uc.value != Null && Get(uc.value, "userIntention") == Some(Str(WellBeingIntention))
  }

  /** The in-place rewrite of the parsed reply. */
  function Override(parsed: Value): (r: Value)
    requires WellBeing(parsed)
  {
    var uc := parsed.fields["updatedContext"];
    Obj(parsed.fields["intent" := Str("smalltalk")]["response_text" := Str(WellBeingReply)]
                     ["updatedContext" := Obj(uc.fields["userIntention" := Str("smalltalk")])])
  }

  /** `analyzeContext` after the model call. A parsed `null` makes the
      `updatedContext` read throw, so it falls back as well. */
  function AnalyzeContext(callContext: Object, outcome: GptOutcome): (r: Value)
    ensures r != Null
    ensures !outcome.Parsed? || outcome.v == Null ==> r == Obj(FallbackReply(callContext))
    ensures outcome.Parsed? && outcome.v != Null && !WellBeing(outcome.v) ==> r == outcome.v
    ensures outcome.Parsed? && WellBeing(outcome.v) ==> r == Override(outcome.v)
  {
    match outcome
    case CallFailed(_) => Obj(FallbackReply(callContext))
    case Unparsable => Obj(FallbackReply(callContext))
    case Parsed(v) =>
      if v == Null then Obj(FallbackReply(callContext))
      else if WellBeing(v) then Override(v)
      else v
  }

  /** The fallback's fields: intent 'fallback' with the apology, `nextState`
      the current state or 'Initial Greeting', no availability check, no
      booking, the collected details carried over, and the call context with
      only `userIntention` replaced. */
  lemma FallbackFields(callContext: Object)
    ensures var f := FallbackReply(callContext);
            && f["intent"] == Str("fallback") && f["response_text"] == Str(Apology)
            && f["check_availability"] == Bool(false) && f["bookingConfirmed"] == Bool(false)
            && (f["nextState"] == if "currentState" in callContext && Truthy(callContext["currentState"])
                                  then callContext["currentState"] else Str("Initial Greeting"))
            && (f["collectedDetails"] == if "collectedDetails" in callContext && Truthy(callContext["collectedDetails"])
                                         then callContext["collectedDetails"] else Obj(map[]))
            && f["updatedContext"].Obj?
            && f["updatedContext"].fields.Keys == callContext.Keys + {"userIntention"}
            && f["updatedContext"].fields["userIntention"] == Str("fallback")
            && (forall k :: k in callContext && k != "userIntention" ==>
                  f["updatedContext"].fields[k] == callContext[k])
  {
  }

  /** The override sets (adding when absent) intent and reply and the nested intention, keeps
      every other key, and does not fire again on its own result. */
  lemma {:induction false} OverrideFields(parsed: Value)
    requires WellBeing(parsed)
    ensures var r := Override(parsed);
            && r.Obj? && r.fields.Keys == parsed.fields.Keys + {"intent", "response_text"}
            && r.fields["intent"] == Str("smalltalk")
            && r.fields["response_text"] == Str(WellBeingReply)
            && Get(r.fields["updatedContext"], "userIntention") == Some(Str("smalltalk"))
            && (forall k :: k in parsed.fields && k !in {"intent", "response_text", "updatedContext"} ==>
                  r.fields[k] == parsed.fields[k])
            && !WellBeing(r)
  {
    var r := Override(parsed);
    var uc := parsed.fields["updatedContext"];
    assert uc.Obj?;
    assert r.fields["updatedContext"] == Obj(uc.fields["userIntention" := Str("smalltalk")]);
    assert Get(r.fields["updatedContext"], "userIntention") == Some(Str("smalltalk"));
    assert Str("smalltalk") != Str(WellBeingIntention);
  }
}
