/** The responses the controller builds itself: the welcome response (also the
    answer to the help intent) and the goodbye response (the answer to the
    stop and cancel intents), plus the default response returned when a
    session ends.  Fields the controller does not set keep the default value of
    the response data model, which is not part of this model: they are `None`
    here. */
module Responses {

  datatype Option<T> = None | Some(value: T)

  /** The fields of a response that the controller can set. */
  datatype Response = Response(
    sessionAttributes: Option<map<string, string>>,
    cardTitle: Option<string>,
    outputSpeech: Option<string>,
    repromptText: Option<string>,
    shouldEndSession: Option<bool>)

  /** A freshly constructed response: every field at its default. */
  const DefaultResponse: Response := Response(None, None, None, None, None)

  const WelcomeTitle: string := "Welcome"
  const WelcomeSpeech: string := "Welcome to the Boston Public Services skill. How can I help you? "
  const WelcomeReprompt: string :=
    "For example, you can tell me your address by saying, \"my address is\" followed by your address."

  const GoodbyeTitle: string := "Boston Public Services - Thanks"
  const GoodbyeSpeech: string := "Thank you for using the Boston Public Services skill. See you next time!"

  /** The response to a launch or help request: it keeps the session going and
      hands the session attributes back unchanged. */
  function GetWelcomeResponse(attributes: map<string, string>): (r: Response)
    ensures r.sessionAttributes == Some(attributes)
    ensures r.cardTitle == Some(WelcomeTitle) && r.outputSpeech == Some(WelcomeSpeech)
    ensures r.repromptText == Some(WelcomeReprompt)
    ensures r.shouldEndSession == Some(false)
  {
    DefaultResponse.(
      sessionAttributes := Some(attributes),
      cardTitle := Some(WelcomeTitle),
      outputSpeech := Some(WelcomeSpeech),
      repromptText := Some(WelcomeReprompt),
      shouldEndSession := Some(false))
  }

  /** The response to a stop or cancel request: it ends the session, hands the
      session attributes back unchanged and leaves the reprompt at its default. */
  function HandleSessionEndRequest(attributes: map<string, string>): (r: Response)
    ensures r.sessionAttributes == Some(attributes)
    ensures r.cardTitle == Some(GoodbyeTitle) && r.outputSpeech == Some(GoodbyeSpeech)
    ensures r.repromptText == None
    ensures r.shouldEndSession == Some(true)
  {
    DefaultResponse.(
      sessionAttributes := Some(attributes),
      cardTitle := Some(GoodbyeTitle),
      outputSpeech := Some(GoodbyeSpeech),
      shouldEndSession := Some(true))
  }
}
