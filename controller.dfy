/** The request router of the voice skill: `execute_request` routes a request
    by its type, and `on_intent` routes an intent request by its intent name,
    asking for the user's address first when the intent needs one and resuming
    the interrupted intent once the address has been given.

    The routing is specified by pure functions over a snapshot of the request
    (`Route`, `Execute`); the class `Request` holds the fields that `on_intent`
    updates in place, and its methods are proved to agree with the functions. */
module Controller {
  import opened Registry
  import opened Responses

  /** Session key under which the user's address is stored. */
  const CurrentAddressKey: string := "currentAddress"
  /** Session key naming the intent that was interrupted to ask for an address. */
  const AddressPromptedFromIntent: string := "addressPromptedFromIntent"

  const LaunchRequest: string := "LaunchRequest"
  const IntentRequest: string := "IntentRequest"
  const SessionEndedRequest: string := "SessionEndedRequest"

  /** The fields of a request that the router reads or writes.  `spokenAddress`
      is the address a SetAddressIntent carries. */
  datatype RequestState = RequestState(
    requestType: string,
    intentName: string,
    isNewSession: bool,
    sessionAttributes: map<string, string>,
    spokenAddress: string)

  /** What handling a request produces: a response built by the controller, a
      call of a handler defined elsewhere, the "Invalid Intent" error, or no
      response at all. */
  datatype Outcome =
    | Built(response: Response)
    | Invoked(handler: Handler)
    | InvalidIntent
    | NoResponse

  /** An outcome together with the request as it stood when it was produced
      (so a handler in `Invoked` runs on `request`). */
  datatype Dispatch = Dispatch(outcome: Outcome, request: RequestState)

  /** `set_address_in_session`, whose body is not part of this model: it is
      taken to store the spoken address under the address key and to change
      nothing else. */
  function SetAddressInSession(s: RequestState): (t: RequestState)
  {
    s.(sessionAttributes := s.sessionAttributes[CurrentAddressKey := s.spokenAddress])
  }

  /** Calling a registered handler on a request. */
  function Invoke(h: Handler, s: RequestState): (o: Outcome)
  {
    match h
    case WelcomeResponse => Built(GetWelcomeResponse(s.sessionAttributes))
    case SessionEndResponse => Built(HandleSessionEndRequest(s.sessionAttributes))
    case _ => Invoked(h)
  }

  /** The registry lookup of `on_intent`, once any redirect has happened. */
  function Lookup(s: RequestState): (o: Outcome)
  {
    if s.intentName in IntentsNoAddressNeeded then
      Invoke(IntentsNoAddressNeeded[s.intentName], s)
    else if s.intentName in IntentsNeedAddress then
      if CurrentAddressKey !in s.sessionAttributes then Invoked(RequestUserAddress)
      else Invoke(IntentsNeedAddress[s.intentName], s)
    else
      InvalidIntent
  }

  /** `on_intent`: the outcome, and the request after its intent name and
      session attributes have been updated. */
  function Route(s: RequestState): (d: Dispatch)
    ensures d.request == s.(intentName := d.request.intentName, sessionAttributes := d.request.sessionAttributes)
    ensures d.request.intentName == s.intentName
         || (s.intentName == SetAddressIntent && AddressPromptedFromIntent in s.sessionAttributes
             && d.request.intentName == s.sessionAttributes[AddressPromptedFromIntent])
    ensures forall k | k != CurrentAddressKey && k != AddressPromptedFromIntent ::
              (k in d.request.sessionAttributes <==> k in s.sessionAttributes)
              && (k in s.sessionAttributes ==> d.request.sessionAttributes[k] == s.sessionAttributes[k])
  {
    if s.intentName == SetAddressIntent then
      var t := SetAddressInSession(s);
      if AddressPromptedFromIntent in t.sessionAttributes then
        var u := t.(intentName := t.sessionAttributes[AddressPromptedFromIntent],
                    sessionAttributes := t.sessionAttributes - {AddressPromptedFromIntent});
        Dispatch(Lookup(u), u)
      else
        Dispatch(Invoked(AddressFromSession), t)
    else
      Dispatch(Lookup(s), s)
  }

  /** `execute_request`: routing by request type. */
  function Execute(s: RequestState): (d: Dispatch)
  {
    if s.requestType == LaunchRequest then Dispatch(Built(GetWelcomeResponse(s.sessionAttributes)), s)
    else if s.requestType == IntentRequest then Route(s)
    else if s.requestType == SessionEndedRequest then Dispatch(Built(DefaultResponse), s)
    else Dispatch(NoResponse, s)
  }

  // ---------------------------------------------------------------------------
  // Properties of the router

  /** SetAddressIntent with no interrupted intent recorded answers with the
      stored address and looks nothing up. */
  lemma SetAddressWithoutPrompt(s: RequestState)
    requires s.intentName == SetAddressIntent
    requires AddressPromptedFromIntent !in s.sessionAttributes
    ensures Route(s).outcome == Invoked(AddressFromSession)
    ensures Route(s).request.intentName == SetAddressIntent
    ensures Route(s).request.sessionAttributes == s.sessionAttributes[CurrentAddressKey := s.spokenAddress]
  {
  }

  /** SetAddressIntent with an interrupted intent recorded: the request now
      names that intent, the record is gone, the address is stored, and no
      other attribute has changed. */
  lemma SetAddressRedirect(s: RequestState)
    requires s.intentName == SetAddressIntent
    requires AddressPromptedFromIntent in s.sessionAttributes
    ensures Route(s).request.intentName == s.sessionAttributes[AddressPromptedFromIntent]
    ensures AddressPromptedFromIntent !in Route(s).request.sessionAttributes
    ensures CurrentAddressKey in Route(s).request.sessionAttributes
    ensures Route(s).request.sessionAttributes - {CurrentAddressKey}
         == s.sessionAttributes - {CurrentAddressKey, AddressPromptedFromIntent}
  {
  }

  /** Resuming after the redirect gives what asking for the interrupted intent
      directly would give, with the address stored and the record removed. */
  lemma RedirectRoundTrip(s: RequestState)
    requires s.intentName == SetAddressIntent
    requires AddressPromptedFromIntent in s.sessionAttributes
    requires s.sessionAttributes[AddressPromptedFromIntent] != SetAddressIntent
    ensures var direct := s.(intentName := s.sessionAttributes[AddressPromptedFromIntent],
                             sessionAttributes := s.sessionAttributes[CurrentAddressKey := s.spokenAddress]
                                                  - {AddressPromptedFromIntent});
            Route(s) == Route(direct)
  {
  }

  /** An intent that needs no address runs its handler on the unchanged
      request, whatever the session holds. */
  lemma NoAddressIntentDispatched(s: RequestState)
    requires s.intentName in IntentsNoAddressNeeded
    ensures Route(s) == Dispatch(Invoke(IntentsNoAddressNeeded[s.intentName], s), s)
  {
    RegistriesDisjoint();
  }

  /** Help answers with the welcome response; stop and cancel with the goodbye
      response; in each case the session attributes are handed back unchanged. */
  lemma BuiltInIntents(s: RequestState)
    ensures s.intentName == "AMAZON.HelpIntent" ==>
              Route(s).outcome == Built(GetWelcomeResponse(s.sessionAttributes))
    ensures s.intentName == "AMAZON.StopIntent" || s.intentName == "AMAZON.CancelIntent" ==>
              Route(s).outcome == Built(HandleSessionEndRequest(s.sessionAttributes))
    ensures Route(s).outcome.Built? && s.intentName != SetAddressIntent ==>
              Route(s).outcome.response.sessionAttributes == Some(s.sessionAttributes)
  {
    NoAddressNeededContents();
  }

  /** An intent that needs an address asks for it when none is stored, and
      otherwise runs its handler; the request is left as it was. */
  lemma NeedAddressIntentDispatched(s: RequestState)
    requires s.intentName in IntentsNeedAddress
    ensures Route(s).request == s
    ensures CurrentAddressKey !in s.sessionAttributes ==> Route(s).outcome == Invoked(RequestUserAddress)
    ensures CurrentAddressKey in s.sessionAttributes ==>
              Route(s).outcome == Invoked(IntentsNeedAddress[s.intentName])
  {
    RegistriesDisjoint();
    NeedAddressContents();
  }

  /** Routing fails with "Invalid Intent" exactly when the intent name, after
      any redirect, is in neither registry. */
  lemma InvalidIntentExactly(s: RequestState)
    ensures Route(s).outcome == InvalidIntent <==>
              if s.intentName == SetAddressIntent then
                AddressPromptedFromIntent in s.sessionAttributes
                && !Registered(s.sessionAttributes[AddressPromptedFromIntent])
              else
                !Registered(s.intentName)
  {
  }

  /** A recorded interrupted intent that is itself SetAddressIntent is not
      redirected again: routing fails, so the redirect never loops. */
  lemma RedirectNeverLoops(s: RequestState)
    requires s.intentName == SetAddressIntent
    requires AddressPromptedFromIntent in s.sessionAttributes
    requires s.sessionAttributes[AddressPromptedFromIntent] == SetAddressIntent
    ensures Route(s).outcome == InvalidIntent
  {
    RegistriesDisjoint();
  }

  /** The two-step flow: an intent that needs an address, asked with none
      stored, prompts for the address; if the next request is SetAddressIntent
      and the session records that intent as interrupted, that intent's handler
      runs with the address stored and the record removed. */
  lemma AskThenResume(first: RequestState, next: RequestState)
    requires first.intentName in IntentsNeedAddress
    requires CurrentAddressKey !in first.sessionAttributes
    requires next.intentName == SetAddressIntent
    requires AddressPromptedFromIntent in next.sessionAttributes
    requires next.sessionAttributes[AddressPromptedFromIntent] == first.intentName
    ensures Route(first).outcome == Invoked(RequestUserAddress)
    ensures Route(next).outcome == Invoked(IntentsNeedAddress[first.intentName])
    ensures Route(next).request.intentName == first.intentName
    ensures Route(next).request.sessionAttributes[CurrentAddressKey] == next.spokenAddress
    ensures AddressPromptedFromIntent !in Route(next).request.sessionAttributes
  {
    NeedAddressIntentDispatched(first);
    RegistriesDisjoint();
  }

  /** `execute_request` routes each of the three request types, produces no
      response for any other type, and does not depend on the new-session
      flag. */
  lemma ExecuteByType(s: RequestState, newSession: bool)
    ensures s.requestType == LaunchRequest ==>
              Execute(s).outcome == Built(GetWelcomeResponse(s.sessionAttributes))
    ensures s.requestType == IntentRequest ==> Execute(s) == Route(s)
    ensures s.requestType == SessionEndedRequest ==> Execute(s).outcome == Built(DefaultResponse)
    ensures Execute(s).outcome == NoResponse <==>
              s.requestType !in {LaunchRequest, IntentRequest, SessionEndedRequest}
    ensures Execute(s.(isNewSession := newSession)).outcome == Execute(s).outcome
  {
  }

  /** Launching the skill and asking for help give the same response. */
  lemma LaunchIsHelp(s: RequestState)
    requires s.requestType == LaunchRequest
    ensures Execute(s).outcome
         == Execute(s.(requestType := IntentRequest, intentName := "AMAZON.HelpIntent")).outcome
  {
    BuiltInIntents(s.(requestType := IntentRequest, intentName := "AMAZON.HelpIntent"));
  }

  // ---------------------------------------------------------------------------
  // The request object, updated in place

  class Request {
    var requestType: string
    var intentName: string
    var isNewSession: bool
    var sessionAttributes: map<string, string>
    var spokenAddress: string

    constructor (requestType: string, intentName: string, isNewSession: bool,
                 sessionAttributes: map<string, string>, spokenAddress: string)
      ensures State() == RequestState(requestType, intentName, isNewSession, sessionAttributes, spokenAddress)
    {
      this.requestType := requestType;
      this.intentName := intentName;
      this.isNewSession := isNewSession;
      this.sessionAttributes := sessionAttributes;
      this.spokenAddress := spokenAddress;
    }

    /** A snapshot of the request's fields. */
    function State(): RequestState
      reads this
    {
      RequestState(requestType, intentName, isNewSession, sessionAttributes, spokenAddress)
    }

    /** `set_address_in_session`, under the assumption stated at
        `SetAddressInSession`. */
    method StoreAddress()
      modifies this
      ensures State() == SetAddressInSession(old(State()))
    {
      sessionAttributes := sessionAttributes[CurrentAddressKey := spokenAddress];
    }

    /** `on_intent`: may rewrite the intent name and delete the record of the
        interrupted intent, then looks the intent up. */
    method OnIntent() returns (o: Outcome)
      modifies this
      ensures Dispatch(o, State()) == Route(old(State()))
      ensures old(intentName) == SetAddressIntent && AddressPromptedFromIntent in old(sessionAttributes) ==>
                intentName == old(sessionAttributes)[AddressPromptedFromIntent]
                && AddressPromptedFromIntent !in sessionAttributes
      ensures old(intentName) != SetAddressIntent ==> State() == old(State())
    {
      if intentName == SetAddressIntent {
        StoreAddress();
        if AddressPromptedFromIntent in sessionAttributes {
          intentName := sessionAttributes[AddressPromptedFromIntent];
          sessionAttributes := sessionAttributes - {AddressPromptedFromIntent};
        } else {
          return Invoked(AddressFromSession);
        }
      }
      if intentName in IntentsNoAddressNeeded {
        return Invoke(IntentsNoAddressNeeded[intentName], State());
      } else if intentName in IntentsNeedAddress {
        if CurrentAddressKey !in sessionAttributes {
          return Invoked(RequestUserAddress);
        }
        return Invoke(IntentsNeedAddress[intentName], State());
      } else {
        return InvalidIntent;
      }
    }
  }

  /** `execute_request` on a request object. */
  method ExecuteRequest(req: Request) returns (o: Outcome)
    modifies req
    ensures Dispatch(o, req.State()) == Execute(old(req.State()))
  {
    if req.requestType == LaunchRequest {
      o := Built(GetWelcomeResponse(req.sessionAttributes));
    } else if req.requestType == IntentRequest {
      o := req.OnIntent();
    } else if req.requestType == SessionEndedRequest {
      o := Built(DefaultResponse);
    } else {
      o := NoResponse;
    }
  }
}
