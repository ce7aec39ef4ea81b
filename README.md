# MyCity intent router — a Dafny model

This project models the controller of the MyCity voice skill, a backend that
answers questions about Boston's public services (trash day, snow-emergency
parking, alerts). The controller receives one request and routes it:

- `execute_request` routes by request type. A launch gets the welcome
  response. An intent request goes to `on_intent`. A session-ended request gets
  a fresh default response. Any other type gets no response.
- `on_intent` routes by intent name through two registries. One holds intents
  that need no address; the other holds intents that need the user's address.
  An address-needing intent asks for the address when none is stored in the
  session.
- `SetAddressIntent` is special. It stores the address. If the session records
  an intent that was interrupted to ask for the address, the request's intent
  name is rewritten to that intent, the record is deleted, and routing carries
  on. Otherwise the stored address is read back to the user.
- Help gives the welcome response; stop and cancel give the goodbye response.
  Both pass the session attributes through unchanged.

Three modules, one file each:

- `Registry` (`registry.dfy`): the handler tags and the two registries, built
  as the source builds them. The no-address registry is a dictionary literal
  followed by entries added further down the module. The need-address registry
  is only a literal, with no later additions. The model folds each list of
  registrations into a map, and a later registration of a name overwrites an
  earlier one.
- `Responses` (`responses.dfy`): the response record and the welcome and
  goodbye builders.
- `Controller` (`controller.dfy`): the routing. `Route` (for `on_intent`) and
  `Execute` (for `execute_request`) are pure functions over a snapshot of the
  request, and the lemmas are about them. The class `Request` holds the fields
  that `on_intent` updates in place. Its method `OnIntent` rewrites the intent
  name and deletes the session key as the source does, and is proved to agree
  with `Route`. `ExecuteRequest` is proved to agree with `Execute`.

Modelling choices:

- Session attributes are a `map<string, string>`.
- A handler defined outside the controller is an opaque tag. Calling it is the
  outcome `Invoked(tag)`, and the request passed to it is the request recorded
  next to the outcome.
- The "Invalid Intent" `ValueError` is the outcome `InvalidIntent`. The `None`
  that `execute_request` returns for an unknown request type is `NoResponse`.
- Response fields the controller does not set are `None`. They keep the
  defaults of the response data model, which is not part of this model.
- `set_address_in_session` is not part of this model. It is ASSUMED to store
  the address carried by the request (`spokenAddress`) under the address key
  and to change nothing else.
- The values of the two session keys come from `intent_constants`, which is not
  part of this model. The values chosen here are placeholders. The proofs only
  use the fact that the two keys differ.

Two details of the code that the model follows:

- A `SetAddressIntent` with no interrupted intent recorded calls
  `get_address_from_session`.
- Recording the interrupted intent is left to `request_user_address_response`.
  The controller does not do it. `AskThenResume` therefore takes that record as
  a hypothesis about the next request.

## Model

| member | source | states |
|---|---|---|
| `Registry.Register` | mycity/mycity/mycity_controller.py:29-35 | filling a dictionary from a list of registrations gives exactly the registered names as keys |
| `Registry.RegisterLast` | mycity/mycity/mycity_controller.py:29-35 | a name maps to the handler of its last registration |
| `Registry.RegisterSnoc` | mycity/mycity/mycity_controller.py:190 | adding an entry after the literal updates the dictionary at that name only |
| `Registry.NoAddressNeededLiteralContents` | mycity/mycity/mycity_controller.py:29-31 | the literal of the no-address registry maps GetAddressIntent, GetAlertsIntent and UnhandledIntent to their handlers |
| `Registry.NoAddressNeededContents` | mycity/mycity/mycity_controller.py:189-205 | after loading, the no-address registry is the literal plus Help → welcome, Stop → goodbye and Cancel → goodbye, and nothing else |
| `Registry.NeedAddressContents` | mycity/mycity/mycity_controller.py:34-35 | the address registry maps exactly TrashDayIntent and SnowParkingIntent to their handlers |
| `Registry.RegistriesDisjoint` | mycity/mycity/mycity_controller.py:22-35 | after loading, the two registries share no intent name, and neither holds SetAddressIntent |
| `Responses.GetWelcomeResponse` | mycity/mycity/mycity_controller.py:165-187 | the welcome response hands back the given session attributes, has title "Welcome", the fixed welcome speech and reprompt, and keeps the session open |
| `Responses.HandleSessionEndRequest` | mycity/mycity/mycity_controller.py:193-201 | the goodbye response hands back the given session attributes, has the fixed thanks title and speech, leaves the reprompt at its default, and ends the session |
| `Controller.Route` | mycity/mycity/mycity_controller.py:104-147 | on_intent changes only the intent name and the session attributes; it changes the intent name only in a redirect, to the recorded interrupted intent; it changes no session key except the address key and the prompted-from key |
| `Controller.SetAddressWithoutPrompt` | mycity/mycity/mycity_controller.py:123-137 | SetAddressIntent with no prompted-from key reads back the address, with the address stored, and does not consult a registry |
| `Controller.SetAddressRedirect` | mycity/mycity/mycity_controller.py:125-135 | SetAddressIntent with a prompted-from key: the intent name becomes the key's old value, the key is gone, the address is present, and every other attribute is unchanged |
| `Controller.RedirectRoundTrip` | mycity/mycity/mycity_controller.py:123-145 | the redirect gives the same outcome and request as asking for the interrupted intent directly, with the address stored and the prompted-from key removed |
| `Controller.NoAddressIntentDispatched` | mycity/mycity/mycity_controller.py:140-141 | an intent in the no-address registry runs its handler on the unchanged request, whatever the session holds |
| `Controller.BuiltInIntents` | mycity/mycity/mycity_controller.py:189-205 | Help gives the welcome response and Stop or Cancel give the goodbye response, for any session attributes; every response the controller builds for a non-redirected intent hands the attributes back unchanged |
| `Controller.NeedAddressIntentDispatched` | mycity/mycity/mycity_controller.py:142-145 | an intent in the address registry asks for the address when the address key is absent, and otherwise runs its handler; the request is left unchanged |
| `Controller.InvalidIntentExactly` | mycity/mycity/mycity_controller.py:123-147 | on_intent fails with "Invalid Intent" if and only if the intent name, after any redirect, is in neither registry |
| `Controller.RedirectNeverLoops` | mycity/mycity/mycity_controller.py:123-147 | a prompted-from value of SetAddressIntent is not redirected again: on_intent fails with "Invalid Intent" |
| `Controller.AskThenResume` | mycity/mycity/mycity_controller.py:118-145 | an address-needing intent asked without an address prompts for one; a following SetAddressIntent whose session records that intent runs that intent's handler, with the address stored and the record removed |
| `Controller.ExecuteByType` | mycity/mycity/mycity_controller.py:60-68 | launch gives the welcome response, an intent request is on_intent, session-ended gives a fresh default response, any other type and only those give no response, and the new-session flag changes nothing |
| `Controller.LaunchIsHelp` | mycity/mycity/mycity_controller.py:88-101 | launching the skill and asking for help give the same response |
| `Controller.Request.StoreAddress` | mycity/mycity/mycity_controller.py:124 | the assumed effect of set_address_in_session: the spoken address is stored under the address key, in place |
| `Controller.Request.OnIntent` | mycity/mycity/mycity_controller.py:104-147 | on_intent updates the request in place as Route says: after a redirect the intent name is the old prompted-from value and the key is deleted; for any other intent the request is untouched by on_intent itself; the request recorded is the one the handler receives |
| `Controller.ExecuteRequest` | mycity/mycity/mycity_controller.py:38-68 | execute_request on a request object returns the outcome, and leaves the request in the state, that Execute gives |

## Left out

- Logging (`print`) everywhere, and `on_session_started`, which only logs.
- The application-id check, which is commented out in the source.
- The bodies of the handlers imported from the intent modules (trash day, snow
  parking, alerts, unhandled intent, and the address helpers). They are not
  part of this model and call external services. They appear only as the tags
  of `Registry.Handler`. What they write into the request, such as the
  prompted-from key that `request_user_address_response` presumably records, is
  not modelled.
- `set_address_in_session`: its body is not part of this model. Its effect is
  the assumption stated above.
- The request and response data-model classes beyond the fields used here:
  session id, request id and the response defaults.
- Aliasing: the welcome and goodbye responses share the request's
  session-attribute dictionary in the source. The model copies it by value, so
  a later change through one is not seen through the other.
- Session-attribute values of types other than strings.
- The test package's network probe and the Google Maps utility tests. They
  exercise code outside the controller.
