/** The two intent registries of the controller: one for intents that can run
    without a stored address, one for intents that need one.  Each registry is
    a dictionary filled in load order (a dictionary literal, then, for the
    no-address registry only, entries added further down the module), so it
    is modelled as the sequence of its
    registrations folded into a map, where a later registration of the same
    name overwrites an earlier one. */
module Registry {

  /** The handler functions the registries (and the controller) refer to.  Only
      the welcome and session-end responses are built by the controller itself;
      the others live in intent modules that are not part of this model. */
  datatype Handler =
    | AddressFromSession     // user_address_intent.get_address_from_session
    | RequestUserAddress     // user_address_intent.request_user_address_response
    | Alerts                 // get_alerts_intent.get_alerts_intent
    | Unhandled              // unhandled_intent.unhandled_intent
    | TrashDayInfo           // trash_intent.get_trash_day_info
    | SnowEmergencyParking   // snow_parking_intent.get_snow_emergency_parking_intent
    | WelcomeResponse        // get_welcome_response
    | SessionEndResponse     // handle_session_end_request

  /** One `registry[name] = handler` step. */
  datatype Registration = Registration(name: string, handler: Handler)

  /** The intent that sets the address; it is routed by the controller itself
      and must never be registered. */
  const SetAddressIntent: string := "SetAddressIntent"

  /** The names registered by a sequence of registrations. */
  function Names(regs: seq<Registration>): (names: set<string>)
  {
    set r | r in regs :: r.name
  }

  /** The dictionary obtained by applying the registrations in order. */
  function Register(regs: seq<Registration>): (m: map<string, Handler>)
    ensures m.Keys == Names(regs)
  {
    if regs == [] then map[]
    else
      var prefix, last := regs[..|regs| - 1], regs[|regs| - 1];
      assert regs == prefix + [last];
      Register(prefix)[last.name := last.handler]
  }

  /** A name maps to the handler of its last registration. */
  lemma {:induction false} RegisterLast(regs: seq<Registration>, i: nat)
    requires i < |regs|
    requires forall j | i < j < |regs| :: regs[j].name != regs[i].name
    ensures regs[i].name in Register(regs)
    ensures Register(regs)[regs[i].name] == regs[i].handler
  {
    if i < |regs| - 1 {
      var prefix := regs[..|regs| - 1];
      RegisterLast(prefix, i);
    }
  }

  /** Registering one more entry updates the dictionary at that name. */
  lemma RegisterSnoc(regs: seq<Registration>, r: Registration)
    ensures Register(regs + [r]) == Register(regs)[r.name := r.handler]
  {
    assert (regs + [r])[..|regs|] == regs;
  }

  /** The dictionary literal of INTENTS_NO_ADDRESS_NEEDED. */
  const NoAddressNeededLiteral: seq<Registration> := [
    Registration("GetAddressIntent", AddressFromSession),
    Registration("GetAlertsIntent", Alerts),
    Registration("UnhandledIntent", Unhandled)
  ]

  /** Everything registered in INTENTS_NO_ADDRESS_NEEDED once the module has
      loaded: the literal, then help, then stop and cancel. */
  const NoAddressNeededRegistrations: seq<Registration> :=
    NoAddressNeededLiteral
    + [Registration("AMAZON.HelpIntent", WelcomeResponse)]
    + [Registration("AMAZON.StopIntent", SessionEndResponse),
       Registration("AMAZON.CancelIntent", SessionEndResponse)]

  /** Everything registered in INTENTS_NEED_ADDRESS. */
  const NeedAddressRegistrations: seq<Registration> := [
    Registration("TrashDayIntent", TrashDayInfo),
    Registration("SnowParkingIntent", SnowEmergencyParking)
  ]

  const IntentsNoAddressNeeded: map<string, Handler> := Register(NoAddressNeededRegistrations)
  const IntentsNeedAddress: map<string, Handler> := Register(NeedAddressRegistrations)

  /** Whether an intent name is known to either registry. */
  predicate Registered(name: string)
  {
    name in IntentsNoAddressNeeded || name in IntentsNeedAddress
  }

  /** INTENTS_NO_ADDRESS_NEEDED as its literal defines it. */
  lemma NoAddressNeededLiteralContents()
    ensures Register(NoAddressNeededLiteral) == map[
      "GetAddressIntent" := AddressFromSession,
      "GetAlertsIntent" := Alerts,
      "UnhandledIntent" := Unhandled]
  {
    var regs := NoAddressNeededLiteral;
    RegisterLast(regs, 0);
    RegisterLast(regs, 1);
    RegisterLast(regs, 2);
    assert Names(regs) == {regs[0].name, regs[1].name, regs[2].name};
  }

  /** INTENTS_NO_ADDRESS_NEEDED after loading, entry by entry. */
  lemma NoAddressNeededContents()
    ensures IntentsNoAddressNeeded == map[
      "GetAddressIntent" := AddressFromSession,
      "GetAlertsIntent" := Alerts,
      "UnhandledIntent" := Unhandled,
      "AMAZON.HelpIntent" := WelcomeResponse,
      "AMAZON.StopIntent" := SessionEndResponse,
      "AMAZON.CancelIntent" := SessionEndResponse]
  {
    var regs := NoAddressNeededRegistrations;
    RegisterSnoc(regs[..5], regs[5]);
    assert regs[..5] + [regs[5]] == regs;
    RegisterSnoc(regs[..4], regs[4]);
    assert regs[..4] + [regs[4]] == regs[..5];
    RegisterSnoc(regs[..3], regs[3]);
    assert regs[..3] + [regs[3]] == regs[..4];
    assert regs[..3] == NoAddressNeededLiteral;
    NoAddressNeededLiteralContents();
  }

  /** INTENTS_NEED_ADDRESS after loading, entry by entry. */
  lemma NeedAddressContents()
    ensures IntentsNeedAddress == map[
      "TrashDayIntent" := TrashDayInfo,
      "SnowParkingIntent" := SnowEmergencyParking]
  {
    var regs := NeedAddressRegistrations;
    RegisterLast(regs, 0);
    RegisterLast(regs, 1);
    assert Names(regs) == {regs[0].name, regs[1].name};
  }

  /** The registries share no intent name, and neither holds SetAddressIntent. */
  lemma RegistriesDisjoint()
    ensures IntentsNoAddressNeeded.Keys !! IntentsNeedAddress.Keys
    ensures SetAddressIntent !in IntentsNoAddressNeeded
    ensures SetAddressIntent !in IntentsNeedAddress
  {
    NoAddressNeededContents();
    NeedAddressContents();
  }
}
