/** The Device Defender alerts Lambda: the thing named in a violation message is
    moved into the Quarantine thing group and told, through its shadow, that it
    is quarantined. The SNS envelope and `json.loads` are not modelled: the
    handler receives the parsed message. */
module AlertsProcessor {
  import opened Json
  import opened Services

  const QuarantineGroup := "Quarantine"
  const DefaultGroup := "DEFAULT"

  /** The requests the handler sends to IoT and IoT Data. */
  datatype AlertRequest =
    | CreateThingGroup(group: string)
    | UpdateThingGroupsForThing(thing: Json, add: seq<string>, remove: seq<string>)
    | UpdateThingShadow(thing: Json, payload: Json)

  /** `{"state": {"desired": {"quarantine": true}}}`. */
  const QuarantinePayload: Json :=
    JObj(map["state" := JObj(map["desired" := JObj(map["quarantine" := JBool(true)])])])

  /** `get_thing_name(msg)`: `msg["thingName"]` when the message has one, ""
      otherwise; None where Python's `in` raises TypeError (a message that is
      a number, a boolean or null) or where a list or string holding
      "thingName" is subscripted by a string. */
  function GetThingName(msg: Json): (r: Option<Json>)
    ensures msg.JObj? ==> r.Some?
    ensures msg.JObj? && "thingName" in msg.fields ==> r == Some(msg.fields["thingName"])
    ensures msg.JObj? && "thingName" !in msg.fields ==> r == Some(JStr(""))
    ensures (msg.JNull? || msg.JBool? || msg.JInt?) ==> r.None?
  {
    match In("thingName", msg)
    case None => None
    case Some(false) => Some(JStr(""))
    case Some(true) => Index(msg, "thingName")
  }

  /** The test's sample: a violation message naming thing dev-IZWB. */
  lemma {:induction false} SampleThingName(msg: Doc)
    requires "thingName" in msg && msg["thingName"] == JStr("dev-IZWB")
    ensures GetThingName(JObj(msg)) == Some(JStr("dev-IZWB"))
  {
  }

  /** The two requests after the group creation, in order. */
  function QuarantineRequests(thing: Json): (plan: seq<AlertRequest>)
    ensures |plan| == 2
    ensures plan[0].UpdateThingGroupsForThing? && plan[0].thing == thing
    ensures plan[0].add == [QuarantineGroup] && plan[0].remove == [DefaultGroup]
    ensures plan[1] == UpdateThingShadow(thing, QuarantinePayload)
  {
    [UpdateThingGroupsForThing(thing, [QuarantineGroup], [DefaultGroup]),
     UpdateThingShadow(thing, QuarantinePayload)]
  }

  /** The requests the handler issued and what it returned (None: it raised). */
  datatype AlertRun = AlertRun(requests: seq<AlertRequest>, returned: Option<string>)

  /** `lambda_handler` on a parsed message when exactly the requests in
      `failing` raise. `create_thing_group` catches its own failure; the group
      move and the shadow update are not guarded. */
  function LambdaHandler(msg: Json, failing: set<AlertRequest>): (r: AlertRun)
    ensures GetThingName(msg).None? ==> r == AlertRun([], None)
    ensures GetThingName(msg).Some? ==>
      var thing := GetThingName(msg).value;
      var run := Attempt(QuarantineRequests(thing), failing);
      && r.requests == [CreateThingGroup(QuarantineGroup)] + run.issued
      && (r.returned == Some("OK") <==> !run.raised)
      && (r.returned.None? <==> run.raised)
  {
    match GetThingName(msg)
    case None => AlertRun([], None)
    case Some(thing) =>
      var run := Attempt(QuarantineRequests(thing), failing);
      AlertRun([CreateThingGroup(QuarantineGroup)] + run.issued, if run.raised then None else Some("OK"))
  }

  /** A failure creating the Quarantine group changes nothing that follows:
      the handler still moves the thing and updates its shadow. */
  lemma {:induction false} GroupCreationFailureIsSwallowed(msg: Json, failing: set<AlertRequest>)
    ensures LambdaHandler(msg, failing + {CreateThingGroup(QuarantineGroup)})
         == LambdaHandler(msg, failing - {CreateThingGroup(QuarantineGroup)})
  {
    var c := CreateThingGroup(QuarantineGroup);
    if GetThingName(msg).Some? {
      var plan := QuarantineRequests(GetThingName(msg).value);
      AttemptIgnoresAbsent(plan, failing, c);
    }
  }

  /** When no request fails, the thing named in the message ends in exactly
      the Quarantine group, removed from DEFAULT, with quarantine desired. */
  lemma {:induction false} QuarantineWhenServiceSucceeds(msg: Doc)
    requires "thingName" in msg
    ensures LambdaHandler(JObj(msg), {}) == AlertRun(
      [CreateThingGroup(QuarantineGroup),
       UpdateThingGroupsForThing(msg["thingName"], ["Quarantine"], ["DEFAULT"]),
       UpdateThingShadow(msg["thingName"], QuarantinePayload)],
      Some("OK"))
  {
    AttemptFacts(QuarantineRequests(msg["thingName"]), {});
  }
}
