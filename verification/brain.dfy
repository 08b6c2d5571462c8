/**
 * The alert workflow of the panic-button server: the active-alert store, the
 * two read-only directories, and the three handlers that activate an alert
 * (fanning it out as pushes), report the store, and resolve an alert.
 *
 * The pure functions give the meaning of each handler as an Outcome (the
 * response, the new store, the pushes sent); the class AlertServer does the
 * same work step by step on its fields and is proved to agree with them.
 */
module Brain {
  import opened PyValues
  import opened Pushbullet

  /** The broadcast channel of campus security dispatch. */
  const DISPATCH_CHANNEL_TAG := "securitydispatch"

  /** The display name used for a student the name directory does not know. */
  const UNKNOWN_STUDENT := "Unknown Student"

  const ACTIVATED_MESSAGE := "Alert activated and notifications sent."

  /** The record kept for an active alert: `{lat, lng, time, name}`. */
  datatype Alert = Alert(lat: Value, lng: Value, time: string, name: string)

  /** The static configuration: guardian addresses (in order) and display
      names, both keyed by student id. */
  datatype Directory = Directory(guardians: map<string, seq<string>>, names: map<string, string>)

  /** The directories the server ships with. */
  const SHIPPED_DIRECTORY := Directory(
    map[
      "S12345" := ["example1@gmail.com", "example2@gmail.com", "example3@gmail.com",
                   "example4@gmail.com", "example5@gmail.com"],
      "S67890" := ["example6@gmail.com"]],
    map["S12345" := "John Doe", "S67890" := "Doe John"])

  /** The response of a handler. InternalError is the HTTP 500 Flask answers
      with when a handler raises (an unhashable student id). */
  datatype Response =
    | Success(message: string)
    | MissingData
    | NotFound(message: string)
    | InternalError

  function StatusCode(r: Response): int {
    match r
    case Success(_) => 200
    case MissingData => 400
    case NotFound(_) => 404
    case InternalError => 500
  }

  /** What a handler does: its response, the store afterwards, and the pushes
      it attempted, in order. */
  datatype Outcome = Outcome(response: Response, alerts: map<Value, Alert>, sent: seq<Push>)

  /** `student_names.get(student_id, "Unknown Student")`: the directory's keys
      are texts, so only a text id can be found; an unhashable id makes the
      lookup raise, so none is accepted. */
  function StudentName(dir: Directory, id: Value): (name: string)
    requires Hashable(id)
    ensures id.Str? && id.s in dir.names ==> name == dir.names[id.s]
    ensures !(id.Str? && id.s in dir.names) ==> name == UNKNOWN_STUDENT
  {
    if id.Str? && id.s in dir.names then dir.names[id.s] else UNKNOWN_STUDENT
  }

  /** `student_guardians.get(student_id, [])`. */
  function GuardiansOf(dir: Directory, id: Value): seq<string> {
    if id.Str? && id.s in dir.guardians then dir.guardians[id.s] else []
  }

  /** The Google Maps search link for a location. */
  function MapLink(lat: Value, lng: Value): string {
    "https://www.google.com/maps/search/?api=1&query=" + Format(lat) + "," + Format(lng)
  }

  function DispatchTitle(name: string, id: Value): string {
    "\U{1F6A8} CRITICAL GAS ALERT: " + name + " (" + Format(id) + ")"
  }

  function DispatchBody(now: string): string {
    "Student activated alert at " + now + ". Click to view on map dashboard."
  }

  function GuardianTitle(name: string): string {
    "\U{26A0}\U{FE0F} " + name + " Needs Help NOW!"
  }

  function GuardianBody(name: string, now: string): string {
    "URGENT: " + name + " activated a safety alert at " + now + ". Click for their current location."
  }

  /** The push to the dispatch channel; its link is the dashboard page. */
  function DispatchPush(name: string, id: Value, now: string, hostUrl: string): Push {
    Payload(DISPATCH_CHANNEL_TAG, DispatchTitle(name, id), DispatchBody(now), Some(hostUrl + "dashboard"))
  }

  /** One push per guardian, in directory order, each linking to the map. */
  function GuardianPushes(emails: seq<string>, title: string, body: string, link: string): (ps: seq<Push>)
    ensures |ps| == |emails|
    ensures forall i :: 0 <= i < |emails| ==> ps[i] == Payload(emails[i], title, body, Some(link))
  {
    if emails == [] then []
    else
      var last := |emails| - 1;
      GuardianPushes(emails[..last], title, body, link) + [Payload(emails[last], title, body, Some(link))]
  }

  /** Every push of a successful activation: dispatch first, then the guardians. */
  function ActivationPushes(dir: Directory, id: Value, lat: Value, lng: Value, name: string,
                            now: string, hostUrl: string): seq<Push>
  {
    [DispatchPush(name, id, now, hostUrl)]
      + GuardianPushes(GuardiansOf(dir, id), GuardianTitle(name), GuardianBody(name, now), MapLink(lat, lng))
  }

  /** The activation handler: reject a request lacking a truthy id, latitude or
      longitude; fail (before touching anything) on an id that cannot be a
      dictionary key; otherwise overwrite the student's record and send the
      dispatch push and one push per guardian. A send never fails the request. */
  function Activation(dir: Directory, alerts: map<Value, Alert>, id: Value, lat: Value, lng: Value,
                      now: string, hostUrl: string): (o: Outcome)
    ensures !All([id, lat, lng]) ==> o == Outcome(MissingData, alerts, [])
    ensures All([id, lat, lng]) && !Hashable(id) ==> o == Outcome(InternalError, alerts, [])
    ensures o.response.Success? <==> All([id, lat, lng]) && Hashable(id)
    ensures o.response.Success? ==>
      && o.alerts.Keys == alerts.Keys + {id}
      && o.alerts[id] == Alert(lat, lng, now, StudentName(dir, id))
      && (forall k :: k in alerts && k != id ==> o.alerts[k] == alerts[k])
      && |o.sent| == 1 + |GuardiansOf(dir, id)|
  {
    if !All([id, lat, lng]) then Outcome(MissingData, alerts, [])
    else if !Hashable(id) then Outcome(InternalError, alerts, [])
    else
      var name := StudentName(dir, id);
      Outcome(Success(ACTIVATED_MESSAGE), alerts[id := Alert(lat, lng, now, name)],
              ActivationPushes(dir, id, lat, lng, name, now, hostUrl))
  }

  /** The resolve handler; the id comes from the URL path, so it is a text. */
  function Resolution(alerts: map<Value, Alert>, id: string): (o: Outcome)
    ensures o.sent == []
    ensures o.response.Success? <==> Str(id) in alerts
    ensures Str(id) in alerts ==> o.alerts.Keys == alerts.Keys - {Str(id)}
                                  && forall k :: k in o.alerts ==> o.alerts[k] == alerts[k]
    ensures Str(id) !in alerts ==> o.response.NotFound? && o.alerts == alerts
  {
    if Str(id) in alerts then Outcome(Success("Alert for " + id + " resolved."), alerts - {Str(id)}, [])
    else Outcome(NotFound("Alert for " + id + " not found."), alerts, [])
  }

  lemma AppendAssociative<T>(a: seq<T>, b: seq<T>, c: seq<T>)
    ensures (a + b) + c == a + (b + c)
  {
  }

  /** What every store the handlers build satisfies: each key is a truthy,
      hashable id and each record a truthy location. */
  predicate WellFormedStore(alerts: map<Value, Alert>) {
    forall k :: k in alerts ==> Truthy(k) && Hashable(k) && Truthy(alerts[k].lat) && Truthy(alerts[k].lng)
  }

  /** The server process: the store and the outbox change, the directories do not. */
  class AlertServer {
    var alerts: map<Value, Alert>
    const dir: Directory
    /** Every push body the server has attempted to send, oldest first. */
    var outbox: seq<Push>

    ghost predicate Valid()
      reads this
    {
      WellFormedStore(alerts)
    }

    constructor (dir: Directory)
      ensures Valid()
      ensures this.dir == dir && alerts == map[] && outbox == []
    {
      this.dir := dir;
      alerts := map[];
      outbox := [];
    }

    /** `send_pushbullet_notification`: the POST becomes an append to the
        outbox; a failed POST is swallowed, so it leaves nothing to observe. */
    method SendNotification(destination: string, title: string, body: string, url: Option<string>)
      modifies this`outbox
      ensures outbox == old(outbox) + [Payload(destination, title, body, url)]
    {
      outbox := outbox + [Payload(destination, title, body, url)];
    }

    /** `activate_alert`, with the clock reading and the request's host URL
        as parameters. */
    method ActivateAlert(id: Value, lat: Value, lng: Value, now: string, hostUrl: string) returns (r: Response)
      requires Valid()
      modifies this`alerts, this`outbox
      ensures Valid()
      ensures var o := Activation(dir, old(alerts), id, lat, lng, now, hostUrl);
              r == o.response && alerts == o.alerts && outbox == old(outbox) + o.sent
    {
      if !All([id, lat, lng]) {
        return MissingData;
      }
      if !Hashable(id) {
        return InternalError;
      }
      var name := StudentName(dir, id);
      ghost var stored := alerts[id := Alert(lat, lng, now, name)];
      ghost var pushes := ActivationPushes(dir, id, lat, lng, name, now, hostUrl);
      assert Activation(dir, alerts, id, lat, lng, now, hostUrl) == Outcome(Success(ACTIVATED_MESSAGE), stored, pushes);
      assert WellFormedStore(stored) by {
        assert [id, lat, lng][0] == id && [id, lat, lng][1] == lat && [id, lat, lng][2] == lng;
      }
      alerts := alerts[id := Alert(lat, lng, now, name)];
      var mapLink := MapLink(lat, lng);
      SendNotification(DISPATCH_CHANNEL_TAG, DispatchTitle(name, id), DispatchBody(now), Some(hostUrl + "dashboard"));
      SendToGuardians(GuardiansOf(dir, id), GuardianTitle(name), GuardianBody(name, now), mapLink);
      r := Success(ACTIVATED_MESSAGE);
      AppendAssociative(old(outbox), [DispatchPush(name, id, now, hostUrl)],
        GuardianPushes(GuardiansOf(dir, id), GuardianTitle(name), GuardianBody(name, now), mapLink));
    }

    /** The loop of `activate_alert` over the student's guardians: one send
        per address, in order. */
    method SendToGuardians(guardians: seq<string>, title: string, body: string, mapLink: string)
      modifies this`outbox
      ensures outbox == old(outbox) + GuardianPushes(guardians, title, body, mapLink)
    {
      for i := 0 to |guardians|
        invariant outbox == old(outbox) + GuardianPushes(guardians[..i], title, body, mapLink)
      {
        SendNotification(guardians[i], title, body, Some(mapLink));
        assert guardians[..i + 1][..i] == guardians[..i];
      }
      assert guardians[..|guardians|] == guardians;
    }

    /** `get_alert_status`: the store as it is. */
    method GetAlertStatus() returns (s: map<Value, Alert>)
      ensures s == alerts
    {
      s := alerts;
    }

    /** `resolve_alert`. */
    method ResolveAlert(id: string) returns (r: Response)
      requires Valid()
      modifies this`alerts
      ensures Valid()
      ensures var o := Resolution(old(alerts), id);
              r == o.response && alerts == o.alerts
    {
      if Str(id) in alerts {
        alerts := alerts - {Str(id)};
        return Success("Alert for " + id + " resolved.");
      }
      return NotFound("Alert for " + id + " not found.");
    }
  }
}
