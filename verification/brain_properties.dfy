/**
 * What the alert workflow promises, stated over the handler functions of
 * module Brain: validation, the exact store update, the order and routing of
 * the pushes, resolution, and what a whole run of requests keeps true.
 */
module BrainProperties {
  import opened PyValues
  import opened Pushbullet
  import opened Brain

  /** A request that reaches the alert handlers. */
  datatype Request =
    | Activate(id: Value, lat: Value, lng: Value, now: string, hostUrl: string)
    | Status
    | Resolve(studentId: string)

  /** The store after one request; a status query only reads it. */
  function Serve(dir: Directory, alerts: map<Value, Alert>, req: Request): map<Value, Alert> {
    match req
    case Activate(id, lat, lng, now, hostUrl) => Activation(dir, alerts, id, lat, lng, now, hostUrl).alerts
    case Status => alerts
    case Resolve(id) => Resolution(alerts, id).alerts
  }

  /** The store after serving requests one after another. */
  function Replay(dir: Directory, alerts: map<Value, Alert>, reqs: seq<Request>): map<Value, Alert>
    decreases |reqs|
  {
    if reqs == [] then alerts else Replay(dir, Serve(dir, alerts, reqs[0]), reqs[1..])
  }

  /** The ids named by the activation requests among reqs. */
  function ActivatedIds(reqs: seq<Request>): set<Value>
    decreases |reqs|
  {
    if reqs == [] then {}
    else (if reqs[0].Activate? then {reqs[0].id} else {}) + ActivatedIds(reqs[1..])
  }

  /** A request lacking a truthy student id, latitude or longitude is refused
      with 400; the store is untouched and nothing is sent. */
  lemma MissingFieldIsRefused(dir: Directory, alerts: map<Value, Alert>, id: Value, lat: Value, lng: Value,
                              now: string, hostUrl: string)
    requires !Truthy(id) || !Truthy(lat) || !Truthy(lng)
    ensures var o := Activation(dir, alerts, id, lat, lng, now, hostUrl);
            o.response == MissingData && StatusCode(o.response) == 400 && o.alerts == alerts && o.sent == []
  {
    assert [id, lat, lng][0] == id && [id, lat, lng][1] == lat && [id, lat, lng][2] == lng;
  }

  /** Python truthiness makes a latitude or longitude of zero count as
      missing, so an alert on the equator or the prime meridian is refused. */
  lemma ZeroCoordinateIsRefused(dir: Directory, alerts: map<Value, Alert>, id: Value, lat: Value, lng: Value,
                                now: string, hostUrl: string)
    requires lat == Num("0") || lat == Num("0.0") || lng == Num("0") || lng == Num("0.0")
    ensures Activation(dir, alerts, id, lat, lng, now, hostUrl).response == MissingData
  {
    MissingFieldIsRefused(dir, alerts, id, lat, lng, now, hostUrl);
  }

  /** A valid request succeeds with 200 however its sends fare: the sends
      have no say in the response. */
  lemma ValidActivationSucceeds(dir: Directory, alerts: map<Value, Alert>, id: Value, lat: Value, lng: Value,
                                now: string, hostUrl: string)
    requires Truthy(id) && Truthy(lat) && Truthy(lng) && Hashable(id)
    ensures var o := Activation(dir, alerts, id, lat, lng, now, hostUrl);
            o.response == Success(ACTIVATED_MESSAGE) && StatusCode(o.response) == 200
            && o.alerts == alerts[id := Alert(lat, lng, now, StudentName(dir, id))]
  {
  }

  /** A second activation for the same student replaces the first record
      entirely: the store is as if only the second had happened. */
  lemma LastActivationWins(dir: Directory, alerts: map<Value, Alert>, id: Value,
                           lat1: Value, lng1: Value, now1: string,
                           lat2: Value, lng2: Value, now2: string, hostUrl: string)
    requires Truthy(id) && Hashable(id) && Truthy(lat2) && Truthy(lng2)
    ensures var first := Activation(dir, alerts, id, lat1, lng1, now1, hostUrl);
            Activation(dir, first.alerts, id, lat2, lng2, now2, hostUrl).alerts
              == Activation(dir, alerts, id, lat2, lng2, now2, hostUrl).alerts
  {
  }

  /** The dispatch channel tag is routed as a channel, not as an address. */
  lemma DispatchTagIsChannel()
    ensures !IsEmailAddress(DISPATCH_CHANNEL_TAG)
  {
  }

  /** A successful activation sends 1 + |guardians| pushes: first a link push
      to the dispatch channel pointing at the dashboard, then, in directory
      order, one link push per guardian pointing at the student's location. */
  lemma ActivationFanOut(dir: Directory, alerts: map<Value, Alert>, id: Value, lat: Value, lng: Value,
                         now: string, hostUrl: string)
    requires Truthy(id) && Truthy(lat) && Truthy(lng) && Hashable(id)
    ensures var o := Activation(dir, alerts, id, lat, lng, now, hostUrl);
            var guardians := GuardiansOf(dir, id);
            var name := StudentName(dir, id);
            && |o.sent| == 1 + |guardians|
            && o.sent[0] == DispatchPush(name, id, now, hostUrl)
            && Type in o.sent[0] && o.sent[0][Type] == "link"
            && ChannelTag in o.sent[0] && Email !in o.sent[0]
            && o.sent[0][ChannelTag] == DISPATCH_CHANNEL_TAG
            && Url in o.sent[0] && o.sent[0][Url] == hostUrl + "dashboard"
            && Title in o.sent[0] && o.sent[0][Title] == DispatchTitle(name, id)
            && forall i :: 1 <= i < |o.sent| ==>
                 && o.sent[i] == Payload(guardians[i - 1], GuardianTitle(name), GuardianBody(name, now), Some(MapLink(lat, lng)))
                 && Type in o.sent[i] && o.sent[i][Type] == "link"
                 && Url in o.sent[i] && o.sent[i][Url] == MapLink(lat, lng)
  {
    var o := Activation(dir, alerts, id, lat, lng, now, hostUrl);
    var guardians := GuardiansOf(dir, id);
    var name := StudentName(dir, id);
    var dispatch := DispatchPush(name, id, now, hostUrl);
    var link := MapLink(lat, lng);
    assert o.sent == [dispatch] + GuardianPushes(guardians, GuardianTitle(name), GuardianBody(name, now), link) by {
      ValidActivationSucceeds(dir, alerts, id, lat, lng, now, hostUrl);
    }
    assert ChannelTag in dispatch && Email !in dispatch && dispatch[ChannelTag] == DISPATCH_CHANNEL_TAG by {
      DispatchTagIsChannel();
    }
    forall i | 1 <= i < |o.sent|
      ensures o.sent[i] == Payload(guardians[i - 1], GuardianTitle(name), GuardianBody(name, now), Some(link))
      ensures Type in o.sent[i] && o.sent[i][Type] == "link"
      ensures Url in o.sent[i] && o.sent[i][Url] == link
    {
      assert o.sent[i] == GuardianPushes(guardians, GuardianTitle(name), GuardianBody(name, now), link)[i - 1];
    }
  }

  /** A student without guardians still gets exactly the dispatch push. */
  lemma NoGuardiansOnlyDispatch(dir: Directory, alerts: map<Value, Alert>, id: Value, lat: Value, lng: Value,
                                now: string, hostUrl: string)
    requires Truthy(id) && Truthy(lat) && Truthy(lng) && Hashable(id)
    requires !id.Str? || id.s !in dir.guardians || dir.guardians[id.s] == []
    ensures var o := Activation(dir, alerts, id, lat, lng, now, hostUrl);
            o.response.Success? && |o.sent| == 1 && ChannelTag in o.sent[0] && o.sent[0][ChannelTag] == DISPATCH_CHANNEL_TAG
  {
    var o := Activation(dir, alerts, id, lat, lng, now, hostUrl);
    var push := DispatchPush(StudentName(dir, id), id, now, hostUrl);
    assert o.response.Success? by {
      ValidActivationSucceeds(dir, alerts, id, lat, lng, now, hostUrl);
    }
    assert o.sent == [push] by {
      assert o.sent == ActivationPushes(dir, id, lat, lng, StudentName(dir, id), now, hostUrl);
      assert GuardiansOf(dir, id) == [];
      assert [push] + [] == [push];
    }
    assert push[ChannelTag] == DISPATCH_CHANNEL_TAG by {
      DispatchTagIsChannel();
    }
  }

  /** A student the directories know gets a record under their registered
      name, and the push after dispatch goes to their first guardian. */
  lemma KnownStudentActivation(dir: Directory, alerts: map<Value, Alert>, student: string, lat: Value, lng: Value,
                               now: string, hostUrl: string)
    requires student != "" && Truthy(lat) && Truthy(lng)
    requires student in dir.names && student in dir.guardians && dir.guardians[student] != []
    requires IsEmailAddress(dir.guardians[student][0])
    ensures var o := Activation(dir, alerts, Str(student), lat, lng, now, hostUrl);
            && o.response.Success?
            && o.alerts == alerts[Str(student) := Alert(lat, lng, now, dir.names[student])]
            && |o.sent| == 1 + |dir.guardians[student]|
            && Email in o.sent[1] && o.sent[1][Email] == dir.guardians[student][0]
  {
    var id := Str(student);
    var o := Activation(dir, alerts, id, lat, lng, now, hostUrl);
    var name := dir.names[student];
    var guardians := dir.guardians[student];
    assert o.response.Success? && o.alerts == alerts[id := Alert(lat, lng, now, name)] by {
      ValidActivationSucceeds(dir, alerts, id, lat, lng, now, hostUrl);
    }
    var pushes := GuardianPushes(guardians, GuardianTitle(name), GuardianBody(name, now), MapLink(lat, lng));
    assert o.sent == [DispatchPush(name, id, now, hostUrl)] + pushes;
    assert o.sent[1] == pushes[0];
  }

  /** With the shipped directories, student S12345 reporting (1.0, 2.0) to an
      empty store leaves exactly one record, named "John Doe", and sends six
      pushes: dispatch plus five guardians. */
  lemma ShippedDirectoryExample(now: string, hostUrl: string)
    ensures var o := Activation(SHIPPED_DIRECTORY, map[], Str("S12345"), Num("1.0"), Num("2.0"), now, hostUrl);
            && o.response.Success?
            && o.alerts == map[Str("S12345") := Alert(Num("1.0"), Num("2.0"), now, "John Doe")]
            && |o.sent| == 6
            && Email in o.sent[1] && o.sent[1][Email] == "example1@gmail.com"
  {
    var dir := SHIPPED_DIRECTORY;
    assert dir.names["S12345"] == "John Doe";
    assert |dir.guardians["S12345"]| == 5 && dir.guardians["S12345"][0] == "example1@gmail.com";
    assert IsEmailAddress("example1@gmail.com") by { assert "example1@gmail.com"[8] == '@'; }
    assert Truthy(Num("1.0")) && Truthy(Num("2.0"));
    KnownStudentActivation(dir, map[], "S12345", Num("1.0"), Num("2.0"), now, hostUrl);
  }

  /** Resolving a student whose alert was just raised, when none was active
      before, gives back the store as it was. */
  lemma ResolveUndoesActivation(dir: Directory, alerts: map<Value, Alert>, id: string, lat: Value, lng: Value,
                                now: string, hostUrl: string)
    requires id != "" && Truthy(lat) && Truthy(lng) && Str(id) !in alerts
    ensures var raised := Activation(dir, alerts, Str(id), lat, lng, now, hostUrl);
            var resolved := Resolution(raised.alerts, id);
            resolved.response.Success? && resolved.alerts == alerts
  {
  }

  /** Resolving twice: the second attempt is a 404 and changes nothing. */
  lemma ResolveTwiceIsNotFound(alerts: map<Value, Alert>, id: string)
    ensures var once := Resolution(alerts, id);
            var twice := Resolution(once.alerts, id);
            twice.response.NotFound? && StatusCode(twice.response) == 404 && twice.alerts == once.alerts
  {
  }

  /** An activation keeps the store well formed: it only ever stores a
      truthy, hashable id with a truthy location. */
  lemma ActivationKeepsStoreWellFormed(dir: Directory, alerts: map<Value, Alert>, id: Value, lat: Value, lng: Value,
                                       now: string, hostUrl: string)
    requires WellFormedStore(alerts)
    ensures WellFormedStore(Activation(dir, alerts, id, lat, lng, now, hostUrl).alerts)
  {
    if Truthy(id) && Truthy(lat) && Truthy(lng) && Hashable(id) {
      ValidActivationSucceeds(dir, alerts, id, lat, lng, now, hostUrl);
    } else {
      MissingOrUnhashableChangesNothing(dir, alerts, id, lat, lng, now, hostUrl);
    }
  }

  /** A refused activation (400 or 500) leaves the store as it was. */
  lemma MissingOrUnhashableChangesNothing(dir: Directory, alerts: map<Value, Alert>, id: Value, lat: Value, lng: Value,
                                          now: string, hostUrl: string)
    requires !(Truthy(id) && Truthy(lat) && Truthy(lng) && Hashable(id))
    ensures var o := Activation(dir, alerts, id, lat, lng, now, hostUrl);
            !o.response.Success? && o.alerts == alerts && o.sent == []
  {
    if !Truthy(id) || !Truthy(lat) || !Truthy(lng) {
      MissingFieldIsRefused(dir, alerts, id, lat, lng, now, hostUrl);
    }
  }

  /** Each handler keeps the store well formed. */
  lemma ServeKeepsStoreWellFormed(dir: Directory, alerts: map<Value, Alert>, req: Request)
    requires WellFormedStore(alerts)
    ensures WellFormedStore(Serve(dir, alerts, req))
  {
    match req
    case Activate(id, lat, lng, now, hostUrl) =>
      ActivationKeepsStoreWellFormed(dir, alerts, id, lat, lng, now, hostUrl);
    case Status =>
    case Resolve(id) =>
  }

  /** Over any run of requests from an empty store, every active alert
      belongs to a student some request activated, and the store stays well
      formed. */
  lemma {:induction false} ReplayKeepsInvariant(dir: Directory, alerts: map<Value, Alert>, reqs: seq<Request>)
    requires WellFormedStore(alerts)
    ensures WellFormedStore(Replay(dir, alerts, reqs))
    ensures Replay(dir, alerts, reqs).Keys <= alerts.Keys + ActivatedIds(reqs)
    decreases |reqs|
  {
    if reqs != [] {
      var next := Serve(dir, alerts, reqs[0]);
      ServeKeepsStoreWellFormed(dir, alerts, reqs[0]);
      ReplayKeepsInvariant(dir, next, reqs[1..]);
      assert next.Keys <= alerts.Keys + (if reqs[0].Activate? then {reqs[0].id} else {});
    }
  }

  /** The invariant of a fresh server, over any run. */
  lemma RunFromEmptyStore(dir: Directory, reqs: seq<Request>)
    ensures WellFormedStore(Replay(dir, map[], reqs))
    ensures Replay(dir, map[], reqs).Keys <= ActivatedIds(reqs)
  {
    ReplayKeepsInvariant(dir, map[], reqs);
  }
}
