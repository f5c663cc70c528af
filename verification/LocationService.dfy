/** The location service object: its subscription lists and request table, changed in place,
    with the two position providers it drives. Each method does to the fields what the
    function of ServiceModel or Subscriptions it names does to their values.
 */
module LocationService {
  import opened Common
  import opened Subscriptions
  import opened ServiceModel
  import Gps = GpsProvider
  import Net = NetworkProvider

  class LocationService {
    const env: Env
    const gps: Gps.GPSPositionProvider
    const network: Net.NetworkPositionProvider
    var lists: Lists
    var timers: Timers
    var log: seq<Reply>
    var readings: nat
    var seen: set<Message>
    var cancelled: set<Message>
    var gpsStatus: bool
    var nwStatus: bool
    var internetAvailable: bool
    var mockUsed: bool

    function Reg(): Registry
      reads this
    {
      Registry(lists, timers, log, readings, seen, cancelled)
    }

    function State(): Service
      reads this, gps, network
    {
      Service(Reg(), gps.State(), network.State(), gpsStatus, nwStatus, internetAvailable, mockUsed)
    }

    ghost predicate Valid()
      reads this
    {
      gps.answers == env.answers
    }

    constructor (env: Env, defaultMode: int, halReady: bool, hasKey: bool, backend: Net.Backend,
                 gpsStatus: bool, nwStatus: bool)
      ensures Valid() && fresh(gps) && fresh(network) && this.env == env
      ensures State() == ServiceModel.Initial(halReady, defaultMode, hasKey, backend, gpsStatus, nwStatus)
    {
      this.env, this.gpsStatus, this.nwStatus := env, gpsStatus, nwStatus;
      gps := new Gps.GPSPositionProvider(env.answers, defaultMode, halReady);
      network := new Net.NetworkPositionProvider(hasKey, backend);
      lists, timers := map[], Timers(map[], map[], [], 1);
      log, readings, seen, cancelled := [], 0, {}, {};
      internetAvailable, mockUsed := false, false;
    }

    // The request table and its timers.

    method RemoveTimer(m: Message) returns (found: bool)
      modifies `timers
      ensures timers == old(timers).RemoveTimer(m)
      ensures found <==> m in old(timers.table)
    {
      if m !in timers.table {
        return false;
      }
      var request := timers.table[m];
      if request.timerId != 0 {
        timers := timers.(armed := timers.armed - {request.timerId});
      }
      if request.timerData.Some? {
        timers := timers.(freed := timers.freed + [request.timerData.value.id]);
      }
      timers := timers.(table := timers.table[m := request.(timerData := None)]);
      return true;
    }

    method LSMessageRemoveReqList(m: Message) returns (found: bool)
      modifies `timers
      ensures timers == old(timers).RemoveRequest(m)
      ensures found <==> m in old(timers.table)
    {
      if m !in timers.table {
        return false;
      }
      var request := timers.table[m];
      if request.timerId != 0 {
        timers := timers.(armed := timers.armed - {request.timerId});
      }
      if request.timerData.Some? {
        timers := timers.(freed := timers.freed + [request.timerData.value.id]);
      }
      timers := timers.(table := timers.table - {m});
      return true;
    }

    method MeetsCriteria(m: Message, fix: Fix) returns (meets: bool)
      modifies `timers, `readings
      ensures meets == old(Reg()).Meets(m, fix, env.world)
      ensures Remembers(old(Reg()), m) ==>
                (meets <==> MayGoOut(log, m, fix, env.world.clock(old(readings)), env.world))
      ensures readings == old(readings) + 1
      ensures timers == if meets then old(timers).Answered(m, env.world.clock(old(readings)), fix.at) else old(timers)
    {
      var currentTime := env.world.clock(readings);
      readings := readings + 1;
      meets := false;
      if m in timers.table {
        var request := timers.table[m];
        if request.firstReply {
          timers := timers.(table := timers.table[m := request.(requestTime := currentTime, last := fix.at, firstReply := false)]);
          meets := true;
        } else if fix.timestamp != 0 {
          var elapsedTime := currentTime - request.requestTime;
          var meetsInterval := !(m.minInterval > 0 && elapsedTime <= m.minInterval);
          var meetsDistance := !(m.minDistance > 0 && !(env.world.distance(fix.at, request.last) >= m.minDistance as real));
          if meetsInterval && meetsDistance {
            meets := m.handler != Unspecified || elapsedTime > HYBRID_PATIENCE || fix.accuracy < MINIMAL_ACCURACY;
          }
          if meets {
            timers := timers.(table := timers.table[m := request.(requestTime := currentTime, last := fix.at)]);
          }
        }
      }
    }

    // Replies.

    method LSMessageReply(m: Message, kind: ReplyKind)
      modifies `log
      ensures log == old(log) + [Reply(m, kind)]
    {
      log := log + [Reply(m, kind)];
    }

    /** LSMessageReplyError for a request's own error. */
    method Refuse(m: Message)
      modifies `log, `seen
      ensures State() == old(State()).Refuse(m)
    {
      LSMessageReply(m, Refused);
      seen := seen + {m};
    }

    method LSSubscriptionRemove(key: Key, m: Message)
      modifies `lists
      ensures lists == old(lists)[key := Without(ListOf(old(lists), key), m)]
    {
      lists := lists[key := Without(ListOf(lists, key), m)];
    }

    method LSMessageReplyLocUpdateCase(m: Message, key: Key, kind: ReplyKind)
      modifies `lists, `timers, `log
      ensures Reg() == old(Reg()).Answer(key, m, kind)
    {
      LSMessageReply(m, kind);
      if !m.subscription {
        LSSubscriptionRemove(key, m);
        var found := LSMessageRemoveReqList(m);
      } else {
        var found := RemoveTimer(m);
      }
    }

    method IsListFilled(key: Key, m: Option<Message>, cancelCase: bool) returns (filled: bool)
      ensures filled == Subscriptions.IsListFilled(ListOf(lists, key), m, cancelCase)
    {
      var list := ListOf(lists, key);
      if |list| > 0 && cancelCase {
        if m == Some(list[0]) {
          filled := |list| > 1;
        } else {
          filled := true;
        }
      } else {
        filled := |list| > 0;
      }
    }

    /** stopSubcription and stopNonSubcription. */
    method StopSubscription(key: Key)
      requires Valid()
      modifies gps, network
      ensures State() == old(State()).StopFor(key, env)
    {
      if key == NmeaKey {
        var code := gps.ProcessRequest(Gps.StopNmeaCmd);
      } else if key == SatelliteKey {
        var code := gps.ProcessRequest(Gps.StopSatelliteCmd);
      } else if key == GpsKey {
        var code := gps.ProcessRequest(Gps.StopPositionCmd);
      } else if key == NetworkKey {
        var code := network.StopRequest();
      }
    }

    method StopUnwanted(key: Key)
      requires Valid()
      modifies gps, network
      ensures State() == old(State()).StopUnwanted(key, env)
    {
      var filled := IsListFilled(key, None, false);
      var hybridFilled := IsListFilled(HybridKey, None, false);
      if !filled && !hybridFilled {
        StopSubscription(key);
      }
    }

    /** The loop for NMEA and satellite requests; the iterator copies the list. */
    method ReplyDataToAll(key: Key) returns (nonSubscribePresent: bool)
      modifies `lists, `log
      ensures Reg() == old(Reg()).DeliverAll(key, ListOf(old(lists), key))
      ensures nonSubscribePresent <==> HasOneShot(ListOf(old(lists), key))
    {
      var iter := ListOf(lists, key);
      nonSubscribePresent := false;
      var i := 0;
      while i < |iter|
        invariant 0 <= i <= |iter|
        invariant Reg() == old(Reg()).DeliverAll(key, iter[..i])
        invariant nonSubscribePresent <==> HasOneShot(iter[..i])
      {
        assert iter[..i + 1][..i] == iter[..i];
        HasOneShotSnoc(iter[..i], iter[i]);
        assert iter[..i + 1] == iter[..i] + [iter[i]];
        LSMessageReply(iter[i], Reading);
        if !iter[i].subscription {
          LSSubscriptionRemove(key, iter[i]);
          nonSubscribePresent := true;
        }
        i := i + 1;
      }
      assert iter[..i] == iter;
    }

    method LSSubscriptionNonSubscriptionReply(key: Key)
      requires Valid()
      modifies `lists, `log, gps, network
      ensures State() == old(State()).RespondData(key, env)
    {
      var nonSubscribePresent := ReplyDataToAll(key);
      if nonSubscribePresent {
        var filled := IsListFilled(key, None, false);
        if !filled {
          StopSubscription(key);
        }
      }
    }

    /** The loop for positions, and for errors when there is no fix. */
    method ReplyToAll(key: Key, fix: Option<Fix>) returns (nonSubscribePresent: bool)
      modifies `lists, `timers, `log, `readings
      ensures Reg() == old(Reg()).ConsiderAll(key, ListOf(old(lists), key), fix, env.world)
      ensures nonSubscribePresent <==> HasOneShot(ListOf(old(lists), key))
    {
      var iter := ListOf(lists, key);
      nonSubscribePresent := false;
      var i := 0;
      while i < |iter|
        invariant 0 <= i <= |iter|
        invariant Reg() == old(Reg()).ConsiderAll(key, iter[..i], fix, env.world)
        invariant nonSubscribePresent <==> HasOneShot(iter[..i])
      {
        assert iter[..i + 1][..i] == iter[..i];
        HasOneShotSnoc(iter[..i], iter[i]);
        assert iter[..i + 1] == iter[..i] + [iter[i]];
        if !iter[i].subscription {
          nonSubscribePresent := true;
        }
        ReplyOrSkip(iter[i], key, fix);
        i := i + 1;
      }
      assert iter[..i] == iter;
    }

    method LSSubNonSubReplyLocUpdateCase(key: Key, fix: Option<Fix>)
      requires Valid()
      modifies `lists, `timers, `log, `readings, gps, network
      ensures State() == old(State()).RespondLocation(key, fix, env)
    {
      var nonSubscribePresent := ReplyToAll(key, fix);
      if nonSubscribePresent {
        if key == HybridKey {
          StopUnwanted(GpsKey);
          StopUnwanted(NetworkKey);
        } else {
          StopUnwanted(key);
        }
      }
    }

    /** The body of that loop. */
    method ReplyOrSkip(m: Message, key: Key, fix: Option<Fix>)
      modifies `lists, `timers, `log, `readings
      ensures Reg() == old(Reg()).Consider(key, m, fix, env.world)
    {
      if fix.None? {
        LSMessageReplyLocUpdateCase(m, key, Failure);
      } else {
        var currentTime := env.world.clock(readings);
        var meets := MeetsCriteria(m, fix.value);
        if meets {
          LSMessageReplyLocUpdateCase(m, key, Located(currentTime, fix.value.at, fix.value.accuracy));
        }
      }
    }

    method GetLocationUpdateReply(key: Key, fix: Option<Fix>)
      requires Valid()
      modifies `lists, `timers, `log, `readings, gps, network
      ensures State() == old(State()).RespondPosition(key, fix, env)
    {
      LSSubNonSubReplyLocUpdateCase(key, fix);
      LSSubNonSubReplyLocUpdateCase(HybridKey, fix);
      LSSubNonSubReplyLocUpdateCase(PassiveKey, fix);
    }

    /** getLocationUpdateCb, called by the network provider. */
    method GetLocationUpdateCb(report: Option<Net.Report>)
      requires Valid()
      modifies `lists, `timers, `log, `readings, gps, network
      ensures State() == old(State()).Report(report, env)
    {
      match report {
        case None =>
        case Some(ConnectionLost) =>
          if !internetAvailable {
            GetLocationUpdateReply(NetworkKey, None);
          }
        case Some(NewFix(at)) =>
          GetLocationUpdateReply(NetworkKey, Some(FixOf(at)));
      }
    }

    // Requests.

    method AddData(m: Message, key: Key, added: bool)
      requires m.api != Api.GetLocationUpdates
      modifies `lists, `log, `seen
      ensures State() == old(State()).(reg := old(Reg()).Enter(m, key, added, env.world))
    {
      seen := seen + {m};
      if added {
        lists := lists[key := ListOf(lists, key) + [m]];
      } else if m.api == Api.GetNmeaData {
        LSMessageReply(m, Refused);
      }
    }

    method RefuseIf(refused: bool, m: Message)
      modifies `log, `seen
      ensures State() == old(State()).RefuseIf(refused, m)
    {
      if refused {
        Refuse(m);
      }
    }

    method StartData(m: Message, cmd: Gps.Command)
      requires Valid()
      modifies `log, `seen, gps
      ensures State() == old(State()).StartData(m, cmd, env)
    {
      var code := gps.ProcessRequest(cmd);
      RefuseIf(code != Gps.NoError && code != Gps.DuplicateRequest, m);
    }

    /** The part common to getNmeaData and getGpsSatelliteData. */
    method GetData(m: Message, key: Key, cmd: Gps.Command, added: bool)
      requires Valid() && m.api != Api.GetLocationUpdates
      modifies `lists, `log, `seen, gps
      ensures State() == old(State()).GetData(m, key, cmd, added, env)
    {
      if !gpsStatus {
        Refuse(m);
        return;
      }
      AddData(m, key, added);
      if added {
        StartData(m, cmd);
      }
    }

    /** enableHandlers with enableGpsHandler and enableNwHandler, and the checks before it. */
    method EnableHandlers(m: Message) returns (key: Option<Key>, gpsBit: bool, nwBit: bool)
      ensures key.Some? <==> Accepts(m.handler, gpsStatus, nwStatus, internetAvailable)
      ensures key.Some? ==>
                key.value == match m.handler
                             case Gps => GpsKey
                             case Network => NetworkKey
                             case Passive => PassiveKey
                             case _ => HybridKey
      ensures key.Some? ==> (gpsBit <==> gpsStatus && m.handler != Handler.Network && m.handler != Handler.Passive)
      ensures key.Some? ==>
                (nwBit <==> nwStatus && internetAvailable && m.handler != Handler.Gps && m.handler != Handler.Passive)
    {
      key, gpsBit, nwBit := None, false, false;
      if !gpsStatus && !nwStatus {
        return;
      }
      if (m.handler == Handler.Gps && !gpsStatus) || (m.handler == Handler.Network && !nwStatus) {
        return;
      }
      match m.handler {
        case Unknown =>
          return;
        case Gps =>
          gpsBit := gpsStatus;
          key := Some(GpsKey);
        case Network =>
          nwBit := nwStatus && internetAvailable;
          key := if nwBit then Some(NetworkKey) else None;
        case Passive =>
          key := Some(PassiveKey);
        case _ =>
          gpsBit := gpsStatus;
          if nwStatus {
            nwBit := internetAvailable;
          }
          key := if gpsBit || nwBit then Some(HybridKey) else None;
      }
    }

    /** The entry in the request table, the timeout, and the place in the list. */
    method AddRequest(m: Message, key: Key, added: bool)
      requires m.api == Api.GetLocationUpdates
      modifies `lists, `timers, `log, `readings, `seen
      ensures Reg() == old(Reg()).Enter(m, key, added, env.world)
    {
      var requestTime := env.world.clock(readings);
      readings := readings + 1;
      var timerData := TimerData(timers.nextId, m, key);
      var timerId := 0;
      if m.responseTimeout != 0 {
        timerId := timers.nextId;
        timers := timers.(armed := timers.armed[timerId := timerData]);
      }
      timers := timers.(
        table := timers.table[m := Request(requestTime, NOWHERE, true, timerId, Some(timerData))],
        nextId := timers.nextId + 1);
      seen := seen + {m};
      if added {
        lists := lists[key := ListOf(lists, key) + [m]];
      } else {
        LSMessageReply(m, Refused);
      }
    }

    method AskNetwork(c: Circumstances) returns (code: Net.Code, report: Option<Net.Report>)
      modifies `mockUsed, network
      ensures (State(), code, report) == old(State()).AskNetwork(c)
    {
      mockUsed := mockUsed || c.mockNetwork;
      var atOnce;
      code, atOnce := network.StartRequest(c.mockNetwork, c.posted, c.readable);
      report := if atOnce.Some? then Some(Net.NewFix(atOnce.value)) else None;
    }

    method StartNetwork(m: Message, c: Circumstances)
      requires Valid()
      modifies `lists, `timers, `log, `readings, `seen, `mockUsed, gps, network
      ensures State() == old(State()).StartNetwork(m, c, env)
    {
      var code, report := AskNetwork(c);
      GetLocationUpdateCb(report);
      RefuseIf(code != Net.NoError, m);
    }

    method GetLocationUpdates(m: Message, c: Circumstances)
      requires Valid() && m.api == Api.GetLocationUpdates
      modifies `lists, `timers, `log, `readings, `seen, `mockUsed, gps, network
      ensures State() == old(State()).GetUpdates(m, c, env)
      ensures !Accepts(m.handler, gpsStatus, nwStatus, internetAvailable) ==> State() == old(State()).Refuse(m)
    {
      var key, gpsBit, nwBit := EnableHandlers(m);
      AcceptedExactly(State(), m);
      if key.None? {
        Refuse(m);
        return;
      }
      AddRequest(m, key.value, c.added);
      if c.added {
        StartHandlers(m, c, gpsBit, nwBit);
      }
    }

    /** The commands to the providers of a listed request. */
    method StartHandlers(m: Message, c: Circumstances, gpsBit: bool, nwBit: bool)
      requires Valid() && (gpsBit <==> State().StartsGps(m)) && (nwBit <==> State().StartsNetwork(m))
      modifies `lists, `timers, `log, `readings, `seen, `mockUsed, gps, network
      ensures State() == old(State()).StartHandlers(m, c, env)
    {
      if gpsBit {
        var requestError := gps.ProcessRequest(Gps.PositionCmd);
        if c.mockGps {
          return;
        }
        if requestError == Gps.NotAvailable {
          Refuse(m);
          return;
        }
      }
      if nwBit {
        StartNetwork(m, c);
      }
    }

    method GetLocRequestStopSubscription(m: Message)
      requires Valid()
      modifies gps, network
      ensures State() == old(State()).StopWithout(m, env)
    {
      var nwFilled := IsListFilled(NetworkKey, Some(m), true);
      var hybridFilled := IsListFilled(HybridKey, Some(m), true);
      if !nwFilled && !hybridFilled {
        StopSubscription(NetworkKey);
      }
      var gpsFilled := IsListFilled(GpsKey, Some(m), true);
      if !gpsFilled && !hybridFilled {
        StopSubscription(GpsKey);
      }
    }

    /** The replies and removals of _TimerCallbackLocationUpdate; the source ends. */
    method ReplyTimeout(timerId: nat)
      requires timerId in timers.armed
      modifies `lists, `timers, `log
      ensures Reg() == old(Reg()).TimeOut(timerId)
    {
      var data := timers.armed[timerId];
      LSMessageReply(data.message, TimedOut);
      if data.message in ListOf(lists, data.key) {
        LSSubscriptionRemove(data.key, data.message);
        var found := LSMessageRemoveReqList(data.message);
      }
      timers := timers.(armed := timers.armed - {timerId});
    }

    method TimerCallbackLocationUpdate(timerId: nat)
      requires Valid() && timerId in timers.armed
      modifies `lists, `timers, `log, gps, network
      ensures State() == old(State()).TimeOut(timerId, env)
    {
      var message := timers.armed[timerId].message;
      ReplyTimeout(timerId);
      GetLocRequestStopSubscription(message);
    }

    /** cancelSubscription, and then the bus drops the message from its lists. */
    method CancelSubscription(m: Message)
      requires Valid()
      modifies `lists, `timers, `cancelled, gps, network
      ensures State() == old(State()).Cancel(m, env)
    {
      if m.api == Api.GetLocationUpdates {
        GetLocRequestStopSubscription(m);
        var found := LSMessageRemoveReqList(m);
      } else {
        var filled := IsListFilled(DataKey(m), Some(m), true);
        if !filled {
          StopSubscription(DataKey(m));
        }
      }
      lists := map key | key in lists :: Without(lists[key], m);
      cancelled := cancelled + {m};
    }

    // Control.

    method Command(cmd: Gps.Command) returns (code: Gps.ErrorCode)
      requires Valid()
      modifies gps
      ensures State() == old(State()).Command(cmd, env)
      ensures code == old(gps.State()).Process(cmd, env.answers).1
    {
      code := gps.ProcessRequest(cmd);
    }

    method ResumeGpsEngine()
      requires Valid()
      modifies gps
      ensures State() == old(State()).Resume(env)
    {
      if !gpsStatus {
        return;
      }
      var nmea := IsListFilled(NmeaKey, None, false);
      var satellite := IsListFilled(SatelliteKey, None, false);
      var gpsFilled := IsListFilled(GpsKey, None, false);
      var hybrid := IsListFilled(HybridKey, None, false);
      if !nmea && !satellite && !gpsFilled && !hybrid {
        return;
      }
      if nmea {
        var code := Command(Gps.NmeaCmd);
      }
      if satellite {
        var code := Command(Gps.SatelliteCmd);
      }
      if gpsFilled || hybrid {
        var code := Command(Gps.PositionCmd);
      }
    }

    /** replyErrorToGpsNwReq for GPS. */
    method ReplyErrorToGpsReq()
      requires Valid()
      modifies `lists, `timers, `log, `readings, gps, network
      ensures State() == old(State()).RespondData(NmeaKey, env).RespondData(SatelliteKey, env).RespondLocation(GpsKey, None, env)
    {
      LSSubscriptionNonSubscriptionReply(NmeaKey);
      LSSubscriptionNonSubscriptionReply(SatelliteKey);
      LSSubNonSubReplyLocUpdateCase(GpsKey, None);
    }

    method StopGpsClients()
      requires Valid()
      modifies `lists, `timers, `log, `readings, gps, network
      ensures State() == old(State()).Command(Gps.StopGpsCmd, env).RespondData(NmeaKey, env)
                         .RespondData(SatelliteKey, env).RespondLocation(GpsKey, None, env)
    {
      var code := Command(Gps.StopGpsCmd);
      ReplyErrorToGpsReq();
    }

    method AllOff()
      requires Valid()
      modifies `lists, `timers, `log, `readings, gps, network
      ensures State() == old(State()).AllOff(env)
    {
      if !nwStatus && !gpsStatus {
        LSSubNonSubReplyLocUpdateCase(HybridKey, None);
      }
    }

    /** setState for the GPS handler. */
    method SetGpsState(on: bool)
      requires Valid()
      modifies `gpsStatus, `lists, `timers, `log, `readings, gps, network
      ensures State() == old(State()).SwitchGps(on, env)
    {
      if gpsStatus != on {
        gpsStatus := on;
        if !on {
          StopGpsClients();
        }
      }
      AllOff();
    }

    /** setState for the network handler. */
    method SetNetworkState(on: bool)
      requires Valid()
      modifies `nwStatus, `lists, `timers, `log, `readings, gps, network
      ensures State() == old(State()).SwitchNetwork(on, env)
    {
      if nwStatus != on {
        nwStatus := on;
        if !on {
          StopSubscription(NetworkKey);
          LSSubNonSubReplyLocUpdateCase(NetworkKey, None);
        }
      }
      AllOff();
    }

    /** stopGpsEngine, by exitLocation. */
    method StopGpsEngine()
      requires Valid()
      modifies gps
      ensures State() == old(State()).CommandIf(gpsStatus, Gps.StopGpsCmd, env)
    {
      if gpsStatus {
        var code := Command(Gps.StopGpsCmd);
      }
    }

    method SetMockLocationState()
      requires Valid()
      modifies gps
      ensures State() == old(State()).Toggle(env)
    {
      var started := IsListFilled(GpsKey, None, false);
      if started {
        var stopped := Command(Gps.StopGpsCmd);
        var restarted := Command(Gps.PositionCmd);
      }
    }

    /** An answer of the network server. */
    method HandleNetworkResponse(response: Net.Response, now: int)
      requires Valid()
      modifies `lists, `timers, `log, `readings, gps, network
      ensures State() == old(State()).NetworkStep(Net.Event.Response(response, now), env)
    {
      var report := network.HandleResponse(response, now);
      GetLocationUpdateCb(report);
    }

    /** The network provider's minute timer. */
    method HandleNetworkTimer()
      requires Valid()
      modifies `lists, `timers, `log, `readings, gps, network
      ensures State() == old(State()).NetworkStep(Net.UpdateTimer, env)
    {
      var query, report := network.NetworkUpdateCallback();
      GetLocationUpdateCb(report);
    }
  }
}
