/** What the events come to for each client of the location service: the replies it gets, its
    place in the lists, and what runs for it. A statement about every state that satisfies
    `Sound` is one about every reachable state.
 */
module ServiceOutcomes {
  import opened Common
  import opened Subscriptions
  import opened ServiceModel
  import Gps = GpsProvider
  import Net = NetworkProvider

  // Positions, errors and data.

  predicate InReach(r: Registry, key: Key, m: Message) {
    m in r.List(key) || m in r.List(HybridKey) || m in r.List(PassiveKey)
  }

  /** What `m` hears of a position or error of the handler with this key. */
  function Hears(r: Registry, key: Key, fix: Option<Fix>, world: World, m: Message): seq<ReplyKind> {
    if InReach(r, key, m) && Due(r.log, m, fix, world, ReadingFor(r, key, m))
    then [ReplyWith(fix, world.clock(ReadingFor(r, key, m)))] else []
  }

  lemma {:induction false} PositionHeard(s: Service, key: Key, fix: Option<Fix>, env: Env, m: Message)
    requires Sound(s, env) && (key == GpsKey || key == NetworkKey)
    ensures To(s.RespondPosition(key, fix, env).reg.log, m) == To(s.reg.log, m) + Hears(s.reg, key, fix, env.world, m)
  {
    PositionReaches(s, key, fix, env, m);
  }

  /** A GPS fix goes, once, to exactly the listed GPS, hybrid and passive requests to which
      it may go out, and arrives as it was found. */
  lemma {:induction false} FixReaches(s: Service, fix: Fix, env: Env, m: Message)
    requires Sound(s, env)
    ensures To(s.Step(GpsFix(fix), env).reg.log, m) ==
            To(s.reg.log, m) +
            if InReach(s.reg, GpsKey, m) && MayGoOut(s.reg.log, m, fix, env.world.clock(ReadingFor(s.reg, GpsKey, m)), env.world)
            then [Located(env.world.clock(ReadingFor(s.reg, GpsKey, m)), fix.at, fix.accuracy)]
            else []
  {
    PositionHeard(s, GpsKey, Some(fix), env, m);
    FixStep(s, fix, env);
  }

  /** Whom an event of the network provider is announced to: a valid answer that is new goes
      out as a position with its latitude, longitude, accuracy and time, a failure as an
      error unless the service is online. */
  function Announced(s: Service, e: Net.Event): Option<Option<Fix>> {
    match e
    case Response(Answer(f), now) =>
      if s.network.callback && s.network.cache.answers != [] && f != Net.Last(s.network.cache.answers)
      then Some(Some(Fix(Coordinates(f.latitude, f.longitude), now, f.accuracy))) else None
    case Response(HttpError, _) => if s.network.callback && !s.online then Some(None) else None
    case UpdateTimer => if !s.network.online && !s.online then Some(None) else None
    case _ => None
  }

  lemma {:induction false} MovedHeard(s: Service, e: Net.Event, report: Option<Net.Report>, env: Env, m: Message)
    requires Sound(s, env) && !e.Process?
    ensures To(s.(network := s.network.Step(e)).Report(report, env).reg.log, m) ==
            To(s.reg.log, m) +
            match Said(s, report) case None => [] case Some(fix) => Hears(s.reg, NetworkKey, fix, env.world, m)
  {
    NetworkMovesKeeps(s, e, env);
    ReportHeard(s.(network := s.network.Step(e)), report, env, m);
  }

  lemma {:induction false} NetworkEventReaches(s: Service, e: Net.Event, env: Env, m: Message)
    requires Sound(s, env)
    ensures To(s.Step(NetworkEvent(e), env).reg.log, m) ==
            To(s.reg.log, m) +
            match Announced(s, e) case None => [] case Some(fix) => Hears(s.reg, NetworkKey, fix, env.world, m)
  {
    NetworkEventStep(s, e, env);
    if e.Response? {
      ResponseIs(s, e.response, e.now, env);
      ResponseReport(s, e.response, e.now);
      MovedHeard(s, e, s.network.Respond(e.response, e.now).1, env, m);
    } else if e.UpdateTimer? {
      TimerIs(s, env);
      MovedHeard(s, e, s.network.Tick().2, env, m);
    } else if !e.Process? {
      QuietIs(s, e, env);
    }
  }

  lemma ResponseReport(s: Service, response: Net.Response, now: int)
    requires Net.Inv(s.network)
    ensures Said(s, s.network.Respond(response, now).1) == Announced(s, Net.Event.Response(response, now))
  {
  }

  /** What the callback passes on. */
  function Said(s: Service, report: Option<Net.Report>): Option<Option<Fix>> {
    match report
    case None => None
    case Some(ConnectionLost) => if s.online then None else Some(None)
    case Some(NewFix(at)) => Some(Some(Fix(Coordinates(at.fix.latitude, at.fix.longitude), at.time, at.fix.accuracy)))
  }

  lemma {:induction false} ReportHeard(s: Service, report: Option<Net.Report>, env: Env, m: Message)
    requires Sound(s, env)
    ensures To(s.Report(report, env).reg.log, m) ==
            To(s.reg.log, m) +
            match Said(s, report) case None => [] case Some(fix) => Hears(s.reg, NetworkKey, fix, env.world, m)
  {
    if Said(s, report).Some? {
      PositionHeard(s, NetworkKey, Said(s, report).value, env, m);
    }
  }

  /** NMEA and satellite data go, once, to exactly the requests for them; one-shot requests
      then leave. */
  lemma {:induction false} DataReaches(s: Service, key: Key, env: Env, m: Message)
    requires Sound(s, env) && !IsLocationKey(key)
    ensures var t := s.Step(if key == NmeaKey then NmeaData else SatelliteData, env);
            && To(t.reg.log, m) == To(s.reg.log, m) + (if m in s.reg.List(key) then [Reading] else [])
            && (m in t.reg.List(key) <==> m in s.reg.List(key) && m.subscription)
            && (forall k: Key :: k != key ==> t.reg.List(k) == s.reg.List(k))
  {
    var list := s.reg.List(key);
    DataStep(s, env);
    RespondDataReg(s, key, env);
    DeliverAllKeeps(s.reg, key, list, env.world);
    DeliverAllDelivers(s.reg, key, list, m);
  }

  lemma TimeOutReg(s: Service, timerId: nat, env: Env)
    requires timerId in s.reg.timers.armed
    ensures s.TimeOut(timerId, env).reg == s.reg.TimeOut(timerId)
  {
    StopWithoutReg(s.(reg := s.reg.TimeOut(timerId)), s.reg.timers.armed[timerId].message, env);
  }

  /** A response time-out is told to its request alone, which then is in no list. */
  lemma {:induction false} TimeOutReaches(s: Service, timerId: nat, env: Env, m: Message)
    requires Sound(s, env) && timerId in s.reg.timers.armed
    ensures var t := s.Step(ResponseTimeout(timerId), env);
            var timedOut := s.reg.timers.armed[timerId].message;
            && To(t.reg.log, m) == To(s.reg.log, m) + (if m == timedOut then [TimedOut] else [])
            && (forall k: Key :: t.reg.List(k) == Without(s.reg.List(k), timedOut))
  {
    var d := s.reg.timers.armed[timerId];
    TimeOutStep(s, timerId, env);
    TimeOutReg(s, timerId, env);
    TimeOutLists(s.reg, timerId, env.world);
    LogSnoc(s.reg.log, Reply(d.message, TimedOut), m);
  }

  // Requests for data.

  function DataCommand(m: Message): Gps.Command {
    if m.api == GetNmeaData then Gps.NmeaCmd else Gps.SatelliteCmd
  }

  /** What the request's own handler says to a request for data: an error if GPS is off, the
      bus fails to add an NMEA request, or the provider cannot start. */
  predicate DataRefused(s: Service, m: Message, added: bool, env: Env) {
    var code := s.gps.Process(DataCommand(m), env.answers).1;
    || !s.gpsOn
    || (!added && m.api == GetNmeaData)
    || (added && (code == Gps.NotAvailable || code == Gps.NotStarted))
  }

  lemma EnterHeard(r: Registry, m: Message, key: Key, added: bool, world: World, x: Message)
    ensures To(r.Enter(m, key, added, world).log, x) ==
            To(r.log, x) + if x == m && !added && m.api != GetGpsSatelliteData then [Refused] else []
    ensures r.Enter(m, key, added, world).List(key) == r.List(key) + if added then [m] else []
    ensures forall k: Key :: k != key ==> r.Enter(m, key, added, world).List(k) == r.List(k)
  {
    LogSnoc(r.log, Reply(m, Refused), x);
  }

  lemma StartDataHeard(s: Service, m: Message, cmd: Gps.Command, env: Env, x: Message)
    ensures var (t, code) := (s.StartData(m, cmd, env), s.gps.Process(cmd, env.answers).1);
            && To(t.reg.log, x) == To(s.reg.log, x) +
               (if x == m && code != Gps.NoError && code != Gps.DuplicateRequest then [Refused] else [])
            && t.reg.lists == s.reg.lists && t.gps == s.gps.Process(cmd, env.answers).0 && t.network == s.network
  {
    LogSnoc(s.reg.log, Reply(m, Refused), x);
  }

  lemma GetDataIs(s: Service, m: Message, added: bool, env: Env)
    requires m.api != GetLocationUpdates
    ensures var e := s.(reg := s.reg.Enter(m, DataKey(m), added, env.world));
            s.GetData(m, DataKey(m), DataCommand(m), added, env) ==
            if !s.gpsOn then s.Refuse(m) else if added then e.StartData(m, DataCommand(m), env) else e
  {
  }

  /** A request for NMEA or satellite data is listed and its API asked to start exactly if
      GPS is on and the bus adds it; ... */
  lemma {:induction false} DataRequestListed(s: Service, m: Message, added: bool, env: Env)
    requires m !in s.reg.seen && m.api != GetLocationUpdates
    ensures var t := s.Step(if m.api == GetNmeaData then GetNmea(m, added) else GetSatellite(m, added), env);
            && t.reg.List(DataKey(m)) == s.reg.List(DataKey(m)) + (if s.gpsOn && added then [m] else [])
            && (forall k: Key :: k != DataKey(m) ==> t.reg.List(k) == s.reg.List(k))
            && t.gps == (if s.gpsOn && added then s.gps.Process(DataCommand(m), env.answers).0 else s.gps)
            && t.network == s.network
  {
    var e := s.(reg := s.reg.Enter(m, DataKey(m), added, env.world));
    DataRequestStep(s, m, added, env);
    GetDataIs(s, m, added, env);
    EnterHeard(s.reg, m, DataKey(m), added, env.world, m);
    StartDataHeard(e, m, DataCommand(m), env, m);
  }

  /** ... whoever is refused, and nobody else, gets an error. */
  lemma {:induction false} DataRequestReaches(s: Service, m: Message, added: bool, env: Env, x: Message)
    requires m !in s.reg.seen && m.api != GetLocationUpdates
    ensures var t := s.Step(if m.api == GetNmeaData then GetNmea(m, added) else GetSatellite(m, added), env);
            To(t.reg.log, x) == To(s.reg.log, x) + if x == m && DataRefused(s, m, added, env) then [Refused] else []
  {
    var e := s.(reg := s.reg.Enter(m, DataKey(m), added, env.world));
    DataRequestStep(s, m, added, env);
    GetDataIs(s, m, added, env);
    EnterHeard(s.reg, m, DataKey(m), added, env.world, x);
    StartDataHeard(e, m, DataCommand(m), env, x);
    LogSnoc(s.reg.log, Reply(m, Refused), x);
  }

  // Requests for locations.

  /** The position command goes to the GPS provider. */
  predicate AsksGps(s: Service, m: Message, c: Circumstances) {
    c.added && s.gpsOn && (m.handler == Handler.Gps || m.handler == Hybrid || m.handler == Unspecified)
  }

  predicate GpsFails(s: Service, m: Message, c: Circumstances, env: Env) {
    AsksGps(s, m, c) && !c.mockGps && s.gps.Process(Gps.PositionCmd, env.answers).1 == Gps.NotAvailable
  }

  /** It goes to the network provider, unless a GPS mock location or a failure comes first. */
  predicate AsksNetwork(s: Service, m: Message, c: Circumstances, env: Env) {
    && c.added && s.nwOn && s.online
    && (m.handler == Handler.Network || m.handler == Hybrid || m.handler == Unspecified)
    && !(AsksGps(s, m, c) && c.mockGps) && !GpsFails(s, m, c, env)
  }

  /** The network provider refuses: a mock query that is not posted, or a missing key. */
  predicate NetworkRefuses(n: Net.Network, c: Circumstances) {
    || !n.enabled
    || (c.mockNetwork && !c.posted)
    || (!c.mockNetwork && !n.running && n.backend == Net.Google && !n.hasKey && !c.readable)
  }

  /** Whom the service refuses. */
  predicate LocationRefused(s: Service, m: Message, c: Circumstances, env: Env) {
    || !Accepts(m.handler, s.gpsOn, s.nwOn, s.online)
    || !c.added
    || GpsFails(s, m, c, env)
    || (AsksNetwork(s, m, c, env) && NetworkRefuses(s.network, c))
  }

  /** The last fix, if the network provider has one that is known to be the chosen server's:
      that is what a request gets at once while another one is running. */
  function LastFix(n: Net.Network, c: Circumstances): Option<Fix> {
    if !c.mockNetwork && n.enabled && n.running && n.callback && FreshFor(n.cache, n.backend) then
      var f := Net.Last(n.cache.answers);
      Some(Fix(Coordinates(f.latitude, f.longitude), Net.Last(n.cache.times), f.accuracy))
    else None
  }

  predicate FreshFor(c: Net.FixCache, chosen: Net.Backend) {
    && |c.answers| == |c.servers| > 0 && c.times != []
    && Net.Last(c.times) > 0 && Net.KeptUnder(c.answers, c.servers) == chosen
  }

  function HandedOut(s: Service, m: Message, c: Circumstances, env: Env): Option<Fix> {
    if AsksNetwork(s, m, c, env) then LastFix(s.network, c) else None
  }

  lemma StartRefused(n: Net.Network, c: Circumstances)
    ensures n.Start(c.mockNetwork, c.posted, c.readable).1 != Net.NoError <==> NetworkRefuses(n, c)
  {
    Net.StartExactly(n, c.mockNetwork, c.posted, c.readable);
  }

  lemma StartHandsOut(n: Net.Network, c: Circumstances)
    requires Net.Inv(n)
    ensures var atOnce := n.Start(c.mockNetwork, c.posted, c.readable).2;
            LastFix(n, c) == if atOnce.Some? then Some(FixOf(atOnce.value)) else None
  {
    Net.HandsOut(n, c.mockNetwork, c.posted, c.readable);
  }

  lemma AskNetworkExactly(s: Service, c: Circumstances)
    requires Net.Inv(s.network)
    ensures var (t, code, report) := s.AskNetwork(c);
            && (code != Net.NoError <==> NetworkRefuses(s.network, c))
            && Said(t, report) == (if LastFix(s.network, c).Some? then Some(LastFix(s.network, c)) else None)
            && t == s.(network := t.network, mockUsed := t.mockUsed)
  {
    StartRefused(s.network, c);
    StartHandsOut(s.network, c);
  }

  /** The last fix handed out, and the error of the request's own handler. */
  function HearsAtOnce(r: Registry, fix: Option<Fix>, world: World, x: Message): seq<ReplyKind> {
    if fix.Some? then Hears(r, NetworkKey, fix, world, x) else []
  }

  function RefusalTo(m: Message, refused: bool, x: Message): seq<ReplyKind> {
    if x == m && refused then [Refused] else []
  }

  lemma RefusedHeard(s: Service, m: Message, refused: bool, x: Message)
    ensures To(s.RefuseIf(refused, m).reg.log, x) == To(s.reg.log, x) + RefusalTo(m, refused, x)
  {
    LogSnoc(s.reg.log, Reply(m, Refused), x);
  }

  lemma {:induction false} StartNetworkHeard(s: Service, m: Message, c: Circumstances, env: Env, x: Message)
    requires Sound(s, env) && Asked(s.reg.lists, NetworkKey)
    ensures To(s.StartNetwork(m, c, env).reg.log, x) ==
            To(s.reg.log, x) + HearsAtOnce(s.reg, LastFix(s.network, c), env.world, x) +
            RefusalTo(m, NetworkRefuses(s.network, c), x)
  {
    var (t, code, report) := s.AskNetwork(c);
    AskNetworkExactly(s, c);
    NetworkStartKeeps(s, c, env);
    ReportHeard(t, report, env, x);
    RefusedHeard(t.Report(report, env), m, code != Net.NoError, x);
  }

  /** The handlers that a listed request starts. */
  lemma StartHandlersIs(s: Service, m: Message, c: Circumstances, env: Env)
    requires c.added
    ensures var t := if AsksGps(s, m, c) then s.Command(Gps.PositionCmd, env) else s;
            s.StartHandlers(m, c, env) ==
            if GpsFails(s, m, c, env) then t.Refuse(m)
            else if AsksNetwork(s, m, c, env) then t.StartNetwork(m, c, env)
            else t
  {
  }

  predicate Fails(s: Service, m: Message, c: Circumstances, env: Env) {
    GpsFails(s, m, c, env) || (AsksNetwork(s, m, c, env) && NetworkRefuses(s.network, c))
  }

  lemma GpsAskedKeeps(s: Service, m: Message, c: Circumstances, env: Env)
    requires Sound(s, env) && m in s.reg.List(KeyOf(m.handler)) && c.added
    ensures var t := if AsksGps(s, m, c) then s.Command(Gps.PositionCmd, env) else s;
            Sound(t, env) && t == s.(gps := t.gps)
  {
    if AsksGps(s, m, c) {
      StartKeeps(s, GpsKey, Gps.PositionCmd, env);
    }
  }

  /** No provider is asked, or the GPS provider fails. */
  lemma GpsOnlyHeard(s: Service, m: Message, c: Circumstances, env: Env, x: Message)
    requires c.added && !AsksNetwork(s, m, c, env)
    ensures To(s.StartHandlers(m, c, env).reg.log, x) == To(s.reg.log, x) + RefusalTo(m, GpsFails(s, m, c, env), x)
  {
    var t := if AsksGps(s, m, c) then s.Command(Gps.PositionCmd, env) else s;
    StartHandlersIs(s, m, c, env);
    RefusedHeard(t, m, GpsFails(s, m, c, env), x);
  }

  lemma {:induction false} NetworkHeard(s: Service, m: Message, c: Circumstances, env: Env, x: Message)
    requires Sound(s, env) && m in s.reg.List(KeyOf(m.handler)) && AsksNetwork(s, m, c, env)
    ensures To(s.StartHandlers(m, c, env).reg.log, x) ==
            To(s.reg.log, x) + HearsAtOnce(s.reg, LastFix(s.network, c), env.world, x) +
            RefusalTo(m, NetworkRefuses(s.network, c), x)
  {
    var t := if AsksGps(s, m, c) then s.Command(Gps.PositionCmd, env) else s;
    StartHandlersIs(s, m, c, env);
    GpsAskedKeeps(s, m, c, env);
    StartNetworkHeard(t, m, c, env, x);
  }

  lemma {:induction false} StartHandlersHeard(s: Service, m: Message, c: Circumstances, env: Env, x: Message)
    requires Sound(s, env) && m in s.reg.List(KeyOf(m.handler)) && c.added
    ensures To(s.StartHandlers(m, c, env).reg.log, x) ==
            To(s.reg.log, x) + HearsAtOnce(s.reg, HandedOut(s, m, c, env), env.world, x) +
            RefusalTo(m, Fails(s, m, c, env), x)
  {
    if AsksNetwork(s, m, c, env) {
      NetworkHeard(s, m, c, env, x);
    } else {
      GpsOnlyHeard(s, m, c, env, x);
    }
  }

  /** Only an accepted request that the bus adds asks a provider. */
  lemma NotAccepted(s: Service, m: Message, c: Circumstances, env: Env)
    requires !Accepts(m.handler, s.gpsOn, s.nwOn, s.online) || !c.added
    ensures !AsksGps(s, m, c) && !AsksNetwork(s, m, c, env)
    ensures LocationRefused(s, m, c, env)
  {
  }

  /** A request on its way to the handlers. */
  lemma GetUpdatesIs(s: Service, m: Message, c: Circumstances, env: Env)
    ensures var e := s.(reg := s.reg.Enter(m, KeyOf(m.handler), c.added, env.world));
            s.GetUpdates(m, c, env) ==
            if !Accepts(m.handler, s.gpsOn, s.nwOn, s.online) then s.Refuse(m)
            else if c.added then e.StartHandlers(m, c, env) else e
  {
    AcceptedExactly(s, m);
  }

  lemma SameCircumstances(s: Service, e: Service, m: Message, c: Circumstances, env: Env)
    requires e == s.(reg := e.reg)
    requires Accepts(m.handler, s.gpsOn, s.nwOn, s.online) && c.added
    ensures Fails(e, m, c, env) <==> LocationRefused(s, m, c, env)
    ensures HandedOut(e, m, c, env) == HandedOut(s, m, c, env)
  {
  }

  lemma {:induction false} AcceptedHeard(s: Service, m: Message, c: Circumstances, env: Env, x: Message)
    requires Sound(s, env) && m !in s.reg.seen && m.api == GetLocationUpdates
    requires Accepts(m.handler, s.gpsOn, s.nwOn, s.online) && c.added
    ensures var e := s.(reg := s.reg.Enter(m, KeyOf(m.handler), true, env.world));
            To(e.StartHandlers(m, c, env).reg.log, x) ==
            To(s.reg.log, x) + HearsAtOnce(e.reg, HandedOut(s, m, c, env), env.world, x) +
            RefusalTo(m, LocationRefused(s, m, c, env), x)
  {
    var e := s.(reg := s.reg.Enter(m, KeyOf(m.handler), true, env.world));
    EnterHeard(s.reg, m, KeyOf(m.handler), true, env.world, x);
    EnterKeepsSound(s, m, KeyOf(m.handler), true, env);
    StartHandlersHeard(e, m, c, env, x);
    SameCircumstances(s, e, m, c, env);
  }

  lemma NotListedHeard(s: Service, m: Message, c: Circumstances, env: Env, x: Message)
    requires m.api == GetLocationUpdates && (!Accepts(m.handler, s.gpsOn, s.nwOn, s.online) || !c.added)
    ensures To(s.GetUpdates(m, c, env).reg.log, x) == To(s.reg.log, x) + RefusalTo(m, true, x)
  {
    GetUpdatesIs(s, m, c, env);
    RefusedHeard(s, m, true, x);
    EnterHeard(s.reg, m, KeyOf(m.handler), c.added, env.world, x);
  }

  /** Whom the service refuses gets an error, and nobody else; and if the network provider is
      asked and has a last fix, that goes at once to the listed requests it may go out to,
      the new one among them. */
  lemma {:induction false} LocationRequestReaches(s: Service, m: Message, c: Circumstances, env: Env, x: Message)
    requires Sound(s, env) && m !in s.reg.seen && m.api == GetLocationUpdates
    ensures var (t, fix) := (s.Step(GetLocation(m, c), env), HandedOut(s, m, c, env));
            var entered := s.reg.Enter(m, KeyOf(m.handler), c.added, env.world);
            To(t.reg.log, x) ==
            To(s.reg.log, x) + HearsAtOnce(entered, fix, env.world, x) + RefusalTo(m, LocationRefused(s, m, c, env), x)
  {
    LocationRequestStep(s, m, c, env);
    GetUpdatesIs(s, m, c, env);
    if Accepts(m.handler, s.gpsOn, s.nwOn, s.online) && c.added {
      AcceptedHeard(s, m, c, env, x);
    } else {
      NotAccepted(s, m, c, env);
      NotListedHeard(s, m, c, env, x);
    }
  }

  /** The new request is itself among those: it has had no position yet. */
  lemma {:induction false} HandedOutToNew(s: Service, m: Message, c: Circumstances, env: Env)
    requires Sound(s, env) && m !in s.reg.seen && m.api == GetLocationUpdates && HandedOut(s, m, c, env).Some?
    ensures var (entered, fix) := (s.reg.Enter(m, KeyOf(m.handler), true, env.world), HandedOut(s, m, c, env));
            && InReach(entered, NetworkKey, m)
            && Hears(entered, NetworkKey, fix, env.world, m) ==
               [Located(env.world.clock(ReadingFor(entered, NetworkKey, m)), fix.value.at, fix.value.accuracy)]
  {
    EnterHeard(s.reg, m, KeyOf(m.handler), true, env.world, m);
  }

  lemma RefusedListed(s: Service, refused: bool, m: Message)
    ensures s.RefuseIf(refused, m).reg.lists == s.reg.lists && s.RefuseIf(refused, m).reg.timers == s.reg.timers
    ensures s.RefuseIf(refused, m).gps == s.gps && s.RefuseIf(refused, m).network == s.network
  {
  }

  lemma NothingHandedOut(s: Service, m: Message, c: Circumstances, env: Env)
    requires Net.Inv(s.network) && LastFix(s.network, c).None?
    ensures var t := s.StartNetwork(m, c, env);
            && t.reg.lists == s.reg.lists && t.reg.timers == s.reg.timers && t.gps == s.gps
            && t.network == s.network.Start(c.mockNetwork, c.posted, c.readable).0
  {
    var (t, code, report) := s.AskNetwork(c);
    AskNetworkExactly(s, c);
    RefusedListed(t, code != Net.NoError, m);
  }

  lemma {:induction false} StartHandlersAsks(s: Service, m: Message, c: Circumstances, env: Env)
    requires Net.Inv(s.network) && c.added && HandedOut(s, m, c, env).None?
    ensures var t := s.StartHandlers(m, c, env);
            && t.reg.lists == s.reg.lists && t.reg.timers == s.reg.timers
            && t.gps == (if AsksGps(s, m, c) then s.gps.Process(Gps.PositionCmd, env.answers).0 else s.gps)
            && t.network == (if AsksNetwork(s, m, c, env) then s.network.Start(c.mockNetwork, c.posted, c.readable).0
                             else s.network)
  {
    var t := if AsksGps(s, m, c) then s.Command(Gps.PositionCmd, env) else s;
    StartHandlersIs(s, m, c, env);
    RefusedListed(t, true, m);
    if AsksNetwork(s, m, c, env) {
      NothingHandedOut(t, m, c, env);
    }
  }

  /** Unless a last fix is handed out: an accepted request that the bus adds comes to the end
      of its list, and the providers it names are asked; any other asks nobody. */
  lemma {:induction false} LocationRequestListed(s: Service, m: Message, c: Circumstances, env: Env)
    requires Sound(s, env) && m !in s.reg.seen && m.api == GetLocationUpdates && HandedOut(s, m, c, env).None?
    ensures var (t, key) := (s.Step(GetLocation(m, c), env), KeyOf(m.handler));
            var accepted := Accepts(m.handler, s.gpsOn, s.nwOn, s.online);
            && t.reg.List(key) == s.reg.List(key) + (if accepted && c.added then [m] else [])
            && (forall k: Key :: k != key ==> t.reg.List(k) == s.reg.List(k))
            && (m in t.reg.timers.table <==> accepted)
            && t.gps == (if AsksGps(s, m, c) then s.gps.Process(Gps.PositionCmd, env.answers).0 else s.gps)
            && t.network == (if AsksNetwork(s, m, c, env) then s.network.Start(c.mockNetwork, c.posted, c.readable).0
                             else s.network)
  {
    var e := s.(reg := s.reg.Enter(m, KeyOf(m.handler), c.added, env.world));
    LocationRequestStep(s, m, c, env);
    GetUpdatesIs(s, m, c, env);
    EnterHeard(s.reg, m, KeyOf(m.handler), c.added, env.world, m);
    if Accepts(m.handler, s.gpsOn, s.nwOn, s.online) && c.added {
      SameCircumstances(s, e, m, c, env);
      StartHandlersAsks(e, m, c, env);
    } else {
      NotAccepted(s, m, c, env);
    }
  }

  lemma ThinnedKeeps(t: Service, s: Service, key: Key, fix: Option<Fix>, env: Env, k: Key, m: Message)
    requires Sound(s, env) && IsLocationKey(key) && t == s.RespondLocation(key, fix, env)
    requires m.subscription && m in s.reg.List(k)
    ensures m in t.reg.List(k)
  {
    RespondLocationReg(s, key, fix, env);
    ConsiderAllKeeps(s.reg, key, s.reg.List(key), fix, env.world);
  }

  /** A position or an error takes no subscription off its list. */
  lemma {:induction false} SubscriptionsStay(s: Service, key: Key, fix: Option<Fix>, env: Env, k: Key, m: Message)
    requires Sound(s, env) && (key == GpsKey || key == NetworkKey) && m.subscription && m in s.reg.List(k)
    ensures m in s.RespondPosition(key, fix, env).reg.List(k)
  {
    var s1 := s.RespondLocation(key, fix, env);
    var s2 := s1.RespondLocation(HybridKey, fix, env);
    RespondLocationKeeps(s, key, fix, env);
    RespondLocationKeeps(s1, HybridKey, fix, env);
    ThinnedKeeps(s1, s, key, fix, env, k, m);
    ThinnedKeeps(s2, s1, HybridKey, fix, env, k, m);
    ThinnedKeeps(s.RespondPosition(key, fix, env), s2, PassiveKey, fix, env, k, m);
  }

  lemma AnsweredLeaves(s: Service, m: Message, kind: ReplyKind, env: Env)
    requires Sound(s, env) && m.api == GetLocationUpdates && !m.subscription
    requires kind in To(s.reg.log, m) && kind != Refused
    ensures forall k: Key :: m !in s.reg.List(k)
  {
    AnsweredIfTold(s.reg.log, m, kind);
    AnsweredOnce(s.reg, env.world, m);
  }

  /** Otherwise the last fix answers it: a one-shot request is done with, a subscription is
      in its list. */
  lemma {:induction false} HandedOutListed(s: Service, m: Message, c: Circumstances, env: Env)
    requires Sound(s, env) && m !in s.reg.seen && m.api == GetLocationUpdates && HandedOut(s, m, c, env).Some?
    ensures var t := s.Step(GetLocation(m, c), env);
            && (m.subscription ==> m in t.reg.List(KeyOf(m.handler)))
            && (!m.subscription ==> forall k: Key :: m !in t.reg.List(k))
  {
    var e := s.(reg := s.reg.Enter(m, KeyOf(m.handler), true, env.world));
    LocationRequestStep(s, m, c, env);
    GetUpdatesIs(s, m, c, env);
    SameCircumstances(s, e, m, c, env);
    if m.subscription {
      EnterHeard(s.reg, m, KeyOf(m.handler), true, env.world, m);
      EnterKeepsSound(s, m, KeyOf(m.handler), true, env);
      HandedOutStays(e, m, c, env);
    } else {
      StepKeeps(s, GetLocation(m, c), env);
      LocationRequestReaches(s, m, c, env, m);
      HandedOutToNew(s, m, c, env);
      var told := Hears(e.reg, NetworkKey, HandedOut(s, m, c, env), env.world, m)[0];
      AnsweredLeaves(s.Step(GetLocation(m, c), env), m, told, env);
    }
  }

  lemma {:induction false} HandedOutStays(s: Service, m: Message, c: Circumstances, env: Env)
    requires Sound(s, env) && m in s.reg.List(KeyOf(m.handler)) && m.subscription && HandedOut(s, m, c, env).Some?
    ensures m in s.StartHandlers(m, c, env).reg.List(KeyOf(m.handler))
  {
    var t := if AsksGps(s, m, c) then s.Command(Gps.PositionCmd, env) else s;
    StartHandlersIs(s, m, c, env);
    GpsAskedKeeps(s, m, c, env);
    var (u, code, report) := t.AskNetwork(c);
    AskNetworkExactly(t, c);
    NetworkStartKeeps(t, c, env);
    SubscriptionsStay(u, NetworkKey, HandedOut(s, m, c, env), env, KeyOf(m.handler), m);
    RefusedListed(u.Report(report, env), code != Net.NoError, m);
  }

  // Cancels and switches.

  /** A cancel takes the message out of its list and says nothing to anybody. */
  lemma CancelReaches(s: Service, m: Message, env: Env, x: Message)
    ensures var t := s.Step(CancelSubscription(m), env);
            To(t.reg.log, x) == To(s.reg.log, x) && forall k: Key :: t.reg.List(k) == Without(s.reg.List(k), m)
  {
    CancelStep(s, m, env);
    StopWithoutReg(s, m, env);
    StopForReg(s, DataKey(m), env);
    CancelLists(s.reg, m);
  }

  function Told(list: seq<Message>, kind: ReplyKind, x: Message): seq<ReplyKind> {
    if x in list then [kind] else []
  }

  /** One reply loop: everybody in the list is told, and no other list changes. */
  ghost predicate LoopHeard(t: Registry, r: Registry, key: Key, kind: ReplyKind, x: Message) {
    && To(t.log, x) == To(r.log, x) + Told(r.List(key), kind, x)
    && forall k: Key :: k != key ==> t.List(k) == r.List(k)
  }

  lemma {:induction false} DataLoopHeard(s: Service, key: Key, env: Env, x: Message)
    requires Sound(s, env) && !IsLocationKey(key)
    ensures Sound(s.RespondData(key, env), env)
    ensures LoopHeard(s.RespondData(key, env).reg, s.reg, key, Reading, x)
  {
    DataLoopEffect(s, key, env);
    RespondDataReg(s, key, env);
    DeliverAllDelivers(s.reg, key, s.reg.List(key), x);
  }

  lemma {:induction false} ErrorLoopHeard(s: Service, key: Key, env: Env, x: Message)
    requires Sound(s, env) && IsLocationKey(key)
    ensures Sound(s.RespondLocation(key, None, env), env)
    ensures LoopHeard(s.RespondLocation(key, None, env).reg, s.reg, key, Failure, x)
  {
    RespondLocationKeeps(s, key, None, env);
    RespondLocationReg(s, key, None, env);
    LoopReaches(s.reg, key, None, env.world, x);
    LoopLists(s.reg, key, s.reg.List(key), None, env.world);
  }

  /** What clients hear when GPS goes off. */
  function GpsOffTold(r: Registry, x: Message): seq<ReplyKind> {
    Told(r.List(NmeaKey), Reading, x) + Told(r.List(SatelliteKey), Reading, x) + Told(r.List(GpsKey), Failure, x)
  }

  lemma LoopsHeard(t: Registry, r2: Registry, r1: Registry, r: Registry, x: Message)
    requires LoopHeard(r1, r, NmeaKey, Reading, x) && LoopHeard(r2, r1, SatelliteKey, Reading, x)
    requires LoopHeard(t, r2, GpsKey, Failure, x)
    ensures To(t.log, x) == To(r.log, x) + GpsOffTold(r, x) && t.List(HybridKey) == r.List(HybridKey)
  {
  }

  lemma {:induction false} ErrorRepliesHeard(s: Service, env: Env, x: Message)
    requires Sound(s, env)
    ensures var t := s.RespondData(NmeaKey, env).RespondData(SatelliteKey, env).RespondLocation(GpsKey, None, env);
            && Sound(t, env) && t.reg.List(HybridKey) == s.reg.List(HybridKey)
            && To(t.reg.log, x) == To(s.reg.log, x) + GpsOffTold(s.reg, x)
  {
    var s1 := s.RespondData(NmeaKey, env);
    var s2 := s1.RespondData(SatelliteKey, env);
    DataLoopHeard(s, NmeaKey, env, x);
    DataLoopHeard(s1, SatelliteKey, env, x);
    ErrorLoopHeard(s2, GpsKey, env, x);
    LoopsHeard(s2.RespondLocation(GpsKey, None, env).reg, s2.reg, s1.reg, s.reg, x);
  }

  lemma AllOffHeard(s: Service, env: Env, x: Message)
    requires Sound(s, env)
    ensures To(s.AllOff(env).reg.log, x) ==
            To(s.reg.log, x) + if !s.gpsOn && !s.nwOn then Told(s.reg.List(HybridKey), Failure, x) else []
  {
    ErrorLoopHeard(s, HybridKey, env, x);
  }

  /** The state in which the hybrid clients are looked at. */
  function GpsSwitched(s: Service, on: bool, env: Env): Service {
    var s1 := s.(gpsOn := on);
    if s.gpsOn && !on
    then s1.Command(Gps.StopGpsCmd, env).RespondData(NmeaKey, env).RespondData(SatelliteKey, env).RespondLocation(GpsKey, None, env)
    else s1
  }

  lemma {:induction false} GpsSwitchedHeard(s: Service, on: bool, env: Env, x: Message)
    requires Sound(s, env)
    ensures var t := GpsSwitched(s, on, env);
            && Sound(t, env) && t.gpsOn == on && t.nwOn == s.nwOn && t.reg.List(HybridKey) == s.reg.List(HybridKey)
            && To(t.reg.log, x) == To(s.reg.log, x) + if s.gpsOn && !on then GpsOffTold(s.reg, x) else []
  {
    StopAllKeeps(s.(gpsOn := on), env);
    ErrorRepliesHeard(s.(gpsOn := on).Command(Gps.StopGpsCmd, env), env, x);
    SwitchesKept(s, env);
  }

  lemma GpsSwitchedIs(s: Service, on: bool, env: Env)
    ensures s.Step(SetGps(on), env) == GpsSwitched(s, on, env).AllOff(env)
  {
    SwitchStep(s, on, env);
  }

  /** Switching GPS off tells every NMEA, satellite and GPS client once; with the network
      handler off as well every hybrid client. Switching it on tells nobody. */
  lemma {:induction false} SwitchGpsReaches(s: Service, on: bool, env: Env, x: Message)
    requires Sound(s, env)
    ensures To(s.Step(SetGps(on), env).reg.log, x) ==
            To(s.reg.log, x) + (if s.gpsOn && !on then GpsOffTold(s.reg, x) else []) +
            (if !on && !s.nwOn then Told(s.reg.List(HybridKey), Failure, x) else [])
  {
    GpsSwitchedHeard(s, on, env, x);
    GpsSwitchedIs(s, on, env);
    AllOffHeard(GpsSwitched(s, on, env), env, x);
  }

  function NetworkSwitched(s: Service, on: bool, env: Env): Service {
    var s1 := s.(nwOn := on);
    if s.nwOn && !on then s1.StopFor(NetworkKey, env).RespondLocation(NetworkKey, None, env) else s1
  }

  lemma {:induction false} NetworkSwitchedHeard(s: Service, on: bool, env: Env, x: Message)
    requires Sound(s, env)
    ensures var t := NetworkSwitched(s, on, env);
            && Sound(t, env) && t.nwOn == on && t.gpsOn == s.gpsOn && t.reg.List(HybridKey) == s.reg.List(HybridKey)
            && To(t.reg.log, x) == To(s.reg.log, x) + if s.nwOn && !on then Told(s.reg.List(NetworkKey), Failure, x) else []
  {
    var s1 := s.(nwOn := on);
    StopForKeeps(s1, NetworkKey, {}, env);
    assert {} - {NetworkKey} == {};
    ErrorLoopHeard(s1.StopFor(NetworkKey, env), NetworkKey, env, x);
    RespondLocationSwitches(s1.StopFor(NetworkKey, env), NetworkKey, env);
  }

  lemma NetworkSwitchedIs(s: Service, on: bool, env: Env)
    ensures s.Step(SetNetwork(on), env) == NetworkSwitched(s, on, env).AllOff(env)
  {
    SwitchStep(s, on, env);
  }

  /** The same for the network handler. */
  lemma {:induction false} SwitchNetworkReaches(s: Service, on: bool, env: Env, x: Message)
    requires Sound(s, env)
    ensures To(s.Step(SetNetwork(on), env).reg.log, x) ==
            To(s.reg.log, x) + (if s.nwOn && !on then Told(s.reg.List(NetworkKey), Failure, x) else []) +
            (if !on && !s.gpsOn then Told(s.reg.List(HybridKey), Failure, x) else [])
  {
    NetworkSwitchedHeard(s, on, env, x);
    NetworkSwitchedIs(s, on, env);
    AllOffHeard(NetworkSwitched(s, on, env), env, x);
  }

  /** The other events tell nobody anything. */
  lemma ControlReaches(s: Service, e: Event, env: Env)
    requires e.KernelResume? || e.StopGps? || e.Exit? || e.ToggleMock? || e.SetGpsParameters? || e.ConnectionManager?
    ensures s.Step(e, env).reg == s.reg && s.Step(e, env).network == s.network
  {
  }

  /** A stop by force, at exit only if GPS is on, ends all of the GPS provider, or nothing if
      the HAL refuses. */
  lemma {:induction false} ForcedStopEffect(s: Service, e: Event, env: Env)
    requires Sound(s, env) && s.gps.enabled && (e.StopGps? || e.Exit?)
    ensures var t := s.Step(e, env);
            if e.Exit? && !s.gpsOn then t == s
            else if s.gps.StopAll(env.answers).1 == Gps.NoError then GpsQuiet(t.gps)
            else t.gps.flags == s.gps.flags && t.gps.engineStarted
  {
    StopStep(s, env);
    Gps.StopAllEffect(s.gps, env.answers);
  }

  /** The HAL is told the parameters of setGPSParameters as they are. */
  lemma {:induction false} ParametersTold(s: Service, mode: int, interval: int, env: Env)
    requires Sound(s, env) && s.gps.enabled
    ensures Gps.ModeAfter(s.Step(SetGpsParameters(mode, interval), env).gps.hal) == Some((mode, interval))
  {
    ParametersStep(s, mode, interval, env);
    Gps.ParametersStep(s.gps, Gps.SetParametersCmd(mode, interval), env.answers);
  }

  // The switches.

  predicate SameSwitches(t: Service, s: Service) {
    t.gpsOn == s.gpsOn && t.nwOn == s.nwOn && t.online == s.online && t.mockUsed == s.mockUsed
  }

  /** The same, but a network mock location may have been used. */
  predicate SameButMock(t: Service, s: Service, mock: bool) {
    SameSwitches(t, s.(mockUsed := t.mockUsed)) && (t.mockUsed == s.mockUsed || mock)
  }

  lemma StopSame(s: Service, key: Key, env: Env)
    ensures SameSwitches(s.StopFor(key, env), s)
  {
  }

  lemma StopUnwantedSame(s: Service, key: Key, env: Env)
    ensures SameSwitches(s.StopUnwanted(key, env), s)
  {
    StopSame(s, key, env);
  }

  lemma StopWithoutSame(s: Service, m: Message, env: Env)
    ensures SameSwitches(s.StopWithout(m, env), s)
  {
    StopSame(s, NetworkKey, env);
    StopSame(s, GpsKey, env);
    StopSame(s.StopFor(NetworkKey, env), GpsKey, env);
  }

  lemma RespondSame(s: Service, key: Key, fix: Option<Fix>, env: Env)
    ensures SameSwitches(s.RespondLocation(key, fix, env), s)
  {
    var t := s.(reg := s.reg.ConsiderAll(key, ListOf(s.reg.lists, key), fix, env.world));
    StopUnwantedSame(t, GpsKey, env);
    StopUnwantedSame(t.StopUnwanted(GpsKey, env), NetworkKey, env);
    StopUnwantedSame(t, key, env);
  }

  lemma RespondDataSame(s: Service, key: Key, env: Env)
    ensures SameSwitches(s.RespondData(key, env), s)
  {
    StopSame(s.(reg := s.reg.DeliverAll(key, ListOf(s.reg.lists, key))), key, env);
  }

  lemma ReportSame(s: Service, report: Option<Net.Report>, env: Env)
    ensures SameSwitches(s.Report(report, env), s)
  {
    if Said(s, report).Some? {
      PositionSame(s, NetworkKey, Said(s, report).value, env);
    }
  }

  lemma PositionSame(s: Service, key: Key, fix: Option<Fix>, env: Env)
    ensures SameSwitches(s.RespondPosition(key, fix, env), s)
  {
    var s1 := s.RespondLocation(key, fix, env);
    RespondSame(s, key, fix, env);
    RespondSame(s1, HybridKey, fix, env);
    RespondSame(s1.RespondLocation(HybridKey, fix, env), PassiveKey, fix, env);
  }

  lemma NetworkEventSame(s: Service, e: Net.Event, env: Env)
    ensures SameSwitches(s.NetworkStep(e, env), s)
  {
    var t := s.(network := s.network.Step(e));
    if e.Response? {
      ResponseIs(s, e.response, e.now, env);
      ReportSame(t, s.network.Respond(e.response, e.now).1, env);
    } else if e.UpdateTimer? {
      TimerIs(s, env);
      ReportSame(t, s.network.Tick().2, env);
    } else if !e.Process? {
      QuietIs(s, e, env);
    }
  }

  lemma StartNetworkSame(s: Service, m: Message, c: Circumstances, env: Env)
    ensures SameSwitches(s.StartNetwork(m, c, env), s.(mockUsed := s.mockUsed || c.mockNetwork))
  {
    var (t, code, report) := s.AskNetwork(c);
    ReportSame(t, report, env);
  }

  lemma LocationRequestSame(s: Service, m: Message, c: Circumstances, env: Env)
    ensures SameButMock(s.GetUpdates(m, c, env), s, c.mockNetwork)
  {
    var e := s.(reg := s.reg.Enter(m, KeyOf(m.handler), c.added, env.world));
    GetUpdatesIs(s, m, c, env);
    if c.added {
      var t := if AsksGps(e, m, c) then e.Command(Gps.PositionCmd, env) else e;
      StartHandlersIs(e, m, c, env);
      StartNetworkSame(t, m, c, env);
    }
  }

  lemma DataRequestSame(s: Service, m: Message, added: bool, env: Env)
    requires m.api != GetLocationUpdates
    ensures SameSwitches(s.GetData(m, DataKey(m), DataCommand(m), added, env), s)
  {
    GetDataIs(s, m, added, env);
  }

  lemma CancelSame(s: Service, m: Message, env: Env)
    ensures SameSwitches(s.Cancel(m, env), s)
  {
    StopWithoutSame(s, m, env);
    StopSame(s, DataKey(m), env);
  }

  lemma TimeOutSame(s: Service, timerId: nat, env: Env)
    requires timerId in s.reg.timers.armed
    ensures SameSwitches(s.TimeOut(timerId, env), s)
  {
    StopWithoutSame(s.(reg := s.reg.TimeOut(timerId)), s.reg.timers.armed[timerId].message, env);
  }

  lemma RequestSame(s: Service, e: Event, env: Env)
    requires e.GetNmea? || e.GetSatellite? || e.GetLocation? || e.CancelSubscription? || e.ResponseTimeout?
    ensures SameButMock(s.Step(e, env), s, e.GetLocation? && e.c.mockNetwork)
  {
    if e.CancelSubscription? {
      CancelStep(s, e.m, env);
      CancelSame(s, e.m, env);
    } else if e.ResponseTimeout? {
      if e.timerId in s.reg.timers.armed {
        TimeOutStep(s, e.timerId, env);
        TimeOutSame(s, e.timerId, env);
      }
    } else if e.m !in s.reg.seen {
      if e.GetLocation? {
        LocationRequestSame(s, e.m, e.c, env);
      } else if e.m.api != GetLocationUpdates {
        DataRequestSame(s, e.m, e.added, env);
      }
    }
  }

  lemma ReplySame(s: Service, e: Event, env: Env)
    requires e.NmeaData? || e.SatelliteData? || e.GpsFix? || e.NetworkEvent?
    ensures SameSwitches(s.Step(e, env), s)
  {
    if e.GpsFix? {
      FixStep(s, e.fix, env);
      PositionSame(s, GpsKey, Some(e.fix), env);
    } else if e.NetworkEvent? {
      NetworkEventStep(s, e.e, env);
      NetworkEventSame(s, e.e, env);
    } else {
      DataStep(s, env);
      RespondDataSame(s, if e.NmeaData? then NmeaKey else SatelliteKey, env);
    }
  }

  lemma AllOffSame(s: Service, env: Env)
    ensures SameSwitches(s.AllOff(env), s)
  {
    RespondSame(s, HybridKey, None, env);
  }

  lemma GpsSwitchedSame(s: Service, on: bool, env: Env)
    ensures SameSwitches(s.Step(SetGps(on), env), s.(gpsOn := on))
  {
    var s2 := s.(gpsOn := on).Command(Gps.StopGpsCmd, env);
    var s3 := s2.RespondData(NmeaKey, env);
    var s4 := s3.RespondData(SatelliteKey, env);
    RespondDataSame(s2, NmeaKey, env);
    RespondDataSame(s3, SatelliteKey, env);
    RespondSame(s4, GpsKey, None, env);
    GpsSwitchedIs(s, on, env);
    AllOffSame(GpsSwitched(s, on, env), env);
  }

  lemma NetworkSwitchedSame(s: Service, on: bool, env: Env)
    ensures SameSwitches(s.Step(SetNetwork(on), env), s.(nwOn := on))
  {
    var s2 := s.(nwOn := on).StopFor(NetworkKey, env);
    RespondSame(s2, NetworkKey, None, env);
    NetworkSwitchedIs(s, on, env);
    AllOffSame(NetworkSwitched(s, on, env), env);
  }

  lemma ControlSame(s: Service, e: Event, env: Env)
    requires e.KernelResume? || e.StopGps? || e.Exit? || e.ToggleMock? || e.SetGpsParameters? || e.ConnectionManager?
    ensures SameSwitches(s.Step(e, env), if e.ConnectionManager? then s.(online := e.on) else s)
  {
  }

  function GpsSaid(e: Event): Option<bool> {
    if e.SetGps? then Some(e.on) else None
  }

  function NetworkSaid(e: Event): Option<bool> {
    if e.SetNetwork? then Some(e.on) else None
  }

  function OnlineSaid(e: Event): Option<bool> {
    if e.ConnectionManager? then Some(e.on) else None
  }

  predicate SwitchedBy(t: Service, s: Service, e: Event) {
    && t.gpsOn == (if e.SetGps? then e.on else s.gpsOn)
    && t.nwOn == (if e.SetNetwork? then e.on else s.nwOn)
    && t.online == (if e.ConnectionManager? then e.on else s.online)
    && (t.mockUsed == s.mockUsed || (e.GetLocation? && e.c.mockNetwork))
  }

  lemma {:induction false} StepSwitches(s: Service, e: Event, env: Env)
    ensures SwitchedBy(s.Step(e, env), s, e)
  {
    if e.SetGps? {
      GpsSwitchedSame(s, e.on, env);
    } else if e.SetNetwork? {
      NetworkSwitchedSame(s, e.on, env);
    } else if e.NmeaData? || e.SatelliteData? || e.GpsFix? || e.NetworkEvent? {
      ReplySame(s, e, env);
    } else if e.GetNmea? || e.GetSatellite? || e.GetLocation? || e.CancelSubscription? || e.ResponseTimeout? {
      RequestSame(s, e, env);
    } else {
      ControlSame(s, e, env);
    }
  }

  predicate AsSaid(t: Service, s: Service, events: seq<Event>) {
    && t.gpsOn == Latest(events, GpsSaid, s.gpsOn)
    && t.nwOn == Latest(events, NetworkSaid, s.nwOn)
    && t.online == Latest(events, OnlineSaid, s.online)
  }

  /** In every run the switches are as they were last set or reported, so that a location
      request is accepted by what was said last about the handlers it names. */
  lemma {:induction false} SwitchesAsSaid(s: Service, events: seq<Event>, env: Env)
    ensures AsSaid(Run(s, events, env), s, events)
  {
    if events == [] {
    } else {
      var front, last := events[..|events| - 1], events[|events| - 1];
      SwitchesAsSaid(s, front, env);
      StepSwitches(Run(s, front, env), last, env);
      AsSaidNext(Run(s, events, env), Run(s, front, env), s, events);
    }
  }

  lemma AsSaidNext(u: Service, t: Service, s: Service, events: seq<Event>)
    requires events != [] && AsSaid(t, s, events[..|events| - 1]) && SwitchedBy(u, t, events[|events| - 1])
    ensures AsSaid(u, s, events)
  {
  }
}
