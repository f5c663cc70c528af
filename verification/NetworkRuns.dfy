/** When the network provider of the service runs. */
module NetworkRuns {
  import opened Common
  import opened Subscriptions
  import opened ServiceModel
  import opened ServiceOutcomes
  import Gps = GpsProvider
  import Net = NetworkProvider

  /** Whoever is listed for the network has its provider running. */
  predicate NetworkServed(s: Service) {
    s.network.enabled && !s.network.mockRunning && (Asked(s.reg.lists, NetworkKey) ==> s.network.running)
  }

  /** A stop for a key that nobody asks for. */
  lemma StopUnwantedServes(s: Service, key: Key, env: Env)
    requires NetworkServed(s)
    ensures NetworkServed(s.StopUnwanted(key, env))
    ensures s.StopUnwanted(key, env).reg == s.reg
  {
    StopUnwantedNetwork(s, key, env);
    StopUnwantedReg(s, key, env);
  }

  lemma FewerServed(t: Service, s: Service)
    requires NetworkServed(s) && t == s.(reg := t.reg) && NoMoreAsked(t.reg.lists, s.reg.lists)
    ensures NetworkServed(t)
  {
  }

  lemma {:induction false} LoopShrinks(s: Service, key: Key, fix: Option<Fix>, env: Env)
    requires Sound(s, env) && IsLocationKey(key)
    ensures NoMoreAsked(s.reg.ConsiderAll(key, s.reg.List(key), fix, env.world).lists, s.reg.lists)
  {
    var r := s.reg.ConsiderAll(key, s.reg.List(key), fix, env.world);
    ConsiderAllKeeps(s.reg, key, s.reg.List(key), fix, env.world);
    ThinnedShrinks(r.lists, s.reg.lists, key, s.reg.List(key));
  }

  lemma {:induction false} LoopServes(s: Service, key: Key, fix: Option<Fix>, env: Env)
    requires Sound(s, env) && NetworkServed(s) && IsLocationKey(key)
    ensures NetworkServed(s.RespondLocation(key, fix, env))
  {
    var t := s.(reg := s.reg.ConsiderAll(key, s.reg.List(key), fix, env.world));
    LoopShrinks(s, key, fix, env);
    FewerServed(t, s);
    StopUnwantedServes(t, GpsKey, env);
    StopUnwantedServes(t.StopUnwanted(GpsKey, env), NetworkKey, env);
    StopUnwantedServes(t, key, env);
  }

  lemma {:induction false} PositionServes(s: Service, key: Key, fix: Option<Fix>, env: Env)
    requires Sound(s, env) && NetworkServed(s) && IsLocationKey(key)
    ensures NetworkServed(s.RespondPosition(key, fix, env))
  {
    var s1 := s.RespondLocation(key, fix, env);
    RespondLocationKeeps(s, key, fix, env);
    RespondLocationKeeps(s1, HybridKey, fix, env);
    LoopServes(s, key, fix, env);
    LoopServes(s1, HybridKey, fix, env);
    LoopServes(s1.RespondLocation(HybridKey, fix, env), PassiveKey, fix, env);
  }

  lemma {:induction false} ReportServes(s: Service, report: Option<Net.Report>, env: Env)
    requires Sound(s, env) && NetworkServed(s)
    ensures NetworkServed(s.Report(report, env))
  {
    if Said(s, report).Some? {
      PositionServes(s, NetworkKey, Said(s, report).value, env);
    }
  }

  lemma {:induction false} NetworkEventServes(s: Service, e: Net.Event, env: Env)
    requires Sound(s, env) && NetworkServed(s)
    ensures NetworkServed(s.Step(NetworkEvent(e), env))
  {
    NetworkEventStep(s, e, env);
    if !e.Process? {
      var t := s.(network := s.network.Step(e));
      NetworkMovesKeeps(s, e, env);
      NetworkStepRunning(s.network, e);
      if e.Response? {
        ResponseIs(s, e.response, e.now, env);
        ReportServes(t, s.network.Respond(e.response, e.now).1, env);
      } else if e.UpdateTimer? {
        TimerIs(s, env);
        ReportServes(t, s.network.Tick().2, env);
      } else {
        QuietIs(s, e, env);
      }
    }
  }

  /** The loops for data stop nothing of the network. */
  lemma {:induction false} DataLoopServes(s: Service, key: Key, env: Env)
    requires Sound(s, env) && NetworkServed(s) && !IsLocationKey(key)
    ensures NetworkServed(s.RespondData(key, env))
  {
    DataLoopLists(s, key, env);
  }

  lemma WithoutShrinks(s: Lists, r: Lists, m: Message)
    requires forall k: Key :: ListOf(s, k) == Without(ListOf(r, k), m)
    ensures NoMoreAsked(s, r)
  {
    forall k: Key | ListOf(s, k) != []
      ensures ListOf(r, k) != []
    {
      assert ListOf(s, k)[0] in ListOf(r, k);
    }
  }

  lemma {:induction false} CancelServes(s: Service, m: Message, env: Env)
    requires Sound(s, env) && NetworkServed(s)
    ensures NetworkServed(s.Step(CancelSubscription(m), env))
  {
    var t := s.(reg := s.reg.Cancel(m));
    CancelStep(s, m, env);
    CancelLists(s.reg, m);
    forall k: Key
      ensures s.FilledBesides(k, m) <==> ListOf(t.reg.lists, k) != []
    {
      WithoutEmpty(ListOf(s.reg.lists, k), m);
    }
    CancelIs(s, m, env);
    WithoutShrinks(t.reg.lists, s.reg.lists, m);
    FewerServed(t, s);
    StopUnwantedServes(t, NetworkKey, env);
    StopUnwantedServes(t.StopUnwanted(NetworkKey, env), GpsKey, env);
  }

  lemma {:induction false} TimeOutServes(s: Service, timerId: nat, env: Env)
    requires Sound(s, env) && NetworkServed(s) && timerId in s.reg.timers.armed
    ensures NetworkServed(s.Step(ResponseTimeout(timerId), env))
  {
    var (r, m) := (s.reg.TimeOut(timerId), s.reg.timers.armed[timerId].message);
    var t := s.(reg := r);
    TimeOutStep(s, timerId, env);
    TimeOutLists(s.reg, timerId, env.world);
    WithoutShrinks(r.lists, s.reg.lists, m);
    FewerServed(t, s);
    forall k: Key
      ensures t.FilledBesides(k, m) <==> ListOf(r.lists, k) != []
    {
      assert m !in ListOf(r.lists, k);
      assert NoDuplicates(ListOf(s.reg.lists, k));
      FilledMeansOthers(ListOf(r.lists, k), m);
    }
    StopWithoutIs(t, m, r, env);
    StopWithoutReg(t, m, env);
    StopUnwantedServes(t, NetworkKey, env);
    StopUnwantedServes(t.StopUnwanted(NetworkKey, env), GpsKey, env);
  }

  // Requests.

  lemma DataRequestServes(s: Service, m: Message, added: bool, env: Env)
    requires NetworkServed(s) && m.api != GetLocationUpdates && m !in s.reg.seen
    ensures NetworkServed(s.Step(if m.api == GetNmeaData then GetNmea(m, added) else GetSatellite(m, added), env))
  {
    DataRequestListed(s, m, added, env);
  }

  /** No mock location, and a key that can be read if one is needed. */
  predicate Plain(c: Circumstances) {
    !c.mockGps && !c.mockNetwork && c.readable
  }

  lemma GpsGrants(s: Service, m: Message, c: Circumstances, env: Env)
    requires Gps.Inv(s.gps) && StartsSucceed(env.answers)
    ensures !GpsFails(s, m, c, env)
  {
    if s.gps.enabled {
      StartApiSucceeds(s.gps, Gps.LocationUpdatesOn, env);
      Gps.StartApiEffect(s.gps, Gps.LocationUpdatesOn, env.answers);
    }
  }

  lemma {:induction false} StartNetworkServes(s: Service, m: Message, c: Circumstances, env: Env)
    requires Sound(s, env) && Asked(s.reg.lists, NetworkKey) && Plain(c)
    requires s.network.enabled && !s.network.mockRunning
    ensures NetworkServed(s.StartNetwork(m, c, env))
  {
    var (t, code, report) := s.AskNetwork(c);
    Net.StartExactly(s.network, c.mockNetwork, c.posted, c.readable);
    NetworkStartKeeps(s, c, env);
    ReportServes(t, report, env);
    RefusedListed(t.Report(report, env), code != Net.NoError, m);
  }

  /** Listed under a key of the network handler, and then asked for, or under another. */
  lemma {:induction false} StartHandlersServes(s: Service, m: Message, c: Circumstances, env: Env)
    requires Sound(s, env) && StartsSucceed(env.answers) && s.nwOn && s.online && c.added && Plain(c)
    requires m in s.reg.List(KeyOf(m.handler)) && s.network.enabled && !s.network.mockRunning
    requires !WantsNetwork(m.handler) ==> NetworkServed(s)
    ensures NetworkServed(s.StartHandlers(m, c, env))
  {
    var t := if AsksGps(s, m, c) then s.Command(Gps.PositionCmd, env) else s;
    StartHandlersIs(s, m, c, env);
    GpsAskedKeeps(s, m, c, env);
    GpsGrants(s, m, c, env);
    if AsksNetwork(s, m, c, env) {
      StartNetworkServes(t, m, c, env);
    }
  }

  lemma EnterServes(s: Service, m: Message, added: bool, env: Env)
    requires NetworkServed(s) && (!WantsNetwork(m.handler) || !added) && m.handler != Handler.Unknown
    ensures NetworkServed(s.(reg := s.reg.Enter(m, KeyOf(m.handler), added, env.world)))
  {
    EnterHeard(s.reg, m, KeyOf(m.handler), added, env.world, m);
  }

  lemma {:induction false} LocationRequestServes(s: Service, m: Message, c: Circumstances, env: Env)
    requires Sound(s, env) && StartsSucceed(env.answers) && NetworkServed(s) && s.nwOn && s.online && Plain(c)
    requires m !in s.reg.seen && m.api == GetLocationUpdates
    ensures NetworkServed(s.Step(GetLocation(m, c), env))
  {
    var e := s.(reg := s.reg.Enter(m, KeyOf(m.handler), c.added, env.world));
    LocationRequestStep(s, m, c, env);
    GetUpdatesIs(s, m, c, env);
    if m.handler != Handler.Unknown && (!WantsNetwork(m.handler) || !c.added) {
      EnterServes(s, m, c.added, env);
    }
    if c.added {
      EnterKeepsSound(s, m, KeyOf(m.handler), true, env);
      if Accepts(m.handler, s.gpsOn, s.nwOn, s.online) {
        StartHandlersServes(e, m, c, env);
      }
    }
  }

  // Runs.

  /** The events that leave the network handler on and the service online, and use no mock. */
  predicate Steady(e: Event) {
    && e != SetNetwork(false) && e != ConnectionManager(false)
    && (e.GetLocation? ==> Plain(e.c))
  }

  ghost predicate Serving(s: Service, env: Env) {
    && Sound(s, env) && StartsSucceed(env.answers)
    && s.nwOn && s.online && !s.mockUsed && NetworkServed(s)
  }

  lemma GpsSwitchServes(s: Service, on: bool, env: Env)
    requires Sound(s, env) && NetworkServed(s) && s.nwOn
    ensures NetworkServed(s.Step(SetGps(on), env))
  {
    var s2 := s.(gpsOn := on).Command(Gps.StopGpsCmd, env);
    var s3 := s2.RespondData(NmeaKey, env);
    var s4 := s3.RespondData(SatelliteKey, env);
    StopAllKeeps(s.(gpsOn := on), env);
    RespondDataKeeps(s2, NmeaKey, env);
    RespondDataKeeps(s3, SatelliteKey, env);
    DataLoopServes(s2, NmeaKey, env);
    DataLoopServes(s3, SatelliteKey, env);
    LoopServes(s4, GpsKey, None, env);
    GpsSwitchedIs(s, on, env);
    GpsSwitchedHeard(s, on, env, Message(0, GetNmeaData, true, Handler.Gps, 0, 0, 0));
  }

  lemma RequestServes(s: Service, e: Event, env: Env)
    requires Serving(s, env) && Steady(e)
    requires e.GetNmea? || e.GetSatellite? || e.GetLocation? || e.CancelSubscription? || e.ResponseTimeout?
    ensures NetworkServed(s.Step(e, env))
  {
    if e.CancelSubscription? {
      CancelServes(s, e.m, env);
    } else if e.ResponseTimeout? {
      if e.timerId in s.reg.timers.armed {
        TimeOutServes(s, e.timerId, env);
      }
    } else if e.m !in s.reg.seen {
      if e.GetLocation? {
        if e.m.api == GetLocationUpdates {
          LocationRequestServes(s, e.m, e.c, env);
        }
      } else if e.m.api == (if e.GetNmea? then GetNmeaData else GetGpsSatelliteData) {
        DataRequestServes(s, e.m, e.added, env);
      }
    }
  }

  lemma {:induction false} StepServes(s: Service, e: Event, env: Env)
    requires Serving(s, env) && Steady(e)
    ensures Serving(s.Step(e, env), env)
  {
    StepKeeps(s, e, env);
    StepSwitches(s, e, env);
    if e.GpsFix? {
      FixStep(s, e.fix, env);
      PositionServes(s, GpsKey, Some(e.fix), env);
    } else if e.NetworkEvent? {
      NetworkEventServes(s, e.e, env);
    } else if e.NmeaData? || e.SatelliteData? {
      DataStep(s, env);
      DataLoopServes(s, if e.NmeaData? then NmeaKey else SatelliteKey, env);
    } else if e.SetGps? {
      GpsSwitchServes(s, e.on, env);
    } else if e.SetNetwork? {
      NetworkSwitchedIs(s, true, env);
    } else if e.GetNmea? || e.GetSatellite? || e.GetLocation? || e.CancelSubscription? || e.ResponseTimeout? {
      RequestServes(s, e, env);
    } else {
      ControlReaches(s, e, env);
    }
  }

  lemma {:induction false} SteadyRun(s: Service, events: seq<Event>, env: Env)
    requires Serving(s, env) && forall e :: e in events ==> Steady(e)
    ensures Serving(Run(s, events, env), env)
  {
    if events == [] {
    } else {
      SteadyRun(s, events[..|events| - 1], env);
      StepServes(Run(s, events[..|events| - 1], env), events[|events| - 1], env);
    }
  }

  lemma {:induction false} OnlineServes(s: Service, env: Env)
    requires Started(s) && s.nwOn && StartsSucceed(env.answers)
    ensures Serving(s.Step(ConnectionManager(true), env), env)
  {
    InitialSound(s, env);
    StepKeeps(s, ConnectionManager(true), env);
    StepSwitches(s, ConnectionManager(true), env);
    ControlReaches(s, ConnectionManager(true), env);
  }

  lemma ServingIsExact(s: Service, env: Env)
    requires Serving(s, env)
    ensures s.network.running <==> s.reg.List(NetworkKey) != [] || s.reg.List(HybridKey) != []
  {
  }

  /** From the moment the service is online: while it stays so, with the network handler on,
      HAL starts succeeding and no mock location in use, the network provider runs exactly
      while a network or hybrid request is listed. */
  lemma {:induction false} NetworkRunsExactly(s: Service, events: seq<Event>, env: Env)
    requires Started(s) && s.nwOn && StartsSucceed(env.answers)
    requires forall e :: e in events ==> Steady(e)
    ensures var t := Run(s.Step(ConnectionManager(true), env), events, env);
            t.network.running <==> t.reg.List(NetworkKey) != [] || t.reg.List(HybridKey) != []
  {
    OnlineServes(s, env);
    SteadyRun(s.Step(ConnectionManager(true), env), events, env);
    ServingIsExact(Run(s.Step(ConnectionManager(true), env), events, env), env);
  }
}
