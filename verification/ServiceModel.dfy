/** The location service: the subscription registry, the GPS provider and the network
    provider, changed by requests, cancels, timeouts, positions and switches.

    The functions say what each of these does; the lemmas say what all of them keep. The
    class in module LocationService does the same by updating its fields.
 */
module ServiceModel {
  import opened Common
  import opened Subscriptions
  import Gps = GpsProvider
  import Net = NetworkProvider

  /** The wall clock, the distance function and the GNSS HAL. */
  datatype Env = Env(world: World, answers: Gps.Answers)

  /** What is outside the service when a location request comes: whether the bus adds the
      message to the list, and the mock locations and keys the providers look up. */
  datatype Circumstances = Circumstances(
    added: bool, mockGps: bool, mockNetwork: bool, posted: bool, readable: bool)

  datatype Event =
    | GetNmea(m: Message, added: bool)
    | GetSatellite(m: Message, added: bool)
    | GetLocation(m: Message, c: Circumstances)
    | NmeaData
    | SatelliteData
    | GpsFix(fix: Fix)
    | NetworkEvent(e: Net.Event)
    | ResponseTimeout(timerId: nat)
    | CancelSubscription(m: Message)
    | KernelResume
    | SetGps(on: bool)
    | SetNetwork(on: bool)
    | StopGps
    | Exit
    | ToggleMock
    | SetGpsParameters(mode: int, interval: int)
    | ConnectionManager(on: bool)

  predicate HasOneShot(ms: seq<Message>) {
    exists m :: m in ms && !m.subscription
  }

  lemma HasOneShotSnoc(ms: seq<Message>, m: Message)
    ensures HasOneShot(ms + [m]) <==> HasOneShot(ms) || !m.subscription
  {
    if !m.subscription {
      assert m in ms + [m];
    }
    if HasOneShot(ms) {
      var x :| x in ms && !x.subscription;
      assert x in ms + [m];
    }
  }

  function FixOf(at: Net.TimedFix): Fix {
    Fix(Coordinates(at.fix.latitude, at.fix.longitude), at.time, at.fix.accuracy)
  }

  /** The handlers to start for a location request. */
  predicate WantsGps(h: Handler) {
    h == Handler.Gps || h == Hybrid || h == Unspecified
  }

  predicate WantsNetwork(h: Handler) {
    h == Handler.Network || h == Hybrid || h == Unspecified
  }

  function KeyOf(h: Handler): Key {
    match h
    case Gps => GpsKey
    case Network => NetworkKey
    case Passive => PassiveKey
    case _ => HybridKey
  }

  /** The list of a request that is not for a location. */
  function DataKey(m: Message): Key {
    if m.api == GetNmeaData then NmeaKey else SatelliteKey
  }

  /** `mockUsed` is history: a network request was made while its mock was enabled. */
  datatype Service = Service(
    reg: Registry, gps: Gps.Provider, network: Net.Network,
    gpsOn: bool, nwOn: bool, online: bool, mockUsed: bool)
  {
    predicate Filled(key: Key) {
      ListOf(reg.lists, key) != []
    }

    function Command(cmd: Gps.Command, env: Env): Service {
      this.(gps := gps.Process(cmd, env.answers).0)
    }

    /** stopSubcription, stopNonSubcription. */
    function StopFor(key: Key, env: Env): Service {
      if key == NmeaKey then Command(Gps.StopNmeaCmd, env)
      else if key == SatelliteKey then Command(Gps.StopSatelliteCmd, env)
      else if key == GpsKey then Command(Gps.StopPositionCmd, env)
      else if key == NetworkKey then this.(network := network.Stop().0)
      else this
    }

    /** The stop for a location key that neither it nor the hybrid key asks for any more. */
    function StopUnwanted(key: Key, env: Env): Service {
      if !Filled(key) && !Filled(HybridKey) then StopFor(key, env) else this
    }

    /** LSSubscriptionNonSubscriptionReply. */
    function RespondData(key: Key, env: Env): Service {
      var list := ListOf(reg.lists, key);
      var s := this.(reg := reg.DeliverAll(key, list));
      if HasOneShot(list) && !s.Filled(key) then s.StopFor(key, env) else s
    }

    /** LSSubNonSubReplyLocUpdateCase; no fix stands for an error reply. */
    function RespondLocation(key: Key, fix: Option<Fix>, env: Env): Service {
      var list := ListOf(reg.lists, key);
      var s := this.(reg := reg.ConsiderAll(key, list, fix, env.world));
      if !HasOneShot(list) then s
      else if key == HybridKey then s.StopUnwanted(GpsKey, env).StopUnwanted(NetworkKey, env)
      else s.StopUnwanted(key, env)
    }

    /** getLocationUpdate_reply: the handler's own key, then hybrid, then passive. */
    function RespondPosition(key: Key, fix: Option<Fix>, env: Env): Service {
      RespondLocation(key, fix, env).RespondLocation(HybridKey, fix, env).RespondLocation(PassiveKey, fix, env)
    }

    function Report(report: Option<Net.Report>, env: Env): Service {
      match report
      case None => this
      case Some(ConnectionLost) => if online then this else RespondPosition(NetworkKey, None, env)
      case Some(NewFix(at)) => RespondPosition(NetworkKey, Some(FixOf(at)), env)
    }

    function Refuse(m: Message): Service {
      this.(reg := reg.Refuse(m))
    }

    /** getNmeaData, getGpsSatelliteData. */
    function GetData(m: Message, key: Key, cmd: Gps.Command, added: bool, env: Env): Service {
      if !gpsOn then Refuse(m)
      else
        var s := this.(reg := reg.Enter(m, key, added, env.world));
        if added then s.StartData(m, cmd, env) else s
    }

    function StartData(m: Message, cmd: Gps.Command, env: Env): Service {
      var (p, code) := gps.Process(cmd, env.answers);
      this.(gps := p).RefuseIf(code != Gps.NoError && code != Gps.DuplicateRequest, m)
    }

    function RefuseIf(refused: bool, m: Message): Service {
      if refused then Refuse(m) else this
    }

    predicate Refuses(m: Message) {
      || (!gpsOn && !nwOn)
      || (m.handler == Handler.Gps && !gpsOn) || (m.handler == Handler.Network && !nwOn)
      || m.handler == Handler.Unknown
      || (m.handler != Handler.Passive && !StartsGps(m) && !StartsNetwork(m))
    }

    predicate StartsGps(m: Message) {
      WantsGps(m.handler) && gpsOn
    }

    predicate StartsNetwork(m: Message) {
      WantsNetwork(m.handler) && nwOn && online
    }

    /** The position command to the network provider, and the last fix if it hands that out. */
    function AskNetwork(c: Circumstances): (Service, Net.Code, Option<Net.Report>) {
      var (n, code, atOnce) := network.Start(c.mockNetwork, c.posted, c.readable);
      (this.(network := n, mockUsed := mockUsed || c.mockNetwork), code,
       if atOnce.Some? then Some(Net.NewFix(atOnce.value)) else None)
    }

    function StartNetwork(m: Message, c: Circumstances, env: Env): Service {
      var (s, code, report) := AskNetwork(c);
      s.Report(report, env).RefuseIf(code != Net.NoError, m)
    }

    function StartHandlers(m: Message, c: Circumstances, env: Env): Service {
      if StartsGps(m) then
        var (p, code) := gps.Process(Gps.PositionCmd, env.answers);
        var s := this.(gps := p);
        if c.mockGps then s
        else if code == Gps.NotAvailable then s.Refuse(m)
        else if StartsNetwork(m) then s.StartNetwork(m, c, env)
        else s
      else if StartsNetwork(m) then StartNetwork(m, c, env)
      else this
    }

    /** getLocationUpdates. */
    function GetUpdates(m: Message, c: Circumstances, env: Env): Service {
      if Refuses(m) then Refuse(m)
      else
        var s := this.(reg := reg.Enter(m, KeyOf(m.handler), c.added, env.world));
        if c.added then s.StartHandlers(m, c, env) else s
    }

    predicate FilledBesides(key: Key, m: Message) {
      IsListFilled(ListOf(reg.lists, key), Some(m), true)
    }

    /** getLocRequestStopSubscription: stop what only `m` has wanted. */
    function StopWithout(m: Message, env: Env): Service {
      var s := if !FilledBesides(NetworkKey, m) && !FilledBesides(HybridKey, m)
               then StopFor(NetworkKey, env) else this;
      if !FilledBesides(GpsKey, m) && !FilledBesides(HybridKey, m) then s.StopFor(GpsKey, env) else s
    }

    function TimeOut(timerId: nat, env: Env): Service
      requires timerId in reg.timers.armed
    {
      this.(reg := reg.TimeOut(timerId)).StopWithout(reg.timers.armed[timerId].message, env)
    }

    /** cancelSubscription, and then the bus drops the message. */
    function Cancel(m: Message, env: Env): Service {
      var s := if m.api == GetLocationUpdates then StopWithout(m, env)
               else if !FilledBesides(DataKey(m), m) then StopFor(DataKey(m), env)
               else this;
      s.(reg := reg.Cancel(m))
    }

    function CommandIf(wanted: bool, cmd: Gps.Command, env: Env): Service {
      if wanted then Command(cmd, env) else this
    }

    /** resumeGpsEngine. */
    function Resume(env: Env): Service {
      if !gpsOn then this
      else CommandIf(Filled(NmeaKey), Gps.NmeaCmd, env)
           .CommandIf(Filled(SatelliteKey), Gps.SatelliteCmd, env)
           .CommandIf(Filled(GpsKey) || Filled(HybridKey), Gps.PositionCmd, env)
    }

    /** replyErrorToGpsNwReq for the hybrid handler, when both handlers are off. */
    function AllOff(env: Env): Service {
      if !gpsOn && !nwOn then RespondLocation(HybridKey, None, env) else this
    }

    function SwitchGps(on: bool, env: Env): Service {
      var s := this.(gpsOn := on);
      var t := if gpsOn && !on
               then s.Command(Gps.StopGpsCmd, env).RespondData(NmeaKey, env)
                    .RespondData(SatelliteKey, env).RespondLocation(GpsKey, None, env)
               else s;
      t.AllOff(env)
    }

    function SwitchNetwork(on: bool, env: Env): Service {
      var s := this.(nwOn := on);
      var t := if nwOn && !on then s.StopFor(NetworkKey, env).RespondLocation(NetworkKey, None, env) else s;
      t.AllOff(env)
    }

    /** enableMockLocation, disableMockLocation: the engine is restarted for the gps list. */
    function Toggle(env: Env): Service {
      if Filled(GpsKey) then Command(Gps.StopGpsCmd, env).Command(Gps.PositionCmd, env) else this
    }

    /** What the network provider does outside a request, and the report it makes. */
    ghost function NetworkStep(e: Net.Event, env: Env): Service {
      match e
      case Response(response, now) =>
        var (n, report) := network.Respond(response, now);
        this.(network := n).Report(report, env)
      case UpdateTimer =>
        var (n, _, report) := network.Tick();
        this.(network := n).Report(report, env)
      case Process(_) => this
      case _ => this.(network := network.Step(e))
    }

    ghost function Step(e: Event, env: Env): Service {
      match e
      case GetNmea(m, added) =>
        if m.api == GetNmeaData && m !in reg.seen then GetData(m, NmeaKey, Gps.NmeaCmd, added, env) else this
      case GetSatellite(m, added) =>
        if m.api == GetGpsSatelliteData && m !in reg.seen
        then GetData(m, SatelliteKey, Gps.SatelliteCmd, added, env) else this
      case GetLocation(m, c) =>
        if m.api == GetLocationUpdates && m !in reg.seen then GetUpdates(m, c, env) else this
      case NmeaData => RespondData(NmeaKey, env)
      case SatelliteData => RespondData(SatelliteKey, env)
      case GpsFix(fix) => RespondPosition(GpsKey, Some(fix), env)
      case NetworkEvent(e) => NetworkStep(e, env)
      case ResponseTimeout(id) => if id in reg.timers.armed then TimeOut(id, env) else this
      case CancelSubscription(m) => Cancel(m, env)
      case KernelResume => Resume(env)
      case SetGps(on) => SwitchGps(on, env)
      case SetNetwork(on) => SwitchNetwork(on, env)
      case StopGps => Command(Gps.StopGpsCmd, env)
      case Exit => CommandIf(gpsOn, Gps.StopGpsCmd, env)
      case ToggleMock => Toggle(env)
      case SetGpsParameters(mode, interval) => Command(Gps.SetParametersCmd(mode, interval), env)
      case ConnectionManager(on) => this.(online := on)
    }
  }

  /** A location request is accepted if a handler it names is switched on and, if that is the
      network handler, the service is online; a passive one if any handler is on. */
  predicate Accepts(h: Handler, gpsOn: bool, nwOn: bool, online: bool) {
    match h
    case Gps => gpsOn
    case Network => nwOn && online
    case Passive => gpsOn || nwOn
    case Unknown => false
    case _ => gpsOn || (nwOn && online)
  }

  lemma AcceptedExactly(s: Service, m: Message)
    ensures !s.Refuses(m) <==> Accepts(m.handler, s.gpsOn, s.nwOn, s.online)
    ensures s.StartsGps(m) <==> s.gpsOn && (m.handler == Handler.Gps || m.handler == Hybrid || m.handler == Unspecified)
    ensures s.StartsNetwork(m) <==>
              s.nwOn && s.online && (m.handler == Handler.Network || m.handler == Hybrid || m.handler == Unspecified)
  {
  }

  function Initial(halReady: bool, defaultMode: int, hasKey: bool, backend: Net.Backend, gpsOn: bool, nwOn: bool): Service {
    Service(Subscriptions.Initial(), Gps.Initial(halReady, defaultMode), Net.Initial(hasKey, backend),
            gpsOn, nwOn, false, false)
  }

  ghost function Run(s: Service, events: seq<Event>, env: Env): Service {
    if events == [] then s
    else Run(s, events[..|events| - 1], env).Step(events[|events| - 1], env)
  }

  // Each event by the function that handles it.

  lemma FixStep(s: Service, fix: Fix, env: Env)
    ensures s.Step(GpsFix(fix), env) == s.RespondPosition(GpsKey, Some(fix), env)
  {
  }

  lemma NetworkEventStep(s: Service, e: Net.Event, env: Env)
    ensures s.Step(NetworkEvent(e), env) == s.NetworkStep(e, env)
  {
  }

  lemma DataStep(s: Service, env: Env)
    ensures s.Step(NmeaData, env) == s.RespondData(NmeaKey, env)
    ensures s.Step(SatelliteData, env) == s.RespondData(SatelliteKey, env)
  {
  }

  lemma TimeOutStep(s: Service, timerId: nat, env: Env)
    requires timerId in s.reg.timers.armed
    ensures s.Step(ResponseTimeout(timerId), env) == s.TimeOut(timerId, env)
  {
  }

  lemma DataRequestStep(s: Service, m: Message, added: bool, env: Env)
    requires m !in s.reg.seen
    ensures m.api == GetNmeaData ==> s.Step(GetNmea(m, added), env) == s.GetData(m, NmeaKey, Gps.NmeaCmd, added, env)
    ensures m.api == GetGpsSatelliteData ==>
              s.Step(GetSatellite(m, added), env) == s.GetData(m, SatelliteKey, Gps.SatelliteCmd, added, env)
  {
  }

  lemma LocationRequestStep(s: Service, m: Message, c: Circumstances, env: Env)
    requires m !in s.reg.seen && m.api == GetLocationUpdates
    ensures s.Step(GetLocation(m, c), env) == s.GetUpdates(m, c, env)
  {
  }

  lemma CancelStep(s: Service, m: Message, env: Env)
    ensures s.Step(CancelSubscription(m), env) == s.Cancel(m, env)
  {
  }

  lemma SwitchStep(s: Service, on: bool, env: Env)
    ensures s.Step(SetGps(on), env) == s.SwitchGps(on, env)
    ensures s.Step(SetNetwork(on), env) == s.SwitchNetwork(on, env)
  {
  }

  lemma ResumeStep(s: Service, env: Env)
    ensures s.Step(KernelResume, env) == s.Resume(env)
  {
  }

  lemma ToggleStep(s: Service, env: Env)
    ensures s.Step(ToggleMock, env) == s.Toggle(env)
  {
  }

  lemma ParametersStep(s: Service, mode: int, interval: int, env: Env)
    ensures s.Step(SetGpsParameters(mode, interval), env) == s.Command(Gps.SetParametersCmd(mode, interval), env)
  {
  }

  lemma StopStep(s: Service, env: Env)
    ensures s.Step(StopGps, env) == s.Command(Gps.StopGpsCmd, env)
    ensures s.Step(Exit, env) == if s.gpsOn then s.Command(Gps.StopGpsCmd, env) else s
  {
  }

  // What every step keeps: nothing runs that nobody asks for.

  function FlagKey(f: Gps.Flag): Key {
    match f
    case NmeaDataOn => NmeaKey
    case SatelliteDataOn => SatelliteKey
    case LocationUpdatesOn => GpsKey
  }

  function KeyFlag(key: Key): Gps.Flag {
    if key == NmeaKey then Gps.NmeaDataOn else if key == SatelliteKey then Gps.SatelliteDataOn else Gps.LocationUpdatesOn
  }

  /** Some request is listed under `key`, or under the hybrid key if that is meant too. */
  predicate Asked(lists: Lists, key: Key) {
    ListOf(lists, key) != [] || (IsLocationKey(key) && ListOf(lists, HybridKey) != [])
  }

  /** What the GPS provider runs is asked for, but for the keys in `but`. */
  ghost predicate GpsAsked(lists: Lists, flags: set<Gps.Flag>, but: set<Key>) {
    forall f: Gps.Flag :: f in flags ==> Asked(lists, FlagKey(f)) || FlagKey(f) in but
  }

  /** So is what the network provider runs, if no mock request was ever made. */
  ghost predicate NetworkAsked(lists: Lists, n: Net.Network, mockUsed: bool, but: set<Key>) {
    !mockUsed ==>
      && !n.mockRunning
      && (n.running ==> n.enabled && (Asked(lists, NetworkKey) || NetworkKey in but))
  }

  ghost predicate Wired(s: Service, but: set<Key>) {
    && Gps.Inv(s.gps) && Net.Inv(s.network)
    && GpsAsked(s.reg.lists, s.gps.flags, but)
    && NetworkAsked(s.reg.lists, s.network, s.mockUsed, but)
  }

  ghost predicate Sound(s: Service, env: Env) {
    Inv(s.reg, env.world) && Wired(s, {})
  }

  /** A stop command for one API leaves exactly the other flags. */
  lemma {:induction false} StopFlag(p: Gps.Provider, key: Key, cmd: Gps.Command, env: Env)
    requires Gps.Inv(p)
    requires (key, cmd) in {(NmeaKey, Gps.StopNmeaCmd), (SatelliteKey, Gps.StopSatelliteCmd), (GpsKey, Gps.StopPositionCmd)}
    ensures var q := p.Process(cmd, env.answers).0;
            Gps.Inv(q) && (forall f: Gps.Flag :: f in q.flags <==> f in p.flags && FlagKey(f) != key)
  {
    if p.enabled {
      Gps.StopApiEffect(p, KeyFlag(key), env.answers);
    }
  }

  lemma StopForKeeps(s: Service, key: Key, but: set<Key>, env: Env)
    requires Wired(s, but)
    ensures Wired(s.StopFor(key, env), but - {key})
    ensures s.StopFor(key, env).reg == s.reg
  {
    if key == NmeaKey {
      StopFlag(s.gps, key, Gps.StopNmeaCmd, env);
    } else if key == SatelliteKey {
      StopFlag(s.gps, key, Gps.StopSatelliteCmd, env);
    } else if key == GpsKey {
      StopFlag(s.gps, key, Gps.StopPositionCmd, env);
    } else if key == NetworkKey {
      Net.StopKeeps(s.network);
    }
  }

  lemma {:induction false} StopUnwantedKeeps(s: Service, key: Key, but: set<Key>, env: Env)
    requires Wired(s, but) && IsLocationKey(key)
    ensures Wired(s.StopUnwanted(key, env), but - {key})
    ensures s.StopUnwanted(key, env).reg == s.reg
  {
    if !s.Filled(key) && !s.Filled(HybridKey) {
      StopForKeeps(s, key, but, env);
    }
  }

  /** A reply loop that met no one-shot request leaves every list as filled as it was. */
  lemma ThinnedFilled(s: Lists, r: Lists, key: Key, k: Key)
    requires Thinned(s, r, key, ListOf(r, key))
    requires k != key || !HasOneShot(ListOf(r, key))
    ensures ListOf(r, k) != [] ==> ListOf(s, k) != []
  {
    if k == key && ListOf(r, key) != [] {
      var m := ListOf(r, key)[0];
      assert m in ListOf(r, key) && m.subscription;
      assert m in ListOf(s, key);
    }
  }

  /** What may be unasked for when the loop over the list of `key` has removed requests. */
  function Loosened(key: Key): set<Key> {
    if key == HybridKey then {GpsKey, NetworkKey} else {key}
  }

  lemma ThinnedAsked(s: Lists, r: Lists, key: Key, k: Key)
    requires Thinned(s, r, key, ListOf(r, key)) && Asked(r, k) && k != HybridKey && k != PassiveKey
    requires HasOneShot(ListOf(r, key)) ==> k !in Loosened(key)
    ensures Asked(s, k)
  {
    ThinnedFilled(s, r, key, k);
    if IsLocationKey(k) && ListOf(r, k) == [] {
      ThinnedFilled(s, r, key, HybridKey);
    }
  }

  lemma ThinnedWired(t: Service, s: Service, key: Key)
    requires Wired(s, {}) && Thinned(t.reg.lists, s.reg.lists, key, ListOf(s.reg.lists, key))
    requires t == s.(reg := t.reg)
    ensures Wired(t, if HasOneShot(ListOf(s.reg.lists, key)) then Loosened(key) else {})
  {
    forall f: Gps.Flag | f in s.gps.flags
      ensures Asked(t.reg.lists, FlagKey(f)) ||
              (HasOneShot(ListOf(s.reg.lists, key)) && FlagKey(f) in Loosened(key))
    {
      if !HasOneShot(ListOf(s.reg.lists, key)) || FlagKey(f) !in Loosened(key) {
        ThinnedAsked(t.reg.lists, s.reg.lists, key, FlagKey(f));
      }
    }
    if Asked(s.reg.lists, NetworkKey) && (!HasOneShot(ListOf(s.reg.lists, key)) || NetworkKey !in Loosened(key)) {
      ThinnedAsked(t.reg.lists, s.reg.lists, key, NetworkKey);
    }
  }

  lemma {:induction false} RespondDataKeeps(s: Service, key: Key, env: Env)
    requires Sound(s, env) && !IsLocationKey(key)
    ensures Sound(s.RespondData(key, env), env)
  {
    var list := ListOf(s.reg.lists, key);
    var t := s.(reg := s.reg.DeliverAll(key, list));
    DeliverAllKeeps(s.reg, key, list, env.world);
    ThinnedWired(t, s, key);
    if HasOneShot(list) {
      if t.Filled(key) {
        WiredAgain(t, key);
      } else {
        StopForKeeps(t, key, {key}, env);
        assert {key} - {key} == {};
      }
    }
  }

  lemma WiredAgain(t: Service, key: Key)
    requires Wired(t, {key}) && t.Filled(key)
    ensures Wired(t, {})
  {
    forall f: Gps.Flag | f in t.gps.flags
      ensures Asked(t.reg.lists, FlagKey(f))
    {
      assert Asked(t.reg.lists, FlagKey(f)) || FlagKey(f) in {key};
    }
  }

  /** A reply loop for positions or errors, and the stops it ends with. */
  lemma {:induction false} RespondLocationKeeps(s: Service, key: Key, fix: Option<Fix>, env: Env)
    requires Sound(s, env) && IsLocationKey(key)
    ensures Sound(s.RespondLocation(key, fix, env), env)
    ensures s.RespondLocation(key, fix, env).reg.seen == s.reg.seen
  {
    var list := ListOf(s.reg.lists, key);
    var t := s.(reg := s.reg.ConsiderAll(key, list, fix, env.world));
    ConsiderAllKeeps(s.reg, key, list, fix, env.world);
    ThinnedWired(t, s, key);
    if HasOneShot(list) {
      if key == HybridKey {
        StopUnwantedKeeps(t, GpsKey, {GpsKey, NetworkKey}, env);
        StopUnwantedKeeps(t.StopUnwanted(GpsKey, env), NetworkKey, {GpsKey, NetworkKey} - {GpsKey}, env);
        assert {GpsKey, NetworkKey} - {GpsKey} - {NetworkKey} == {};
      } else {
        StopUnwantedKeeps(t, key, {key}, env);
        assert {key} - {key} == {};
      }
    }
  }

  lemma {:induction false} RespondPositionKeeps(s: Service, key: Key, fix: Option<Fix>, env: Env)
    requires Sound(s, env) && IsLocationKey(key)
    ensures Sound(s.RespondPosition(key, fix, env), env)
    ensures s.RespondPosition(key, fix, env).reg.seen == s.reg.seen
  {
    var s1 := s.RespondLocation(key, fix, env);
    RespondLocationKeeps(s, key, fix, env);
    RespondLocationKeeps(s1, HybridKey, fix, env);
    RespondLocationKeeps(s1.RespondLocation(HybridKey, fix, env), PassiveKey, fix, env);
  }

  lemma RefuseKeepsSound(s: Service, m: Message, env: Env)
    requires Sound(s, env)
    ensures Sound(s.Refuse(m), env)
  {
    RefuseKeeps(s.reg, m, env.world);
  }

  lemma StopAllKeeps(s: Service, env: Env)
    requires Sound(s, env)
    ensures Sound(s.Command(Gps.StopGpsCmd, env), env)
    ensures s.Command(Gps.StopGpsCmd, env).reg == s.reg
  {
    if s.gps.enabled {
      Gps.StopAllEffect(s.gps, env.answers);
    }
  }

  /** A start command for an API that is asked for. */
  lemma StartKeeps(s: Service, key: Key, cmd: Gps.Command, env: Env)
    requires Sound(s, env) && Asked(s.reg.lists, key)
    requires (key, cmd) in {(NmeaKey, Gps.NmeaCmd), (SatelliteKey, Gps.SatelliteCmd), (GpsKey, Gps.PositionCmd)}
    ensures Sound(s.Command(cmd, env), env)
  {
    if s.gps.enabled {
      Gps.StartApiEffect(s.gps, KeyFlag(key), env.answers);
    }
  }

  lemma {:induction false} EnterKeepsSound(s: Service, m: Message, key: Key, added: bool, env: Env)
    requires Sound(s, env) && m !in s.reg.seen && Serves(key, m.api)
    ensures var t := s.(reg := s.reg.Enter(m, key, added, env.world));
            Sound(t, env) && (added ==> m in ListOf(t.reg.lists, key))
  {
    var r := s.reg.Enter(m, key, added, env.world);
    EnterKeeps(s.reg, m, key, added, env.world);
    EnterEnlists(s.reg, m, key, added, env.world);
    GrownAsked(r.lists, s.reg.lists, s.gps.flags, key, m);
  }

  lemma EnterEnlists(r: Registry, m: Message, key: Key, added: bool, world: World)
    ensures Enlisted(r.Enter(m, key, added, world).lists, r.lists, key, m)
    ensures added ==> m in ListOf(r.Enter(m, key, added, world).lists, key)
  {
  }

  lemma GrownAsked(s: Lists, r: Lists, flags: set<Gps.Flag>, key: Key, m: Message)
    requires Enlisted(s, r, key, m)
    ensures GpsAsked(r, flags, {}) ==> GpsAsked(s, flags, {})
    ensures Asked(r, NetworkKey) ==> Asked(s, NetworkKey)
  {
    forall k: Key | Asked(r, k)
      ensures Asked(s, k)
    {
      assert forall x: Key :: ListOf(r, x) != [] ==> ListOf(s, x) != [];
    }
  }

  lemma {:induction false} GetDataKeeps(s: Service, m: Message, key: Key, cmd: Gps.Command, added: bool, env: Env)
    requires Sound(s, env) && m !in s.reg.seen && Serves(key, m.api)
    requires (key, cmd) in {(NmeaKey, Gps.NmeaCmd), (SatelliteKey, Gps.SatelliteCmd)}
    ensures Sound(s.GetData(m, key, cmd, added, env), env)
  {
    if !s.gpsOn {
      RefuseKeepsSound(s, m, env);
    } else {
      var t := s.(reg := s.reg.Enter(m, key, added, env.world));
      EnterKeepsSound(s, m, key, added, env);
      if added {
        StartKeeps(t, key, cmd, env);
        var u := t.Command(cmd, env);
        RefuseKeepsSound(u, m, env);
        assert t.StartData(m, cmd, env) == u || t.StartData(m, cmd, env) == u.Refuse(m);
      }
    }
  }

  lemma NetworkStartKeeps(s: Service, c: Circumstances, env: Env)
    requires Sound(s, env) && Asked(s.reg.lists, NetworkKey)
    ensures Sound(s.AskNetwork(c).0, env)
  {
    Net.StartKeeps(s.network, c.mockNetwork, c.posted, c.readable);
  }

  lemma {:induction false} StartNetworkKeeps(s: Service, m: Message, c: Circumstances, env: Env)
    requires Sound(s, env) && Asked(s.reg.lists, NetworkKey)
    ensures Sound(s.StartNetwork(m, c, env), env)
  {
    var (t, code, report) := s.AskNetwork(c);
    NetworkStartKeeps(s, c, env);
    ReportKeeps(t, report, env);
    RefuseKeepsSound(t.Report(report, env), m, env);
  }

  lemma StartHandlersKeeps(s: Service, m: Message, c: Circumstances, env: Env)
    requires Sound(s, env) && m in ListOf(s.reg.lists, KeyOf(m.handler))
    ensures Sound(s.StartHandlers(m, c, env), env)
  {
    if s.StartsGps(m) {
      var t := s.Command(Gps.PositionCmd, env);
      StartKeeps(s, GpsKey, Gps.PositionCmd, env);
      RefuseKeepsSound(t, m, env);
      if s.StartsNetwork(m) {
        StartNetworkKeeps(t, m, c, env);
      }
    } else if s.StartsNetwork(m) {
      StartNetworkKeeps(s, m, c, env);
    }
  }

  lemma {:induction false} GetUpdatesKeeps(s: Service, m: Message, c: Circumstances, env: Env)
    requires Sound(s, env) && m !in s.reg.seen && m.api == GetLocationUpdates
    ensures Sound(s.GetUpdates(m, c, env), env)
  {
    if s.Refuses(m) {
      RefuseKeepsSound(s, m, env);
    } else {
      var key := KeyOf(m.handler);
      EnterKeepsSound(s, m, key, c.added, env);
      if c.added {
        StartHandlersKeeps(s.(reg := s.reg.Enter(m, key, true, env.world)), m, c, env);
      }
    }
  }

  /** Stopping what only `m` has wanted is stopping what nobody wants without it: cancel
      looks at the lists before `m` leaves them, and only at their first places. */
  lemma StopWithoutIs(s: Service, m: Message, r: Registry, env: Env)
    requires forall k: Key :: IsLocationKey(k) ==> (s.FilledBesides(k, m) <==> ListOf(r.lists, k) != [])
    ensures s.StopWithout(m, env).(reg := r) ==
            s.(reg := r).StopUnwanted(NetworkKey, env).StopUnwanted(GpsKey, env)
  {
    var t := if !s.FilledBesides(NetworkKey, m) && !s.FilledBesides(HybridKey, m)
             then s.StopFor(NetworkKey, env) else s;
    StopForCommutes(s, NetworkKey, r, env);
    StopForCommutes(t, GpsKey, r, env);
  }

  lemma StopForCommutes(s: Service, key: Key, r: Registry, env: Env)
    ensures s.StopFor(key, env).(reg := r) == s.(reg := r).StopFor(key, env)
  {
  }

  lemma WithoutEmpty(list: seq<Message>, m: Message)
    requires NoDuplicates(list)
    ensures Without(list, m) != [] <==> IsListFilled(list, Some(m), true)
  {
    FilledMeansOthers(list, m);
    if Without(list, m) != [] {
      assert Without(list, m)[0] in Without(list, m);
    }
  }

  lemma {:induction false} StopWithoutKeeps(s: Service, m: Message, r: Registry, env: Env)
    requires Wired(s.(reg := r), {GpsKey, NetworkKey})
    requires forall k: Key :: IsLocationKey(k) ==> (s.FilledBesides(k, m) <==> ListOf(r.lists, k) != [])
    ensures Wired(s.StopWithout(m, env).(reg := r), {})
  {
    StopWithoutIs(s, m, r, env);
    var t := s.(reg := r);
    StopUnwantedKeeps(t, NetworkKey, {GpsKey, NetworkKey}, env);
    StopUnwantedKeeps(t.StopUnwanted(NetworkKey, env), GpsKey, {GpsKey, NetworkKey} - {NetworkKey}, env);
    assert {GpsKey, NetworkKey} - {NetworkKey} - {GpsKey} == {};
  }

  /** `m` leaves its list: only what its own API uses may be unasked for then. */
  lemma LeavesWired(s: Service, r: Registry, m: Message, but: set<Key>)
    requires Wired(s, {}) && ListsOk(s.reg.lists, s.reg.seen)
    requires forall k: Key :: ListOf(r.lists, k) == Without(ListOf(s.reg.lists, k), m)
    requires but == if m.api == GetLocationUpdates then {GpsKey, NetworkKey}
                    else if m.api == GetNmeaData then {NmeaKey} else {SatelliteKey}
    ensures Wired(s.(reg := r), but)
  {
    forall k: Key | !Serves(k, m.api)
      ensures ListOf(r.lists, k) == ListOf(s.reg.lists, k)
    {
      assert m !in ListOf(s.reg.lists, k);
      WithoutAbsent(ListOf(s.reg.lists, k), m);
    }
    forall f: Gps.Flag | f in s.gps.flags
      ensures Asked(r.lists, FlagKey(f)) || FlagKey(f) in but
    {
      assert Asked(s.reg.lists, FlagKey(f));
    }
  }

  lemma {:induction false} CancelKeepsSound(s: Service, m: Message, env: Env)
    requires Sound(s, env)
    ensures Sound(s.Cancel(m, env), env)
  {
    var r := s.reg.Cancel(m);
    CancelKeeps(s.reg, m, env.world);
    CancelLists(s.reg, m);
    forall k: Key
      ensures s.FilledBesides(k, m) <==> ListOf(r.lists, k) != []
    {
      WithoutEmpty(ListOf(s.reg.lists, k), m);
    }
    var key := DataKey(m);
    var but := if m.api == GetLocationUpdates then {GpsKey, NetworkKey} else {key};
    LeavesWired(s, r, m, but);
    if m.api == GetLocationUpdates {
      StopWithoutKeeps(s, m, r, env);
    } else if s.FilledBesides(key, m) {
      WiredAgain(s.(reg := r), key);
    } else {
      StopForCommutes(s, key, r, env);
      StopForKeeps(s.(reg := r), key, but, env);
      assert {key} - {key} == {};
    }
  }

  /** The timer's message has left every list when the stops are decided. */
  lemma TimeOutLists(r: Registry, timerId: nat, world: World)
    requires Inv(r, world) && timerId in r.timers.armed
    ensures var (s, m) := (r.TimeOut(timerId), r.timers.armed[timerId].message);
            && m.api == GetLocationUpdates
            && forall k: Key :: ListOf(s.lists, k) == Without(ListOf(r.lists, k), m)
  {
    var (s, d) := (r.TimeOut(timerId), r.timers.armed[timerId]);
    assert ArmedOk(r.timers, timerId);
    forall k: Key
      ensures ListOf(s.lists, k) == Without(ListOf(r.lists, k), d.message)
    {
      if d.message !in ListOf(r.lists, k) {
        WithoutAbsent(ListOf(r.lists, k), d.message);
      }
    }
  }

  lemma {:induction false} TimeOutKeepsSound(s: Service, timerId: nat, env: Env)
    requires Sound(s, env) && timerId in s.reg.timers.armed
    ensures Sound(s.TimeOut(timerId, env), env)
  {
    var (r, m) := (s.reg.TimeOut(timerId), s.reg.timers.armed[timerId].message);
    var t := s.(reg := r);
    TimeOutKeeps(s.reg, timerId, env.world);
    TimeOutLists(s.reg, timerId, env.world);
    LeavesWired(s, r, m, {GpsKey, NetworkKey});
    forall k: Key
      ensures t.FilledBesides(k, m) <==> ListOf(r.lists, k) != []
    {
      assert m !in ListOf(r.lists, k);
      assert NoDuplicates(ListOf(s.reg.lists, k));
      FilledMeansOthers(ListOf(r.lists, k), m);
    }
    StopWithoutKeeps(t, m, r, env);
    StopWithoutReg(t, m, env);
  }

  lemma StopWithoutReg(s: Service, m: Message, env: Env)
    ensures s.StopWithout(m, env).reg == s.reg
  {
  }

  lemma ResumeKeeps(s: Service, env: Env)
    requires Sound(s, env)
    ensures Sound(s.Resume(env), env)
  {
    if s.gpsOn {
      var s1 := s.CommandIf(s.Filled(NmeaKey), Gps.NmeaCmd, env);
      var s2 := s1.CommandIf(s.Filled(SatelliteKey), Gps.SatelliteCmd, env);
      if s.Filled(NmeaKey) {
        StartKeeps(s, NmeaKey, Gps.NmeaCmd, env);
      }
      if s.Filled(SatelliteKey) {
        StartKeeps(s1, SatelliteKey, Gps.SatelliteCmd, env);
      }
      if s.Filled(GpsKey) || s.Filled(HybridKey) {
        StartKeeps(s2, GpsKey, Gps.PositionCmd, env);
      }
    }
  }

  lemma {:induction false} SwitchGpsKeeps(s: Service, on: bool, env: Env)
    requires Sound(s, env)
    ensures Sound(s.SwitchGps(on, env), env)
  {
    var s1 := s.(gpsOn := on);
    var s2 := s1.Command(Gps.StopGpsCmd, env);
    var s3 := s2.RespondData(NmeaKey, env);
    var s4 := s3.RespondData(SatelliteKey, env);
    var s5 := s4.RespondLocation(GpsKey, None, env);
    StopAllKeeps(s1, env);
    RespondDataKeeps(s2, NmeaKey, env);
    RespondDataKeeps(s3, SatelliteKey, env);
    RespondLocationKeeps(s4, GpsKey, None, env);
    RespondLocationKeeps(if s.gpsOn && !on then s5 else s1, HybridKey, None, env);
  }

  lemma {:induction false} SwitchNetworkKeeps(s: Service, on: bool, env: Env)
    requires Sound(s, env)
    ensures Sound(s.SwitchNetwork(on, env), env)
  {
    var s1 := s.(nwOn := on);
    var s2 := s1.StopFor(NetworkKey, env);
    var s3 := s2.RespondLocation(NetworkKey, None, env);
    StopForKeeps(s1, NetworkKey, {}, env);
    assert {} - {NetworkKey} == {};
    RespondLocationKeeps(s2, NetworkKey, None, env);
    RespondLocationKeeps(if s.nwOn && !on then s3 else s1, HybridKey, None, env);
  }

  lemma ToggleKeeps(s: Service, env: Env)
    requires Sound(s, env)
    ensures Sound(s.Toggle(env), env)
  {
    if s.Filled(GpsKey) {
      StopAllKeeps(s, env);
      StartKeeps(s.Command(Gps.StopGpsCmd, env), GpsKey, Gps.PositionCmd, env);
    }
  }

  lemma {:induction false} ReportKeeps(s: Service, report: Option<Net.Report>, env: Env)
    requires Sound(s, env)
    ensures Sound(s.Report(report, env), env)
  {
    if report.Some? {
      RespondPositionKeeps(s, NetworkKey, if report.value.NewFix? then Some(FixOf(report.value.at)) else None, env);
    }
  }

  predicate SameRunning(n: Net.Network, was: Net.Network) {
    n.running == was.running && n.mockRunning == was.mockRunning && n.enabled == was.enabled
  }

  /** Outside requests the network provider does not start or stop. */
  lemma NetworkStepRunning(n: Net.Network, e: Net.Event)
    requires !e.Process?
    ensures SameRunning(n.Step(e), n)
  {
    if e.CellData? {
      Net.TriggerEffect(n.(cellInfo := e.cell, firstCell := false));
    } else if e.WifiData? {
      Net.TriggerEffect(n.(accessPoints := Some(e.aps.GetOr(map[]))));
    } else if e.UpdateTimer? {
      Net.TriggerEffect(n);
    } else {
      StatusRunning(n, e);
    }
  }

  lemma StatusRunning(n: Net.Network, e: Net.Event)
    requires !e.Process? && !e.CellData? && !e.WifiData? && !e.UpdateTimer?
    ensures SameRunning(n.Step(e), n)
  {
  }

  lemma {:induction false} NetworkMovesKeeps(s: Service, e: Net.Event, env: Env)
    requires Sound(s, env) && !e.Process?
    ensures Sound(s.(network := s.network.Step(e)), env)
  {
    NetworkStepRunning(s.network, e);
    Net.StepKeepsInv(s.network, e);
  }

  /** The network after an answer, after the minute timer, and after other events. */
  lemma ResponseIs(s: Service, response: Net.Response, now: int, env: Env)
    ensures s.NetworkStep(Net.Event.Response(response, now), env) ==
            s.(network := s.network.Step(Net.Event.Response(response, now))).Report(s.network.Respond(response, now).1, env)
  {
  }

  lemma TimerIs(s: Service, env: Env)
    ensures s.NetworkStep(Net.UpdateTimer, env) ==
            s.(network := s.network.Step(Net.UpdateTimer)).Report(s.network.Tick().2, env)
  {
  }

  lemma QuietIs(s: Service, e: Net.Event, env: Env)
    requires !e.Response? && !e.UpdateTimer? && !e.Process?
    ensures s.NetworkStep(e, env) == s.(network := s.network.Step(e))
  {
  }

  lemma {:induction false} NetworkStepKeeps(s: Service, e: Net.Event, env: Env)
    requires Sound(s, env)
    ensures Sound(s.NetworkStep(e, env), env)
  {
    if !e.Process? {
      NetworkMovesKeeps(s, e, env);
      var t := s.(network := s.network.Step(e));
      if e.Response? {
        ResponseIs(s, e.response, e.now, env);
        ReportKeeps(t, s.network.Respond(e.response, e.now).1, env);
      } else if e.UpdateTimer? {
        TimerIs(s, env);
        ReportKeeps(t, s.network.Tick().2, env);
      } else {
        QuietIs(s, e, env);
      }
    }
  }

  lemma SetParametersKeeps(s: Service, mode: int, interval: int, env: Env)
    requires Sound(s, env)
    ensures Sound(s.Command(Gps.SetParametersCmd(mode, interval), env), env)
  {
    Gps.ProcessKeepsInv(s.gps, Gps.SetParametersCmd(mode, interval), env.answers);
  }

  lemma NewRequestKeeps(s: Service, e: Event, env: Env)
    requires Sound(s, env) && (e.GetNmea? || e.GetSatellite? || e.GetLocation?) && e.m !in s.reg.seen
    ensures Sound(s.Step(e, env), env)
  {
    if e.GetLocation? {
      if e.m.api == GetLocationUpdates {
        LocationRequestStep(s, e.m, e.c, env);
        GetUpdatesKeeps(s, e.m, e.c, env);
      }
    } else if e.GetNmea? {
      if e.m.api == GetNmeaData {
        DataRequestStep(s, e.m, e.added, env);
        GetDataKeeps(s, e.m, NmeaKey, Gps.NmeaCmd, e.added, env);
      }
    } else if e.m.api == GetGpsSatelliteData {
      DataRequestStep(s, e.m, e.added, env);
      GetDataKeeps(s, e.m, SatelliteKey, Gps.SatelliteCmd, e.added, env);
    }
  }

  lemma RequestStepKeeps(s: Service, e: Event, env: Env)
    requires Sound(s, env)
    requires e.GetNmea? || e.GetSatellite? || e.GetLocation? || e.CancelSubscription? || e.ResponseTimeout?
    ensures Sound(s.Step(e, env), env)
  {
    if e.CancelSubscription? {
      CancelStep(s, e.m, env);
      CancelKeepsSound(s, e.m, env);
    } else if e.ResponseTimeout? {
      if e.timerId in s.reg.timers.armed {
        TimeOutStep(s, e.timerId, env);
        TimeOutKeepsSound(s, e.timerId, env);
      }
    } else if e.m !in s.reg.seen {
      NewRequestKeeps(s, e, env);
    }
  }

  lemma {:induction false} ReplyStepKeeps(s: Service, e: Event, env: Env)
    requires Sound(s, env) && (e.NmeaData? || e.SatelliteData? || e.GpsFix? || e.NetworkEvent?)
    ensures Sound(s.Step(e, env), env)
  {
    if e.GpsFix? {
      FixStep(s, e.fix, env);
      RespondPositionKeeps(s, GpsKey, Some(e.fix), env);
    } else if e.NetworkEvent? {
      NetworkEventStep(s, e.e, env);
      NetworkStepKeeps(s, e.e, env);
    } else {
      DataStep(s, env);
      RespondDataKeeps(s, if e.NmeaData? then NmeaKey else SatelliteKey, env);
    }
  }

  lemma ControlStepKeeps(s: Service, e: Event, env: Env)
    requires Sound(s, env)
    requires e.KernelResume? || e.ToggleMock? || e.SetGpsParameters?
    ensures Sound(s.Step(e, env), env)
  {
    if e.KernelResume? {
      ResumeStep(s, env);
      ResumeKeeps(s, env);
    } else if e.ToggleMock? {
      ToggleStep(s, env);
      ToggleKeeps(s, env);
    } else {
      ParametersStep(s, e.mode, e.interval, env);
      SetParametersKeeps(s, e.mode, e.interval, env);
    }
  }

  lemma {:induction false} StepKeeps(s: Service, e: Event, env: Env)
    requires Sound(s, env)
    ensures Sound(s.Step(e, env), env)
  {
    if e.StopGps? || e.Exit? {
      StopStep(s, env);
      StopAllKeeps(s, env);
    } else if e.NmeaData? || e.SatelliteData? || e.GpsFix? || e.NetworkEvent? {
      ReplyStepKeeps(s, e, env);
    } else if e.SetGps? {
      SwitchStep(s, e.on, env);
      SwitchGpsKeeps(s, e.on, env);
    } else if e.SetNetwork? {
      SwitchStep(s, e.on, env);
      SwitchNetworkKeeps(s, e.on, env);
    } else if e.KernelResume? || e.ToggleMock? || e.SetGpsParameters? {
      ControlStepKeeps(s, e, env);
    } else if !e.ConnectionManager? {
      RequestStepKeeps(s, e, env);
    }
  }

  /** Whatever a service is started with. */
  ghost predicate Started(s: Service) {
    exists halReady, defaultMode, hasKey, backend, gpsOn, nwOn ::
      s == Initial(halReady, defaultMode, hasKey, backend, gpsOn, nwOn)
  }

  lemma InitialSound(s: Service, env: Env)
    requires Started(s)
    ensures Sound(s, env)
  {
    var halReady, defaultMode, hasKey, backend, gpsOn, nwOn :|
      s == Initial(halReady, defaultMode, hasKey, backend, gpsOn, nwOn);
    InitialInv(env.world);
    Gps.RunKeepsInv(halReady, defaultMode, [], env.answers);
    Net.RunKeepsInv(hasKey, backend, []);
  }

  lemma {:induction false} RunKeeps(s: Service, events: seq<Event>, env: Env)
    requires Started(s)
    ensures Sound(Run(s, events, env), env)
  {
    if events == [] {
      InitialSound(s, env);
    } else {
      RunKeeps(s, events[..|events| - 1], env);
      StepKeeps(Run(s, events[..|events| - 1], env), events[|events| - 1], env);
    }
  }

  // The main results.

  /** In every run: an API of the GPS provider runs only while a request for it is listed;
      if no HAL stop has failed the engine runs only while such a request is listed; and
      the network provider runs only for a network or hybrid request, if its mock
      location was never used. */
  lemma {:induction false} NothingRunsUnasked(s: Service, events: seq<Event>, env: Env)
    requires Started(s)
    ensures var t := Run(s, events, env);
            && (Gps.NmeaDataOn in t.gps.flags ==> t.reg.List(NmeaKey) != [])
            && (Gps.SatelliteDataOn in t.gps.flags ==> t.reg.List(SatelliteKey) != [])
            && (Gps.LocationUpdatesOn in t.gps.flags ==> t.reg.List(GpsKey) != [] || t.reg.List(HybridKey) != [])
            && (t.gps.engineStarted && Gps.NoFailedStop(t.gps.hal) ==>
                  || t.reg.List(NmeaKey) != [] || t.reg.List(SatelliteKey) != []
                  || t.reg.List(GpsKey) != [] || t.reg.List(HybridKey) != [])
            && (t.network.running && !t.mockUsed ==>
                  t.reg.List(NetworkKey) != [] || t.reg.List(HybridKey) != [])
  {
    RunKeeps(s, events, env);
    SoundMeans(Run(s, events, env), env);
  }

  lemma SoundMeans(t: Service, env: Env)
    requires Sound(t, env)
    ensures Gps.NmeaDataOn in t.gps.flags ==> t.reg.List(NmeaKey) != []
    ensures Gps.SatelliteDataOn in t.gps.flags ==> t.reg.List(SatelliteKey) != []
    ensures Gps.LocationUpdatesOn in t.gps.flags ==> t.reg.List(GpsKey) != [] || t.reg.List(HybridKey) != []
    ensures t.gps.engineStarted && Gps.NoFailedStop(t.gps.hal) ==> t.gps.flags != {}
    ensures t.network.running && !t.mockUsed ==> t.reg.List(NetworkKey) != [] || t.reg.List(HybridKey) != []
  {
    assert Asked(t.reg.lists, FlagKey(Gps.NmeaDataOn)) || Gps.NmeaDataOn !in t.gps.flags;
    assert Asked(t.reg.lists, FlagKey(Gps.SatelliteDataOn)) || Gps.SatelliteDataOn !in t.gps.flags;
    assert Asked(t.reg.lists, FlagKey(Gps.LocationUpdatesOn)) || Gps.LocationUpdatesOn !in t.gps.flags;
  }

  /** In every run each one-shot location request is answered at most once, and when it was
      accepted and is answered nothing of it is left. */
  lemma {:induction false} OneShotsAnsweredOnce(s: Service, events: seq<Event>, env: Env, m: Message)
    requires Started(s) && m.api == GetLocationUpdates && !m.subscription
    ensures var r := Run(s, events, env).reg;
            && Answers(r.log, m) <= 1
            && (Answers(r.log, m) == 1 ==>
                  && (forall key: Key :: m !in r.List(key))
                  && (forall id: nat :: id in r.timers.armed ==> r.timers.armed[id].message != m)
                  && (Reply(m, Refused) !in r.log ==> m !in r.timers.table))
  {
    RunKeeps(s, events, env);
    var r := Run(s, events, env).reg;
    if Answers(r.log, m) > 0 {
      AnsweredOnce(r, env.world, m);
    }
  }

  /** An accepted location request, neither cancelled nor answered, is never dropped. */
  lemma {:induction false} NoRequestLost(s: Service, events: seq<Event>, env: Env, m: Message)
    requires Started(s)
    requires var r := Run(s, events, env).reg; m in r.seen && Waiting(r.log, r.cancelled, m)
    ensures Listed(Run(s, events, env).reg.lists, m)
  {
    RunKeeps(s, events, env);
  }

  /** In every run the positions to a subscriber with an interval are spaced by it. */
  lemma {:induction false} PositionsSpaced(s: Service, events: seq<Event>, env: Env, m: Message, i: nat, j: nat)
    requires Started(s) && m.minInterval > 0
    requires i <= j < |Times(Run(s, events, env).reg.log, m)|
    ensures var times := Times(Run(s, events, env).reg.log, m);
            times[j] - times[i] >= (j - i) * (m.minInterval + 1)
  {
    RunKeeps(s, events, env);
    PositionsSpan(Run(s, events, env).reg.log, env.world, m, i, j);
  }

  /** A position or an error of a handler reaches, once each, exactly the requests listed
      under the handler's key, the hybrid key and the passive key that are due, each at the
      reading of the clock that its place in these lists gives it. */
  lemma PositionReaches(s: Service, key: Key, fix: Option<Fix>, env: Env, m: Message)
    requires Sound(s, env) && (key == GpsKey || key == NetworkKey)
    ensures var (r, t) := (s.reg, s.RespondPosition(key, fix, env).reg);
            && (m in r.List(key) || m in r.List(HybridKey) || m in r.List(PassiveKey) ==>
                  Reached(t, r, m, fix, env.world, ReadingFor(r, key, m)))
            && (m !in r.List(key) && m !in r.List(HybridKey) && m !in r.List(PassiveKey) ==> Untouched(t, r, m))
  {
    var s1 := s.RespondLocation(key, fix, env);
    var s2 := s1.RespondLocation(HybridKey, fix, env);
    RespondLocationReg(s, key, fix, env);
    RespondLocationReg(s1, HybridKey, fix, env);
    RespondLocationReg(s2, PassiveKey, fix, env);
    LoopsReach(s.reg, s1.reg, s2.reg, s.RespondPosition(key, fix, env).reg, key, fix, env.world, m);
  }

  lemma RespondLocationReg(s: Service, key: Key, fix: Option<Fix>, env: Env)
    ensures s.RespondLocation(key, fix, env).reg == s.reg.ConsiderAll(key, s.reg.List(key), fix, env.world)
  {
    var t := s.(reg := s.reg.ConsiderAll(key, s.reg.List(key), fix, env.world));
    StopUnwantedReg(t, GpsKey, env);
    StopUnwantedReg(t.StopUnwanted(GpsKey, env), NetworkKey, env);
    StopUnwantedReg(t, key, env);
  }

  lemma StopUnwantedReg(s: Service, key: Key, env: Env)
    ensures s.StopUnwanted(key, env).reg == s.reg
  {
  }

  /** In every run two consecutive positions to a subscriber are as far apart in time and
      place as it asked, and without a "Handler" the second is accurate or a minute late. */
  lemma PositionsRateLimited(s: Service, events: seq<Event>, env: Env, i: nat, j: nat)
    requires Started(s) && i < j < |Run(s, events, env).reg.log|
    requires var log := Run(s, events, env).reg.log;
             && log[i].to == log[j].to && log[i].kind.Located? && log[j].kind.Located?
             && forall k :: i < k < j ==> log[k].to != log[i].to || !log[k].kind.Located?
    ensures var log := Run(s, events, env).reg.log;
            MayFollow((log[i].kind.time, log[i].kind.at), log[j], env.world)
  {
    RunKeeps(s, events, env);
    RateLimited(Run(s, events, env).reg, env.world, i, j);
  }

  /** In every run a time-out reply is the first answer to its request, every armed timeout
      is owned by the table entry of its message with its live TimerData, and every TimerData
      ever made is held by an entry or deleted, and that once. */
  lemma TimeoutsAreOwned(s: Service, events: seq<Event>, env: Env)
    requires Started(s)
    ensures var r := Run(s, events, env).reg;
            && (forall i :: 0 <= i < |r.log| && r.log[i].kind == TimedOut ==> Answers(r.log[..i], r.log[i].to) == 0)
            && (forall id: nat :: id in r.timers.armed ==> ArmedOk(r.timers, id) && r.timers.armed[id].id !in r.timers.freed)
            && (forall id: nat :: 0 < id < r.timers.nextId ==> (Held(r.timers, id) <==> id !in r.timers.freed))
            && NoDuplicates(r.timers.freed)
  {
    RunKeeps(s, events, env);
    var r := Run(s, events, env).reg;
    forall i | 0 <= i < |r.log| && r.log[i].kind == TimedOut
      ensures Answers(r.log[..i], r.log[i].to) == 0
    {
      TimedOutUnanswered(r, env.world, i);
    }
    forall id: nat | id in r.timers.armed
      ensures ArmedOk(r.timers, id) && r.timers.armed[id].id !in r.timers.freed
    {
      TimersOwned(r, env.world, id);
    }
    forall id: nat | 0 < id < r.timers.nextId
      ensures Held(r.timers, id) <==> id !in r.timers.freed
    {
      FreedExactly(r, env.world, id);
    }
  }

  /** In every run a request of the table has a timeout running exactly if it asked for one
      and has had no answer yet. */
  lemma {:induction false} TimeoutsRunExactly(s: Service, events: seq<Event>, env: Env, m: Message)
    requires Started(s) && m in Run(s, events, env).reg.timers.table
    ensures var r := Run(s, events, env).reg;
            HasTimeout(r.timers, m) <==> m.responseTimeout != 0 && Answers(r.log, m) == 0
  {
    RunKeeps(s, events, env);
    TimeoutExactly(Run(s, events, env).reg, env.world, m);
  }

  /** The number of starts asked of the HAL. */
  function Starts(hal: seq<Gps.HalCall>): nat {
    if hal == [] then 0
    else Starts(hal[..|hal| - 1]) + if hal[|hal| - 1].Start? then 1 else 0
  }

  lemma StartsConcat(hal: seq<Gps.HalCall>, c: Gps.HalCall)
    ensures Starts(hal + [c]) == Starts(hal) + if c.Start? then 1 else 0
  {
    assert (hal + [c])[..|hal|] == hal;
  }

  ghost predicate StartsSucceed(answers: Gps.Answers) {
    forall n: nat :: answers(Gps.ToStart, n)
  }

  /** A start command whose HAL start succeeds: the API runs, and the HAL is asked to start
      only if the engine was off. */
  lemma StartSucceeds(p: Gps.Provider, flag: Gps.Flag, cmd: Gps.Command, env: Env)
    requires Gps.Inv(p) && p.enabled && StartsSucceed(env.answers)
    requires (flag, cmd) in {(Gps.NmeaDataOn, Gps.NmeaCmd), (Gps.SatelliteDataOn, Gps.SatelliteCmd),
                             (Gps.LocationUpdatesOn, Gps.PositionCmd)}
    ensures var q := p.Process(cmd, env.answers).0;
            && Gps.Inv(q) && q.enabled && q.engineStarted && q.flags == p.flags + {flag}
            && (flag in p.flags ==> q == p)
            && Starts(q.hal) == Starts(p.hal) + if p.engineStarted then 0 else 1
  {
    StartApiSucceeds(p, flag, env);
    assert p.Process(cmd, env.answers) == p.StartApi(flag, env.answers);
  }

  lemma StartApiSucceeds(p: Gps.Provider, flag: Gps.Flag, env: Env)
    requires Gps.Inv(p) && p.enabled && StartsSucceed(env.answers)
    ensures var q := p.StartApi(flag, env.answers).0;
            && Gps.Inv(q) && q.enabled && q.engineStarted && q.flags == p.flags + {flag}
            && (flag in p.flags ==> q == p)
            && Starts(q.hal) == Starts(p.hal) + if p.engineStarted then 0 else 1
  {
    Gps.StartApiEffect(p, flag, env.answers);
    EngineStarts(p, env);
  }

  lemma EngineStarts(p: Gps.Provider, env: Env)
    requires StartsSucceed(env.answers)
    ensures var (q, ok) := p.EngineStart(env.answers);
            ok && Starts(q.hal) == Starts(p.hal) + if p.engineStarted then 0 else 1
  {
    var told := p.PeriodicUpdates();
    StartsConcat(p.hal, Gps.SetPositionMode(p.mode, p.interval));
    StartsConcat(told.hal, Gps.Start(env.answers(Gps.ToStart, |told.hal|)));
  }

  predicate AnyAsked(lists: Lists) {
    ListOf(lists, NmeaKey) != [] || ListOf(lists, SatelliteKey) != [] || Asked(lists, GpsKey)
  }

  /** With GPS switched on, the provider enabled and HAL starts succeeding, a kernel resume
      serves every GPS-side list that is not empty and asks the HAL to start once if the
      engine was off and some list is not empty, and never otherwise. */
  lemma {:induction false} ResumeServes(s: Service, env: Env)
    requires Sound(s, env) && s.gpsOn && s.gps.enabled && StartsSucceed(env.answers)
    ensures var t := s.Resume(env);
            && (s.Filled(NmeaKey) ==> Gps.NmeaDataOn in t.gps.flags)
            && (s.Filled(SatelliteKey) ==> Gps.SatelliteDataOn in t.gps.flags)
            && (s.Filled(GpsKey) || s.Filled(HybridKey) ==> Gps.LocationUpdatesOn in t.gps.flags)
            && (AnyAsked(s.reg.lists) ==> t.gps.engineStarted)
            && Starts(t.gps.hal) == Starts(s.gps.hal) + (if AnyAsked(s.reg.lists) && !s.gps.engineStarted then 1 else 0)
            && t == s.(gps := t.gps) && t.gps.enabled
  {
    var s1 := s.CommandIf(s.Filled(NmeaKey), Gps.NmeaCmd, env);
    var s2 := s1.CommandIf(s.Filled(SatelliteKey), Gps.SatelliteCmd, env);
    if s.Filled(NmeaKey) {
      StartSucceeds(s.gps, Gps.NmeaDataOn, Gps.NmeaCmd, env);
    }
    if s.Filled(SatelliteKey) {
      StartSucceeds(s1.gps, Gps.SatelliteDataOn, Gps.SatelliteCmd, env);
    }
    if s.Filled(GpsKey) || s.Filled(HybridKey) {
      StartSucceeds(s2.gps, Gps.LocationUpdatesOn, Gps.PositionCmd, env);
    }
  }

  /** A second resume makes no HAL call and changes nothing. */
  lemma {:induction false} SecondResumeIdle(s: Service, env: Env)
    requires Sound(s, env) && s.gpsOn && s.gps.enabled && StartsSucceed(env.answers)
    ensures s.Resume(env).Resume(env) == s.Resume(env)
  {
    ResumeServes(s, env);
    ResumeIdle(s.Resume(env), env);
  }

  /** A resume that finds every filled list served. */
  lemma ResumeIdle(s: Service, env: Env)
    requires s.gps.enabled
    requires s.Filled(NmeaKey) ==> Gps.NmeaDataOn in s.gps.flags
    requires s.Filled(SatelliteKey) ==> Gps.SatelliteDataOn in s.gps.flags
    requires s.Filled(GpsKey) || s.Filled(HybridKey) ==> Gps.LocationUpdatesOn in s.gps.flags
    ensures s.Resume(env) == s
  {
  }

  /** When the last network or hybrid request is cancelled, the network provider keeps
      running exactly if a mock request was running as well. */
  lemma CancelStopsNetwork(s: Service, m: Message, env: Env)
    requires Sound(s, env) && s.network.enabled && m.api == GetLocationUpdates
    requires forall x :: x in ListOf(s.reg.lists, NetworkKey) || x in ListOf(s.reg.lists, HybridKey) ==> x == m
    ensures s.Cancel(m, env).network.running <==> s.network.running && s.network.mockRunning
  {
    forall key: Key
      ensures s.FilledBesides(key, m) <==> exists x :: x in ListOf(s.reg.lists, key) && x != m
    {
      FilledMeansOthers(ListOf(s.reg.lists, key), m);
    }
    CancelNetwork(s, m, env);
    Net.StopExactly(s.network);
  }

  lemma StopWithoutNetwork(s: Service, m: Message, env: Env)
    requires !s.FilledBesides(NetworkKey, m) && !s.FilledBesides(HybridKey, m)
    ensures s.StopWithout(m, env).network == s.network.Stop().0
  {
  }

  /** The same for the time-out of the last network or hybrid request, ... */
  lemma TimeOutStopsNetwork(s: Service, timerId: nat, env: Env)
    requires Sound(s, env) && s.network.enabled && timerId in s.reg.timers.armed
    ensures var t := s.TimeOut(timerId, env);
            !Asked(t.reg.lists, NetworkKey) ==> (t.network.running <==> s.network.running && s.network.mockRunning)
  {
    var (r, m) := (s.reg.TimeOut(timerId), s.reg.timers.armed[timerId].message);
    var t := s.(reg := r);
    StopWithoutReg(t, m, env);
    if !Asked(r.lists, NetworkKey) {
      StopWithoutNetwork(t, m, env);
      Net.StopExactly(s.network);
    }
  }

  /** ... and for the reply loop that has met a one-shot request and leaves no network and no
      hybrid request behind. */
  lemma LoopStopsNetwork(s: Service, key: Key, fix: Option<Fix>, env: Env)
    requires s.network.enabled && (key == NetworkKey || key == HybridKey) && HasOneShot(ListOf(s.reg.lists, key))
    ensures var t := s.RespondLocation(key, fix, env);
            !Asked(t.reg.lists, NetworkKey) ==> (t.network.running <==> s.network.running && s.network.mockRunning)
  {
    var t := s.(reg := s.reg.ConsiderAll(key, ListOf(s.reg.lists, key), fix, env.world));
    RespondLocationReg(s, key, fix, env);
    StopUnwantedNetwork(t, GpsKey, env);
    var u := if key == HybridKey then t.StopUnwanted(GpsKey, env) else t;
    StopUnwantedReg(t, GpsKey, env);
    StopUnwantedNetwork(u, NetworkKey, env);
    Net.StopExactly(s.network);
  }

  lemma StopUnwantedNetwork(s: Service, key: Key, env: Env)
    ensures s.StopUnwanted(key, env).network ==
            if key == NetworkKey && !s.Filled(NetworkKey) && !s.Filled(HybridKey) then s.network.Stop().0 else s.network
  {
  }

  lemma CancelNetwork(s: Service, m: Message, env: Env)
    requires m.api == GetLocationUpdates && !s.FilledBesides(NetworkKey, m) && !s.FilledBesides(HybridKey, m)
    ensures s.Cancel(m, env).network == s.network.Stop().0
  {
  }

  /** A network subscription joins; no answer of the server has come yet. */
  lemma NetworkJoin(s: Service, m: Message, c: Circumstances, env: Env)
    requires m.api == GetLocationUpdates && m.handler == Handler.Network && m !in s.reg.seen
    requires s.nwOn && s.online && s.network.enabled && s.network.backend == Net.BeaconDB
    requires s.network.cache.time == 0 && c.added && c.posted
    ensures var t := s.Step(GetLocation(m, c), env);
            && t.reg.lists == s.reg.lists[NetworkKey := s.reg.List(NetworkKey) + [m]]
            && t.reg.seen == s.reg.seen + {m}
            && t.network == (if c.mockNetwork then s.network.(mockRunning := true) else s.network.(running := true))
            && t == s.(reg := t.reg, network := t.network, mockUsed := t.mockUsed)
  {
    var t := s.(reg := s.reg.Enter(m, NetworkKey, true, env.world));
    assert s.Step(GetLocation(m, c), env) == t.StartNetwork(m, c, env);
  }

  ghost function OnlineService(env: Env): Service {
    Initial(true, 0, true, Net.BeaconDB, false, true).Step(ConnectionManager(true), env)
  }

  /** Two network subscriptions, the second made while the network mock location is enabled. */
  ghost function MockedService(m1: Message, m2: Message, env: Env): Service {
    OnlineService(env).Step(GetLocation(m1, Circumstances(true, false, false, true, true)), env)
                      .Step(GetLocation(m2, Circumstances(true, false, true, true, true)), env)
  }

  predicate TwoRequests(m1: Message, m2: Message) {
    m1 == Message(1, GetLocationUpdates, true, Handler.Network, 0, 0, 0) && m2 == m1.(id := 2)
  }

  lemma BothJoin(m1: Message, m2: Message, env: Env)
    requires TwoRequests(m1, m2)
    ensures var t := MockedService(m1, m2, env);
            && t.reg.lists == map[NetworkKey := [m1, m2]] && t.nwOn && !t.gpsOn
            && t.network.enabled && t.network.running && t.network.mockRunning
  {
    var c := Circumstances(true, false, false, true, true);
    var s := OnlineService(env);
    var s1 := s.Step(GetLocation(m1, c), env);
    NetworkJoin(s, m1, c, env);
    assert s1.reg.lists[NetworkKey] == [m1];
    NetworkJoin(s1, m2, c.(mockNetwork := true), env);
    assert s1.reg.List(NetworkKey) + [m2] == [m1, m2];
    assert s1.reg.lists == map[NetworkKey := [m1]];
  }

  /** The run that shows it: both are cancelled. */
  lemma MockLeavesNetworkRunning(m1: Message, m2: Message, env: Env)
    requires TwoRequests(m1, m2)
    ensures var t := MockedService(m1, m2, env).Step(CancelSubscription(m1), env).Step(CancelSubscription(m2), env);
            t.network.running && forall key: Key :: t.reg.List(key) == []
  {
    BothJoin(m1, m2, env);
    LastTwoLeave(MockedService(m1, m2, env), m1, m2, env);
  }

  lemma LastTwoLeave(s: Service, m1: Message, m2: Message, env: Env)
    requires m1.api == m2.api == GetLocationUpdates && m1 != m2 && s.reg.lists == map[NetworkKey := [m1, m2]]
    requires s.network.enabled && s.network.running && s.network.mockRunning
    ensures var t := s.Step(CancelSubscription(m1), env).Step(CancelSubscription(m2), env);
            t.network.running && forall key: Key :: t.reg.List(key) == []
  {
    var s1 := s.Cancel(m1, env);
    CancelLists(s.reg, m1);
    StopWithoutReg(s, m1, env);
    StopWithoutReg(s1, m2, env);
    assert [m1, m2][1..] == [m2] && [m2][1..] == [];
    assert Without([m2], m2) == [];
    WithoutAbsent([m2], m1);
    assert Without([m1, m2], m1) == [m2];
    assert ListOf(s1.reg.lists, NetworkKey) == [m2] && ListOf(s1.reg.lists, HybridKey) == [];
    assert s1.network == s.network;
    CancelLists(s1.reg, m2);
    CancelNetwork(s1, m2, env);
  }

  // The converse: while GPS stays on and HAL starts succeed, what is asked for runs.

  ghost predicate Served(lists: Lists, flags: set<Gps.Flag>) {
    forall f: Gps.Flag :: Asked(lists, FlagKey(f)) ==> f in flags
  }

  ghost predicate Tended(s: Service, env: Env) {
    && Sound(s, env) && StartsSucceed(env.answers)
    && s.gpsOn && s.gps.enabled && Served(s.reg.lists, s.gps.flags)
  }

  ghost predicate NoMoreAsked(s: Lists, r: Lists) {
    forall k: Key :: ListOf(s, k) != [] ==> ListOf(r, k) != []
  }

  lemma ShrunkServed(s: Lists, r: Lists, flags: set<Gps.Flag>)
    requires Served(r, flags) && NoMoreAsked(s, r)
    ensures Served(s, flags)
  {
  }

  /** A stop for what nobody asks for. */
  lemma StopForServed(s: Service, key: Key, env: Env)
    requires Gps.Inv(s.gps) && Served(s.reg.lists, s.gps.flags) && !Asked(s.reg.lists, key)
    ensures var t := s.StopFor(key, env);
            && Gps.Inv(t.gps) && t.gps.enabled == s.gps.enabled && Served(t.reg.lists, t.gps.flags)
            && t == s.(gps := t.gps, network := t.network)
  {
    if key == NmeaKey {
      StopFlag(s.gps, key, Gps.StopNmeaCmd, env);
      Gps.ProcessKeepsInv(s.gps, Gps.StopNmeaCmd, env.answers);
    } else if key == SatelliteKey {
      StopFlag(s.gps, key, Gps.StopSatelliteCmd, env);
      Gps.ProcessKeepsInv(s.gps, Gps.StopSatelliteCmd, env.answers);
    } else if key == GpsKey {
      StopFlag(s.gps, key, Gps.StopPositionCmd, env);
      Gps.ProcessKeepsInv(s.gps, Gps.StopPositionCmd, env.answers);
    }
  }

  lemma ThinnedShrinks(s: Lists, r: Lists, key: Key, ms: seq<Message>)
    requires Thinned(s, r, key, ms)
    ensures NoMoreAsked(s, r)
  {
    forall k: Key | ListOf(s, k) != []
      ensures ListOf(r, k) != []
    {
      assert k == key ==> ListOf(s, key)[0] in ListOf(r, key);
    }
  }

  lemma RespondDataTended(s: Service, key: Key, env: Env)
    requires Tended(s, env) && !IsLocationKey(key)
    ensures Tended(s.RespondData(key, env), env)
  {
    var list := ListOf(s.reg.lists, key);
    var t := s.(reg := s.reg.DeliverAll(key, list));
    RespondDataKeeps(s, key, env);
    DeliverAllKeeps(s.reg, key, list, env.world);
    ThinnedShrinks(t.reg.lists, s.reg.lists, key, list);
    ShrunkServed(t.reg.lists, s.reg.lists, s.gps.flags);
    if !t.Filled(key) {
      StopForServed(t, key, env);
    }
  }

  lemma StopUnwantedServed(s: Service, key: Key, env: Env)
    requires Gps.Inv(s.gps) && Served(s.reg.lists, s.gps.flags) && IsLocationKey(key)
    ensures var t := s.StopUnwanted(key, env);
            && Gps.Inv(t.gps) && t.gps.enabled == s.gps.enabled && Served(t.reg.lists, t.gps.flags)
            && t == s.(gps := t.gps, network := t.network)
  {
    if !Asked(s.reg.lists, key) {
      StopForServed(s, key, env);
    }
  }

  lemma {:induction false} RespondLocationTended(s: Service, key: Key, fix: Option<Fix>, env: Env)
    requires Tended(s, env) && IsLocationKey(key)
    ensures Tended(s.RespondLocation(key, fix, env), env)
  {
    var list := ListOf(s.reg.lists, key);
    var t := s.(reg := s.reg.ConsiderAll(key, list, fix, env.world));
    RespondLocationKeeps(s, key, fix, env);
    ConsiderAllKeeps(s.reg, key, list, fix, env.world);
    ThinnedShrinks(t.reg.lists, s.reg.lists, key, list);
    ShrunkServed(t.reg.lists, s.reg.lists, s.gps.flags);
    StopUnwantedServed(t, GpsKey, env);
    StopUnwantedServed(t.StopUnwanted(GpsKey, env), NetworkKey, env);
    StopUnwantedServed(t, key, env);
  }

  lemma {:induction false} RespondPositionTended(s: Service, key: Key, fix: Option<Fix>, env: Env)
    requires Tended(s, env) && IsLocationKey(key)
    ensures Tended(s.RespondPosition(key, fix, env), env)
  {
    var s1 := s.RespondLocation(key, fix, env);
    RespondLocationTended(s, key, fix, env);
    RespondLocationTended(s1, HybridKey, fix, env);
    RespondLocationTended(s1.RespondLocation(HybridKey, fix, env), PassiveKey, fix, env);
  }

  lemma RefuseTended(s: Service, m: Message, env: Env)
    requires Tended(s, env)
    ensures Tended(s.Refuse(m), env)
  {
    RefuseKeepsSound(s, m, env);
  }

  /** Served but for the API of `key`, which is then started. */
  lemma StartTended(s: Service, key: Key, cmd: Gps.Command, env: Env)
    requires Sound(s, env) && StartsSucceed(env.answers) && s.gpsOn && s.gps.enabled && Asked(s.reg.lists, key)
    requires (key, cmd) in {(NmeaKey, Gps.NmeaCmd), (SatelliteKey, Gps.SatelliteCmd), (GpsKey, Gps.PositionCmd)}
    requires forall f: Gps.Flag :: Asked(s.reg.lists, FlagKey(f)) ==> f in s.gps.flags || FlagKey(f) == key
    ensures Tended(s.Command(cmd, env), env)
  {
    StartKeeps(s, key, cmd, env);
    StartSucceeds(s.gps, KeyFlag(key), cmd, env);
    MoreServed(s.reg.lists, s.gps.flags, key);
  }

  lemma MoreServed(lists: Lists, flags: set<Gps.Flag>, key: Key)
    requires forall f: Gps.Flag :: Asked(lists, FlagKey(f)) ==> f in flags || FlagKey(f) == key
    ensures Served(lists, flags + {KeyFlag(key)})
  {
  }

  lemma EnterServed(r: Registry, m: Message, key: Key, added: bool, flags: set<Gps.Flag>, world: World)
    requires Served(r.lists, flags)
    ensures var lists := r.Enter(m, key, added, world).lists;
            && (!added || key == NetworkKey || key == PassiveKey ==> Served(lists, flags))
            && (forall f: Gps.Flag :: Asked(lists, FlagKey(f)) ==>
                  f in flags || FlagKey(f) == (if key == HybridKey then GpsKey else key))
  {
    var lists := r.Enter(m, key, added, world).lists;
    assert forall k: Key :: k != key || !added ==> ListOf(lists, k) == ListOf(r.lists, k);
  }

  lemma GetDataTended(s: Service, m: Message, key: Key, cmd: Gps.Command, added: bool, env: Env)
    requires Tended(s, env) && m !in s.reg.seen && Serves(key, m.api)
    requires (key, cmd) in {(NmeaKey, Gps.NmeaCmd), (SatelliteKey, Gps.SatelliteCmd)}
    ensures Tended(s.GetData(m, key, cmd, added, env), env)
  {
    var t := s.(reg := s.reg.Enter(m, key, added, env.world));
    EnterKeepsSound(s, m, key, added, env);
    EnterServed(s.reg, m, key, added, s.gps.flags, env.world);
    if added {
      StartTended(t, key, cmd, env);
      var u := t.Command(cmd, env);
      RefuseTended(u, m, env);
      assert t.StartData(m, cmd, env) == u || t.StartData(m, cmd, env) == u.Refuse(m);
    }
  }

  lemma {:induction false} StartNetworkTended(s: Service, m: Message, c: Circumstances, env: Env)
    requires Tended(s, env) && Asked(s.reg.lists, NetworkKey)
    ensures Tended(s.StartNetwork(m, c, env), env)
  {
    var (t, code, report) := s.AskNetwork(c);
    NetworkStartKeeps(s, c, env);
    ReportTended(t, report, env);
    RefuseTended(t.Report(report, env), m, env);
  }

  lemma {:induction false} ReportTended(s: Service, report: Option<Net.Report>, env: Env)
    requires Tended(s, env)
    ensures Tended(s.Report(report, env), env)
  {
    if report.Some? {
      RespondPositionTended(s, NetworkKey, if report.value.NewFix? then Some(FixOf(report.value.at)) else None, env);
    }
  }

  lemma StartGpsTended(s: Service, m: Message, c: Circumstances, env: Env)
    requires Sound(s, env) && StartsSucceed(env.answers) && s.gpsOn && s.gps.enabled
    requires m in ListOf(s.reg.lists, KeyOf(m.handler)) && s.StartsGps(m)
    requires forall f: Gps.Flag :: Asked(s.reg.lists, FlagKey(f)) ==> f in s.gps.flags || FlagKey(f) == GpsKey
    ensures Tended(s.StartHandlers(m, c, env), env)
  {
    var t := s.Command(Gps.PositionCmd, env);
    StartTended(s, GpsKey, Gps.PositionCmd, env);
    if c.mockGps || !s.StartsNetwork(m) {
      RefuseTended(t, m, env);
    } else {
      RefuseTended(t, m, env);
      StartNetworkTended(t, m, c, env);
    }
  }

  lemma StartHandlersTended(s: Service, m: Message, c: Circumstances, env: Env)
    requires Sound(s, env) && StartsSucceed(env.answers) && s.gpsOn && s.gps.enabled
    requires m in ListOf(s.reg.lists, KeyOf(m.handler))
    requires forall f: Gps.Flag :: Asked(s.reg.lists, FlagKey(f)) ==> f in s.gps.flags || FlagKey(f) == GpsKey
    requires WantsGps(m.handler) || Served(s.reg.lists, s.gps.flags)
    ensures Tended(s.StartHandlers(m, c, env), env)
  {
    if s.StartsGps(m) {
      StartGpsTended(s, m, c, env);
    } else if s.StartsNetwork(m) {
      StartNetworkTended(s, m, c, env);
    }
  }

  lemma {:induction false} GetUpdatesTended(s: Service, m: Message, c: Circumstances, env: Env)
    requires Tended(s, env) && m !in s.reg.seen && m.api == GetLocationUpdates
    ensures Tended(s.GetUpdates(m, c, env), env)
  {
    if s.Refuses(m) {
      RefuseTended(s, m, env);
    } else {
      var key := KeyOf(m.handler);
      var t := s.(reg := s.reg.Enter(m, key, c.added, env.world));
      EnterKeepsSound(s, m, key, c.added, env);
      EnterServed(s.reg, m, key, c.added, s.gps.flags, env.world);
      if c.added {
        StartHandlersTended(t, m, c, env);
      }
    }
  }

  lemma StopWithoutServed(s: Service, m: Message, r: Registry, env: Env)
    requires Gps.Inv(s.gps) && Served(r.lists, s.gps.flags)
    requires forall k: Key :: IsLocationKey(k) ==> (s.FilledBesides(k, m) <==> ListOf(r.lists, k) != [])
    ensures var t := s.StopWithout(m, env).(reg := r);
            Served(r.lists, t.gps.flags) && t.gps.enabled == s.gps.enabled && t.gpsOn == s.gpsOn
  {
    StopWithoutIs(s, m, r, env);
    var t := s.(reg := r);
    StopUnwantedServed(t, NetworkKey, env);
    StopUnwantedServed(t.StopUnwanted(NetworkKey, env), GpsKey, env);
  }

  lemma LeavesServed(r: Registry, s: Registry, m: Message, flags: set<Gps.Flag>)
    requires Served(s.lists, flags)
    requires forall k: Key :: ListOf(r.lists, k) == Without(ListOf(s.lists, k), m)
    ensures Served(r.lists, flags)
  {
    forall k: Key | ListOf(r.lists, k) != []
      ensures ListOf(s.lists, k) != []
    {
      assert ListOf(r.lists, k)[0] in ListOf(s.lists, k);
    }
    ShrunkServed(r.lists, s.lists, flags);
  }

  /** What cancel comes to: the stops nobody minds without `m`, once `m` is gone. */
  lemma {:induction false} CancelIs(s: Service, m: Message, env: Env)
    requires forall k: Key :: s.FilledBesides(k, m) <==> ListOf(s.reg.Cancel(m).lists, k) != []
    ensures var t := s.(reg := s.reg.Cancel(m));
            s.Cancel(m, env) ==
            if m.api == GetLocationUpdates then t.StopUnwanted(NetworkKey, env).StopUnwanted(GpsKey, env)
            else if !t.Filled(DataKey(m)) then t.StopFor(DataKey(m), env)
            else t
  {
    if m.api == GetLocationUpdates {
      StopWithoutIs(s, m, s.reg.Cancel(m), env);
    } else {
      StopForCommutes(s, DataKey(m), s.reg.Cancel(m), env);
    }
  }

  lemma {:induction false} CancelServed(s: Service, m: Message, env: Env)
    requires Gps.Inv(s.gps) && Served(s.reg.Cancel(m).lists, s.gps.flags)
    requires forall k: Key :: s.FilledBesides(k, m) <==> ListOf(s.reg.Cancel(m).lists, k) != []
    ensures var t := s.Cancel(m, env);
            Served(t.reg.lists, t.gps.flags) && t.gps.enabled == s.gps.enabled && t.gpsOn == s.gpsOn
  {
    var t := s.(reg := s.reg.Cancel(m));
    CancelIs(s, m, env);
    if m.api == GetLocationUpdates {
      StopUnwantedServed(t, NetworkKey, env);
      StopUnwantedServed(t.StopUnwanted(NetworkKey, env), GpsKey, env);
    } else if !t.Filled(DataKey(m)) {
      StopForServed(t, DataKey(m), env);
    }
  }

  lemma {:induction false} CancelTended(s: Service, m: Message, env: Env)
    requires Tended(s, env)
    ensures Tended(s.Cancel(m, env), env)
  {
    var r := s.reg.Cancel(m);
    CancelKeepsSound(s, m, env);
    CancelLists(s.reg, m);
    LeavesServed(r, s.reg, m, s.gps.flags);
    forall k: Key
      ensures s.FilledBesides(k, m) <==> ListOf(r.lists, k) != []
    {
      WithoutEmpty(ListOf(s.reg.lists, k), m);
    }
    CancelServed(s, m, env);
  }

  lemma {:induction false} TimeOutTended(s: Service, timerId: nat, env: Env)
    requires Tended(s, env) && timerId in s.reg.timers.armed
    ensures Tended(s.TimeOut(timerId, env), env)
  {
    var (r, m) := (s.reg.TimeOut(timerId), s.reg.timers.armed[timerId].message);
    var t := s.(reg := r);
    TimeOutKeepsSound(s, timerId, env);
    TimeOutLists(s.reg, timerId, env.world);
    LeavesServed(r, s.reg, m, s.gps.flags);
    forall k: Key
      ensures t.FilledBesides(k, m) <==> ListOf(r.lists, k) != []
    {
      assert m !in ListOf(r.lists, k);
      assert NoDuplicates(ListOf(s.reg.lists, k));
      FilledMeansOthers(ListOf(r.lists, k), m);
    }
    StopWithoutServed(t, m, r, env);
    StopWithoutReg(t, m, env);
  }

  lemma RestartFlags(p: Gps.Provider, env: Env)
    requires Gps.Inv(p) && p.enabled && Gps.LocationUpdatesOn in p.flags
    ensures p.StopAll(env.answers).0.StartApi(Gps.LocationUpdatesOn, env.answers).0.flags ==
            if !StopGranted(p, env) then p.flags else if RestartGranted(p, env) then {Gps.LocationUpdatesOn} else {}
  {
    var (q, code) := p.StopAll(env.answers);
    Gps.StopAllEffect(p, env.answers);
    Gps.StartApiEffect(q, Gps.LocationUpdatesOn, env.answers);
    StopAnswer(p, env);
    if code == Gps.NoError {
      StartAnswer(q, env);
    }
  }

  /** What the HAL answers when it is asked to stop next, and to start again after that; the
      position mode is sent in between, and before the stop if it was overridden. */
  predicate StopGranted(p: Gps.Provider, env: Env) {
    env.answers(Gps.ToStop, |p.ResetParameters().hal|)
  }

  predicate RestartGranted(p: Gps.Provider, env: Env) {
    env.answers(Gps.ToStart, |p.ResetParameters().hal| + 2)
  }

  lemma StopAnswer(p: Gps.Provider, env: Env)
    requires p.engineStarted
    ensures var (q, code) := p.StopAll(env.answers);
            && (code == Gps.NoError <==> StopGranted(p, env))
            && |q.hal| == |p.ResetParameters().hal| + 1
  {
  }

  lemma StartAnswer(p: Gps.Provider, env: Env)
    requires !p.engineStarted && p.flags == {}
    ensures p.StartApi(Gps.LocationUpdatesOn, env.answers).0.engineStarted == env.answers(Gps.ToStart, |p.hal| + 1)
  {
  }

  lemma ToggleIs(s: Service, env: Env)
    requires s.Filled(GpsKey) && s.gps.enabled && Gps.Inv(s.gps)
    ensures s.Toggle(env).gps == s.gps.StopAll(env.answers).0.StartApi(Gps.LocationUpdatesOn, env.answers).0
  {
    Gps.StopAllEffect(s.gps, env.answers);
  }

  /** A mock toggle restarts the engine for locations only: what is asked for stays served
      exactly if the HAL refuses to stop, or there is no NMEA and no satellite request and
      the HAL starts the engine again. */
  lemma ToggleServes(s: Service, env: Env)
    requires Sound(s, env) && Served(s.reg.lists, s.gps.flags) && s.Filled(GpsKey)
    ensures Served(s.reg.lists, s.Step(ToggleMock, env).gps.flags) <==>
            || !StopGranted(s.gps, env)
            || (!s.Filled(NmeaKey) && !s.Filled(SatelliteKey) && RestartGranted(s.gps, env))
  {
    ServedMeans(s.reg.lists, s.gps.flags);
    RestartFlags(s.gps, env);
    ToggleIs(s, env);
    ToggleStep(s, env);
    ServedMeans(s.reg.lists, s.Toggle(env).gps.flags);
  }

  lemma ServedMeans(lists: Lists, flags: set<Gps.Flag>)
    ensures Served(lists, flags) <==>
            && (ListOf(lists, NmeaKey) != [] ==> Gps.NmeaDataOn in flags)
            && (ListOf(lists, SatelliteKey) != [] ==> Gps.SatelliteDataOn in flags)
            && (ListOf(lists, GpsKey) != [] || ListOf(lists, HybridKey) != [] ==> Gps.LocationUpdatesOn in flags)
  {
    assert Asked(lists, FlagKey(Gps.NmeaDataOn)) <==> ListOf(lists, NmeaKey) != [];
    assert Asked(lists, FlagKey(Gps.SatelliteDataOn)) <==> ListOf(lists, SatelliteKey) != [];
    assert Asked(lists, FlagKey(Gps.LocationUpdatesOn)) <==> ListOf(lists, GpsKey) != [] || ListOf(lists, HybridKey) != [];
  }

  /** The events that leave GPS on: no stop by force and no switch, no mock toggle. */
  predicate Calm(e: Event) {
    !e.StopGps? && !e.Exit? && !e.ToggleMock? && !e.SetGps?
  }

  lemma NewRequestTended(s: Service, e: Event, env: Env)
    requires Tended(s, env) && (e.GetNmea? || e.GetSatellite? || e.GetLocation?) && e.m !in s.reg.seen
    ensures Tended(s.Step(e, env), env)
  {
    if e.GetLocation? {
      if e.m.api == GetLocationUpdates {
        LocationRequestStep(s, e.m, e.c, env);
        GetUpdatesTended(s, e.m, e.c, env);
      }
    } else if e.GetNmea? {
      if e.m.api == GetNmeaData {
        DataRequestStep(s, e.m, e.added, env);
        GetDataTended(s, e.m, NmeaKey, Gps.NmeaCmd, e.added, env);
      }
    } else if e.m.api == GetGpsSatelliteData {
      DataRequestStep(s, e.m, e.added, env);
      GetDataTended(s, e.m, SatelliteKey, Gps.SatelliteCmd, e.added, env);
    }
  }

  lemma {:induction false} RequestStepTended(s: Service, e: Event, env: Env)
    requires Tended(s, env)
    requires e.GetNmea? || e.GetSatellite? || e.GetLocation? || e.CancelSubscription? || e.ResponseTimeout?
    ensures Tended(s.Step(e, env), env)
  {
    if e.CancelSubscription? {
      CancelStep(s, e.m, env);
      CancelTended(s, e.m, env);
    } else if e.ResponseTimeout? {
      if e.timerId in s.reg.timers.armed {
        TimeOutStep(s, e.timerId, env);
        TimeOutTended(s, e.timerId, env);
      }
    } else if e.m !in s.reg.seen {
      NewRequestTended(s, e, env);
    }
  }

  lemma {:induction false} NetworkMovesTended(s: Service, e: Net.Event, env: Env)
    requires Tended(s, env) && !e.Process?
    ensures Tended(s.(network := s.network.Step(e)), env)
  {
    NetworkMovesKeeps(s, e, env);
  }

  lemma {:induction false} NetworkStepTended(s: Service, e: Net.Event, env: Env)
    requires Tended(s, env)
    ensures Tended(s.NetworkStep(e, env), env)
  {
    if !e.Process? {
      NetworkMovesTended(s, e, env);
      var t := s.(network := s.network.Step(e));
      if e.Response? {
        ResponseIs(s, e.response, e.now, env);
        ReportTended(t, s.network.Respond(e.response, e.now).1, env);
      } else if e.UpdateTimer? {
        TimerIs(s, env);
        ReportTended(t, s.network.Tick().2, env);
      } else {
        QuietIs(s, e, env);
      }
    }
  }

  lemma ControlStepTended(s: Service, e: Event, env: Env)
    requires Tended(s, env) && (e.KernelResume? || e.SetNetwork? || e.SetGpsParameters?)
    ensures Tended(s.Step(e, env), env)
  {
    if e.KernelResume? {
      ResumeStep(s, env);
      ServedMeans(s.reg.lists, s.gps.flags);
      ResumeIdle(s, env);
    } else if e.SetNetwork? {
      SwitchStep(s, e.on, env);
      SwitchNetworkTended(s, e.on, env);
    } else {
      ParametersStep(s, e.mode, e.interval, env);
      SetParametersKeeps(s, e.mode, e.interval, env);
    }
  }

  lemma {:induction false} SwitchNetworkTended(s: Service, on: bool, env: Env)
    requires Tended(s, env)
    ensures Tended(s.SwitchNetwork(on, env), env)
  {
    var s1 := s.(nwOn := on);
    StopForKeeps(s1, NetworkKey, {}, env);
    assert {} - {NetworkKey} == {};
    RespondLocationTended(s1.StopFor(NetworkKey, env), NetworkKey, None, env);
  }

  lemma {:induction false} StepTended(s: Service, e: Event, env: Env)
    requires Tended(s, env) && Calm(e)
    ensures Tended(s.Step(e, env), env)
  {
    if e.NmeaData? || e.SatelliteData? {
      DataStep(s, env);
      RespondDataTended(s, if e.NmeaData? then NmeaKey else SatelliteKey, env);
    } else if e.GpsFix? {
      FixStep(s, e.fix, env);
      RespondPositionTended(s, GpsKey, Some(e.fix), env);
    } else if e.NetworkEvent? {
      NetworkEventStep(s, e.e, env);
      NetworkStepTended(s, e.e, env);
    } else if e.KernelResume? || e.SetNetwork? || e.SetGpsParameters? {
      ControlStepTended(s, e, env);
    } else if !e.ConnectionManager? {
      RequestStepTended(s, e, env);
    }
  }

  lemma {:induction false} CalmRun(s: Service, events: seq<Event>, env: Env)
    requires Tended(s, env) && forall e :: e in events ==> Calm(e)
    ensures Tended(Run(s, events, env), env)
  {
    if events == [] {
    } else {
      CalmRun(s, events[..|events| - 1], env);
      StepTended(Run(s, events[..|events| - 1], env), events[|events| - 1], env);
    }
  }

  /** What runs is exactly what is asked for. */
  ghost predicate Exact(t: Service) {
    && (forall f: Gps.Flag :: f in t.gps.flags <==> Asked(t.reg.lists, FlagKey(f)))
    && (Gps.NoFailedStop(t.gps.hal) ==> (t.gps.engineStarted <==> AnyAsked(t.reg.lists)))
  }

  lemma TendedIsExact(t: Service, env: Env)
    requires Tended(t, env)
    ensures Exact(t)
  {
    assert Asked(t.reg.lists, FlagKey(Gps.NmeaDataOn)) <==> Gps.NmeaDataOn in t.gps.flags;
    assert Asked(t.reg.lists, FlagKey(Gps.SatelliteDataOn)) <==> Gps.SatelliteDataOn in t.gps.flags;
    assert Asked(t.reg.lists, FlagKey(Gps.LocationUpdatesOn)) <==> Gps.LocationUpdatesOn in t.gps.flags;
  }

  lemma CalmRunExact(s: Service, events: seq<Event>, env: Env)
    requires Tended(s, env) && forall e :: e in events ==> Calm(e)
    ensures Exact(Run(s, events, env))
  {
    CalmRun(s, events, env);
    TendedIsExact(Run(s, events, env), env);
  }

  /** In a run without a stop by force, with GPS on and HAL starts succeeding, an API of the
      GPS provider runs exactly while a request for it is listed, whatever HAL stops do; if
      none of them failed the engine runs exactly while some such request is listed. */
  lemma {:induction false} RunsExactlyWhatIsAsked(s: Service, events: seq<Event>, env: Env)
    requires Started(s) && s.gpsOn && s.gps.enabled && StartsSucceed(env.answers)
    requires forall e :: e in events ==> Calm(e)
    ensures Exact(Run(s, events, env))
  {
    InitialSound(s, env);
    CalmRunExact(s, events, env);
  }

  lemma ResumeTends(s: Service, env: Env)
    requires Sound(s, env) && s.gpsOn && s.gps.enabled && StartsSucceed(env.answers)
    ensures Tended(s.Resume(env), env)
  {
    ResumeServes(s, env);
    ResumeKeeps(s, env);
    ServedMeans(s.Resume(env).reg.lists, s.Resume(env).gps.flags);
  }

  /** The same from a kernel resume on, whatever has happened before: stops by force, switches
      and mock toggles, and HAL starts that failed. */
  lemma {:induction false} ExactAfterResume(s: Service, before: seq<Event>, events: seq<Event>, env: Env, later: Env)
    requires Started(s) && later.world == env.world
    requires var t := Run(s, before, env); t.gpsOn && t.gps.enabled
    requires StartsSucceed(later.answers) && forall e :: e in events ==> Calm(e)
    ensures Exact(Run(Run(s, before, env).Step(KernelResume, later), events, later))
  {
    RunKeeps(s, before, env);
    SoundLater(Run(s, before, env), env, later);
    ExactFromResume(Run(s, before, env), events, later);
  }

  lemma SoundLater(s: Service, env: Env, later: Env)
    requires Sound(s, env) && later.world == env.world
    ensures Sound(s, later)
  {
  }

  lemma {:induction false} ExactFromResume(s: Service, events: seq<Event>, env: Env)
    requires Sound(s, env) && s.gpsOn && s.gps.enabled && StartsSucceed(env.answers)
    requires forall e :: e in events ==> Calm(e)
    ensures Exact(Run(s.Step(KernelResume, env), events, env))
  {
    ResumeTends(s, env);
    CalmRunExact(s.Resume(env), events, env);
    ResumeStep(s, env);
  }

  // Switching a handler off.

  predicate GpsQuiet(p: Gps.Provider) {
    p.flags == {} && !p.engineStarted
  }

  /** A stop starts nothing. */
  lemma StopForQuiet(s: Service, key: Key, env: Env)
    ensures GpsQuiet(s.gps) ==> GpsQuiet(s.StopFor(key, env).gps)
  {
  }

  lemma StopUnwantedQuiet(s: Service, key: Key, env: Env)
    ensures GpsQuiet(s.gps) ==> GpsQuiet(s.StopUnwanted(key, env).gps)
  {
    StopForQuiet(s, key, env);
  }

  predicate NoOneShots(lists: Lists, key: Key) {
    !HasOneShot(ListOf(lists, key))
  }

  /** After an error reply no one-shot request is left in the list. */
  lemma {:induction false} ErrorLoopEffect(s: Service, key: Key, env: Env)
    requires Sound(s, env) && IsLocationKey(key)
    ensures var t := s.RespondLocation(key, None, env);
            && Sound(t, env) && NoOneShots(t.reg.lists, key)
            && (forall k: Key :: k != key ==> ListOf(t.reg.lists, k) == ListOf(s.reg.lists, k))
            && (GpsQuiet(s.gps) ==> GpsQuiet(t.gps))
  {
    var list := ListOf(s.reg.lists, key);
    var t := s.(reg := s.reg.ConsiderAll(key, list, None, env.world));
    RespondLocationKeeps(s, key, None, env);
    RespondLocationReg(s, key, None, env);
    ConsiderAllKeeps(s.reg, key, list, None, env.world);
    StopUnwantedQuiet(t, GpsKey, env);
    StopUnwantedQuiet(t.StopUnwanted(GpsKey, env), NetworkKey, env);
    StopUnwantedQuiet(t, key, env);
  }

  lemma DataLoopEffect(s: Service, key: Key, env: Env)
    requires Sound(s, env) && !IsLocationKey(key)
    ensures var t := s.RespondData(key, env);
            && Sound(t, env) && NoOneShots(t.reg.lists, key)
            && (forall k: Key :: k != key ==> ListOf(t.reg.lists, k) == ListOf(s.reg.lists, k))
            && (GpsQuiet(s.gps) ==> GpsQuiet(t.gps))
  {
    RespondDataKeeps(s, key, env);
    DataLoopLists(s, key, env);
    StopForQuiet(s.(reg := s.reg.DeliverAll(key, ListOf(s.reg.lists, key))), key, env);
  }

  lemma DataLoopLists(s: Service, key: Key, env: Env)
    requires Inv(s.reg, env.world) && !IsLocationKey(key)
    ensures var t := s.RespondData(key, env);
            && NoOneShots(t.reg.lists, key)
            && (forall k: Key :: k != key ==> ListOf(t.reg.lists, k) == ListOf(s.reg.lists, k))
  {
    DeliverAllKeeps(s.reg, key, ListOf(s.reg.lists, key), env.world);
    RespondDataReg(s, key, env);
  }

  lemma RespondDataReg(s: Service, key: Key, env: Env)
    ensures s.RespondData(key, env).reg == s.reg.DeliverAll(key, ListOf(s.reg.lists, key))
  {
    StopForReg(s.(reg := s.reg.DeliverAll(key, ListOf(s.reg.lists, key))), key, env);
  }

  lemma StopForReg(s: Service, key: Key, env: Env)
    ensures s.StopFor(key, env).reg == s.reg
  {
  }

  predicate GpsAnswered(lists: Lists) {
    NoOneShots(lists, NmeaKey) && NoOneShots(lists, SatelliteKey) && NoOneShots(lists, GpsKey)
  }

  lemma {:induction false} ErrorRepliesEffect(s: Service, env: Env)
    requires Sound(s, env)
    ensures var t := s.RespondData(NmeaKey, env).RespondData(SatelliteKey, env).RespondLocation(GpsKey, None, env);
            Sound(t, env) && GpsAnswered(t.reg.lists) && (GpsQuiet(s.gps) ==> GpsQuiet(t.gps))
  {
    var s1 := s.RespondData(NmeaKey, env);
    var s2 := s1.RespondData(SatelliteKey, env);
    DataLoopEffect(s, NmeaKey, env);
    DataLoopEffect(s1, SatelliteKey, env);
    ErrorLoopEffect(s2, GpsKey, env);
  }

  lemma {:induction false} AllOffEffect(s: Service, env: Env)
    requires Sound(s, env) && GpsAnswered(s.reg.lists)
    ensures var t := s.AllOff(env);
            && GpsAnswered(t.reg.lists) && (GpsQuiet(s.gps) ==> GpsQuiet(t.gps))
            && (!s.gpsOn && !s.nwOn ==> NoOneShots(t.reg.lists, HybridKey))
  {
    ErrorLoopEffect(s, HybridKey, env);
  }

  /** Switching GPS off answers every one-shot NMEA, satellite and GPS request, whatever the
      HAL does, and the hybrid ones if the network handler is off as well. Unless the HAL
      refuses to stop nothing of the GPS provider runs any more. */
  lemma {:induction false} GpsOffEffect(s: Service, env: Env)
    requires Sound(s, env) && s.gpsOn
    ensures var t := s.SwitchGps(false, env);
            && !t.gpsOn && GpsAnswered(t.reg.lists)
            && (!s.nwOn ==> NoOneShots(t.reg.lists, HybridKey))
            && (!s.gps.enabled || s.gps.StopAll(env.answers).1 == Gps.NoError ==> GpsQuiet(t.gps))
  {
    var s0 := s.(gpsOn := false);
    var s1 := s0.Command(Gps.StopGpsCmd, env);
    StopAllKeeps(s0, env);
    if !s.gps.enabled || s.gps.StopAll(env.answers).1 == Gps.NoError {
      StopAllQuiet(s0, env);
    }
    ErrorRepliesEffect(s1, env);
    AllOffEffect(s1.RespondData(NmeaKey, env).RespondData(SatelliteKey, env).RespondLocation(GpsKey, None, env), env);
    SwitchesKept(s, env);
  }

  lemma StopAllQuiet(s: Service, env: Env)
    requires Gps.Inv(s.gps) && (s.gps.enabled ==> s.gps.StopAll(env.answers).1 == Gps.NoError)
    ensures GpsQuiet(s.Command(Gps.StopGpsCmd, env).gps)
  {
    if s.gps.enabled {
      Gps.StopAllEffect(s.gps, env.answers);
    }
  }

  lemma {:induction false} SwitchesKept(s: Service, env: Env)
    ensures var t := s.(gpsOn := false).Command(Gps.StopGpsCmd, env).RespondData(NmeaKey, env).RespondData(SatelliteKey, env);
            t.RespondLocation(GpsKey, None, env).nwOn == s.nwOn && !t.RespondLocation(GpsKey, None, env).gpsOn
    ensures !s.SwitchGps(false, env).gpsOn
  {
    var s1 := s.(gpsOn := false).Command(Gps.StopGpsCmd, env);
    var s3 := s1.RespondData(NmeaKey, env).RespondData(SatelliteKey, env);
    RespondLocationSwitches(s3, GpsKey, env);
    RespondLocationSwitches(s3.RespondLocation(GpsKey, None, env), HybridKey, env);
    RespondLocationSwitches(s.(gpsOn := false), HybridKey, env);
  }

  lemma RespondLocationSwitches(s: Service, key: Key, env: Env)
    ensures var t := s.RespondLocation(key, None, env); t.nwOn == s.nwOn && t.gpsOn == s.gpsOn
  {
    var t := s.(reg := s.reg.ConsiderAll(key, ListOf(s.reg.lists, key), None, env.world));
    StopUnwantedSwitches(t, GpsKey, env);
    StopUnwantedSwitches(t.StopUnwanted(GpsKey, env), NetworkKey, env);
    StopUnwantedSwitches(t, key, env);
  }

  lemma StopUnwantedSwitches(s: Service, key: Key, env: Env)
    ensures var t := s.StopUnwanted(key, env); t.nwOn == s.nwOn && t.gpsOn == s.gpsOn
  {
  }

  predicate HasSubscription(ms: seq<Message>) {
    exists m :: m in ms && m.subscription
  }

  /** An error reply leaves exactly the subscriptions in the list. */
  lemma ErrorLoopLeaves(s: Service, key: Key, env: Env)
    requires Inv(s.reg, env.world) && IsLocationKey(key)
    ensures var t := s.RespondLocation(key, None, env);
            && NoOneShots(t.reg.lists, key)
            && (ListOf(t.reg.lists, key) != [] <==> HasSubscription(ListOf(s.reg.lists, key)))
            && (forall k: Key :: k != key ==> ListOf(t.reg.lists, k) == ListOf(s.reg.lists, k))
  {
    var list := ListOf(s.reg.lists, key);
    RespondLocationReg(s, key, None, env);
    ConsiderAllKeeps(s.reg, key, list, None, env.world);
    var left := ListOf(s.RespondLocation(key, None, env).reg.lists, key);
    if left != [] {
      assert left[0] in left && left[0] in list;
    }
  }

  /** When that loop stops the network provider. */
  predicate LoopStops(s: Service, key: Key) {
    && HasOneShot(ListOf(s.reg.lists, key)) && !HasSubscription(ListOf(s.reg.lists, key))
    && ListOf(s.reg.lists, if key == NetworkKey then HybridKey else NetworkKey) == []
  }

  lemma ErrorLoopStops(s: Service, key: Key, env: Env)
    requires Inv(s.reg, env.world) && (key == NetworkKey || key == HybridKey)
    ensures s.RespondLocation(key, None, env).network == if LoopStops(s, key) then s.network.Stop().0 else s.network
  {
    var t := s.(reg := s.reg.ConsiderAll(key, ListOf(s.reg.lists, key), None, env.world));
    ErrorLoopLeaves(s, key, env);
    RespondLocationReg(s, key, None, env);
    StopUnwantedReg(t, GpsKey, env);
    StopUnwantedNetwork(t, GpsKey, env);
    StopUnwantedNetwork(if key == HybridKey then t.StopUnwanted(GpsKey, env) else t, NetworkKey, env);
  }

  lemma NetworkStopped(n: Net.Network)
    requires n.enabled
    ensures var m := n.Stop().0;
            m.enabled && !m.mockRunning && (m.running <==> n.running && n.mockRunning)
  {
  }

  /** Switching the network handler off answers every one-shot network request, and with GPS
      off every hybrid one. Its first stop ends the mock request if one is in progress; the
      real one then survives exactly unless one of these replies takes away the last
      request that wanted it, and so stops once more. */
  lemma NetworkOffEffect(s: Service, env: Env)
    requires Sound(s, env) && s.nwOn && s.network.enabled
    ensures var (t, nw, hybrid) := (s.SwitchNetwork(false, env), s.reg.List(NetworkKey), s.reg.List(HybridKey));
            && NoOneShots(t.reg.lists, NetworkKey) && (!s.gpsOn ==> NoOneShots(t.reg.lists, HybridKey))
            && !t.network.mockRunning
            && (t.network.running <==>
                  && s.network.running && s.network.mockRunning
                  && !(HasOneShot(nw) && !HasSubscription(nw) && hybrid == [])
                  && !(!s.gpsOn && HasOneShot(hybrid) && !HasSubscription(hybrid) && !HasSubscription(nw)))
  {
    var s1 := s.(nwOn := false);
    var s2 := s1.StopFor(NetworkKey, env);
    StopForKeeps(s1, NetworkKey, {}, env);
    assert {} - {NetworkKey} == {};
    NetworkStopped(s.network);
    NetworkReplyEffect(s2, env);
    AllOffNetwork(s2.RespondLocation(NetworkKey, None, env), env);
  }

  lemma NetworkReplyEffect(s: Service, env: Env)
    requires Sound(s, env) && s.network.enabled && !s.network.mockRunning
    ensures var t := s.RespondLocation(NetworkKey, None, env);
            && Sound(t, env) && t.nwOn == s.nwOn && t.gpsOn == s.gpsOn
            && t.network.enabled && !t.network.mockRunning
            && (t.network.running <==> s.network.running && !LoopStops(s, NetworkKey))
            && NoOneShots(t.reg.lists, NetworkKey)
            && (ListOf(t.reg.lists, NetworkKey) != [] <==> HasSubscription(ListOf(s.reg.lists, NetworkKey)))
            && ListOf(t.reg.lists, HybridKey) == ListOf(s.reg.lists, HybridKey)
  {
    RespondLocationKeeps(s, NetworkKey, None, env);
    RespondLocationSwitches(s, NetworkKey, env);
    ErrorLoopLeaves(s, NetworkKey, env);
    ErrorLoopStops(s, NetworkKey, env);
    NetworkStopped(s.network);
  }

  lemma AllOffNetwork(s: Service, env: Env)
    requires Sound(s, env) && s.network.enabled && !s.network.mockRunning && !s.nwOn
    ensures var t := s.AllOff(env);
            && !t.network.mockRunning
            && (t.network.running <==> s.network.running && !(!s.gpsOn && LoopStops(s, HybridKey)))
            && ListOf(t.reg.lists, NetworkKey) == ListOf(s.reg.lists, NetworkKey)
            && (!s.gpsOn ==> NoOneShots(t.reg.lists, HybridKey))
  {
    ErrorLoopLeaves(s, HybridKey, env);
    ErrorLoopStops(s, HybridKey, env);
    NetworkStopped(s.network);
  }

  lemma MockedSound(m1: Message, m2: Message, env: Env)
    ensures Sound(MockedService(m1, m2, env), env)
  {
    var s0 := Initial(true, 0, true, Net.BeaconDB, false, true);
    var c := Circumstances(true, false, false, true, true);
    assert Started(s0);
    InitialSound(s0, env);
    StepKeeps(s0, ConnectionManager(true), env);
    StepKeeps(OnlineService(env), GetLocation(m1, c), env);
    StepKeeps(OnlineService(env).Step(GetLocation(m1, c), env), GetLocation(m2, c.(mockNetwork := true)), env);
  }

  lemma SubscriptionSurvivesSwitch(s: Service, m: Message, env: Env)
    requires Sound(s, env) && s.nwOn && s.network.enabled && s.network.running && s.network.mockRunning
    requires NetworkKey in s.reg.lists && HybridKey !in s.reg.lists
    requires m in s.reg.lists[NetworkKey] && m.subscription
    ensures s.SwitchNetwork(false, env).network.running
  {
    assert HasSubscription(s.reg.List(NetworkKey)) && !HasOneShot(s.reg.List(HybridKey));
    NetworkOffEffect(s, env);
  }

  /** The run that shows it: after the same two subscriptions the network handler is switched
      off. */
  lemma SwitchLeavesNetworkRunning(m1: Message, m2: Message, env: Env)
    requires TwoRequests(m1, m2)
    ensures var t := MockedService(m1, m2, env).Step(SetNetwork(false), env);
            t.network.running && !t.nwOn && !t.gpsOn
  {
    BothJoin(m1, m2, env);
    MockedSound(m1, m2, env);
    SubscriptionSurvivesSwitch(MockedService(m1, m2, env), m1, env);
    NetworkSwitchKept(MockedService(m1, m2, env), env);
  }

  lemma NetworkSwitchKept(s: Service, env: Env)
    ensures var t := s.SwitchNetwork(false, env); !t.nwOn && t.gpsOn == s.gpsOn && t == s.Step(SetNetwork(false), env)
  {
    var s2 := s.(nwOn := false).StopFor(NetworkKey, env);
    RespondLocationSwitches(s2, NetworkKey, env);
    RespondLocationSwitches(s2.RespondLocation(NetworkKey, None, env), HybridKey, env);
    RespondLocationSwitches(s.(nwOn := false), HybridKey, env);
  }
}
