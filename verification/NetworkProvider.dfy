/** The network position provider: the request state, the Wi-Fi and cell data waiting to
    be put into a query, and the last fix with its time and the server it is kept under.

    The server's answers, the clock, luna-prefs and the mock location are inputs. Three
    histories, which the program does not keep, are ended by every reset: the scans
    given to the change detector, the valid answers, and the fixes reported as new.
 */
module NetworkProvider {
  import opened Common
  import opened WifiScans

  datatype Backend = BeaconDB | Google

  datatype NetworkFix = NetworkFix(latitude: real, longitude: real, accuracy: real)

  datatype TimedFix = TimedFix(fix: NetworkFix, time: int)

  const NO_FIX := NetworkFix(0.0, 0.0, 0.0)

  /** What is put into a query: the registered cell, the scan, or both. */
  datatype Query = Query(cell: Option<int>, wifi: Option<Scan>)

  /** An answer of the server: a position, an answer without one, or an HTTP error. */
  datatype Response = Answer(fix: NetworkFix) | Unusable | HttpError

  /** What the provider tells the location service through the callback. */
  datatype Report = NewFix(at: TimedFix) | ConnectionLost

  datatype Code = NoError | NotStarted | NetworkError | LicenseKeyInvalid

  datatype Request =
    | PositionCmd(mock: bool, posted: bool, readable: bool)
    | StopPositionCmd

  datatype Event =
    | CellData(cell: Option<int>)
    | WifiData(aps: Option<Scan>)
    | Response(response: Response, now: int)
    | UpdateTimer
    | WifiStatus(on: bool)
    | TelephonyStatus(on: bool)
    | ConnectivityStatus(on: bool)
    | ChooseBackend(backend: Backend)
    | Process(request: Request)

  /** The last fix, the time of the answer that gave or confirmed it, and the server it is
      kept under; with, since the last reset and after the zero fix at time 0, the valid
      answers, their times, the servers chosen when they came, and the fixes reported as new.
      A reset leaves the server. */
  datatype FixCache = FixCache(
    fix: NetworkFix, time: int, backend: Backend,
    answers: seq<NetworkFix>, times: seq<int>, servers: seq<Backend>, reports: seq<NetworkFix>)
  {
    function Reset(): FixCache {
      FixCache(NO_FIX, 0, backend, [NO_FIX], [0], [backend], [NO_FIX])
    }

    predicate HasNothing() {
      fix == NO_FIX && time == 0 && answers == [NO_FIX] && times == [0] && servers == [backend] && reports == [NO_FIX]
    }

    /** A valid answer arriving while `chosen` is the server to ask, and whether it is new. */
    function Answered(f: NetworkFix, now: int, chosen: Backend): (FixCache, bool) {
      var c := this.(answers := answers + [f], times := times + [now], servers := servers + [chosen], time := now);
      if f == fix then (c, false)
      else (c.(fix := f, backend := chosen, reports := reports + [f]), true)
    }
  }

  /** The scan compared with, and the scans given to the detector since the last reset. */
  datatype Detector = Detector(lastAps: Option<Scan>, consulted: seq<Consultation>) {
    ghost function Parse(aps: Scan): (Detector, bool) {
      var (last, queried) := Consult(lastAps, aps);
      (Detector(last, consulted + [Consultation(aps, queried)]), queried)
    }
  }

  datatype Network = Network(
    enabled: bool, callback: bool, running: bool, mockRunning: bool,
    wifi: bool, telephony: bool, online: bool, firstCell: bool, hasKey: bool,
    cellInfo: Option<int>, cellId: int, accessPoints: Option<Scan>, backend: Backend,
    cache: FixCache, detector: Detector)
  {
    function Reset(): Network {
      this.(cache := cache.Reset(), detector := Detector(None, []),
            accessPoints := None, cellInfo := None, cellId := 0)
    }

    /** parseCellData: the registered cell, if it is not the one put into a query last. */
    function CellNews(): Option<int> {
      if cellInfo.Some? && cellInfo.value != cellId then cellInfo else None
    }

    /** What parseWifiData does to the detector, and the scan it puts into the query. */
    ghost function WifiNews(): (Detector, Option<Scan>) {
      if accessPoints.None? then (detector, None)
      else
        var (d, queried) := detector.Parse(accessPoints.value);
        (d, if queried then accessPoints else None)
    }

    /** triggerPostQuery: which of the two news are asked for depends on what is on. */
    ghost function Trigger(): (Network, Option<Query>) {
      var cell := if telephony then CellNews() else None;
      var (d, aps) := if wifi then WifiNews() else (detector, None);
      (this.(cellId := cell.GetOr(cellId), detector := d),
       if cell.Some? || aps.Some? then Some(Query(cell, aps)) else None)
    }

    function Respond(response: Response, now: int): (Network, Option<Report>) {
      match response
      case Unusable => (this, None)
      case HttpError => (this, if callback then Some(ConnectionLost) else None)
      case Answer(f) =>
        var (c, changed) := cache.Answered(f, now, backend);
        (this.(cache := c), if changed && callback then Some(NewFix(TimedFix(f, now))) else None)
    }

    /** A position request while one is running. */
    function HandOut(): Option<TimedFix> {
      if callback && cache.time > 0 && cache.backend == backend
      then Some(TimedFix(cache.fix, cache.time)) else None
    }

    /** A position command. `mock` tells whether the network mock location is enabled, `posted`
        whether its query went out, `readable` whether a missing key can be read now. */
    function Start(mock: bool, posted: bool, readable: bool): (Network, Code, Option<TimedFix>) {
      var code :=
        if !enabled then NotStarted
        else if mock then (if posted then NoError else NetworkError)
        else if !running && backend == Google && !hasKey && !readable then LicenseKeyInvalid
        else NoError;
      var begins := code == NoError && !mock && !running;
      (this.(mockRunning := mockRunning || (code == NoError && mock),
             running := running || begins,
             hasKey := hasKey || (begins && backend == Google)),
       code,
       if code == NoError && !mock && running then HandOut() else None)
    }

    function Stop(): (Network, Code) {
      if !enabled then (this, NotStarted)
      else if mockRunning then (this.(mockRunning := false).Reset(), NoError)
      else if !running then (this, NotStarted)
      else (this.(running := false, firstCell := true).Reset(), NoError)
    }

    ghost function UpdateCell(cell: Option<int>): (Network, Option<Query>) {
      var n := this.(cellInfo := cell);
      if firstCell && !wifi then n.(firstCell := false).Trigger() else (n, None)
    }

    ghost function UpdateWifi(aps: Option<Scan>): (Network, Option<Query>) {
      this.(accessPoints := Some(aps.GetOr(map[]))).Trigger()
    }

    ghost function Tick(): (Network, Option<Query>, Option<Report>) {
      if !online then (this, None, Some(ConnectionLost))
      else if !wifi && telephony then
        var (n, q) := Trigger();
        (n, q, None)
      else (this, None, None)
    }

    function TelephonyChanged(on: bool): Network {
      this.(telephony := on, cellInfo := if on then cellInfo else None, cellId := if on then cellId else 0)
    }

    ghost function Step(e: Event): Network {
      match e
      case CellData(cell) => UpdateCell(cell).0
      case WifiData(aps) => UpdateWifi(aps).0
      case Response(response, now) => Respond(response, now).0
      case UpdateTimer => Tick().0
      case WifiStatus(on) => this.(wifi := on)
      case TelephonyStatus(on) => TelephonyChanged(on)
      case ConnectivityStatus(on) => this.(online := on)
      case ChooseBackend(b) => this.(backend := b)
      case Process(PositionCmd(mock, posted, readable)) => Start(mock, posted, readable).0
      case Process(StopPositionCmd) => Stop().0
    }
  }

  function Initial(hasKey: bool, backend: Backend): Network {
    Network(true, true, false, false, false, false, false, true, hasKey, None, 0, None, backend,
            FixCache(NO_FIX, 0, BeaconDB, [NO_FIX], [0], [BeaconDB], [NO_FIX]), Detector(None, []))
  }

  ghost function Run(n: Network, events: seq<Event>): Network {
    if events == [] then n
    else Run(n, events[..|events| - 1]).Step(events[|events| - 1])
  }

  function Last<T>(s: seq<T>): T
    requires s != []
  {
    s[|s| - 1]
  }

  /** The server that was chosen when the fix of the latest answer came for the first time
      in a row. */
  function KeptUnder(answers: seq<NetworkFix>, servers: seq<Backend>): Backend
    requires |answers| == |servers| > 0
  {
    var n := |answers| - 1;
    if n > 0 && answers[n] == answers[n - 1] then KeptUnder(answers[..n], servers[..n]) else servers[n]
  }

  lemma KeptUnderSnoc(answers: seq<NetworkFix>, servers: seq<Backend>, f: NetworkFix, chosen: Backend)
    requires |answers| == |servers| > 0
    ensures KeptUnder(answers + [f], servers + [chosen]) == if f == Last(answers) then KeptUnder(answers, servers) else chosen
  {
    assert (answers + [f])[..|answers|] == answers && (servers + [chosen])[..|answers|] == servers;
  }

  /** The last fix is that of the latest valid answer and its time the time of that answer;
      the fixes reported as new are the valid answers without repeats. */
  ghost predicate CacheInv(c: FixCache) {
    && |c.answers| == |c.times| == |c.servers| > 0 && c.answers[0] == NO_FIX && c.times[0] == 0
    && c.fix == Last(c.answers)
    && c.time == Last(c.times)
    && c.backend == KeptUnder(c.answers, c.servers)
    && c.reports == Destutter(c.answers)
  }

  ghost predicate DetectorInv(d: Detector) {
    d.lastAps == LastQueried(d.consulted) && Judged(d.consulted)
  }

  ghost predicate Inv(n: Network) {
    CacheInv(n.cache) && DetectorInv(n.detector)
  }

  lemma ResetKeeps(c: FixCache)
    ensures CacheInv(c.Reset()) && DetectorInv(Detector(None, []))
  {
  }

  lemma AnsweredKeeps(c: FixCache, f: NetworkFix, now: int, chosen: Backend)
    requires CacheInv(c)
    ensures CacheInv(c.Answered(f, now, chosen).0)
  {
    DestutterSnoc(c.answers, f);
    KeptUnderSnoc(c.answers, c.servers, f, chosen);
  }

  lemma {:induction false} ParseKeeps(d: Detector, aps: Scan)
    requires DetectorInv(d)
    ensures DetectorInv(d.Parse(aps).0)
  {
    JudgedStep(d.consulted, aps);
  }

  /** A trigger asks the detector exactly when Wi-Fi is on and there is a list. */
  lemma TriggerEffect(n: Network)
    ensures n.Trigger().0.cache == n.cache
    ensures n.Trigger().0.enabled == n.enabled
    ensures n.Trigger().0.running == n.running
    ensures n.Trigger().0.mockRunning == n.mockRunning
    ensures n.Trigger().0.detector ==
            if n.wifi && n.accessPoints.Some? then n.detector.Parse(n.accessPoints.value).0 else n.detector
  {
  }

  lemma {:induction false} TriggerKeeps(n: Network)
    requires Inv(n)
    ensures Inv(n.Trigger().0)
  {
    TriggerEffect(n);
    if n.accessPoints.Some? {
      ParseKeeps(n.detector, n.accessPoints.value);
    }
  }

  lemma CellDataKeeps(n: Network, cell: Option<int>)
    requires Inv(n)
    ensures Inv(n.Step(CellData(cell)))
  {
    TriggerKeeps(n.(cellInfo := cell, firstCell := false));
  }

  lemma WifiDataKeeps(n: Network, aps: Option<Scan>)
    requires Inv(n)
    ensures Inv(n.Step(WifiData(aps)))
  {
    TriggerKeeps(n.(accessPoints := Some(aps.GetOr(map[]))));
  }

  lemma ResponseKeeps(n: Network, response: Response, now: int)
    requires Inv(n)
    ensures Inv(n.Step(Response(response, now)))
  {
    if response.Answer? {
      AnsweredKeeps(n.cache, response.fix, now, n.backend);
    }
  }

  lemma UpdateTimerKeeps(n: Network)
    requires Inv(n)
    ensures Inv(n.Step(UpdateTimer))
  {
    TriggerKeeps(n);
  }

  lemma StartKeeps(n: Network, mock: bool, posted: bool, readable: bool)
    requires Inv(n)
    ensures Inv(n.Start(mock, posted, readable).0)
  {
  }

  lemma StopKeeps(n: Network)
    requires Inv(n)
    ensures Inv(n.Stop().0)
  {
    ResetKeeps(n.cache);
  }

  lemma ProcessKeeps(n: Network, request: Request)
    requires Inv(n)
    ensures Inv(n.Step(Process(request)))
  {
    if request.PositionCmd? {
      StartKeeps(n, request.mock, request.posted, request.readable);
    } else {
      StopKeeps(n);
    }
  }

  lemma {:induction false} StepKeepsInv(n: Network, e: Event)
    requires Inv(n)
    ensures Inv(n.Step(e))
  {
    if e.CellData? {
      CellDataKeeps(n, e.cell);
    } else if e.WifiData? {
      WifiDataKeeps(n, e.aps);
    } else if e.Response? {
      ResponseKeeps(n, e.response, e.now);
    } else if e.UpdateTimer? {
      UpdateTimerKeeps(n);
    } else if e.Process? {
      ProcessKeeps(n, e.request);
    } else {
      StatusKeeps(n, e);
    }
  }

  lemma StatusKeeps(n: Network, e: Event)
    requires Inv(n)
    requires e.WifiStatus? || e.TelephonyStatus? || e.ConnectivityStatus? || e.ChooseBackend?
    ensures Inv(n.Step(e))
  {
  }

  lemma {:induction false} RunKeepsInv(hasKey: bool, backend: Backend, events: seq<Event>)
    ensures Inv(Run(Initial(hasKey, backend), events))
  {
    if events == [] {
      ResetKeeps(Initial(hasKey, backend).cache);
    } else {
      RunKeepsInv(hasKey, backend, events[..|events| - 1]);
      StepKeepsInv(Run(Initial(hasKey, backend), events[..|events| - 1]), events[|events| - 1]);
    }
  }

  // The switches.

  function WifiSaid(e: Event): Option<bool> {
    if e.WifiStatus? then Some(e.on) else None
  }

  function TelephonySaid(e: Event): Option<bool> {
    if e.TelephonyStatus? then Some(e.on) else None
  }

  function OnlineSaid(e: Event): Option<bool> {
    if e.ConnectivityStatus? then Some(e.on) else None
  }

  function BackendSaid(e: Event): Option<Backend> {
    if e.ChooseBackend? then Some(e.backend) else None
  }

  ghost predicate SwitchedBy(m: Network, n: Network, e: Event) {
    && m.enabled == n.enabled && m.callback == n.callback
    && m.wifi == (if e.WifiStatus? then e.on else n.wifi)
    && m.telephony == (if e.TelephonyStatus? then e.on else n.telephony)
    && m.online == (if e.ConnectivityStatus? then e.on else n.online)
    && m.backend == (if e.ChooseBackend? then e.backend else n.backend)
  }

  predicate SameSwitches(m: Network, n: Network) {
    && m.enabled == n.enabled && m.callback == n.callback && m.wifi == n.wifi
    && m.telephony == n.telephony && m.online == n.online && m.backend == n.backend
  }

  lemma TriggerSwitches(n: Network)
    ensures SameSwitches(n.Trigger().0, n)
  {
  }

  lemma QueryingSwitches(n: Network, e: Event)
    requires e.WifiData? || e.CellData? || e.UpdateTimer?
    ensures SameSwitches(n.Step(e), n)
  {
    if e.WifiData? {
      TriggerSwitches(n.(accessPoints := Some(e.aps.GetOr(map[]))));
    } else if e.CellData? {
      TriggerSwitches(n.(cellInfo := e.cell, firstCell := false));
    } else {
      TriggerSwitches(n);
    }
  }

  lemma RequestSwitches(n: Network, request: Request)
    ensures SameSwitches(n.Step(Process(request)), n)
  {
    if request.PositionCmd? {
      StartExactly(n, request.mock, request.posted, request.readable);
    }
  }

  lemma ResponseSwitches(n: Network, response: Response, now: int)
    ensures SameSwitches(n.Step(Response(response, now)), n)
  {
  }

  lemma StatusSwitches(n: Network, on: bool)
    ensures n.Step(WifiStatus(on)) == n.(wifi := on)
    ensures n.Step(ConnectivityStatus(on)) == n.(online := on)
  {
  }

  lemma TelephonySwitches(n: Network, on: bool)
    ensures n.Step(TelephonyStatus(on)) == n.TelephonyChanged(on)
  {
  }

  lemma BackendSwitches(n: Network, backend: Backend)
    ensures n.Step(ChooseBackend(backend)) == n.(backend := backend)
  {
  }

  lemma {:induction false} ReportSwitches(n: Network, e: Event)
    requires e.WifiStatus? || e.TelephonyStatus? || e.ConnectivityStatus? || e.ChooseBackend?
    ensures SwitchedBy(n.Step(e), n, e)
  {
    if e.TelephonyStatus? {
      TelephonySwitches(n, e.on);
    } else if e.ChooseBackend? {
      BackendSwitches(n, e.backend);
    } else {
      StatusSwitches(n, e.on);
    }
  }

  lemma {:induction false} StepSwitches(n: Network, e: Event)
    ensures SwitchedBy(n.Step(e), n, e)
  {
    if e.Process? {
      RequestSwitches(n, e.request);
    } else if e.Response? {
      ResponseSwitches(n, e.response, e.now);
    } else if e.WifiData? || e.CellData? || e.UpdateTimer? {
      QueryingSwitches(n, e);
    } else {
      ReportSwitches(n, e);
    }
  }

  /** In every run the switches and the server are as they were last reported or chosen. */
  lemma {:induction false} SwitchesAsReported(hasKey: bool, backend: Backend, events: seq<Event>)
    ensures var n := Run(Initial(hasKey, backend), events);
            && n.enabled && n.callback
            && n.wifi == Latest(events, WifiSaid, false) && n.telephony == Latest(events, TelephonySaid, false)
            && n.online == Latest(events, OnlineSaid, false) && n.backend == Latest(events, BackendSaid, backend)
  {
    if events == [] {
    } else {
      var front, e := events[..|events| - 1], events[|events| - 1];
      SwitchesAsReported(hasKey, backend, front);
      StepSwitches(Run(Initial(hasKey, backend), front), e);
    }
  }

  // What the caches are for.

  /** In every run a position command is answered at once exactly when it is no mock request,
      another one is running, a callback is set, the latest valid answer since the last
      reset has a positive time, and the server chosen when its fix first came is the one
      now chosen; it gets that fix and that time. */
  lemma {:induction false} HandOutExactly(hasKey: bool, backend: Backend, events: seq<Event>, mock: bool, posted: bool, readable: bool)
    ensures var n := Run(Initial(hasKey, backend), events);
            var atOnce := n.Start(mock, posted, readable).2;
            && |n.cache.answers| == |n.cache.times| == |n.cache.servers| > 0
            && (atOnce.Some? <==>
                  && !mock && n.enabled && n.running && n.callback
                  && Last(n.cache.times) > 0 && KeptUnder(n.cache.answers, n.cache.servers) == n.backend)
            && (atOnce.Some? ==> atOnce.value == TimedFix(Last(n.cache.answers), Last(n.cache.times)))
  {
    RunKeepsInv(hasKey, backend, events);
    HandsOut(Run(Initial(hasKey, backend), events), mock, posted, readable);
  }

  lemma HandsOut(n: Network, mock: bool, posted: bool, readable: bool)
    requires Inv(n)
    ensures var atOnce := n.Start(mock, posted, readable).2;
            && (atOnce.Some? <==>
                  && !mock && n.enabled && n.running && n.callback
                  && Last(n.cache.times) > 0 && KeptUnder(n.cache.answers, n.cache.servers) == n.backend)
            && (atOnce.Some? ==> atOnce.value == TimedFix(Last(n.cache.answers), Last(n.cache.times)))
  {
  }

  /** When a position command succeeds, with which code it fails otherwise, and what runs
      then: only a request that begins needs a key, and only Google's. */
  lemma StartExactly(n: Network, mock: bool, posted: bool, readable: bool)
    ensures var (m, code, _) := n.Start(mock, posted, readable);
            var keyMissing := n.backend == Google && !n.hasKey && !readable;
            && (code == NotStarted <==> !n.enabled)
            && (code == NetworkError <==> n.enabled && mock && !posted)
            && (code == LicenseKeyInvalid <==> n.enabled && !mock && !n.running && keyMissing)
            && (m.running <==> n.running || (n.enabled && !mock && !keyMissing))
            && (m.mockRunning <==> n.mockRunning || (n.enabled && mock && posted))
            && (m.hasKey <==> n.hasKey || (n.enabled && !mock && !n.running && n.backend == Google && readable))
            && m == n.(running := m.running, mockRunning := m.mockRunning, hasKey := m.hasKey)
  {
  }

  // What is put into queries.

  /** The cell of a query is one that telephony has registered, and not the last one. */
  predicate CellIsNews(n: Network, cell: Option<int>) {
    n.telephony && cell.Some? && cell.value != n.cellId
  }

  predicate Carries(q: Option<Query>, cell: Option<int>, wifi: Option<Scan>) {
    q == if cell.None? && wifi.None? then None else Some(Query(cell, wifi))
  }

  /** The query carries the scan if Wi-Fi is on and the scan is news, and the cell if that is
      news; without either there is none. */
  ghost predicate CarriesNews(q: Option<Query>, n: Network) {
    var scanNews := n.wifi && n.accessPoints.Some? && ScanIsNews(n.detector.consulted, n.accessPoints.value);
    Carries(q, if CellIsNews(n, n.cellInfo) then n.cellInfo else None, if scanNews then n.accessPoints else None)
  }

  lemma {:induction false} TriggerCarries(n: Network)
    requires Inv(n)
    ensures CarriesNews(n.Trigger().1, n)
    ensures n.Trigger().0.cellId == if CellIsNews(n, n.cellInfo) then n.cellInfo.value else n.cellId
  {
    if n.accessPoints.Some? {
      ConsultedExactly(n.detector.consulted, n.accessPoints.value);
    }
  }

  /** The query an event sends. */
  ghost function QueryOf(n: Network, e: Event): Option<Query> {
    match e
    case CellData(cell) => n.UpdateCell(cell).1
    case WifiData(aps) => n.UpdateWifi(aps).1
    case UpdateTimer => n.Tick().1
    case _ => None
  }

  /** A list of access points is put into a query exactly if Wi-Fi is on and it is news, and
      a registered cell that is news with it. The first cell data after a start and the
      minute timer, if the provider is online, send the cell alone while Wi-Fi is off. */
  lemma {:induction false} QueriesExactly(n: Network, e: Event)
    requires Inv(n)
    ensures match e
            case WifiData(aps) =>
              var scan := aps.GetOr(map[]);
              Carries(QueryOf(n, e), if CellIsNews(n, n.cellInfo) then n.cellInfo else None,
                      if n.wifi && ScanIsNews(n.detector.consulted, scan) then Some(scan) else None)
            case CellData(cell) =>
              && Carries(QueryOf(n, e), if n.firstCell && !n.wifi && CellIsNews(n, cell) then cell else None, None)
              && n.Step(e).firstCell == (n.firstCell && n.wifi)
            case UpdateTimer =>
              Carries(QueryOf(n, e), if n.online && !n.wifi && CellIsNews(n, n.cellInfo) then n.cellInfo else None, None)
            case _ => QueryOf(n, e) == None
  {
    if e.WifiData? {
      TriggerCarries(n.(accessPoints := Some(e.aps.GetOr(map[]))));
    } else if e.CellData? {
      TriggerCarries(n.(cellInfo := e.cell, firstCell := false));
    } else if e.UpdateTimer? {
      TriggerCarries(n);
    }
  }

  /** What makes the provider forget the cell: a loss of telephony and a reset. */
  predicate ForgetsCell(n: Network, e: Event) {
    e == TelephonyStatus(false) || (e == Process(StopPositionCmd) && n.Stop().1 == NoError)
  }

  /** The cell queried last in a run, and the one telephony registered last. */
  ghost function LastCell(n: Network, events: seq<Event>): int {
    if events == [] then n.cellId
    else
      var front, e := events[..|events| - 1], events[|events| - 1];
      var q := QueryOf(Run(n, front), e);
      if ForgetsCell(Run(n, front), e) then 0
      else if q.Some? && q.value.cell.Some? then q.value.cell.value
      else LastCell(n, front)
  }

  ghost function LastRegistered(n: Network, events: seq<Event>): Option<int> {
    if events == [] then n.cellInfo
    else
      var front, e := events[..|events| - 1], events[|events| - 1];
      if ForgetsCell(Run(n, front), e) then None
      else if e.CellData? then e.cell
      else LastRegistered(n, front)
  }

  lemma {:induction false} CellQueried(n: Network, e: Event)
    requires Inv(n) && (e.WifiData? || e.CellData? || e.UpdateTimer?)
    ensures var q := QueryOf(n, e);
            n.Step(e).cellId == if q.Some? && q.value.cell.Some? then q.value.cell.value else n.cellId
    ensures n.Step(e).cellInfo == if e.CellData? then e.cell else n.cellInfo
  {
    if e.WifiData? {
      TriggerCarries(n.(accessPoints := Some(e.aps.GetOr(map[]))));
    } else if e.CellData? {
      TriggerCarries(n.(cellInfo := e.cell, firstCell := false));
    } else {
      TriggerCarries(n);
    }
  }

  ghost predicate ForgottenOrKept(n: Network, e: Event) {
    && n.Step(e).cellId == (if ForgetsCell(n, e) then 0 else n.cellId)
    && n.Step(e).cellInfo == (if ForgetsCell(n, e) then None else n.cellInfo)
  }

  lemma RequestForgets(n: Network, request: Request)
    ensures ForgottenOrKept(n, Process(request))
  {
  }

  lemma StatusForgets(n: Network, e: Event)
    requires e.WifiStatus? || e.TelephonyStatus? || e.ConnectivityStatus? || e.ChooseBackend? || e.Response?
    ensures ForgottenOrKept(n, e)
  {
  }

  /** In every run the registered cell is compared with the one queried last. */
  lemma {:induction false} CellComparedWithLast(hasKey: bool, backend: Backend, events: seq<Event>)
    ensures var n := Initial(hasKey, backend);
            Run(n, events).cellId == LastCell(n, events) && Run(n, events).cellInfo == LastRegistered(n, events)
  {
    if events == [] {
    } else {
      var front, e := events[..|events| - 1], events[|events| - 1];
      var n := Run(Initial(hasKey, backend), front);
      CellComparedWithLast(hasKey, backend, front);
      RunKeepsInv(hasKey, backend, front);
      if e.WifiData? || e.CellData? || e.UpdateTimer? {
        CellQueried(n, e);
      } else if e.Process? {
        RequestForgets(n, e.request);
      } else {
        StatusForgets(n, e);
      }
    }
  }

  /** The time is positive only after a valid answer, and always then if the clock is after
      1970. */
  lemma {:induction false} PositiveOnceAnswered(hasKey: bool, backend: Backend, events: seq<Event>)
    ensures var c := Run(Initial(hasKey, backend), events).cache;
            && c.times != [] && |c.answers| == |c.times|
            && (Last(c.times) > 0 ==> |c.answers| > 1)
            && ((forall i :: 0 < i < |c.times| ==> c.times[i] > 0) ==> (Last(c.times) > 0 <==> |c.answers| > 1))
  {
    RunKeepsInv(hasKey, backend, events);
  }

  /** An answer is reported exactly when it is valid and differs from the last one. */
  lemma ReportedWhenNew(n: Network, f: NetworkFix, now: int)
    requires Inv(n) && n.callback
    ensures n.Respond(Answer(f), now).1 ==
            if f == Last(n.cache.answers) then None else Some(NewFix(TimedFix(f, now)))
    ensures n.Respond(Answer(f), now).0.cache.reports ==
            n.cache.reports + if f == Last(n.cache.answers) then [] else [f]
  {
  }

  /** mFixBackend is the server chosen when a fix is stored, not the one it came from: an
      answer of server `origin` is handed out only for `origin` exactly when it is new and
      `origin` is still the chosen server at its arrival, or it repeats the last fix and
      that one is kept under `origin`. */
  lemma HandedOutForItsOwnServer(n: Network, f: NetworkFix, now: int, origin: Backend)
    requires n.callback && now > 0
    ensures var m := n.Respond(Answer(f), now).0;
            (forall chosen: Backend :: m.(backend := chosen).HandOut().Some? ==> chosen == origin)
            <==> origin == if f == n.cache.fix then n.cache.backend else n.backend
  {
    var m := n.Respond(Answer(f), now).0;
    assert m.(backend := m.cache.backend).HandOut() == Some(TimedFix(f, now));
  }

  /** Two runs that show it. Asked of beaconDB, answered after the switch to Google: */
  lemma HandedOutForTheOtherServer(f: NetworkFix, now: int)
    requires f != NO_FIX && now > 0
    ensures var n := Run(Initial(true, BeaconDB),
                         [Process(PositionCmd(false, true, true)), ChooseBackend(Google), Response(Answer(f), now)]);
            n.running && n.backend == Google && n.HandOut() == Some(TimedFix(f, now))
  {
    var events := [Process(PositionCmd(false, true, true)), ChooseBackend(Google), Response(Answer(f), now)];
    var n := Initial(true, BeaconDB);
    assert events[..2][..1] == events[..1] && events[..1][..0] == [];
    assert Run(n, events[..1]) == n.Step(events[0]);
    assert Run(n, events[..2]) == Run(n, events[..1]).Step(events[1]);
  }

  /** and answered by Google with the fix that beaconDB had given: after the switch back
      Google's answer, known by its time, is handed out for beaconDB. */
  lemma RepeatedFixHandedOutForTheOtherServer(f: NetworkFix, now: int, later: int)
    requires f != NO_FIX && later > 0
    ensures var n := Initial(true, BeaconDB).Step(Process(PositionCmd(false, true, true)))
                     .Step(Response(Answer(f), now)).Step(ChooseBackend(Google))
                     .Step(Response(Answer(f), later)).Step(ChooseBackend(BeaconDB));
            n.HandOut() == Some(TimedFix(f, later))
  {
    var n := Initial(true, BeaconDB).Step(Process(PositionCmd(false, true, true))).Step(Response(Answer(f), now));
    assert n.cache.fix == f && n.cache.backend == BeaconDB && n.callback;
  }

  /** A stop ends the running request, unless a mock request is running as well: then only
      that one is ended. */
  lemma StopExactly(n: Network)
    requires n.enabled
    ensures n.Stop().1 == NoError <==> n.running || n.mockRunning
    ensures n.Stop().1 != NoError ==> n.Stop() == (n, NotStarted)
    ensures n.Stop().0.running <==> n.running && n.mockRunning
    ensures !n.Stop().0.mockRunning
    ensures n.Stop().1 == NoError ==>
              n.Stop().0.cache.HasNothing() && n.Stop().0.detector == Detector(None, [])
    ensures n.Stop().0.firstCell <==> n.firstCell || (n.running && !n.mockRunning)
  {
  }

  /** The provider object. The fields of its NetworkPositionData struct that belong to
      the last fix and to the detector are kept together with their histories. */
  class NetworkPositionProvider {
    var enabled: bool
    var callback: bool
    var processRequestInProgress: bool
    var mockRequestInProgress: bool
    var wifiStatus: bool
    var telephonyPowered: bool
    var connectivityStatus: bool
    var isFirstCellResponse: bool
    var hasKey: bool
    var cellInfo: Option<int>
    var curCellId: int
    var wifiAccessPointsList: Option<Scan>
    var currentBackend: Backend
    var cache: FixCache
    var detector: Detector

    function State(): Network
      reads this
    {
      Network(enabled, callback, processRequestInProgress, mockRequestInProgress, wifiStatus,
              telephonyPowered, connectivityStatus, isFirstCellResponse, hasKey, cellInfo, curCellId,
              wifiAccessPointsList, currentBackend, cache, detector)
    }

    constructor (hasKey: bool, backend: Backend)
      ensures State() == Initial(hasKey, backend) && Inv(State())
    {
      this.hasKey, currentBackend := hasKey, backend;
      enabled, callback := true, true;
      processRequestInProgress, mockRequestInProgress := false, false;
      wifiStatus, telephonyPowered, connectivityStatus, isFirstCellResponse := false, false, false, true;
      cellInfo, curCellId, wifiAccessPointsList := None, 0, None;
      cache := FixCache(NO_FIX, 0, BeaconDB, [NO_FIX], [0], [BeaconDB], [NO_FIX]);
      detector := Detector(None, []);
      new;
      RunKeepsInv(hasKey, backend, []);
    }

    method ResetData()
      modifies `cache, `detector, `wifiAccessPointsList, `cellInfo, `curCellId
      ensures State() == old(State()).Reset()
    {
      cache := cache.(fix := NO_FIX, time := 0, answers := [NO_FIX], times := [0], servers := [cache.backend], reports := [NO_FIX]);
      detector := Detector(None, []);
      wifiAccessPointsList := None;
      cellInfo := None;
      curCellId := 0;
    }

    method ParseCellData() returns (cell: Option<int>)
      modifies `curCellId
      ensures cell == old(State()).CellNews()
      ensures curCellId == cell.GetOr(old(curCellId))
    {
      cell := None;
      if cellInfo.Some? && cellInfo.value != curCellId {
        curCellId := cellInfo.value;
        cell := cellInfo;
      }
    }

    method ParseWifiData() returns (query: Option<Scan>)
      modifies `detector
      ensures (detector, query) == old(State()).WifiNews()
      ensures DetectorInv(old(detector)) ==>
                query == if wifiAccessPointsList.Some? && ScanIsNews(old(detector.consulted), wifiAccessPointsList.value)
                         then wifiAccessPointsList else None
    {
      if wifiAccessPointsList.Some? {
        ConsultedExactly(detector.consulted, wifiAccessPointsList.value);
      }
      if wifiAccessPointsList.None? {
        return None;
      }
      var aps := wifiAccessPointsList.value;
      var isFirst := detector.lastAps.None?;
      var changed := false;
      if |aps| >= 2 && !isFirst {
        changed := SignalChanged(aps, detector.lastAps.value);
      }
      if |aps| >= 2 && (isFirst || changed) {
        var table := CopyTable(aps);
        detector := Detector(Some(table), detector.consulted + [Consultation(aps, true)]);
        return Some(table);
      }
      detector := detector.(consulted := detector.consulted + [Consultation(aps, false)]);
      return None;
    }

    method TriggerPostQuery() returns (query: Option<Query>)
      modifies `curCellId, `detector
      ensures (State(), query) == old(State()).Trigger()
      ensures Inv(old(State())) ==> CarriesNews(query, old(State()))
    {
      if Inv(State()) {
        TriggerCarries(State());
      }
      var cell: Option<int>, aps: Option<Scan> := None, None;
      if telephonyPowered {
        cell := ParseCellData();
      }
      if wifiStatus {
        aps := ParseWifiData();
      }
      query := if cell.Some? || aps.Some? then Some(Query(cell, aps)) else None;
    }

    method OnUpdateCellData(cell: Option<int>) returns (query: Option<Query>)
      modifies this
      ensures (State(), query) == old(State()).UpdateCell(cell)
    {
      query := None;
      cellInfo := cell;
      if isFirstCellResponse && !wifiStatus {
        isFirstCellResponse := false;
        query := TriggerPostQuery();
      }
    }

    method OnUpdateWifiData(aps: Option<Scan>) returns (query: Option<Query>)
      modifies this
      ensures (State(), query) == old(State()).UpdateWifi(aps)
    {
      wifiAccessPointsList := Some(aps.GetOr(map[]));
      query := TriggerPostQuery();
    }

    method NetworkUpdateCallback() returns (query: Option<Query>, report: Option<Report>)
      modifies this
      ensures (State(), query, report) == old(State()).Tick()
    {
      query, report := None, None;
      if !connectivityStatus {
        report := Some(ConnectionLost);
        return;
      }
      if !wifiStatus && telephonyPowered {
        query := TriggerPostQuery();
      }
    }

    method HandleResponse(response: Response, now: int) returns (report: Option<Report>)
      modifies `cache
      ensures (State(), report) == old(State()).Respond(response, now)
    {
      report := None;
      match response {
        case Unusable =>
        case HttpError =>
          report := if callback then Some(ConnectionLost) else None;
        case Answer(f) =>
          cache := cache.(answers := cache.answers + [f], times := cache.times + [now], servers := cache.servers + [currentBackend]);
          if f == cache.fix {
            cache := cache.(time := now);
            return;
          }
          cache := cache.(fix := f, backend := currentBackend, time := now, reports := cache.reports + [f]);
          report := if callback then Some(NewFix(TimedFix(f, now))) else None;
      }
    }

    method StartRequest(mock: bool, posted: bool, readable: bool)
      returns (code: Code, atOnce: Option<TimedFix>)
      modifies this
      ensures (State(), code, atOnce) == old(State()).Start(mock, posted, readable)
      ensures CacheInv(old(cache)) ==>
                && (atOnce.Some? <==>
                      && !mock && enabled && old(processRequestInProgress) && callback
                      && Last(cache.times) > 0 && KeptUnder(cache.answers, cache.servers) == currentBackend)
                && (atOnce.Some? ==> atOnce.value == TimedFix(Last(cache.answers), Last(cache.times)))
    {
      atOnce := None;
      if !enabled {
        return NotStarted, None;
      }
      if mock {
        if !posted {
          return NetworkError, None;
        }
        mockRequestInProgress := true;
        return NoError, None;
      }
      if processRequestInProgress {
        if callback && cache.time > 0 && cache.backend == currentBackend {
          atOnce := Some(TimedFix(cache.fix, cache.time));
        }
        return NoError, atOnce;
      }
      if currentBackend == Google && !hasKey {
        hasKey := readable;
        if !hasKey {
          return LicenseKeyInvalid, None;
        }
      }
      processRequestInProgress := true;
      return NoError, None;
    }

    method StopRequest() returns (code: Code)
      modifies this
      ensures (State(), code) == old(State()).Stop()
    {
      if !enabled {
        return NotStarted;
      }
      if mockRequestInProgress {
        mockRequestInProgress := false;
        ResetData();
        return NoError;
      }
      if !processRequestInProgress {
        return NotStarted;
      }
      processRequestInProgress := false;
      ResetData();
      isFirstCellResponse := true;
      return NoError;
    }
  }
}
