/** The GPS position provider: the flag word of running APIs, the engine and the
    position timer, changed only by `processRequest`.

    The GNSS HAL is an environment that answers yes or no. Its answer to the n-th call
    ever made to it is `answers(ToStart, n)` if that is a start and `answers(ToStop, n)` if
    it is a stop, so a statement about every `answers` is a statement about every HAL.
    Every call is kept, with its answer, in `hal`.
 */
module GpsProvider {
  import opened Common

  datatype Wish = ToStart | ToStop

  type Answers = (Wish, nat) -> bool

  /** The bits of mAPIProgressFlag that processRequest sets. */
  datatype Flag = NmeaDataOn | SatelliteDataOn | LocationUpdatesOn

  datatype Command =
    | PositionCmd
    | NmeaCmd
    | SatelliteCmd
    | SetParametersCmd(mode: int, interval: int)
    | StopGpsCmd
    | StopNmeaCmd
    | StopSatelliteCmd
    | StopPositionCmd

  datatype ErrorCode = NoError | NotAvailable | DuplicateRequest | NotStarted

  datatype HalCall =
    | Start(ok: bool)
    | Stop(ok: bool)
    | SetPositionMode(mode: int, interval: int)

  const DEFAULT_FIX_INTERVAL: int := 1000

  /** The provider's fields, and the calls made to the HAL so far. `posTimer` is 0
      or the id of a GLib source; ids are handed out from `nextSource`. */
  datatype Provider = Provider(
    enabled: bool, flags: set<Flag>, engineStarted: bool, posTimer: nat, nextSource: nat,
    modified: bool, mode: int, interval: int, defaultMode: int, hal: seq<HalCall>)
  {
    function Call(c: HalCall): Provider {
      this.(hal := hal + [c])
    }

    function PeriodicUpdates(): Provider {
      Call(SetPositionMode(mode, interval))
    }

    function GpsEnable(answers: Answers): (Provider, bool) {
      if engineStarted then (this, true)
      else
        var ok := answers(ToStart, |hal|);
        (Call(Start(ok)).(engineStarted := ok), ok)
    }

    function ResetParameters(): Provider {
      if modified then
        Call(SetPositionMode(defaultMode, DEFAULT_FIX_INTERVAL))
        .(mode := defaultMode, interval := DEFAULT_FIX_INTERVAL, modified := false)
      else this
    }

    function GpsDisable(answers: Answers): (Provider, bool) {
      if !engineStarted then (this, true)
      else
        var p := ResetParameters();
        var ok := answers(ToStop, |p.hal|);
        (p.Call(Stop(ok)).(engineStarted := !ok), ok)
    }

    function EngineStart(answers: Answers): (Provider, bool) {
      PeriodicUpdates().GpsEnable(answers)
    }

    /** A start command for the API of `flag`. */
    function StartApi(flag: Flag, answers: Answers): (Provider, ErrorCode) {
      if flag in flags then (this, DuplicateRequest)
      else
        var (p, ok) := EngineStart(answers);
        if !ok then (p, NotAvailable)
        else
          var q := if flag == LocationUpdatesOn && p.posTimer == 0
                   then p.(posTimer := p.nextSource, nextSource := p.nextSource + 1) else p;
          (q.(flags := q.flags + {flag}), NoError)
    }

    /** A stop command for the API of `flag`: the last one out stops the engine. */
    function StopApi(flag: Flag, answers: Answers): (Provider, ErrorCode) {
      var p := this.(flags := flags - {flag},
                     posTimer := if flag == LocationUpdatesOn then 0 else posTimer);
      if p.flags == {} then
        var (q, ok) := p.GpsDisable(answers);
        (q, if ok then NoError else NotAvailable)
      else (p, NoError)
    }

    function StopAll(answers: Answers): (Provider, ErrorCode) {
      if !engineStarted then (this, NoError)
      else
        var (p, ok) := GpsDisable(answers);
        if ok then (p.(flags := {}, posTimer := 0), NoError) else (p, NotAvailable)
    }

    function SetParameters(newMode: int, newInterval: int): Provider {
      Call(SetPositionMode(newMode, newInterval))
      .(mode := newMode, interval := newInterval, modified := true)
    }

    function Process(cmd: Command, answers: Answers): (Provider, ErrorCode) {
      if !enabled then (this, NotStarted)
      else match cmd
        case PositionCmd => StartApi(LocationUpdatesOn, answers)
        case NmeaCmd => StartApi(NmeaDataOn, answers)
        case SatelliteCmd => StartApi(SatelliteDataOn, answers)
        case SetParametersCmd(m, i) => (SetParameters(m, i), NoError)
        case StopGpsCmd => StopAll(answers)
        case StopNmeaCmd => StopApi(NmeaDataOn, answers)
        case StopSatelliteCmd => StopApi(SatelliteDataOn, answers)
        case StopPositionCmd => StopApi(LocationUpdatesOn, answers)
    }
  }

  /** The provider as `init` leaves it: `enabled` only if the HAL could be opened. */
  function Initial(enabled: bool, defaultMode: int): Provider {
    Provider(enabled, {}, false, 0, 1, false, defaultMode, DEFAULT_FIX_INTERVAL, defaultMode,
             [SetPositionMode(defaultMode, DEFAULT_FIX_INTERVAL)])
  }

  function Run(p: Provider, cmds: seq<Command>, answers: Answers): Provider {
    if cmds == [] then p
    else Run(p, cmds[..|cmds| - 1], answers).Process(cmds[|cmds| - 1], answers).0
  }

  // What a log of HAL calls says, read without the provider's fields.

  /** Whether the engine runs after these calls: the last granted start or stop decides. */
  predicate EngineAfter(hal: seq<HalCall>) {
    if hal == [] then false
    else match hal[|hal| - 1]
      case Start(true) => true
      case Stop(true) => false
      case _ => EngineAfter(hal[..|hal| - 1])
  }

  /** The position mode and interval the HAL was told last. */
  function ModeAfter(hal: seq<HalCall>): Option<(int, int)> {
    if hal == [] then None
    else match hal[|hal| - 1]
      case SetPositionMode(m, i) => Some((m, i))
      case _ => ModeAfter(hal[..|hal| - 1])
  }

  /** Starts are only asked of a stopped engine and stops only of a running one, which
      has just been told the default parameters. */
  ghost predicate Orderly(hal: seq<HalCall>, defaultMode: int) {
    forall i :: 0 <= i < |hal| ==>
      (hal[i].Start? ==> !EngineAfter(hal[..i])) &&
      (hal[i].Stop? ==> EngineAfter(hal[..i])
                        && ModeAfter(hal[..i]) == Some((defaultMode, DEFAULT_FIX_INTERVAL)))
  }

  ghost predicate NoFailedStop(hal: seq<HalCall>) {
    Stop(false) !in hal
  }

  ghost predicate FieldsOk(p: Provider) {
    && (p.flags != {} ==> p.engineStarted)
    && (NoFailedStop(p.hal) && p.engineStarted ==> p.flags != {})
    && (p.posTimer != 0 <==> LocationUpdatesOn in p.flags)
    && ParametersOk(p)
    && p.nextSource != 0
    && (!p.enabled ==> !p.engineStarted)
  }

  predicate ParametersOk(p: Provider) {
    !p.modified ==> p.mode == p.defaultMode && p.interval == DEFAULT_FIX_INTERVAL
  }

  /** The log agrees with the fields. */
  ghost predicate LogOk(hal: seq<HalCall>, engineStarted: bool, mode: int, interval: int, defaultMode: int) {
    EngineAfter(hal) == engineStarted && ModeAfter(hal) == Some((mode, interval)) && Orderly(hal, defaultMode)
  }

  ghost predicate Inv(p: Provider) {
    FieldsOk(p) && LogOk(p.hal, p.engineStarted, p.mode, p.interval, p.defaultMode)
  }

  lemma CallKeeps(p: Provider, c: HalCall)
    requires Orderly(p.hal, p.defaultMode)
    requires c.Start? ==> !EngineAfter(p.hal)
    requires c.Stop? ==> EngineAfter(p.hal)
    requires c.Stop? ==> ModeAfter(p.hal) == Some((p.defaultMode, DEFAULT_FIX_INTERVAL))
    ensures Orderly(p.Call(c).hal, p.defaultMode)
    ensures EngineAfter(p.Call(c).hal) ==
            if c == Start(true) then true else if c == Stop(true) then false else EngineAfter(p.hal)
    ensures ModeAfter(p.Call(c).hal) ==
            if c.SetPositionMode? then Some((c.mode, c.interval)) else ModeAfter(p.hal)
    ensures NoFailedStop(p.Call(c).hal) <==> NoFailedStop(p.hal) && c != Stop(false)
  {
    var log := p.Call(c).hal;
    assert log[..|log| - 1] == p.hal;
    forall i | 0 <= i < |p.hal|
      ensures log[..i] == p.hal[..i] && log[i] == p.hal[i]
    {
    }
    assert log[..|p.hal|] == p.hal;
  }

  lemma EngineStartLog(p: Provider, answers: Answers)
    requires LogOk(p.hal, p.engineStarted, p.mode, p.interval, p.defaultMode)
    ensures var q := p.EngineStart(answers).0;
            LogOk(q.hal, q.engineStarted, q.mode, q.interval, q.defaultMode)
  {
    CallKeeps(p, SetPositionMode(p.mode, p.interval));
    var p1 := p.PeriodicUpdates();
    if !p1.engineStarted {
      CallKeeps(p1, Start(answers(ToStart, |p1.hal|)));
    }
  }

  lemma EngineStartFacts(p: Provider, answers: Answers)
    ensures var (q, ok) := p.EngineStart(answers);
            && q == p.(engineStarted := ok, hal := q.hal)
            && (p.engineStarted ==> ok)
            && (NoFailedStop(q.hal) <==> NoFailedStop(p.hal))
            && (!ok ==> q.hal == p.hal + [SetPositionMode(p.mode, p.interval), Start(false)])
  {
    var told := p.hal + [SetPositionMode(p.mode, p.interval)];
    assert told + [Start(false)] == p.hal + [SetPositionMode(p.mode, p.interval), Start(false)];
  }

  lemma DisableLog(p: Provider, answers: Answers)
    requires LogOk(p.hal, p.engineStarted, p.mode, p.interval, p.defaultMode) && ParametersOk(p)
    ensures var q := p.GpsDisable(answers).0;
            LogOk(q.hal, q.engineStarted, q.mode, q.interval, q.defaultMode)
  {
    if p.engineStarted {
      if p.modified {
        CallKeeps(p, SetPositionMode(p.defaultMode, DEFAULT_FIX_INTERVAL));
      }
      var p1 := p.ResetParameters();
      CallKeeps(p1, Stop(answers(ToStop, |p1.hal|)));
    }
  }

  lemma DisableFacts(p: Provider, answers: Answers)
    requires ParametersOk(p)
    ensures var (q, ok) := p.GpsDisable(answers);
            && q == p.(engineStarted := !ok, hal := q.hal, mode := q.mode, interval := q.interval, modified := q.modified)
            && ParametersOk(q) && (p.engineStarted ==> !q.modified)
            && (!ok ==> p.engineStarted)
            && (NoFailedStop(q.hal) <==> NoFailedStop(p.hal) && ok)
  {
    if p.engineStarted {
      var r := p.ResetParameters();
      assert NoFailedStop(r.hal) <==> NoFailedStop(p.hal);
      var ok := answers(ToStop, |r.hal|);
      assert (r.hal + [Stop(ok)])[|r.hal|] == Stop(ok);
    }
  }

  lemma StartApiFields(p: Provider, flag: Flag, answers: Answers)
    requires FieldsOk(p) && p.enabled
    ensures FieldsOk(p.StartApi(flag, answers).0)
  {
    EngineStartFacts(p, answers);
  }

  lemma StartApiLog(p: Provider, flag: Flag, answers: Answers)
    requires LogOk(p.hal, p.engineStarted, p.mode, p.interval, p.defaultMode)
    ensures var q := p.StartApi(flag, answers).0;
            LogOk(q.hal, q.engineStarted, q.mode, q.interval, q.defaultMode)
  {
    EngineStartLog(p, answers);
  }

  /** A start command is a duplicate exactly when its API runs already, and then nothing
      happens; it succeeds exactly when the engine runs or the HAL starts it, and then
      only its own flag is added; a refused start leaves the flags as they were. */
  ghost predicate StartApiDone(q: Provider, code: ErrorCode, p: Provider, flag: Flag) {
    && q.enabled == p.enabled && q.defaultMode == p.defaultMode
    && (NoFailedStop(q.hal) <==> NoFailedStop(p.hal))
    && (code == DuplicateRequest <==> flag in p.flags)
    && (code == DuplicateRequest ==> q == p)
    && (code == NoError <==> flag !in p.flags && q.engineStarted)
    && (code == NoError ==> q.flags == p.flags + {flag})
    && (code == NotAvailable ==>
          q.flags == p.flags == {} && q.hal == p.hal + [SetPositionMode(p.mode, p.interval), Start(false)])
    && code != NotStarted
  }

  lemma StartApiFacts(p: Provider, flag: Flag, answers: Answers)
    requires p.flags != {} ==> p.engineStarted
    ensures StartApiDone(p.StartApi(flag, answers).0, p.StartApi(flag, answers).1, p, flag)
  {
    EngineStartFacts(p, answers);
  }

  lemma StartApiEffect(p: Provider, flag: Flag, answers: Answers)
    requires Inv(p) && p.enabled
    ensures Inv(p.StartApi(flag, answers).0)
    ensures StartApiDone(p.StartApi(flag, answers).0, p.StartApi(flag, answers).1, p, flag)
  {
    StartApiFields(p, flag, answers);
    StartApiLog(p, flag, answers);
    StartApiFacts(p, flag, answers);
  }

  function Cleared(p: Provider, flag: Flag): Provider {
    p.(flags := p.flags - {flag}, posTimer := if flag == LocationUpdatesOn then 0 else p.posTimer)
  }

  lemma StopApiLog(p: Provider, flag: Flag, answers: Answers)
    requires LogOk(p.hal, p.engineStarted, p.mode, p.interval, p.defaultMode) && ParametersOk(p)
    ensures var q := p.StopApi(flag, answers).0;
            LogOk(q.hal, q.engineStarted, q.mode, q.interval, q.defaultMode)
  {
    DisableLog(Cleared(p, flag), answers);
  }

  lemma StopApiFields(p: Provider, flag: Flag, answers: Answers)
    requires FieldsOk(p)
    ensures FieldsOk(p.StopApi(flag, answers).0)
  {
    DisableFacts(Cleared(p, flag), answers);
  }

  /** A stop command clears its flag, whatever the HAL says, and leaves the others; the
      engine is stopped exactly when no flag is left and the HAL agrees. */
  ghost predicate StopApiDone(q: Provider, code: ErrorCode, p: Provider, flag: Flag) {
    && q.enabled == p.enabled && q.defaultMode == p.defaultMode
    && q.flags == p.flags - {flag}
    && (q.flags != {} ==> code == NoError && q.hal == p.hal)
    && (q.flags == {} ==> (code == NoError <==> !q.engineStarted))
    && (code != NoError ==> code == NotAvailable && !NoFailedStop(q.hal))
    && (NoFailedStop(q.hal) ==> NoFailedStop(p.hal))
  }

  lemma StopApiEffect(p: Provider, flag: Flag, answers: Answers)
    requires Inv(p)
    ensures Inv(p.StopApi(flag, answers).0)
    ensures StopApiDone(p.StopApi(flag, answers).0, p.StopApi(flag, answers).1, p, flag)
  {
    StopApiLog(p, flag, answers);
    StopApiFields(p, flag, answers);
    StopApiFacts(p, flag, answers);
  }

  lemma StopApiFacts(p: Provider, flag: Flag, answers: Answers)
    requires ParametersOk(p)
    ensures StopApiDone(p.StopApi(flag, answers).0, p.StopApi(flag, answers).1, p, flag)
  {
    DisableFacts(Cleared(p, flag), answers);
  }

  /** stopGPS takes every API down at once, or, when the HAL refuses, none. */
  lemma StopAllEffect(p: Provider, answers: Answers)
    requires Inv(p)
    ensures var (q, code) := p.StopAll(answers);
            && Inv(q) && q.enabled == p.enabled && q.defaultMode == p.defaultMode
            && (code == NoError ==> q.flags == {} && !q.engineStarted)
            && (code != NoError ==> code == NotAvailable && q.flags == p.flags && !NoFailedStop(q.hal))
            && (NoFailedStop(q.hal) ==> NoFailedStop(p.hal))
  {
    DisableFacts(p, answers);
    DisableLog(p, answers);
  }

  lemma ProcessKeepsInv(p: Provider, cmd: Command, answers: Answers)
    requires Inv(p)
    ensures var q := p.Process(cmd, answers).0;
            && Inv(q) && q.enabled == p.enabled && q.defaultMode == p.defaultMode
            && (NoFailedStop(q.hal) ==> NoFailedStop(p.hal))
  {
    if p.enabled {
      match cmd {
        case PositionCmd => StartApiEffect(p, LocationUpdatesOn, answers);
        case NmeaCmd => StartApiEffect(p, NmeaDataOn, answers);
        case SatelliteCmd => StartApiEffect(p, SatelliteDataOn, answers);
        case SetParametersCmd(m, i) => CallKeeps(p, SetPositionMode(m, i));
        case StopGpsCmd => StopAllEffect(p, answers);
        case StopNmeaCmd => StopApiEffect(p, NmeaDataOn, answers);
        case StopSatelliteCmd => StopApiEffect(p, SatelliteDataOn, answers);
        case StopPositionCmd => StopApiEffect(p, LocationUpdatesOn, answers);
      }
    }
  }

  /** Every provider state that any commands and any HAL can produce. */
  lemma {:induction false} RunKeepsInv(enabled: bool, defaultMode: int, cmds: seq<Command>, answers: Answers)
    ensures Inv(Run(Initial(enabled, defaultMode), cmds, answers))
  {
    if cmds == [] {
      var p := Initial(enabled, defaultMode);
      assert p.hal[..0] == [];
    } else {
      RunKeepsInv(enabled, defaultMode, cmds[..|cmds| - 1], answers);
      ProcessKeepsInv(Run(Initial(enabled, defaultMode), cmds[..|cmds| - 1], answers),
                      cmds[|cmds| - 1], answers);
    }
  }

  /** A granted start or stop decides the engine until the opposite is granted. */
  lemma {:induction false} EngineHolds(hal: seq<HalCall>, i: nat, j: nat, on: bool)
    requires i < j <= |hal|
    requires hal[i] == (if on then Start(true) else Stop(true))
    requires forall k :: i < k < j ==> hal[k] != (if on then Stop(true) else Start(true))
    ensures EngineAfter(hal[..j]) == on
  {
    assert hal[..j][..j - 1] == hal[..j - 1];
    if i == j - 1 {
    } else {
      EngineHolds(hal, i, j - 1, on);
    }
  }

  /** Granted starts and granted stops alternate in every run. */
  lemma {:induction false} StartsAndStopsAlternate(enabled: bool, defaultMode: int, cmds: seq<Command>, answers: Answers, i: nat, j: nat)
    requires i < j < |Run(Initial(enabled, defaultMode), cmds, answers).hal|
    requires var hal := Run(Initial(enabled, defaultMode), cmds, answers).hal;
             hal[i] == hal[j] && (hal[i] == Start(true) || hal[i] == Stop(true))
    ensures var hal := Run(Initial(enabled, defaultMode), cmds, answers).hal;
            exists k :: i < k < j && hal[k] == (if hal[i].Start? then Stop(true) else Start(true))
  {
    RunKeepsInv(enabled, defaultMode, cmds, answers);
    var hal := Run(Initial(enabled, defaultMode), cmds, answers).hal;
    if forall k :: i < k < j ==> hal[k] != (if hal[i].Start? then Stop(true) else Start(true)) {
      EngineHolds(hal, i, j, hal[i].Start?);
      assert false;
    }
  }

  /** Whatever setGPSParameters asked for, once the engine has been stopped the provider
      and the HAL are back at the defaults. */
  lemma OverridesEndWithStop(enabled: bool, defaultMode: int, cmds: seq<Command>, cmd: Command, answers: Answers)
    requires var p := Run(Initial(enabled, defaultMode), cmds, answers);
             p.engineStarted && !p.Process(cmd, answers).0.engineStarted
    ensures var q := Run(Initial(enabled, defaultMode), cmds, answers).Process(cmd, answers).0;
            !q.modified && ModeAfter(q.hal) == Some((q.mode, q.interval)) == Some((defaultMode, DEFAULT_FIX_INTERVAL))
  {
    RunKeepsInv(enabled, defaultMode, cmds, answers);
    RunKeepsDefault(enabled, defaultMode, cmds, answers);
    ProcessKeepsInv(Run(Initial(enabled, defaultMode), cmds, answers), cmd, answers);
  }

  lemma {:induction false} RunKeepsDefault(enabled: bool, defaultMode: int, cmds: seq<Command>, answers: Answers)
    ensures var p := Run(Initial(enabled, defaultMode), cmds, answers);
            p.enabled == enabled && p.defaultMode == defaultMode
  {
    if cmds == [] {
    } else {
      RunKeepsDefault(enabled, defaultMode, cmds[..|cmds| - 1], answers);
      RunKeepsInv(enabled, defaultMode, cmds[..|cmds| - 1], answers);
      ProcessKeepsInv(Run(Initial(enabled, defaultMode), cmds[..|cmds| - 1], answers),
                      cmds[|cmds| - 1], answers);
    }
  }

  /** How often the HAL was asked to stop. */
  function StopsAsked(hal: seq<HalCall>): nat {
    if hal == [] then 0
    else StopsAsked(hal[..|hal| - 1]) + if hal[|hal| - 1].Stop? then 1 else 0
  }

  lemma StopsSnoc(hal: seq<HalCall>, c: HalCall)
    ensures StopsAsked(hal + [c]) == StopsAsked(hal) + if c.Stop? then 1 else 0
    ensures ModeAfter(hal + [c]) == if c.SetPositionMode? then Some((c.mode, c.interval)) else ModeAfter(hal)
  {
    assert (hal + [c])[..|hal|] == hal;
  }

  /** What the HAL is told by a start or a stop. */
  lemma StartTells(p: Provider, flag: Flag, answers: Answers)
    requires ModeAfter(p.hal) == Some((p.mode, p.interval))
    ensures var hal := p.StartApi(flag, answers).0.hal;
            StopsAsked(hal) == StopsAsked(p.hal) && ModeAfter(hal) == ModeAfter(p.hal)
  {
    var told := p.PeriodicUpdates();
    StopsSnoc(p.hal, SetPositionMode(p.mode, p.interval));
    StopsSnoc(told.hal, Start(answers(ToStart, |told.hal|)));
  }

  lemma DisableTells(p: Provider, answers: Answers)
    requires ModeAfter(p.hal) == Some((p.mode, p.interval)) && ParametersOk(p)
    ensures var hal := p.GpsDisable(answers).0.hal;
            && StopsAsked(hal) == StopsAsked(p.hal) + (if p.engineStarted then 1 else 0)
            && ModeAfter(hal) == if p.engineStarted then Some((p.defaultMode, DEFAULT_FIX_INTERVAL)) else ModeAfter(p.hal)
  {
    var r := p.ResetParameters();
    StopsSnoc(p.hal, SetPositionMode(p.defaultMode, DEFAULT_FIX_INTERVAL));
    StopsSnoc(r.hal, Stop(answers(ToStop, |r.hal|)));
  }

  /** In every run a command of setGPSParameters is told the HAL as it is, and holds until the
      HAL is asked to stop: no start and no other command changes it. */
  lemma {:induction false} ParametersHold(enabled: bool, defaultMode: int, cmds: seq<Command>, cmd: Command, answers: Answers)
    requires enabled
    ensures var p, q := Run(Initial(enabled, defaultMode), cmds, answers), Run(Initial(enabled, defaultMode), cmds + [cmd], answers);
            ModeAfter(q.hal) ==
            if cmd.SetParametersCmd? then Some((cmd.mode, cmd.interval))
            else if StopsAsked(q.hal) > StopsAsked(p.hal) then Some((defaultMode, DEFAULT_FIX_INTERVAL))
            else ModeAfter(p.hal)
  {
    assert (cmds + [cmd])[..|cmds|] == cmds;
    RunKeepsInv(enabled, defaultMode, cmds, answers);
    RunKeepsDefault(enabled, defaultMode, cmds, answers);
    ParametersStep(Run(Initial(enabled, defaultMode), cmds, answers), cmd, answers);
  }

  lemma ParametersStep(p: Provider, cmd: Command, answers: Answers)
    requires Inv(p) && p.enabled
    ensures var q := p.Process(cmd, answers).0;
            ModeAfter(q.hal) ==
            if cmd.SetParametersCmd? then Some((cmd.mode, cmd.interval))
            else if StopsAsked(q.hal) > StopsAsked(p.hal) then Some((p.defaultMode, DEFAULT_FIX_INTERVAL))
            else ModeAfter(p.hal)
  {
    match cmd {
      case PositionCmd => StartTells(p, LocationUpdatesOn, answers);
      case NmeaCmd => StartTells(p, NmeaDataOn, answers);
      case SatelliteCmd => StartTells(p, SatelliteDataOn, answers);
      case SetParametersCmd(m, i) => StopsSnoc(p.hal, SetPositionMode(m, i));
      case StopGpsCmd => DisableTells(p, answers);
      case StopNmeaCmd => DisableTells(Cleared(p, NmeaDataOn), answers);
      case StopSatelliteCmd => DisableTells(Cleared(p, SatelliteDataOn), answers);
      case StopPositionCmd => DisableTells(Cleared(p, LocationUpdatesOn), answers);
    }
  }

  /** The provider object. Each method does to the fields what the function of
      `Provider` it names does to their values. */
  class GPSPositionProvider {
    const answers: Answers
    const defaultMode: int
    var enabled: bool
    var apiProgressFlag: set<Flag>
    var engineStarted: bool
    var posTimer: nat
    var nextSource: nat
    var gpsParamModified: bool
    var positionMode: int
    var fixInterval: int
    var hal: seq<HalCall>

    function State(): Provider
      reads this
    {
      Provider(enabled, apiProgressFlag, engineStarted, posTimer, nextSource,
               gpsParamModified, positionMode, fixInterval, defaultMode, hal)
    }

    constructor (answers: Answers, defaultMode: int, halReady: bool)
      ensures State() == Initial(halReady, defaultMode) && Inv(State())
      ensures this.answers == answers && this.defaultMode == defaultMode
    {
      this.answers, this.defaultMode := answers, defaultMode;
      enabled := halReady;
      apiProgressFlag, engineStarted := {}, false;
      posTimer, nextSource := 0, 1;
      gpsParamModified, positionMode, fixInterval := false, defaultMode, DEFAULT_FIX_INTERVAL;
      hal := [SetPositionMode(defaultMode, DEFAULT_FIX_INTERVAL)];
      new;
      RunKeepsInv(halReady, defaultMode, [], answers);
    }

    method HandlePeriodicUpdates()
      modifies this
      ensures State() == old(State()).PeriodicUpdates()
    {
      hal := hal + [SetPositionMode(positionMode, fixInterval)];
    }

    method HandleGpsEnable() returns (ok: bool)
      modifies this
      ensures (State(), ok) == old(State()).GpsEnable(answers)
    {
      if engineStarted {
        return true;
      }
      var started := answers(ToStart, |hal|);
      hal := hal + [Start(started)];
      if !started {
        return false;
      }
      engineStarted := true;
      return true;
    }

    method HandleGpsDisable() returns (ok: bool)
      modifies this
      ensures (State(), ok) == old(State()).GpsDisable(answers)
    {
      if !engineStarted {
        return true;
      }
      if gpsParamModified {
        hal := hal + [SetPositionMode(defaultMode, DEFAULT_FIX_INTERVAL)];
        positionMode := defaultMode;
        fixInterval := DEFAULT_FIX_INTERVAL;
        gpsParamModified := false;
      }
      var stopped := answers(ToStop, |hal|);
      hal := hal + [Stop(stopped)];
      if !stopped {
        return false;
      }
      engineStarted := false;
      return true;
    }

    method HandleSetGpsParameter(mode: int, interval: int)
      modifies this
      ensures State() == old(State()).SetParameters(mode, interval)
    {
      hal := hal + [SetPositionMode(mode, interval)];
      positionMode := mode;
      fixInterval := interval;
      gpsParamModified := true;
    }

    method RequestGpsEngineStart() returns (code: ErrorCode)
      modifies this
      ensures var (p, ok) := old(State()).EngineStart(answers);
              State() == p && code == if ok then NoError else NotAvailable
    {
      HandlePeriodicUpdates();
      var ok := HandleGpsEnable();
      return if ok then NoError else NotAvailable;
    }

    method StopApi(flag: Flag) returns (code: ErrorCode)
      modifies this
      ensures (State(), code) == old(State()).StopApi(flag, answers)
    {
      if flag == LocationUpdatesOn && posTimer != 0 {
        posTimer := 0;
      }
      apiProgressFlag := apiProgressFlag - {flag};
      if apiProgressFlag == {} {
        if engineStarted {
          var ok := HandleGpsDisable();
          if !ok {
            return NotAvailable;
          }
        }
      }
      return NoError;
    }

    method ProcessRequest(cmd: Command) returns (code: ErrorCode)
      modifies this
      ensures (State(), code) == old(State()).Process(cmd, answers)
    {
      if !enabled {
        return NotStarted;
      }
      code := NoError;
      match cmd {
        case PositionCmd =>
          if LocationUpdatesOn in apiProgressFlag {
            return DuplicateRequest;
          }
          code := RequestGpsEngineStart();
          if code == NoError {
            if posTimer == 0 {
              posTimer := nextSource;
              nextSource := nextSource + 1;
            }
            apiProgressFlag := apiProgressFlag + {LocationUpdatesOn};
          }
        case NmeaCmd =>
          if NmeaDataOn in apiProgressFlag {
            return DuplicateRequest;
          }
          code := RequestGpsEngineStart();
          if code == NoError {
            apiProgressFlag := apiProgressFlag + {NmeaDataOn};
          }
        case SatelliteCmd =>
          if SatelliteDataOn in apiProgressFlag {
            return DuplicateRequest;
          }
          code := RequestGpsEngineStart();
          if code == NoError {
            apiProgressFlag := apiProgressFlag + {SatelliteDataOn};
          }
        case SetParametersCmd(mode, interval) =>
          HandleSetGpsParameter(mode, interval);
        case StopGpsCmd =>
          if engineStarted {
            var ok := HandleGpsDisable();
            if !ok {
              return NotAvailable;
            }
            apiProgressFlag := {};
            posTimer := 0;
          }
        case StopNmeaCmd =>
          code := StopApi(NmeaDataOn);
        case StopSatelliteCmd =>
          code := StopApi(SatelliteDataOn);
        case StopPositionCmd =>
          code := StopApi(LocationUpdatesOn);
      }
    }
  }
}
