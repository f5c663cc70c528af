/** Telling the GNSS HAL about the data network: connectionmanager reports its status again
    and again, the HAL is told only changes, only while it is ready, and again after a call
    it did not acknowledge. All of it happens with the provider's mutex held.

    The HAL's n-th answer is `answers(n)`. The reports the sender saw while the HAL was
    ready are kept as a history, all of them and without those whose call failed.
 */
module DataNetwork {
  import opened Common

  datatype Report = Report(connected: bool, networkType: int)

  /** A HAL without the interface will not have it next time either: that is as good as an
      acknowledgement. */
  datatype Answer = Done | NotImplemented | Error

  datatype Call = Call(report: Report, answer: Answer) {
    predicate Acknowledged() {
      answer != Error
    }
  }

  type Answers = nat -> Answer

  datatype Event = Update(report: Report) | Ready | Shutdown

  datatype Sender = Sender(
    ready: bool, known: Option<Report>, sent: Option<Report>,
    calls: seq<Call>, visible: seq<Report>, heard: seq<Report>)
  {
    /** sendDataNetworkLocked. */
    function Send(answers: Answers): Sender {
      if !ready || known.None? then this
      else
        var seen := this.(visible := visible + [known.value]);
        if sent == known then seen.(heard := heard + [known.value])
        else
          var call := Call(known.value, answers(|calls|));
          seen.(calls := calls + [call],
                sent := if call.Acknowledged() then known else sent,
                heard := if call.Acknowledged() then heard + [known.value] else heard)
    }

    function Step(e: Event, answers: Answers): Sender {
      match e
      case Update(r) => this.(known := Some(r)).Send(answers)
      case Ready => this.(ready := true).Send(answers)
      case Shutdown => this.(ready := false)
    }
  }

  function Initial(): Sender {
    Sender(false, None, None, [], [], [])
  }

  function Run(s: Sender, events: seq<Event>, answers: Answers): Sender {
    if events == [] then s
    else Run(s, events[..|events| - 1], answers).Step(events[|events| - 1], answers)
  }

  /** What the HAL has acknowledged. */
  function Acknowledged(calls: seq<Call>): seq<Report> {
    if calls == [] then []
    else
      var last := calls[|calls| - 1];
      Acknowledged(calls[..|calls| - 1]) + if last.Acknowledged() then [last.report] else []
  }

  predicate NoneFailed(calls: seq<Call>) {
    forall i :: 0 <= i < |calls| ==> calls[i].Acknowledged()
  }

  function LastOf(reports: seq<Report>): Option<Report> {
    if reports == [] then None else Some(reports[|reports| - 1])
  }

  ghost predicate Inv(s: Sender) {
    && Acknowledged(s.calls) == Destutter(s.heard)
    && s.sent == LastOf(s.heard)
    && (NoneFailed(s.calls) ==> s.heard == s.visible)
  }

  lemma CallSnoc(calls: seq<Call>, c: Call)
    ensures Acknowledged(calls + [c]) == Acknowledged(calls) + if c.Acknowledged() then [c.report] else []
    ensures NoneFailed(calls + [c]) <==> NoneFailed(calls) && c.Acknowledged()
  {
    var more := calls + [c];
    assert more[..|calls|] == calls && more[|calls|] == c;
    assert NoneFailed(more) ==> forall i :: 0 <= i < |calls| ==> calls[i] == more[i];
  }

  lemma HeardSnoc(heard: seq<Report>, r: Report)
    ensures LastOf(heard + [r]) == Some(r)
    ensures Destutter(heard + [r]) == if LastOf(heard) == Some(r) then Destutter(heard) else Destutter(heard) + [r]
  {
    DestutterSnoc(heard, r);
  }

  /** The report is no news. */
  lemma RepeatKeeps(s: Sender, answers: Answers)
    requires Inv(s) && s.ready && s.known.Some? && s.sent == s.known
    ensures Inv(s.Send(answers))
  {
    HeardSnoc(s.heard, s.known.value);
  }

  lemma NewsKeeps(s: Sender, answers: Answers)
    requires Inv(s) && s.ready && s.known.Some? && s.sent != s.known
    ensures Inv(s.Send(answers))
  {
    HeardSnoc(s.heard, s.known.value);
    CallSnoc(s.calls, Call(s.known.value, answers(|s.calls|)));
  }

  lemma SendKeeps(s: Sender, answers: Answers)
    requires Inv(s)
    ensures Inv(s.Send(answers))
  {
    if s.ready && s.known.Some? {
      if s.sent == s.known {
        RepeatKeeps(s, answers);
      } else {
        NewsKeeps(s, answers);
      }
    }
  }

  lemma {:induction false} RunKeeps(events: seq<Event>, answers: Answers)
    ensures Inv(Run(Initial(), events, answers))
  {
    if events == [] {
    } else {
      var s := Run(Initial(), events[..|events| - 1], answers);
      var e := events[|events| - 1];
      RunKeeps(events[..|events| - 1], answers);
      if e.Update? {
        SendKeeps(s.(known := Some(e.report)), answers);
      } else if e.Ready? {
        SendKeeps(s.(ready := true), answers);
      }
    }
  }

  /** In every run the acknowledged calls are the reports seen while ready, without those
      whose call failed and without repeats; so none repeats the one before it. */
  lemma {:induction false} AcknowledgedAreChanges(events: seq<Event>, answers: Answers)
    ensures var s := Run(Initial(), events, answers);
            && Acknowledged(s.calls) == Destutter(s.heard)
            && (NoneFailed(s.calls) ==> s.heard == s.visible)
            && (forall i :: 0 < i < |Acknowledged(s.calls)| ==> Acknowledged(s.calls)[i - 1] != Acknowledged(s.calls)[i])
  {
    RunKeeps(events, answers);
  }

  /** A report is told to the HAL exactly when it is ready and has not acknowledged the same
      report last: a value that failed is tried again when it is reported again. */
  lemma {:induction false} ToldWhenNew(events: seq<Event>, answers: Answers, r: Report)
    ensures var s := Run(Initial(), events, answers);
            s.Step(Update(r), answers).calls ==
            s.calls + if s.ready && LastOf(Acknowledged(s.calls)) != Some(r) then [Call(r, answers(|s.calls|))] else []
  {
    RunKeeps(events, answers);
    LastOfDestutter(Run(Initial(), events, answers).heard);
  }

  lemma LastOfDestutter(reports: seq<Report>)
    ensures LastOf(Destutter(reports)) == LastOf(reports)
  {
  }

  function Updates(reports: seq<Report>): (events: seq<Event>)
    ensures |events| == |reports|
    ensures forall i :: 0 <= i < |reports| ==> events[i] == Update(reports[i])
  {
    seq(|reports|, i requires 0 <= i < |reports| => Update(reports[i]))
  }

  /** Updates while the HAL is not ready only leave the last report. */
  lemma {:induction false} UpdatesUnready(s: Sender, reports: seq<Report>, answers: Answers)
    requires !s.ready
    ensures Run(s, Updates(reports), answers) ==
            s.(known := if reports == [] then s.known else Some(reports[|reports| - 1]))
  {
    if reports == [] {
    } else {
      var front := reports[..|reports| - 1];
      assert Updates(reports)[..|reports| - 1] == Updates(front);
      UpdatesUnready(s, front, answers);
    }
  }

  lemma {:induction false} UpdatesReady(s: Sender, reports: seq<Report>, answers: Answers)
    requires s.ready
    ensures Run(s, Updates(reports), answers).ready
    ensures Run(s, Updates(reports), answers).visible == s.visible + reports
  {
    if reports == [] {
    } else {
      var front := reports[..|reports| - 1];
      assert Updates(reports)[..|reports| - 1] == Updates(front);
      assert reports == front + [reports[|reports| - 1]];
      UpdatesReady(s, front, answers);
    }
  }

  lemma {:induction false} RunConcat(s: Sender, first: seq<Event>, second: seq<Event>, answers: Answers)
    ensures Run(s, first + second, answers) == Run(Run(s, first, answers), second, answers)
  {
    if second == [] {
      assert first + second == first;
    } else {
      var all := first + second;
      assert all[..|all| - 1] == first + second[..|second| - 1];
      RunConcat(s, first, second[..|second| - 1], answers);
    }
  }

  lemma LifeRuns(s: Sender, before: seq<Event>, during: seq<Event>, after: seq<Event>, answers: Answers)
    ensures Run(s, before + [Ready] + during + [Shutdown] + after, answers) ==
            Run(Run(Run(s, before, answers).Step(Ready, answers), during, answers).Step(Event.Shutdown, answers), after, answers)
    ensures Run(s, before + [Ready] + during, answers) ==
            Run(Run(s, before, answers).Step(Ready, answers), during, answers)
  {
    var s0 := Run(s, before, answers);
    var s2 := Run(s0.Step(Ready, answers), during, answers);
    RunOne(s0, Ready, answers);
    RunOne(s2, Shutdown, answers);
    RunConcat(s, before, [Ready], answers);
    RunConcat(s, before + [Ready], during, answers);
    RunConcat(s, before + [Ready] + during, [Shutdown], answers);
    RunConcat(s, before + [Ready] + during + [Shutdown], after, answers);
  }

  lemma VisibleInLife(before: seq<Report>, during: seq<Report>, answers: Answers)
    ensures var s := Run(Run(Initial(), Updates(before), answers).Step(Ready, answers), Updates(during), answers);
            s.visible == (if before == [] then [] else [before[|before| - 1]]) + during
  {
    UpdatesUnready(Initial(), before, answers);
    UpdatesReady(Run(Initial(), Updates(before), answers).Step(Ready, answers), during, answers);
  }

  /** The life of a provider, with every call acknowledged: of the reports before the HAL was
      ready it is told the last, then those up to shutdown, each when it is a change, and
      after shutdown nothing. */
  lemma HalHearsChanges(before: seq<Report>, during: seq<Report>, after: seq<Report>, answers: Answers)
    requires forall n: nat :: answers(n) != Error
    ensures var s := Run(Initial(), Updates(before) + [Ready] + Updates(during) + [Shutdown] + Updates(after), answers);
            Acknowledged(s.calls) == Destutter((if before == [] then [] else [before[|before| - 1]]) + during)
  {
    var events := Updates(before) + [Ready] + Updates(during);
    LifeRuns(Initial(), Updates(before), Updates(during), Updates(after), answers);
    UpdatesUnready(Run(Initial(), events, answers).Step(Event.Shutdown, answers), after, answers);
    VisibleInLife(before, during, answers);
    RunKeeps(events, answers);
    AllAcknowledged(events, answers);
  }

  /** Before readiness and after shutdown starts, whatever the HAL answers, nothing is sent. */
  lemma NothingSentOutside(before: seq<Report>, during: seq<Report>, after: seq<Report>, answers: Answers)
    ensures Run(Initial(), Updates(before), answers).calls == []
    ensures Run(Initial(), Updates(before) + [Ready] + Updates(during) + [Shutdown] + Updates(after), answers).calls ==
            Run(Initial(), Updates(before) + [Ready] + Updates(during), answers).calls
  {
    UpdatesUnready(Initial(), before, answers);
    LifeRuns(Initial(), Updates(before), Updates(during), Updates(after), answers);
    UpdatesUnready(Run(Initial(), Updates(before) + [Ready] + Updates(during), answers).Step(Event.Shutdown, answers), after, answers);
  }

  lemma RunOne(s: Sender, e: Event, answers: Answers)
    ensures Run(s, [e], answers) == s.Step(e, answers)
  {
    assert [e][..0] == [];
  }

  lemma {:induction false} AllAcknowledged(events: seq<Event>, answers: Answers)
    requires forall n: nat :: answers(n) != Error
    ensures NoneFailed(Run(Initial(), events, answers).calls)
  {
    if events == [] {
    } else {
      AllAcknowledged(events[..|events| - 1], answers);
    }
  }

  /** The provider's fields for the data network. */
  class DataNetworkReporter {
    const answers: Answers
    var nyxReady: bool
    var dataNetworkKnown: bool
    var dataNetworkConnected: bool
    var dataNetworkType: int
    var dataNetworkSent: bool
    var sentDataNetworkConnected: bool
    var sentDataNetworkType: int
    var calls: seq<Call>
    var visible: seq<Report>
    var heard: seq<Report>

    function State(): Sender
      reads this
    {
      Sender(nyxReady,
             if dataNetworkKnown then Some(Report(dataNetworkConnected, dataNetworkType)) else None,
             if dataNetworkSent then Some(Report(sentDataNetworkConnected, sentDataNetworkType)) else None,
             calls, visible, heard)
    }

    constructor (answers: Answers)
      ensures State() == Initial() && this.answers == answers
    {
      this.answers := answers;
      nyxReady, dataNetworkKnown, dataNetworkSent := false, false, false;
      calls, visible, heard := [], [], [];
    }

    method SendDataNetworkLocked()
      modifies this
      ensures State() == old(State()).Send(answers)
    {
      if !nyxReady || !dataNetworkKnown {
        return;
      }
      var report := Report(dataNetworkConnected, dataNetworkType);
      visible := visible + [report];
      if dataNetworkSent && sentDataNetworkConnected == dataNetworkConnected && sentDataNetworkType == dataNetworkType {
        heard := heard + [report];
        return;
      }
      var rc := answers(|calls|);
      calls := calls + [Call(report, rc)];
      if rc == Done || rc == NotImplemented {
        dataNetworkSent := true;
        sentDataNetworkConnected := dataNetworkConnected;
        sentDataNetworkType := dataNetworkType;
        heard := heard + [report];
      }
    }

    method UpdateDataNetwork(connected: bool, networkType: int)
      modifies this
      ensures State() == old(State()).Step(Update(Report(connected, networkType)), answers)
    {
      dataNetworkKnown := true;
      dataNetworkConnected := connected;
      dataNetworkType := networkType;
      SendDataNetworkLocked();
    }

    /** The end of init. */
    method BecomeReady()
      modifies this
      ensures State() == old(State()).Step(Ready, answers)
    {
      nyxReady := true;
      SendDataNetworkLocked();
    }

    /** The start of shutdown. */
    method StartShutdown()
      modifies this
      ensures State() == old(State()).Step(Event.Shutdown, answers)
    {
      nyxReady := false;
    }
  }
}
