/** The NTP client: the time stamps of RFC 4330 and the download from the first server that
    answers.

    What the sockets, the name service and the servers do is an input, one outcome a server.
    What the client does is kept as a trace. The clock ticks of an answer are part of it.
 */
module Ntp {
  import opened Common

  // Time stamps: section 3 of RFC 4330, as 32-bit unsigned arithmetic.

  const WORD: int := 0x1_0000_0000
  const NTP_EPOCH: int := 86400 * (365 * 70 + 17)
  const OFFSET: int := 1000

  newtype byte = x: int | 0 <= x < 256

  type Word = w: int | 0 <= w < WORD

  /** htonl. */
  function ToNetwork(w: Word): (bytes: seq<byte>)
    ensures |bytes| == 4
  {
    [(w / 0x100_0000) as byte, (w / 0x1_0000 % 256) as byte, (w / 0x100 % 256) as byte, (w % 256) as byte]
  }

  /** ntohl. */
  function ToHost(bytes: seq<byte>): Word
    requires |bytes| == 4
  {
    bytes[0] as int * 0x100_0000 + bytes[1] as int * 0x1_0000 + bytes[2] as int * 0x100 + bytes[3] as int
  }

  lemma NetworkOrderIsInverse(w: Word)
    ensures ToHost(ToNetwork(w)) == w
  {
    var (w1, w2, w3) := (w / 0x100, w / 0x1_0000, w / 0x100_0000);
    assert w == w1 * 0x100 + w % 256;
    assert w1 == w2 * 0x100 + w1 % 256;
    assert w2 == w3 * 0x100 + w2 % 256;
  }

  lemma {:induction false} HostOrderIsInverse(bytes: seq<byte>)
    requires |bytes| == 4
    ensures ToNetwork(ToHost(bytes)) == bytes
  {
    Digits(bytes[0] as int, bytes[1] as int, bytes[2] as int, bytes[3] as int);
  }

  lemma Digits(b0: int, b1: int, b2: int, b3: int)
    requires 0 <= b0 < 256 && 0 <= b1 < 256 && 0 <= b2 < 256 && 0 <= b3 < 256
    ensures var w := b0 * 0x100_0000 + b1 * 0x1_0000 + b2 * 0x100 + b3;
            w / 0x100_0000 == b0 && w / 0x1_0000 % 256 == b1 && w / 0x100 % 256 == b2 && w % 256 == b3
  {
    var w := b0 * 0x100_0000 + b1 * 0x1_0000 + b2 * 0x100 + b3;
    assert w % 256 == b3 && w / 0x100 == b0 * 0x1_0000 + b1 * 0x100 + b2;
    assert w / 0x1_0000 == b0 * 0x100 + b1;
  }

  /** The time stamp for a Unix time: the sum is cut to 32 bits. */
  function Encode(seconds: int): (bytes: seq<byte>)
    ensures |bytes| == 4
  {
    ToNetwork((seconds + NTP_EPOCH) % WORD)
  }

  /** Milliseconds since 1970 from a time stamp: a 32-bit unsigned difference, widened. */
  function Decode(bytes: seq<byte>): int
    requires |bytes| == 4
  {
    (ToHost(bytes) - NTP_EPOCH) % WORD * OFFSET
  }

  /** A time comes back from its stamp exactly if it is one of the 2^32 seconds from 1970 on,
      also past the rollover of 2036, and the milliseconds fit 64 bits. */
  lemma {:induction false} StampsComeBack(seconds: int)
    ensures Decode(Encode(seconds)) == seconds * OFFSET <==> 0 <= seconds < WORD
    ensures Decode(Encode(seconds)) == seconds % WORD * OFFSET
    ensures 0 <= Decode(Encode(seconds)) < 0x8000_0000_0000_0000
  {
    var w: Word := (seconds + NTP_EPOCH) % WORD;
    NetworkOrderIsInverse(w);
    DifferenceUndoesSum(seconds);
  }

  lemma DifferenceUndoesSum(seconds: int)
    ensures ((seconds + NTP_EPOCH) % WORD - NTP_EPOCH) % WORD == seconds % WORD
  {
    var q := (seconds + NTP_EPOCH) / WORD;
    var d := (seconds + NTP_EPOCH) % WORD - NTP_EPOCH;
    assert d == seconds - q * WORD;
    SameRemainder(seconds, d, q);
  }

  lemma SameRemainder(a: int, b: int, q: int)
    requires a == b + q * WORD
    ensures a % WORD == b % WORD
  {
    var k := b / WORD;
    assert a == (k + q) * WORD + b % WORD;
  }

  /** And every stamp is that of the time it stands for. */
  lemma {:induction false} TimesComeBack(bytes: seq<byte>)
    requires |bytes| == 4
    ensures Decode(bytes) % OFFSET == 0 && Encode(Decode(bytes) / OFFSET) == bytes
  {
    var seconds := (ToHost(bytes) - NTP_EPOCH) % WORD;
    WholeSeconds(seconds);
    SumUndoesDifference(ToHost(bytes));
    HostOrderIsInverse(bytes);
  }

  /** The stamp of the first second of 1970, and the stamp 0, which stands for the rollover:
      the second 2^32 - 2208988800 of the Unix time, in February 2036. */
  lemma EpochStamp()
    ensures Decode([0x83, 0xAA, 0x7E, 0x80]) == 0 && Encode(0) == [0x83, 0xAA, 0x7E, 0x80]
    ensures Decode([0, 0, 0, 0]) == 2_085_978_496 * OFFSET && Encode(2_085_978_496) == [0, 0, 0, 0]
  {
    assert ToHost([0x83, 0xAA, 0x7E, 0x80]) == NTP_EPOCH;
    TimesComeBack([0x83, 0xAA, 0x7E, 0x80]);
    TimesComeBack([0, 0, 0, 0]);
  }

  lemma WholeSeconds(seconds: int)
    ensures seconds * OFFSET % OFFSET == 0 && seconds * OFFSET / OFFSET == seconds
  {
  }

  lemma SumUndoesDifference(w: Word)
    ensures ((w - NTP_EPOCH) % WORD + NTP_EPOCH) % WORD == w
  {
    var q := (w - NTP_EPOCH) / WORD;
    SameRemainder(w, (w - NTP_EPOCH) % WORD + NTP_EPOCH, q);
  }

  // The download.

  type Stamp = s: seq<byte> | |s| == 4 witness [0, 0, 0, 0]

  datatype Data = Data(time: int, reference: int)

  /** What happens with a server: the socket cannot be made, the name is not known, the
      connection fails, no answer comes, or a time stamp. */
  datatype Outcome = NoSocket | NoHost | NoConnection | NoAnswer | Answer(stamp: Stamp, ticks: int)

  datatype Entry = SocketOpened | SocketClosed | Tried(server: string) | Completed(data: Option<Data>)

  datatype Status = PendingNetwork | Downloading | Idle

  datatype Config = Config(server1: string, server2: string, server3: string)

  /** The configured servers, in their order. */
  function Servers(config: Config): seq<string> {
    (if config.server1 != "" then [config.server1] else []) +
    (if config.server2 != "" then [config.server2] else []) +
    (if config.server3 != "" then [config.server3] else [])
  }

  /** None that is configured is left out, nor their order changed. */
  lemma ServersAre(config: Config, server: string)
    ensures server in Servers(config) <==>
              server != "" && (server == config.server1 || server == config.server2 || server == config.server3)
    ensures config.server1 != "" ==> Servers(config)[0] == config.server1
    ensures config.server3 != "" ==> Servers(config)[|Servers(config)| - 1] == config.server3
    ensures config.server1 != "" && config.server2 != "" && config.server3 != "" ==>
              Servers(config) == [config.server1, config.server2, config.server3]
  {
    assert config.server2 != "" ==> config.server2 in Servers(config);
  }

  predicate Ends(o: Outcome) {
    o.NoSocket? || o.Answer?
  }

  /** The first server from the i-th on that ends the download, or their number. */
  function EndsAt(servers: seq<string>, outcomes: nat -> Outcome, i: nat): (n: nat)
    requires i <= |servers|
    ensures i <= n <= |servers|
    ensures forall k :: i <= k < n ==> !Ends(outcomes(k))
    ensures n < |servers| ==> Ends(outcomes(n))
    decreases |servers| - i
  {
    if i == |servers| || Ends(outcomes(i)) then i else EndsAt(servers, outcomes, i + 1)
  }

  function Tries(trace: seq<Entry>): seq<string> {
    if trace == [] then []
    else Tries(trace[..|trace| - 1]) + if trace[|trace| - 1].Tried? then [trace[|trace| - 1].server] else []
  }

  function Completions(trace: seq<Entry>): seq<Option<Data>> {
    if trace == [] then []
    else Completions(trace[..|trace| - 1]) + if trace[|trace| - 1].Completed? then [trace[|trace| - 1].data] else []
  }

  /** The sockets that are open. */
  function Open(trace: seq<Entry>): int {
    if trace == [] then 0
    else
      var last := trace[|trace| - 1];
      Open(trace[..|trace| - 1]) + if last.SocketOpened? then 1 else if last.SocketClosed? then -1 else 0
  }

  lemma TraceSnoc(trace: seq<Entry>, e: Entry)
    ensures Tries(trace + [e]) == Tries(trace) + if e.Tried? then [e.server] else []
    ensures Completions(trace + [e]) == Completions(trace) + if e.Completed? then [e.data] else []
    ensures Open(trace + [e]) == Open(trace) + if e.SocketOpened? then 1 else if e.SocketClosed? then -1 else 0
  {
    assert (trace + [e])[..|trace|] == trace;
  }

  /** What is done for one server. */
  function Attempt(server: string, o: Outcome): seq<Entry> {
    match o
    case NoSocket => [Completed(None)]
    case Answer(stamp, ticks) =>
      [SocketOpened, Tried(server), Completed(Some(Data(Decode(stamp), ticks))), SocketClosed]
    case _ => [SocketOpened, Tried(server), SocketClosed]
  }

  /** `trace` after the first k servers have not ended the download. */
  function Passed(trace: seq<Entry>, servers: seq<string>, outcomes: nat -> Outcome, k: nat): seq<Entry>
    requires k <= |servers|
  {
    if k == 0 then trace
    else Passed(trace, servers, outcomes, k - 1) + Attempt(servers[k - 1], outcomes(k - 1))
  }

  /** `trace` after a whole download. */
  function Downloaded(trace: seq<Entry>, servers: seq<string>, outcomes: nat -> Outcome): seq<Entry> {
    var n := EndsAt(servers, outcomes, 0);
    Passed(trace, servers, outcomes, n) +
    if n == |servers| then [Completed(None)] else Attempt(servers[n], outcomes(n))
  }

  lemma {:induction false} TraceConcat(first: seq<Entry>, second: seq<Entry>)
    ensures Tries(first + second) == Tries(first) + Tries(second)
    ensures Completions(first + second) == Completions(first) + Completions(second)
    ensures Open(first + second) == Open(first) + Open(second)
  {
    if second == [] {
      assert first + second == first;
    } else {
      var front, last := second[..|second| - 1], second[|second| - 1];
      assert first + second == (first + front) + [last] && second == front + [last];
      TraceConcat(first, front);
      TraceSnoc(first + front, last);
      TraceSnoc(front, last);
    }
  }

  lemma TraceOne(e: Entry)
    ensures Tries([e]) == if e.Tried? then [e.server] else []
    ensures Completions([e]) == if e.Completed? then [e.data] else []
    ensures Open([e]) == if e.SocketOpened? then 1 else if e.SocketClosed? then -1 else 0
  {
    TraceSnoc([], e);
    assert [] + [e] == [e];
  }

  /** A socket opened, a server tried, what comes of it, and the socket closed. */
  lemma TraceAround(server: string, middle: seq<Entry>)
    ensures var t := [SocketOpened] + [Tried(server)] + middle + [SocketClosed];
            && Open(t) == Open(middle) && Completions(t) == Completions(middle)
            && Tries(t) == [server] + Tries(middle)
  {
    TraceOne(SocketOpened);
    TraceSnoc([SocketOpened], Tried(server));
    TraceConcat([SocketOpened] + [Tried(server)], middle);
    TraceSnoc([SocketOpened] + [Tried(server)] + middle, SocketClosed);
  }

  lemma AttemptEffect(server: string, o: Outcome)
    ensures Open(Attempt(server, o)) == 0
    ensures Tries(Attempt(server, o)) == if o.NoSocket? then [] else [server]
    ensures Completions(Attempt(server, o)) ==
            if o.NoSocket? then [None] else if o.Answer? then [Some(Data(Decode(o.stamp), o.ticks))] else []
  {
    if o.NoSocket? {
      TraceOne(Completed(None));
    } else {
      var middle := if o.Answer? then [Completed(Some(Data(Decode(o.stamp), o.ticks)))] else [];
      if o.Answer? {
        TraceOne(middle[0]);
      }
      TraceAround(server, middle);
      assert Attempt(server, o) == [SocketOpened] + [Tried(server)] + middle + [SocketClosed];
    }
  }

  lemma AttemptAfter(trace: seq<Entry>, server: string, o: Outcome)
    ensures var t := trace + Attempt(server, o);
            && Open(t) == Open(trace)
            && Tries(t) == Tries(trace) + (if o.NoSocket? then [] else [server])
            && Completions(t) == Completions(trace) +
               if o.NoSocket? then [None] else if o.Answer? then [Some(Data(Decode(o.stamp), o.ticks))] else []
  {
    AttemptEffect(server, o);
    TraceConcat(trace, Attempt(server, o));
  }

  lemma {:induction false} PassedTries(trace: seq<Entry>, servers: seq<string>, outcomes: nat -> Outcome, k: nat)
    requires k <= |servers| && forall i :: 0 <= i < k ==> !Ends(outcomes(i))
    ensures Tries(Passed(trace, servers, outcomes, k)) == Tries(trace) + servers[..k]
  {
    if k == 0 {
    } else {
      PassedTries(trace, servers, outcomes, k - 1);
      TriedNext(Passed(trace, servers, outcomes, k - 1), servers[k - 1], outcomes(k - 1));
      PrefixSnoc(Tries(trace), servers, k);
    }
  }

  lemma TriedNext(trace: seq<Entry>, server: string, o: Outcome)
    requires !Ends(o)
    ensures Tries(trace + Attempt(server, o)) == Tries(trace) + [server]
  {
    AttemptAfter(trace, server, o);
  }

  lemma PrefixSnoc<T>(t: seq<T>, s: seq<T>, k: nat)
    requires 0 < k <= |s|
    ensures t + s[..k - 1] + [s[k - 1]] == t + s[..k]
  {
    assert s[..k] == s[..k - 1] + [s[k - 1]];
  }

  /** Nothing is completed from the n-th entry on. */
  predicate SilentFrom(trace: seq<Entry>, n: nat) {
    forall i :: n <= i < |trace| ==> !trace[i].Completed?
  }

  lemma {:induction false} SilentCompletions(trace: seq<Entry>, n: nat)
    requires n <= |trace| && SilentFrom(trace, n)
    ensures Completions(trace) == Completions(trace[..n])
  {
    if n == |trace| {
      assert trace[..n] == trace;
    } else {
      var front := trace[..|trace| - 1];
      SilentCompletions(front, n);
      assert front[..n] == trace[..n];
    }
  }

  lemma {:induction false} PassedSilent(trace: seq<Entry>, servers: seq<string>, outcomes: nat -> Outcome, k: nat)
    requires k <= |servers| && forall i :: 0 <= i < k ==> !Ends(outcomes(i))
    ensures var t := Passed(trace, servers, outcomes, k);
            |trace| <= |t| && t[..|trace|] == trace && SilentFrom(t, |trace|)
  {
    if k == 0 {
    } else {
      PassedSilent(trace, servers, outcomes, k - 1);
    }
  }

  lemma {:induction false} PassedClosed(trace: seq<Entry>, servers: seq<string>, outcomes: nat -> Outcome, k: nat)
    requires k <= |servers| && forall i :: 0 <= i < k ==> !Ends(outcomes(i))
    ensures Open(Passed(trace, servers, outcomes, k)) == Open(trace)
  {
    if k == 0 {
    } else {
      PassedClosed(trace, servers, outcomes, k - 1);
      AttemptAfter(Passed(trace, servers, outcomes, k - 1), servers[k - 1], outcomes(k - 1));
    }
  }

  /** A download tries the servers in order, each once, up to the first that ends it and none
      after; there is exactly one completion, with the first answer if there is one; and
      every socket opened is closed again. */
  lemma {:induction false} DownloadEffect(trace: seq<Entry>, servers: seq<string>, outcomes: nat -> Outcome)
    ensures var (t, n) := (Downloaded(trace, servers, outcomes), EndsAt(servers, outcomes, 0));
            && Tries(t) == Tries(trace) + servers[..n] + (if n < |servers| && outcomes(n).Answer? then [servers[n]] else [])
            && Completions(t) == Completions(trace) +
               [if n < |servers| && outcomes(n).Answer? then Some(Data(Decode(outcomes(n).stamp), outcomes(n).ticks)) else None]
            && Open(t) == Open(trace)
  {
    var n := EndsAt(servers, outcomes, 0);
    PassedTries(trace, servers, outcomes, n);
    PassedSilent(trace, servers, outcomes, n);
    SilentCompletions(Passed(trace, servers, outcomes, n), |trace|);
    PassedClosed(trace, servers, outcomes, n);
    if n == |servers| {
      TraceSnoc(Passed(trace, servers, outcomes, n), Completed(None));
    } else {
      AttemptAfter(Passed(trace, servers, outcomes, n), servers[n], outcomes(n));
    }
  }

  // The client over a run of starts and downloads.

  /** The state, the number of downloads begun, and the trace. */
  datatype Client = Client(status: Status, servers: seq<string>, begun: nat, trace: seq<Entry>)
  {
    /** start; `ready` tells whether a configuration and a callback are given. */
    function Start(ready: bool, config: Config, threadMade: bool): (Client, bool) {
      if !ready then (this, false)
      else if status == Downloading then (this, true)
      else if threadMade then (Client(Downloading, Servers(config), begun + 1, trace), true)
      else (Client(Idle, Servers(config), begun + 1, trace + [Completed(None)]), false)
    }

    /** The download thread, from its start to its end. */
    function Download(outcomes: nat -> Outcome): Client {
      if status == Downloading
      then this.(status := Idle, trace := Downloaded(trace, servers, outcomes))
      else this
    }
  }

  datatype Event = Start(ready: bool, config: Config, threadMade: bool) | Download(outcomes: nat -> Outcome)

  function Run(events: seq<Event>): Client {
    if events == [] then Client(Idle, [], 0, [])
    else
      var c := Run(events[..|events| - 1]);
      match events[|events| - 1]
      case Start(ready, config, threadMade) => c.Start(ready, config, threadMade).0
      case Download(outcomes) => c.Download(outcomes)
  }

  /** A start succeeds exactly if a download runs then, and begins one unless one runs. */
  lemma StartExactly(c: Client, ready: bool, config: Config, threadMade: bool)
    requires c.status != PendingNetwork
    ensures var (d, ok) := c.Start(ready, config, threadMade);
            && (ok <==> ready && d.status == Downloading)
            && (d.status == Downloading <==> c.status == Downloading || (ready && threadMade))
            && d.begun == c.begun + (if ready && c.status != Downloading then 1 else 0)
            && (c.status == Downloading ==> d == c)
            && (d.status == Downloading && c.status != Downloading ==> d.servers == Servers(config) && d.trace == c.trace)
  {
  }

  /** In every run each download begun completes exactly once, but for the one that runs; no
      socket stays open; and without a running download the client is idle. */
  lemma {:induction false} EveryDownloadCompletesOnce(events: seq<Event>)
    ensures var c := Run(events);
            && |Completions(c.trace)| + (if c.status == Downloading then 1 else 0) == c.begun
            && Open(c.trace) == 0 && (c.status == Downloading || c.status == Idle)
  {
    if events == [] {
    } else {
      EveryDownloadCompletesOnce(events[..|events| - 1]);
      var c := Run(events[..|events| - 1]);
      var e := events[|events| - 1];
      TraceSnoc(c.trace, Completed(None));
      if e.Download? {
        DownloadEffect(c.trace, c.servers, e.outcomes);
      }
    }
  }

  class NtpClient {
    var downloadNtpDataStatus: Status
    var config: Config
    var begun: nat
    var trace: seq<Entry>

    function State(): Client
      reads this
    {
      Client(downloadNtpDataStatus, Servers(config), begun, trace)
    }

    constructor ()
      ensures State() == Run([])
    {
      downloadNtpDataStatus, config, begun, trace := Idle, Config("", "", ""), 0, [];
    }

    method Start(ready: bool, config: Config, threadMade: bool) returns (ok: bool)
      modifies this
      ensures (State(), ok) == old(State()).Start(ready, config, threadMade)
    {
      if !ready {
        return false;
      }
      if downloadNtpDataStatus == Downloading {
        return true;
      }
      this.config := config;
      downloadNtpDataStatus := Downloading;
      begun := begun + 1;
      if !threadMade {
        downloadNtpDataStatus := Idle;
        trace := trace + [Completed(None)];
        return false;
      }
      return true;
    }

    /** One server, with an open socket; after an answer the socket stays open. */
    method TryServer(server: string, o: Outcome) returns (answered: bool)
      requires !o.NoSocket?
      modifies `trace
      ensures answered <==> o.Answer?
      ensures trace + (if answered then [SocketClosed] else []) == old(trace) + Attempt(server, o)
    {
      trace := trace + [SocketOpened, Tried(server)];
      answered := o.Answer?;
      if answered {
        trace := trace + [Completed(Some(Data(Decode(o.stamp), o.ticks)))];
      } else {
        trace := trace + [SocketClosed];
      }
    }

    method NtpDownloadThread(outcomes: nat -> Outcome)
      requires downloadNtpDataStatus == Downloading
      modifies `downloadNtpDataStatus, `trace
      ensures State() == old(State()).Download(outcomes)
    {
      var ntpservers := Servers(config);
      var count := |ntpservers|;
      if count == 0 {
        downloadNtpDataStatus := Idle;
        trace := trace + [Completed(None)];
        return;
      }
      var nextserverindex := 0;
      var answered := false;
      while nextserverindex < count
        invariant 0 <= nextserverindex <= EndsAt(ntpservers, outcomes, 0) && downloadNtpDataStatus == Downloading && !answered
        invariant trace == Passed(old(trace), ntpservers, outcomes, nextserverindex)
      {
        if outcomes(nextserverindex).NoSocket? {
          downloadNtpDataStatus := Idle;
          trace := trace + [Completed(None)];
          return;
        }
        answered := TryServer(ntpservers[nextserverindex], outcomes(nextserverindex));
        if answered {
          break;
        }
        nextserverindex := nextserverindex + 1;
      }
      if nextserverindex >= count {
        trace := trace + [Completed(None)];
      }
      if answered {
        trace := trace + [SocketClosed];
      }
      downloadNtpDataStatus := Idle;
    }
  }
}
