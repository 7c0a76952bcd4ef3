/**
Channels of the SSH gateway: a session channel first negotiates (section 6 of RFC 4254), then
relays between the SSH channel and the provider's socket until one side, a failed send or a failed
identity check ends it; a forwarded port (section 7.2 of RFC 4254) only relays.

A run is a sequence of what the loop's `select!` delivered, each with whether the send it caused
succeeded; the order is arbitrary. A sequence that stops early is a channel still running.
*/
module SshChannels {
  import opened Outcomes
  import opened Json

  type Bytes = seq<int>

  datatype ChannelMsg =
    | RequestPty(cols: nat, rows: nat)
    | Exec(command: Bytes)
    | RequestShell
    | RequestSubsystem(name: string)
    | SetEnv
    | WindowChange(cols: nat, rows: nat)
    | Data(data: Bytes)
    | Eof
    | Close
    | OtherMsg

  /** `channel.wait()` under its timeout: a message, the end of the channel, or no answer in time. */
  datatype Wait = Got(msg: ChannelMsg) | ChannelGone | TimedOut

  datatype Frame =
    | Binary(payload: Bytes)
    | Text(value: Option<Value>)
    | Ping(ping: Bytes)
    | Pong
    | SocketGone

  datatype Event =
    | Recheck(allowed: bool)
    | FromClient(msg: Option<ChannelMsg>, sent: bool)
    | FromProvider(frame: Frame, sent: bool)

  /** What the gateway sends on the SSH channel. */
  datatype Reply =
    | Success
    | Failure
    | Stdout(out: Bytes)
    | Stderr(err: Bytes)
    | ExitStatus(code: nat)
    | EofReply
    | CloseReply

  datatype Command = Shell | Run(text: Bytes) | Sftp

  /** What the gateway sends to the provider. */
  datatype ToProvider =
    | Start(command: Command, tty: bool, cols: nat, rows: nat)
    | Input(data: Bytes)
    | InputEnd
    | Resize(cols: nat, rows: nat)
    | PongBack(ping: Bytes)

  // ---------------------------------------------------------------- negotiation

  predicate ValidSize(cols: nat, rows: nat) {
    0 < cols <= U16_MAX && 0 < rows <= U16_MAX
  }

  /** The UTF-8 decoder of the standard library; which byte strings it accepts does not matter here. */
  datatype Utf8 = Utf8(accepts: Bytes -> bool)

  predicate ValidCommand(utf8: Utf8, command: Bytes) {
    utf8.accepts(command) && command != [] && |command| <= 16 * 1024 && 0 !in command
  }

  /** The message leaves the negotiation open. */
  predicate Continues(w: Wait) {
    w.Got? && (w.msg.RequestPty? || w.msg.SetEnv? || w.msg.WindowChange?)
  }

  predicate SetsSize(w: Wait) {
    w.Got? && (w.msg.RequestPty? || w.msg.WindowChange?) && ValidSize(w.msg.cols, w.msg.rows)
  }

  predicate GrantsPty(w: Wait) {
    w.Got? && w.msg.RequestPty? && ValidSize(w.msg.cols, w.msg.rows)
  }

  /** The number of leading waits that leave the negotiation open. */
  function OpenPrefix(waits: seq<Wait>): (n: nat)
    ensures n <= |waits|
    ensures forall i :: 0 <= i < n ==> Continues(waits[i])
    ensures n < |waits| ==> !Continues(waits[n])
  {
    if waits == [] || !Continues(waits[0]) then 0 else 1 + OpenPrefix(waits[1..])
  }

  /** One answer per terminal request, in order: granted exactly when its size is valid. */
  function PtyReplies(waits: seq<Wait>): seq<Reply> {
    if waits == [] then []
    else
      var w := waits[|waits| - 1];
      PtyReplies(waits[..|waits| - 1])
      + (if w.Got? && w.msg.RequestPty? then [if GrantsPty(w) then Success else Failure] else [])
  }

  /** The last valid size announced, else 80 by 24. */
  function LastSize(waits: seq<Wait>): (nat, nat) {
    if waits == [] then (80, 24)
    else if SetsSize(waits[|waits| - 1]) then (waits[|waits| - 1].msg.cols, waits[|waits| - 1].msg.rows)
    else LastSize(waits[..|waits| - 1])
  }

  predicate HasTty(waits: seq<Wait>) {
    exists i :: 0 <= i < |waits| && GrantsPty(waits[i])
  }

  datatype Negotiated = StillOpen | Refused | Agreed(start: ToProvider)

  /** The outcome the messages determine. */
  ghost function Negotiation(utf8: Utf8, waits: seq<Wait>): Negotiated {
    var n := OpenPrefix(waits);
    if n == |waits| then StillOpen
    else
      var tty := HasTty(waits[..n]);
      var size := LastSize(waits[..n]);
      match waits[n]
      case Got(Exec(command)) =>
        if ValidCommand(utf8, command) then Agreed(Start(Run(command), tty, size.0, size.1)) else Refused
      case Got(RequestShell) => Agreed(Start(Shell, tty, size.0, size.1))
      case Got(RequestSubsystem(name)) =>
        if name == "sftp" && !tty then Agreed(Start(Sftp, tty, size.0, size.1)) else Refused
      case _ => Refused
  }

  /** The first loop of `session_channel`. */
  method Negotiate(utf8: Utf8, waits: seq<Wait>) returns (result: Negotiated, replies: seq<Reply>)
    ensures result == Negotiation(utf8, waits)
    ensures replies == PtyReplies(waits[..OpenPrefix(waits)]) + (if result == Refused then [Failure] else [])
  {
    var tty, cols, rows := false, 80, 24;
    replies := [];
    var i := 0;
    while i < |waits|
      invariant 0 <= i <= |waits|
      invariant forall k :: 0 <= k < i ==> Continues(waits[k])
      invariant replies == PtyReplies(waits[..i])
      invariant tty == HasTty(waits[..i]) && (cols, rows) == LastSize(waits[..i])
    {
      assert waits[..i + 1][..i] == waits[..i];
      if !Continues(waits[i]) {
        StopsAt(waits, i);
        result, replies := Conclude(utf8, waits, i, tty, cols, rows, replies);
        return;
      }
      assert HasTty(waits[..i + 1]) <==> HasTty(waits[..i]) || GrantsPty(waits[i]) by {
        assert waits[..i + 1][i] == waits[i];
        assert forall k :: 0 <= k < i ==> waits[..i + 1][k] == waits[..i][k];
      }
      match waits[i] {
        case Got(RequestPty(width, height)) =>
          if ValidSize(width, height) {
            tty, cols, rows := true, width, height;
            replies := replies + [Success];
          } else {
            replies := replies + [Failure];
          }
        case Got(WindowChange(width, height)) =>
          if ValidSize(width, height) {
            cols, rows := width, height;
          }
        case _ =>
      }
      i := i + 1;
    }
    AllOpen(waits);
    assert waits[..|waits|] == waits;
    result := StillOpen;
  }

  /** The message that ends the negotiation. */
  method Conclude(utf8: Utf8, waits: seq<Wait>, n: nat, tty: bool, cols: nat, rows: nat, before: seq<Reply>)
    returns (result: Negotiated, replies: seq<Reply>)
    requires n < |waits| && OpenPrefix(waits) == n
    requires tty == HasTty(waits[..n]) && (cols, rows) == LastSize(waits[..n]) && before == PtyReplies(waits[..n])
    ensures result == Negotiation(utf8, waits)
    ensures replies == PtyReplies(waits[..n]) + (if result == Refused then [Failure] else [])
  {
    replies := before;
    match waits[n] {
      case Got(Exec(command)) =>
        if ValidCommand(utf8, command) {
          result := Agreed(Start(Run(command), tty, cols, rows));
        } else {
          result, replies := Refused, before + [Failure];
        }
      case Got(RequestShell) =>
        result := Agreed(Start(Shell, tty, cols, rows));
      case Got(RequestSubsystem(name)) =>
        if name == "sftp" && !tty {
          result := Agreed(Start(Sftp, tty, cols, rows));
        } else {
          result, replies := Refused, before + [Failure];
        }
      case _ =>
        result, replies := Refused, before + [Failure];
    }
  }

  lemma {:induction false} StopsAt(waits: seq<Wait>, n: nat)
    requires n < |waits| && !Continues(waits[n]) && forall k :: 0 <= k < n ==> Continues(waits[k])
    ensures OpenPrefix(waits) == n
  {
  }

  lemma AllOpen(waits: seq<Wait>)
    requires forall k :: 0 <= k < |waits| ==> Continues(waits[k])
    ensures OpenPrefix(waits) == |waits|
  {
  }

  // ---------------------------------------------------------------- relay

  datatype Kind = Session | Forward

  predicate IsExit(k: Kind, e: Event) {
    && k == Session && e.FromProvider? && e.frame.Text? && e.frame.value.Some?
    && AsStr(At(e.frame.value.value, "type")) == Some("exit")
  }

  function ExitCode(v: Value): nat {
    var code := AsU64(At(v, "code"));
    if code.Some? && code.value <= U32_MAX then code.value else 255
  }

  /** What an event sends on the SSH channel, when the send succeeds. */
  function Emits(k: Kind, e: Event): seq<Reply> {
    if IsExit(k, e) then [ExitStatus(ExitCode(e.frame.value.value))]
    else if e.FromProvider? && e.frame.Binary? && e.sent then
      if k == Forward then [Stdout(e.frame.payload)]
      else if e.frame.payload != [] && e.frame.payload[0] == 1 then [Stdout(e.frame.payload[1..])]
      else if e.frame.payload != [] && e.frame.payload[0] == 2 then [Stderr(e.frame.payload[1..])]
      else []
    else []
  }

  /** What an event asks to send to the provider. */
  function Wants(k: Kind, e: Event): Option<ToProvider> {
    match e
    case FromClient(Some(Data(data)), _) => Some(Input(data))
    case FromClient(Some(Eof), _) => Some(InputEnd)
    case FromClient(Some(WindowChange(cols, rows)), _) =>
      if k == Session && ValidSize(cols, rows) then Some(Resize(cols, rows)) else None
    case FromProvider(Ping(ping), _) => Some(PongBack(ping))
    case _ => None
  }

  function Forwards(k: Kind, e: Event): seq<ToProvider> {
    if Wants(k, e).Some? && e.sent then [Wants(k, e).value] else []
  }

  /** The event ends the channel. */
  predicate Ends(k: Kind, e: Event) {
    match e
    case Recheck(allowed) => !allowed
    case FromClient(msg, sent) => msg.None? || msg.value.Close? || (Wants(k, e).Some? && !sent)
    case FromProvider(frame, sent) =>
      match frame
      case Binary(payload) => !sent || (k == Session && (payload == [] || payload[0] !in {1, 2}))
      case Text(_) => k == Forward || IsExit(k, e)
      case Ping(_) => !sent
      case Pong => false
      case SocketGone => true
  }

  /** The number of leading events that leave the channel open. */
  function Alive(k: Kind, events: seq<Event>): (n: nat)
    ensures n <= |events|
    ensures forall i :: 0 <= i < n ==> !Ends(k, events[i])
    ensures n < |events| ==> Ends(k, events[n])
  {
    if events == [] || Ends(k, events[0]) then 0 else 1 + Alive(k, events[1..])
  }

  function AllEmitted(k: Kind, events: seq<Event>): seq<Reply> {
    if events == [] then [] else AllEmitted(k, events[..|events| - 1]) + Emits(k, events[|events| - 1])
  }

  function AllForwarded(k: Kind, events: seq<Event>): seq<ToProvider> {
    if events == [] then [] else AllForwarded(k, events[..|events| - 1]) + Forwards(k, events[|events| - 1])
  }

  /** The events that were handled: up to and including the first that ends the channel. */
  function Handled(k: Kind, events: seq<Event>): seq<Event> {
    var n := Alive(k, events);
    if n < |events| then events[..n + 1] else events
  }

  /** How a relay that ended closes its channel. */
  function Closing(k: Kind, last: Event): seq<Reply> {
    (if k == Session && !IsExit(k, last) then [ExitStatus(255)] else []) + [EofReply, CloseReply]
  }

  function RelayReplies(k: Kind, events: seq<Event>): seq<Reply> {
    AllEmitted(k, Handled(k, events))
    + (if Alive(k, events) < |events| then Closing(k, events[Alive(k, events)]) else [])
  }

  lemma RelaySnoc(k: Kind, events: seq<Event>, i: nat)
    requires i < |events|
    ensures AllEmitted(k, events[..i + 1]) == AllEmitted(k, events[..i]) + Emits(k, events[i])
    ensures AllForwarded(k, events[..i + 1]) == AllForwarded(k, events[..i]) + Forwards(k, events[i])
  {
    hide Emits, Forwards;
    assert events[..i + 1][..i] == events[..i];
  }

  lemma NothingYet(k: Kind, events: seq<Event>)
    ensures AllEmitted(k, events[..0]) == [] && AllForwarded(k, events[..0]) == []
  {
  }

  lemma RelayEnds(k: Kind, events: seq<Event>, n: nat)
    requires n < |events| && Ends(k, events[n]) && forall i :: 0 <= i < n ==> !Ends(k, events[i])
    ensures RelayReplies(k, events) == AllEmitted(k, events[..n]) + Emits(k, events[n]) + Closing(k, events[n])
    ensures AllForwarded(k, Handled(k, events)) == AllForwarded(k, events[..n]) + Forwards(k, events[n])
  {
    hide Emits, Forwards, Ends, AllEmitted, AllForwarded;
    EndsAt(k, events, n);
    RelaySnoc(k, events, n);
  }

  lemma RelayContinues(k: Kind, events: seq<Event>)
    requires forall i :: 0 <= i < |events| ==> !Ends(k, events[i])
    ensures RelayReplies(k, events) == AllEmitted(k, events)
    ensures AllForwarded(k, Handled(k, events)) == AllForwarded(k, events)
  {
    hide Emits, Forwards, Ends, AllEmitted, AllForwarded;
    StaysAlive(k, events);
  }

  /** The relay loop of `session_channel`. */
  method RelaySession(events: seq<Event>) returns (replies: seq<Reply>, toProvider: seq<ToProvider>)
    ensures replies == RelayReplies(Session, events)
    ensures toProvider == AllForwarded(Session, Handled(Session, events))
  {
    hide AllEmitted, AllForwarded, RelayReplies, Handled;
    replies, toProvider := [], [];
    var exited, i := false, 0;
    NothingYet(Session, events);
    while true
      invariant 0 <= i <= |events|
      invariant forall k :: 0 <= k < i ==> !Ends(Session, events[k])
      invariant replies == AllEmitted(Session, events[..i]) && toProvider == AllForwarded(Session, events[..i])
      invariant !exited
      decreases |events| - i
    {
      if i == |events| {
        RelayContinues(Session, events);
        assert events[..|events|] == events;
        return;
      }
      var e := events[i];
      RelaySnoc(Session, events, i);
      match e {
        case Recheck(allowed) =>
          if !allowed { break; }
        case FromClient(msg, sent) =>
          match msg {
            case Some(Data(data)) =>
              if !sent { break; }
              toProvider := toProvider + [Input(data)];
            case Some(Eof) =>
              if !sent { break; }
              toProvider := toProvider + [InputEnd];
            case Some(WindowChange(cols, rows)) =>
              if ValidSize(cols, rows) {
                if !sent { break; }
                toProvider := toProvider + [Resize(cols, rows)];
              }
            case Some(Close) => break;
            case None => break;
            case _ =>
          }
        case FromProvider(frame, sent) =>
          match frame {
            case Binary(payload) =>
              if payload == [] || (payload[0] != 1 && payload[0] != 2) { break; }
              if !sent { break; }
              replies := replies + [if payload[0] == 1 then Stdout(payload[1..]) else Stderr(payload[1..])];
            case Text(value) =>
              if value.Some? && AsStr(At(value.value, "type")) == Some("exit") {
                replies := replies + [ExitStatus(ExitCode(value.value))];
                exited := true;
                break;
              }
            case Ping(ping) =>
              if !sent { break; }
              toProvider := toProvider + [PongBack(ping)];
            case Pong =>
            case SocketGone => break;
          }
      }
      i := i + 1;
    }
    RelayEnds(Session, events, i);
    if !exited {
      replies := replies + [ExitStatus(255)];
    }
    replies := replies + [EofReply, CloseReply];
  }

  /** The relay loop of `forward_channel`. */
  method RelayForward(events: seq<Event>) returns (replies: seq<Reply>, toProvider: seq<ToProvider>)
    ensures replies == RelayReplies(Forward, events)
    ensures toProvider == AllForwarded(Forward, Handled(Forward, events))
  {
    hide AllEmitted, AllForwarded, RelayReplies, Handled;
    replies, toProvider := [], [];
    var i := 0;
    NothingYet(Forward, events);
    while true
      invariant 0 <= i <= |events|
      invariant forall k :: 0 <= k < i ==> !Ends(Forward, events[k])
      invariant replies == AllEmitted(Forward, events[..i]) && toProvider == AllForwarded(Forward, events[..i])
      decreases |events| - i
    {
      if i == |events| {
        RelayContinues(Forward, events);
        assert events[..|events|] == events;
        return;
      }
      RelaySnoc(Forward, events, i);
      match events[i] {
        case Recheck(allowed) =>
          if !allowed { break; }
        case FromClient(msg, sent) =>
          match msg {
            case Some(Data(data)) =>
              if !sent { break; }
              toProvider := toProvider + [Input(data)];
            case Some(Eof) =>
              if !sent { break; }
              toProvider := toProvider + [InputEnd];
            case Some(Close) => break;
            case None => break;
            case _ =>
          }
        case FromProvider(frame, sent) =>
          match frame {
            case Binary(payload) =>
              if !sent { break; }
              replies := replies + [Stdout(payload)];
            case Ping(ping) =>
              if !sent { break; }
              toProvider := toProvider + [PongBack(ping)];
            case Pong =>
            case _ => break;
          }
      }
      i := i + 1;
    }
    RelayEnds(Forward, events, i);
    replies := replies + [EofReply, CloseReply];
  }

  lemma EndsAt(k: Kind, events: seq<Event>, n: nat)
    requires n < |events| && Ends(k, events[n]) && forall i :: 0 <= i < n ==> !Ends(k, events[i])
    ensures Alive(k, events) == n
  {
  }

  lemma StaysAlive(k: Kind, events: seq<Event>)
    requires forall i :: 0 <= i < |events| ==> !Ends(k, events[i])
    ensures Alive(k, events) == |events|
  {
  }

  // ---------------------------------------------------------------- whole session

  datatype Startup = NoProvider | ConnectFailed | StartNotSent | NotStarted | Started(successSent: bool)

  /** `session_channel`: negotiate, start the command at the provider, then relay. */
  method SessionChannel(utf8: Utf8, waits: seq<Wait>, startup: Startup, events: seq<Event>)
    returns (replies: seq<Reply>, toProvider: seq<ToProvider>)
    ensures replies == SessionReplies(utf8, waits, startup, events)
    ensures toProvider == SessionSent(utf8, waits, startup, events)
  {
    hide Negotiation, PtyReplies, OpenPrefix, AllForwarded, RelayReplies, Handled;
    var negotiated;
    negotiated, replies := Negotiate(utf8, waits);
    toProvider := [];
    if !negotiated.Agreed? { return; }
    if startup.NoProvider? || startup.ConnectFailed? || startup.StartNotSent? {
      replies := replies + [Failure];
      return;
    }
    toProvider := [negotiated.start];
    if startup.NotStarted? {
      replies := replies + [Failure];
      return;
    }
    replies := replies + [Success];
    if !startup.successSent { return; }
    var relayed, forwarded := RelaySession(events);
    replies, toProvider := replies + relayed, toProvider + forwarded;
  }

  ghost function SessionReplies(utf8: Utf8, waits: seq<Wait>, startup: Startup, events: seq<Event>): seq<Reply> {
    var pty := PtyReplies(waits[..OpenPrefix(waits)]);
    match Negotiation(utf8, waits)
    case StillOpen => pty
    case Refused => pty + [Failure]
    case Agreed(_) =>
      if !startup.Started? then pty + [Failure]
      else if !startup.successSent then pty + [Success]
      else pty + [Success] + RelayReplies(Session, events)
  }

  ghost function SessionSent(utf8: Utf8, waits: seq<Wait>, startup: Startup, events: seq<Event>): seq<ToProvider> {
    match Negotiation(utf8, waits)
    case Agreed(start) =>
      if startup.NotStarted? || startup.Started? then
        [start] + (if startup.Started? && startup.successSent then AllForwarded(Session, Handled(Session, events)) else [])
      else []
    case _ => []
  }

  predicate IsOutput(r: Reply) { r.Stdout? || r.Stderr? }

  predicate IsAnswer(r: Reply) { r.Success? || r.Failure? }

  /** The exit status an ended relay reports: the provider's, or 255. */
  function EndCode(events: seq<Event>): Option<nat> {
    var n := Alive(Session, events);
    if n == |events| then None
    else if IsExit(Session, events[n]) then Some(ExitCode(events[n].frame.value.value))
    else Some(255)
  }

  /** The output relayed before the end. */
  function Output(events: seq<Event>): seq<Reply> {
    AllEmitted(Session, events[..Alive(Session, events)])
  }

  /**
  The order section 6 of RFC 4254 asks for once the command has started: output only and, when the
  channel has ended, exactly one exit status, one EOF and one close, in this order.
  */
  ghost predicate RelayGrammar(replies: seq<Reply>, output: seq<Reply>, code: Option<nat>) {
    && (forall i :: 0 <= i < |output| ==> IsOutput(output[i]))
    && replies == output + (if code.Some? then [ExitStatus(code.value), EofReply, CloseReply] else [])
  }

  /** The terminal requests among the handled messages. */
  function PtyCount(waits: seq<Wait>): nat {
    if waits == [] then 0
    else PtyCount(waits[..|waits| - 1]) + (if waits[|waits| - 1].Got? && waits[|waits| - 1].msg.RequestPty? then 1 else 0)
  }

  lemma {:induction false} PtyRepliesAreAnswers(waits: seq<Wait>)
    ensures |PtyReplies(waits)| == PtyCount(waits)
    ensures forall i :: 0 <= i < |PtyReplies(waits)| ==> IsAnswer(PtyReplies(waits)[i])
  {
    if waits != [] {
      PtyRepliesAreAnswers(waits[..|waits| - 1]);
    }
  }

  lemma {:induction false} OutputBeforeTheEnd(events: seq<Event>)
    requires forall i :: 0 <= i < |events| ==> !Ends(Session, events[i])
    ensures forall i :: 0 <= i < |AllEmitted(Session, events)| ==> IsOutput(AllEmitted(Session, events)[i])
  {
    if events != [] {
      OutputBeforeTheEnd(events[..|events| - 1]);
    }
  }

  lemma RelaysObeyTheGrammar(events: seq<Event>)
    ensures RelayGrammar(RelayReplies(Session, events), Output(events), EndCode(events))
  {
    hide AllEmitted, RelayReplies;
    var n := Alive(Session, events);
    OutputBeforeTheEnd(events[..n]);
    if n < |events| {
      RelayEnds(Session, events, n);
      assert IsExit(Session, events[n]) || Emits(Session, events[n]) == [];
    } else {
      RelayContinues(Session, events);
      assert events[..n] == events;
    }
  }

  /**
  Every run of a session channel answers the terminal requests in order and then either is still
  negotiating, or sends one final failure, or sends one final success and obeys the relay's grammar.
  Only when the success could not be sent does nothing follow it.
  */
  lemma SessionsObeyTheGrammar(utf8: Utf8, waits: seq<Wait>, startup: Startup, events: seq<Event>)
    ensures var replies := SessionReplies(utf8, waits, startup, events);
            var answers := PtyCount(waits[..OpenPrefix(waits)]);
            && answers <= |replies| && (forall i :: 0 <= i < answers ==> IsAnswer(replies[i]))
            && (Negotiation(utf8, waits).StillOpen? ==> replies[answers..] == [])
            && (Negotiation(utf8, waits).Refused? || (Negotiation(utf8, waits).Agreed? && !startup.Started?) ==>
                  replies[answers..] == [Failure])
            && (Negotiation(utf8, waits).Agreed? && startup == Started(false) ==> replies[answers..] == [Success])
            && (Negotiation(utf8, waits).Agreed? && startup == Started(true) ==>
                  && replies[answers..] != [] && replies[answers] == Success
                  && RelayGrammar(replies[answers + 1..], Output(events), EndCode(events)))
    ensures var sent := SessionSent(utf8, waits, startup, events);
            match Negotiation(utf8, waits)
            case Agreed(start) =>
              && (startup == Started(true) ==>
                    sent != [] && sent[0] == start && sent[1..] == AllForwarded(Session, Handled(Session, events)))
              && (startup == Started(false) || startup == NotStarted ==> sent == [start])
              && (startup == NoProvider || startup == ConnectFailed || startup == StartNotSent ==> sent == [])
            case _ => sent == []
  {
    hide Negotiation, PtyReplies, PtyCount, RelayReplies, Output, EndCode, AllForwarded, Handled;
    var pty := PtyReplies(waits[..OpenPrefix(waits)]);
    PtyRepliesAreAnswers(waits[..OpenPrefix(waits)]);
    var replies := SessionReplies(utf8, waits, startup, events);
    assert replies[..|pty|] == pty;
    RelaysObeyTheGrammar(events);
    if Negotiation(utf8, waits).Agreed? && startup == Started(true) {
      assert replies[|pty| + 1..] == RelayReplies(Session, events);
    }
  }

  // ---------------------------------------------------------------- exact bytes

  function ChunkOf(r: Reply, tag: int): Bytes {
    if tag == 1 && r.Stdout? then r.out else if tag == 2 && r.Stderr? then r.err else []
  }

  /** The bytes sent as standard output (`tag` 1) or standard error (`tag` 2). */
  function BytesOf(replies: seq<Reply>, tag: int): Bytes {
    if replies == [] then []
    else BytesOf(replies[..|replies| - 1], tag) + ChunkOf(replies[|replies| - 1], tag)
  }

  /** The payloads, in order, of the provider's frames with this tag. */
  function Payloads(events: seq<Event>, tag: int): Bytes {
    if events == [] then []
    else
      var e := events[|events| - 1];
      Payloads(events[..|events| - 1], tag)
      + (if e.FromProvider? && e.frame.Binary? && e.frame.payload != [] && e.frame.payload[0] == tag
         then e.frame.payload[1..] else [])
  }

  lemma {:induction false} BytesAppend(s: seq<Reply>, t: seq<Reply>, tag: int)
    ensures BytesOf(s + t, tag) == BytesOf(s, tag) + BytesOf(t, tag)
    decreases |t|
  {
    hide ChunkOf;
    if t == [] {
      assert s + t == s;
    } else {
      var rest, chunk := t[..|t| - 1], ChunkOf(t[|t| - 1], tag);
      BytesAppend(s, rest, tag);
      assert (s + t)[..|s + t| - 1] == s + rest;
      assert BytesOf(s, tag) + BytesOf(rest, tag) + chunk == BytesOf(s, tag) + (BytesOf(rest, tag) + chunk);
    }
  }

  lemma {:induction false} RelayedBytes(events: seq<Event>, tag: int)
    requires tag == 1 || tag == 2
    requires forall i :: 0 <= i < |events| ==> !Ends(Session, events[i])
    ensures BytesOf(AllEmitted(Session, events), tag) == Payloads(events, tag)
  {
    if events != [] {
      var rest, e := events[..|events| - 1], events[|events| - 1];
      RelayedBytes(rest, tag);
      BytesAppend(AllEmitted(Session, rest), Emits(Session, e), tag);
      if Emits(Session, e) != [] {
        assert Emits(Session, e)[..0] == [];
      }
    }
  }

  lemma {:induction false} NoOutputNoBytes(replies: seq<Reply>, tag: int)
    requires forall i :: 0 <= i < |replies| ==> !IsOutput(replies[i])
    ensures BytesOf(replies, tag) == []
  {
    if replies != [] {
      NoOutputNoBytes(replies[..|replies| - 1], tag);
    }
  }

  /** The client's standard output and error are exactly the tagged payloads that arrived before the end. */
  lemma OutputIsExact(events: seq<Event>, tag: int)
    requires tag == 1 || tag == 2
    ensures BytesOf(RelayReplies(Session, events), tag) == Payloads(events[..Alive(Session, events)], tag)
  {
    hide BytesOf, Payloads, RelayReplies, Emits;
    RelaysObeyTheGrammar(events);
    RelayedBytes(events[..Alive(Session, events)], tag);
    var closing := if EndCode(events).Some? then [ExitStatus(EndCode(events).value), EofReply, CloseReply] else [];
    BytesAppend(Output(events), closing, tag);
    NoOutputNoBytes(closing, tag);
  }

  /** Nothing that arrives after a failed identity check, or any other end, is relayed in either direction. */
  lemma NothingAfterTheEnd(k: Kind, before: seq<Event>, last: Event, after: seq<Event>)
    requires Ends(k, last)
    ensures RelayReplies(k, before + [last] + after) == RelayReplies(k, before + [last])
    ensures AllForwarded(k, Handled(k, before + [last] + after)) == AllForwarded(k, Handled(k, before + [last]))
  {
    hide Emits, Forwards, Ends, AllEmitted, AllForwarded, RelayReplies, Handled, Wants;
    var short, long := before + [last], before + [last] + after;
    var n := Alive(k, short);
    assert short[|before|] == last;
    assert n < |short|;
    assert forall i :: 0 <= i < |short| ==> long[i] == short[i];
    RelayEnds(k, short, n);
    RelayEnds(k, long, n);
    assert long[..n] == short[..n];
  }

  /** In particular, after a failed identity check the client's input goes nowhere. */
  lemma NothingForwardedAfterFailedCheck(k: Kind, before: seq<Event>, after: seq<Event>)
    requires forall i :: 0 <= i < |before| ==> !Ends(k, before[i])
    ensures AllForwarded(k, Handled(k, before + [Recheck(false)] + after)) == AllForwarded(k, before)
    ensures RelayReplies(k, before + [Recheck(false)] + after) == AllEmitted(k, before) + Closing(k, Recheck(false))
  {
    hide AllEmitted, AllForwarded, RelayReplies, Handled, Closing;
    var events := before + [Recheck(false)] + after;
    assert forall i :: 0 <= i < |before| ==> events[i] == before[i];
    RelayEnds(k, events, |before|);
    assert events[..|before|] == before;
    assert Emits(k, Recheck(false)) == [] && Forwards(k, Recheck(false)) == [];
  }

  // ---------------------------------------------------------------- exact input

  predicate FitsScreen(cols: nat, rows: nat) {
    1 <= cols <= 65535 && 1 <= rows <= 65535
  }

  /** An object whose member "type" is the text "exit". */
  predicate SaysExit(value: Option<Value>) {
    match value
    case Some(Obj(fields)) => "type" in fields && fields["type"] == Str("exit")
    case _ => false
  }

  /** The relay goes on after this event. */
  predicate GoesOn(k: Kind, e: Event) {
    match e
    case Recheck(allowed) => allowed
    case FromClient(None, _) => false
    case FromClient(Some(Close), _) => false
    case FromClient(Some(Data(_)), sent) => sent
    case FromClient(Some(Eof), sent) => sent
    case FromClient(Some(WindowChange(cols, rows)), sent) => k == Forward || sent || !FitsScreen(cols, rows)
    case FromClient(Some(_), _) => true
    case FromProvider(Binary(payload), sent) => sent && (k == Forward || [1] <= payload || [2] <= payload)
    case FromProvider(Text(value), _) => k == Session && !SaysExit(value)
    case FromProvider(Ping(_), sent) => sent
    case FromProvider(Pong, _) => true
    case FromProvider(SocketGone, _) => false
  }

  /** A relay ends with a failed check, failed send, close or end of a side, foreign frame or exit, and with nothing else. */
  lemma EndsExactly(k: Kind, e: Event)
    ensures Ends(k, e) <==> !GoesOn(k, e)
  {
  }

  /** What the provider is told about one event of a relay that goes on. */
  function Told(k: Kind, e: Event): seq<ToProvider> {
    match e
    case FromClient(Some(Data(data)), _) => [Input(data)]
    case FromClient(Some(Eof), _) => [InputEnd]
    case FromClient(Some(WindowChange(cols, rows)), _) =>
      if k == Session && FitsScreen(cols, rows) then [Resize(cols, rows)] else []
    case FromProvider(Ping(ping), _) => [PongBack(ping)]
    case _ => []
  }

  function AllTold(k: Kind, events: seq<Event>): seq<ToProvider> {
    if events == [] then [] else Told(k, events[0]) + AllTold(k, events[1..])
  }

  lemma {:induction false} ToldSnoc(k: Kind, events: seq<Event>, e: Event)
    ensures AllTold(k, events + [e]) == AllTold(k, events) + Told(k, e)
  {
    hide Told;
    if events == [] {
      assert events + [e] == [e];
      assert [e][1..] == [];
    } else {
      assert (events + [e])[1..] == events[1..] + [e];
      ToldSnoc(k, events[1..], e);
    }
  }

  lemma {:induction false} ForwardedWhileOpen(k: Kind, events: seq<Event>)
    requires forall i :: 0 <= i < |events| ==> !Ends(k, events[i])
    ensures AllForwarded(k, events) == AllTold(k, events)
    decreases |events|
  {
    hide Ends, Told, Forwards;
    if events != [] {
      var rest, e := events[..|events| - 1], events[|events| - 1];
      ForwardedWhileOpen(k, rest);
      assert events == rest + [e];
      ToldSnoc(k, rest, e);
      OneForwarded(k, e);
    }
  }

  lemma OneForwarded(k: Kind, e: Event)
    ensures !Ends(k, e) ==> Forwards(k, e) == Told(k, e)
    ensures Ends(k, e) ==> Forwards(k, e) == []
  {
  }

  /** The bytes of input in a sequence of messages to the provider. */
  function InputBytes(sent: seq<ToProvider>): Bytes {
    if sent == [] then [] else (if sent[0].Input? then sent[0].data else []) + InputBytes(sent[1..])
  }

  /** The bytes the client sent. */
  function Typed(events: seq<Event>): Bytes {
    if events == [] then [] else TypedIn(events[0]) + Typed(events[1..])
  }

  function TypedIn(e: Event): Bytes {
    match e
    case FromClient(Some(Data(data)), _) => data
    case _ => []
  }

  lemma {:induction false} InputBytesAppend(s: seq<ToProvider>, t: seq<ToProvider>)
    ensures InputBytes(s + t) == InputBytes(s) + InputBytes(t)
  {
    if s == [] {
      assert s + t == t;
    } else {
      InputBytesAppend(s[1..], t);
      assert (s + t)[1..] == s[1..] + t;
    }
  }

  lemma ToldBytes(k: Kind, e: Event)
    ensures InputBytes(Told(k, e)) == TypedIn(e)
  {
    if Told(k, e) != [] { assert Told(k, e)[1..] == []; }
  }

  lemma {:induction false} InputBytesAreTyped(k: Kind, events: seq<Event>)
    ensures InputBytes(AllTold(k, events)) == Typed(events)
  {
    hide Told, TypedIn, InputBytes;
    if events != [] {
      InputBytesAreTyped(k, events[1..]);
      ToldBytes(k, events[0]);
      InputBytesAppend(Told(k, events[0]), AllTold(k, events[1..]));
    } else {
      NoInput();
    }
  }

  lemma NoInput()
    ensures InputBytes([]) == []
  {
  }

  /**
  The provider is told of every event before the end, in order, and of nothing else; and the command reads
  exactly what the client typed before the end.
  */
  lemma InputIsExact(k: Kind, events: seq<Event>)
    ensures AllForwarded(k, Handled(k, events)) == AllTold(k, events[..Alive(k, events)])
    ensures InputBytes(AllForwarded(k, Handled(k, events))) == Typed(events[..Alive(k, events)])
  {
    hide InputBytes, Typed, Ends, Told, Forwards, AllForwarded, Handled, AllTold;
    var n := Alive(k, events);
    InputBytesAreTyped(k, events[..n]);
    ForwardedWhileOpen(k, events[..n]);
    if n < |events| {
      RelayEnds(k, events, n);
      OneForwarded(k, events[n]);
    } else {
      assert events[..n] == events;
      RelayContinues(k, events);
    }
  }

  // ---------------------------------------------------------------- exact ends and starts

  /** The code of the provider's exit message if it is a 32-bit number, else 255; 255 also for any other end. */
  function CodeOf(last: Event): nat {
    match last
    case FromProvider(Text(Some(Obj(fields))), _) =>
      if "type" in fields && fields["type"] == Str("exit")
         && "code" in fields && fields["code"].Num? && 0 <= fields["code"].n < 0x1_0000_0000
      then fields["code"].n else 255
    case _ => 255
  }

  lemma ExitExactly(last: Event)
    ensures IsExit(Session, last) ==> ExitCode(last.frame.value.value) == CodeOf(last)
    ensures !IsExit(Session, last) ==> CodeOf(last) == 255
  {
  }

  /** The exit status an ended relay reports. */
  lemma EndCodeExactly(events: seq<Event>)
    requires Alive(Session, events) < |events|
    ensures EndCode(events) == Some(CodeOf(events[Alive(Session, events)]))
  {
    hide IsExit, ExitCode, CodeOf, Alive;
    ExitExactly(events[Alive(Session, events)]);
  }

  /** A forwarded port: everything the container sends, then, once it has ended, end of file and close. */
  lemma {:induction false} ForwardedBytes(events: seq<Event>)
    requires forall i :: 0 <= i < |events| ==> !Ends(Forward, events[i])
    ensures BytesOf(AllEmitted(Forward, events), 1) == Streamed(events)
  {
    if events != [] {
      var rest, e := events[..|events| - 1], events[|events| - 1];
      ForwardedBytes(rest);
      BytesAppend(AllEmitted(Forward, rest), Emits(Forward, e), 1);
      if Emits(Forward, e) != [] {
        assert Emits(Forward, e)[..0] == [];
      }
    }
  }

  /** The payloads of the provider's binary frames. */
  function Streamed(events: seq<Event>): Bytes {
    if events == [] then []
    else
      Streamed(events[..|events| - 1]) +
      match events[|events| - 1]
      case FromProvider(Binary(payload), _) => payload
      case _ => []
  }

  lemma ForwardsAreExact(events: seq<Event>)
    ensures var n, replies := Alive(Forward, events), RelayReplies(Forward, events);
            && BytesOf(replies, 1) == Streamed(events[..n]) && BytesOf(replies, 2) == []
            && (n < |events| ==> |replies| >= 2 && replies[|replies| - 2..] == [EofReply, CloseReply])
            && (forall i :: 0 <= i < |replies| - (if n < |events| then 2 else 0) ==> replies[i].Stdout?)
  {
    hide BytesOf, RelayReplies, AllEmitted, Streamed;
    var n := Alive(Forward, events);
    var output := AllEmitted(Forward, events[..n]);
    ForwardedBytes(events[..n]);
    OnlyStdout(events[..n]);
    if n < |events| {
      RelayEnds(Forward, events, n);
      assert Emits(Forward, events[n]) == [];
      assert RelayReplies(Forward, events) == output + [EofReply, CloseReply];
      BytesAppend(output, [EofReply, CloseReply], 1);
      BytesAppend(output, [EofReply, CloseReply], 2);
      NoOutputNoBytes([EofReply, CloseReply], 1);
      NoOutputNoBytes([EofReply, CloseReply], 2);
    } else {
      assert events[..n] == events;
      RelayContinues(Forward, events);
    }
  }

  lemma {:induction false} OnlyStdout(events: seq<Event>)
    requires forall i :: 0 <= i < |events| ==> !Ends(Forward, events[i])
    ensures forall i :: 0 <= i < |AllEmitted(Forward, events)| ==> AllEmitted(Forward, events)[i].Stdout?
    ensures BytesOf(AllEmitted(Forward, events), 2) == []
    decreases |events|
  {
    if events != [] {
      var rest, e := events[..|events| - 1], events[|events| - 1];
      OnlyStdout(rest);
      BytesAppend(AllEmitted(Forward, rest), Emits(Forward, e), 2);
      if Emits(Forward, e) != [] {
        assert Emits(Forward, e)[..0] == [];
      }
    }
  }

  /** A request for a terminal, or a new size of one, that fits. */
  predicate Announces(w: Wait, cols: nat, rows: nat) {
    (w == Got(RequestPty(cols, rows)) || w == Got(WindowChange(cols, rows))) && FitsScreen(cols, rows)
  }

  /** The size a session starts with is the last one that was announced and fits; 80 by 24 if none was. */
  lemma {:induction false} LastSizeExactly(waits: seq<Wait>, cols: nat, rows: nat)
    ensures LastSize(waits) == (cols, rows) <==>
            || (exists i :: 0 <= i < |waits| && Announces(waits[i], cols, rows)
                         && forall j, c, r :: i < j < |waits| ==> !Announces(waits[j], c, r))
            || ((cols, rows) == (80, 24) && forall j, c, r :: 0 <= j < |waits| ==> !Announces(waits[j], c, r))
    decreases |waits|
  {
    if waits != [] {
      var n := |waits| - 1;
      var rest, w := waits[..n], waits[n];
      LastSizeExactly(rest, cols, rows);
      if SetsSize(w) {
        assert Announces(w, w.msg.cols, w.msg.rows);
      } else {
        assert forall c, r :: !Announces(w, c, r);
        assert forall i :: 0 <= i < n ==> waits[i] == rest[i];
      }
    }
  }

  /** A terminal was asked for, in a size that fits, among these messages. */
  predicate AskedForTerminal(waits: seq<Wait>) {
    exists i :: 0 <= i < |waits| && waits[i].Got? && waits[i].msg.RequestPty?
                && FitsScreen(waits[i].msg.cols, waits[i].msg.rows)
  }

  predicate KeepsNegotiating(w: Wait) {
    match w
    case Got(RequestPty(_, _)) => true
    case Got(WindowChange(_, _)) => true
    case Got(SetEnv) => true
    case _ => false
  }

  /** A command: text of 1 to 16384 bytes without a zero byte. */
  predicate IsCommand(utf8: Utf8, command: Bytes) {
    utf8.accepts(command) && 1 <= |command| <= 16384 && forall i :: 0 <= i < |command| ==> command[i] != 0
  }

  /**
  What a session agrees on, by the first message that is not about the terminal or the environment: the
  command, or the shell, or file transfer without a terminal; with the terminal and size asked for before.
  */
  lemma NegotiationExactly(utf8: Utf8, before: seq<Wait>, w: Wait, after: seq<Wait>)
    requires forall i :: 0 <= i < |before| ==> KeepsNegotiating(before[i])
    requires !KeepsNegotiating(w)
    ensures var tty, size := AskedForTerminal(before), LastSize(before);
            Negotiation(utf8, before + [w] + after) ==
            match w
            case Got(RequestShell) => Agreed(Start(Shell, tty, size.0, size.1))
            case Got(Exec(command)) =>
              if IsCommand(utf8, command) then Agreed(Start(Run(command), tty, size.0, size.1)) else Refused
            case Got(RequestSubsystem(name)) =>
              if name == "sftp" && !tty then Agreed(Start(Sftp, false, size.0, size.1)) else Refused
            case _ => Refused
  {
    var waits := before + [w] + after;
    assert forall i :: 0 <= i < |before| ==> waits[i] == before[i];
    assert waits[|before|] == w;
    StopsAt(waits, |before|);
    assert waits[..|before|] == before;
    assert AskedForTerminal(before) <==> HasTty(before);
  }

  lemma StillNegotiating(utf8: Utf8, waits: seq<Wait>)
    requires forall i :: 0 <= i < |waits| ==> KeepsNegotiating(waits[i])
    ensures Negotiation(utf8, waits) == StillOpen
  {
    AllOpen(waits);
  }

  /** Each terminal request has its own answer, in order: success exactly for a size that fits. */
  lemma {:induction false} PtyAnswered(waits: seq<Wait>, n: nat, cols: nat, rows: nat)
    requires n < |waits| && waits[n] == Got(RequestPty(cols, rows))
    ensures var k := PtyCount(waits[..n]);
            k < |PtyReplies(waits)| && PtyReplies(waits)[k] == if FitsScreen(cols, rows) then Success else Failure
    decreases |waits|
  {
    var rest := waits[..|waits| - 1];
    PtyRepliesAreAnswers(rest);
    if n < |rest| {
      PtyAnswered(rest, n, cols, rows);
      assert rest[..n] == waits[..n];
    }
  }
}
