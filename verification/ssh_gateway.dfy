/**
Admission to the SSH gateway: connection permits shared by TCP and WebSocket arrivals, channel
permits of each connection, the identity check before every channel and the pod a connection is
pinned to. Channel tasks are detached: they may outlive their connection and keep their channel
permit until they end.
*/
module SshGateway {
  import opened Basics
  import opened Outcomes
  import opened Order

  const MAX_CONNECTIONS: nat := 64
  const MAX_CHANNELS: nat := 8

  datatype Target = Target(org: string, service: string)

  datatype Identity = Identity(target: Target, user: int, keyId: int, fingerprint: string)

  datatype Container = Container(name: string, phase: string, ready: bool)

  /** A channel being opened, or one whose task runs; both hold a permit. `check` numbers its identity check. */
  datatype Channel =
    | Opening(since: nat)
    | Live(pod: string, identity: Identity, since: nat, check: nat)

  /** `checks` counts the identity checks made for channel openings on this connection. */
  datatype Connection = Connection(
    serving: bool,
    expected: Option<Target>,
    identity: Option<Identity>,
    checks: nat,
    pod: Option<string>,
    free: nat,
    channels: map<nat, Channel>)

  datatype State = State(free: nat, connections: map<nat, Connection>)

  datatype Request = SessionOpen | ForwardOpen(host: string, port: nat)

  datatype Event =
    | Arrive(c: nat, expected: Option<Target>)
    | Depart(c: nat)
    | Authenticate(c: nat, username: string, rsa: bool, key: Option<(int, int)>, fingerprint: string, permitted: bool)
    | BeginOpen(c: nat, ch: nat, request: Request)
    | FinishOpen(c: nat, ch: nat, allowed: bool, containers: Option<seq<Container>>, connected: bool)
    | EndChannel(c: nat, ch: nat)

  // ---------------------------------------------------------------- names

  predicate IsUuid(s: string) {
    |s| == 36 && forall i :: 0 <= i < 36 ==> if i in {8, 13, 18, 23} then s[i] == '-' else IsHex(s[i])
  }

  function IndexOf(s: string, c: char): (i: nat)
    ensures i <= |s|
    ensures i < |s| ==> s[i] == c
    ensures forall k :: 0 <= k < i ==> s[k] != c
  {
    if s == [] || s[0] == c then 0 else 1 + IndexOf(s[1..], c)
  }

  /** Identifiers are compared as parsed, so the case of their digits does not matter. */
  function Canonical(s: string): string {
    seq(|s|, i requires 0 <= i < |s| => if 'A' <= s[i] <= 'F' then s[i] - 'A' + 'a' else s[i])
  }

  /** The user name carries the organization and the service, separated by a plus sign. */
  function SshUsername(value: string): Option<Target> {
    var i := IndexOf(value, '+');
    if i == |value| then None
    else if IsUuid(value[..i]) && IsUuid(value[i + 1..]) then Some(Target(Canonical(value[..i]), Canonical(value[i + 1..])))
    else None
  }

  /** Two identifiers, in any case, joined by a plus sign. */
  ghost predicate Names(value: string, t: Target) {
    exists org, service :: value == Joined(org, service) && IsUuid(org) && IsUuid(service)
                        && t == Target(Canonical(org), Canonical(service))
  }

  function Joined(org: string, service: string): string {
    org + "+" + service
  }

  lemma JoinedSplits(org: string, service: string)
    requires IsUuid(org) && IsUuid(service)
    ensures SshUsername(Joined(org, service)) == Some(Target(Canonical(org), Canonical(service)))
  {
    hide Canonical;
    var value := Joined(org, service);
    assert forall k :: 0 <= k < 36 ==> value[k] == org[k] && org[k] != '+';
    assert value[36] == '+';
    assert IndexOf(value, '+') == 36;
    assert value[..36] == org && value[37..] == service;
  }

  /** A user name is accepted exactly when it is two identifiers joined by a plus sign, and names just those. */
  lemma UsernamesAreExact(value: string, t: Target)
    ensures SshUsername(value) == Some(t) <==> Names(value, t)
  {
    hide Canonical, IsUuid;
    var i := IndexOf(value, '+');
    if SshUsername(value) == Some(t) {
      assert value == Joined(value[..i], value[i + 1..]);
    }
    if Names(value, t) {
      var org, service :| value == Joined(org, service) && IsUuid(org) && IsUuid(service)
                          && t == Target(Canonical(org), Canonical(service));
      JoinedSplits(org, service);
    }
  }

  /** Hexadecimal digits in groups of 8, 4, 4, 4 and 12, joined by hyphens. */
  predicate IsHyphenated(s: string) {
    && |s| == 36 && s[8] == '-' && s[13] == '-' && s[18] == '-' && s[23] == '-'
    && forall i :: 0 <= i < 36 && i != 8 && i != 13 && i != 18 && i != 23 ==> s[i] in "0123456789abcdefABCDEF"
  }

  lemma UuidExactly(s: string)
    ensures IsUuid(s) <==> IsHyphenated(s)
  {
    hide IsHex;
    forall i | 0 <= i < |s| ensures IsHex(s[i]) <==> s[i] in "0123456789abcdefABCDEF" { HexDigits(s[i]); }
  }

  /** Equal, or the same letter in the other case. */
  predicate SameDigit(a: char, b: char) {
    || a == b
    || exists k :: 0 <= k < 6 && ((a == "abcdef"[k] && b == "ABCDEF"[k]) || (a == "ABCDEF"[k] && b == "abcdef"[k]))
  }

  /** Two user names name the same organization and service if and only if they differ at most in case. */
  lemma CanonicalExactly(s: string, t: string)
    ensures Canonical(s) == Canonical(t) <==> |s| == |t| && forall i :: 0 <= i < |s| ==> SameDigit(s[i], t[i])
  {
    forall i | 0 <= i < |s| && i < |t|
      ensures Canonical(s)[i] == Canonical(t)[i] <==> SameDigit(s[i], t[i])
    {
      CaseOfDigit(s[i], t[i]);
    }
    assert Canonical(s) == Canonical(t) ==> |s| == |Canonical(s)| == |Canonical(t)| == |t|;
  }

  lemma CaseOfDigit(a: char, b: char)
    ensures Canonical([a])[0] == Canonical([b])[0] <==> SameDigit(a, b)
  {
    assert forall k :: 0 <= k < 6 ==> "abcdef"[k] as int == 'a' as int + k && "ABCDEF"[k] as int == 'A' as int + k;
    if 'A' <= a <= 'F' && b == a - 'A' + 'a' {
      assert a == "ABCDEF"[a as int - 'A' as int] && b == "abcdef"[a as int - 'A' as int];
    }
    if 'A' <= b <= 'F' && a == b - 'A' + 'a' {
      assert b == "ABCDEF"[b as int - 'A' as int] && a == "abcdef"[b as int - 'A' as int];
    }
  }

  // ---------------------------------------------------------------- pod selection

  predicate Eligible(x: Container) {
    x.ready && x.phase == "Running"
  }

  /** `name` is the least name among the containers that are ready and running. */
  ghost predicate IsFirstEligible(items: seq<Container>, name: string) {
    && Container(name, "Running", true) in items
    && (forall i :: 0 <= i < |items| && items[i].ready && items[i].phase == "Running" ==>
          items[i].name == name || Precedes(name, items[i].name))
  }

  predicate SomeEligible(items: seq<Container>) {
    exists i :: 0 <= i < |items| && items[i].ready && items[i].phase == "Running"
  }

  function FirstEligible(items: seq<Container>): Option<string> {
    if items == [] then None
    else
      var rest := FirstEligible(items[..|items| - 1]);
      var x := items[|items| - 1];
      if !Eligible(x) then rest
      else if rest.None? || Less(x.name, rest.value) then Some(x.name)
      else rest
  }

  lemma {:induction false} FirstEligibleIsLeast(items: seq<Container>)
    ensures FirstEligible(items).None? <==> forall i :: 0 <= i < |items| ==> !items[i].ready || items[i].phase != "Running"
    ensures FirstEligible(items).Some? ==> IsFirstEligible(items, FirstEligible(items).value)
  {
    hide Less, Precedes;
    if items != [] {
      var rest := items[..|items| - 1];
      var x := items[|items| - 1];
      assert items == rest + [x];
      FirstEligibleIsLeast(rest);
      if Eligible(x) && FirstEligible(rest).Some? {
        var least := FirstEligible(rest).value;
        LessExactly(x.name, least);
        PrecedesTotal(x.name, least);
        forall i | 0 <= i < |rest| && Eligible(rest[i])
          ensures items[i] == rest[i]
          ensures items[i].name == FirstEligible(items).value || Precedes(FirstEligible(items).value, items[i].name)
        {
          if Precedes(x.name, least) && least != rest[i].name {
            PrecedesTransitive(x.name, least, rest[i].name);
          }
        }
      }
      if Eligible(x) { assert x == Container(x.name, "Running", true); }
    }
  }

  // ---------------------------------------------------------------- steps

  function Fresh(expected: Option<Target>): Connection {
    Connection(true, expected, None, 0, None, MAX_CHANNELS, map[])
  }

  function WithConnection(s: State, c: nat, x: Connection): State {
    s.(connections := s.connections[c := x])
  }

  function ArriveStep(s: State, c: nat, expected: Option<Target>): State {
    if c in s.connections || s.free == 0 then s
    else State(s.free - 1, s.connections[c := Fresh(expected)])
  }

  function LiveOnly(channels: map<nat, Channel>): map<nat, Channel> {
    map ch | ch in channels && channels[ch].Live? :: channels[ch]
  }

  lemma LiveOnlyIsSmaller(channels: map<nat, Channel>)
    ensures |LiveOnly(channels)| <= |channels|
  {
    SubsetIsSmaller(LiveOnly(channels).Keys, channels.Keys);
    assert |LiveOnly(channels)| == |LiveOnly(channels).Keys| && |channels| == |channels.Keys|;
  }

  /** The connection's task ends: the permits of half-open channels return at once. */
  function Departed(x: Connection): Connection {
    LiveOnlyIsSmaller(x.channels);
    x.(serving := false, channels := LiveOnly(x.channels),
       free := x.free + (|x.channels| - |LiveOnly(x.channels)|))
  }

  function DepartStep(s: State, c: nat): State {
    if c !in s.connections || !s.connections[c].serving then s
    else
      var x := s.connections[c];
      State(s.free + 1, s.connections[c := Departed(x)])
  }

  function Authenticated(
    x: Connection, username: string, rsa: bool, key: Option<(int, int)>, fingerprint: string, permitted: bool): Connection
  {
    var target := SshUsername(username);
    if rsa || target.None? || (x.expected.Some? && x.expected != target) || key.None? || !permitted
    then x.(identity := None)
    else x.(identity := Some(Identity(target.value, key.value.0, key.value.1, fingerprint)))
  }

  predicate Acceptable(r: Request) {
    r.ForwardOpen? ==> r.host in {"localhost", "127.0.0.1", "::1"} && 0 < r.port <= 0xFFFF
  }

  /** A session, or a forwarded port of the container itself. */
  predicate LoopbackOnly(r: Request) {
    match r
    case SessionOpen => true
    case ForwardOpen(host, port) => (host == "localhost" || host == "127.0.0.1" || host == "::1") && 1 <= port < 65536
  }

  lemma AcceptableExactly(r: Request)
    ensures Acceptable(r) <==> LoopbackOnly(r)
  {
  }

  function BeginOpenStep(s: State, c: nat, ch: nat, request: Request): State {
    if c !in s.connections then s
    else
      var x := s.connections[c];
      if !x.serving || !Acceptable(request) || ch in x.channels || x.free == 0 then s
      else WithConnection(s, c, x.(free := x.free - 1, channels := x.channels[ch := Opening(x.checks)]))
  }

  function Dropped(x: Connection, ch: nat): Connection {
    if ch in x.channels then x.(free := x.free + 1, channels := x.channels - {ch}) else x
  }

  /** `Handler::target`, then, for a forwarded port, the provider connection; only then is the channel accepted. */
  function Opened(x: Connection, ch: nat, allowed: bool, containers: Option<seq<Container>>, connected: bool): Connection
    requires ch in x.channels && x.channels[ch].Opening?
  {
    if x.identity.None? then Dropped(x, ch)
    else
      var checked := x.(checks := x.checks + 1);
      if !allowed then Dropped(checked, ch)
      else
        var pod := if x.pod.Some? then x.pod else if containers.None? then None else FirstEligible(containers.value);
        if pod.None? then Dropped(checked, ch)
        else
          var pinned := checked.(pod := pod);
          if !connected then Dropped(pinned, ch)
          else pinned.(channels := pinned.channels[
            ch := Live(pod.value, x.identity.value, x.channels[ch].since, checked.checks)])
  }

  function FinishOpenStep(
    s: State, c: nat, ch: nat, allowed: bool, containers: Option<seq<Container>>, connected: bool): State
  {
    if c in s.connections && s.connections[c].serving && ch in s.connections[c].channels
       && s.connections[c].channels[ch].Opening?
    then WithConnection(s, c, Opened(s.connections[c], ch, allowed, containers, connected))
    else s
  }

  function EndChannelStep(s: State, c: nat, ch: nat): State {
    if c in s.connections && ch in s.connections[c].channels && s.connections[c].channels[ch].Live?
    then WithConnection(s, c, Dropped(s.connections[c], ch))
    else s
  }

  function AuthenticateStep(
    s: State, c: nat, username: string, rsa: bool, key: Option<(int, int)>, fingerprint: string, permitted: bool): State
  {
    if c in s.connections && s.connections[c].serving
    then WithConnection(s, c, Authenticated(s.connections[c], username, rsa, key, fingerprint, permitted))
    else s
  }

  function Step(s: State, e: Event): State {
    match e
    case Arrive(c, expected) => ArriveStep(s, c, expected)
    case Depart(c) => DepartStep(s, c)
    case Authenticate(c, username, rsa, key, fingerprint, permitted) =>
      AuthenticateStep(s, c, username, rsa, key, fingerprint, permitted)
    case BeginOpen(c, ch, request) => BeginOpenStep(s, c, ch, request)
    case FinishOpen(c, ch, allowed, containers, connected) => FinishOpenStep(s, c, ch, allowed, containers, connected)
    case EndChannel(c, ch) => EndChannelStep(s, c, ch)
  }

  /** Nothing happens to a connection that is unknown or no longer served, except that its live channels end. */
  lemma TheGoneAreLeftAlone(s: State, e: Event)
    requires e.Depart? || e.Authenticate? || e.BeginOpen? || e.FinishOpen?
    requires e.c !in s.connections || !s.connections[e.c].serving
    ensures Step(s, e) == s
  {
  }

  function Run(s: State, events: seq<Event>): State
    decreases |events|
  {
    if events == [] then s else Step(Run(s, events[..|events| - 1]), events[|events| - 1])
  }

  const INITIAL := State(MAX_CONNECTIONS, map[])

  // ---------------------------------------------------------------- invariant

  ghost predicate ChannelOk(x: Connection, ch: Channel) {
    match ch
    case Opening(since) => since <= x.checks
    case Live(pod, identity, since, check) =>
      && x.pod == Some(pod)
      && since < check <= x.checks
      && (x.expected.Some? ==> x.expected == Some(identity.target))
  }

  /** No two channels were admitted by the same identity check. */
  ghost predicate ChecksDistinct(channels: map<nat, Channel>) {
    forall a, b :: a in channels && b in channels && a != b && channels[a].Live? && channels[b].Live? ==>
      channels[a].check != channels[b].check
  }

  ghost predicate ConnectionOk(x: Connection) {
    && x.free + |x.channels| == MAX_CHANNELS
    && (forall ch :: ch in x.channels ==> ChannelOk(x, x.channels[ch]))
    && ChecksDistinct(x.channels)
    && (x.expected.Some? && x.identity.Some? ==> x.expected == Some(x.identity.value.target))
    && (!x.serving ==> forall ch :: ch in x.channels ==> x.channels[ch].Live?)
  }

  function Serving(s: State): set<nat> {
    set c | c in s.connections && s.connections[c].serving
  }

  ghost predicate Inv(s: State) {
    && s.free + |Serving(s)| == MAX_CONNECTIONS
    && forall c :: c in s.connections ==> ConnectionOk(s.connections[c])
  }

  /** Changing one connection in place moves no connection permit. */
  lemma InPlace(s: State, c: nat, x: Connection)
    requires Inv(s) && c in s.connections && ConnectionOk(x) && x.serving == s.connections[c].serving
    ensures Inv(WithConnection(s, c, x))
  {
    hide ConnectionOk;
    assert Serving(WithConnection(s, c, x)) == Serving(s);
  }

  lemma DroppedOk(x: Connection, ch: nat)
    requires ConnectionOk(x)
    ensures ConnectionOk(Dropped(x, ch))
  {
    if ch in x.channels {
      var rest := x.channels - {ch};
      assert rest.Keys == x.channels.Keys - {ch};
      assert |rest| == |rest.Keys| && |x.channels| == |x.channels.Keys|;
      var y := Dropped(x, ch);
      assert forall k :: k in y.channels ==> ChannelOk(x, x.channels[k]);
    }
  }

  lemma DepartedOk(x: Connection)
    requires ConnectionOk(x)
    ensures ConnectionOk(Departed(x))
  {
    LiveOnlyIsSmaller(x.channels);
    var y := Departed(x);
    assert forall k :: k in y.channels ==> ChannelOk(x, x.channels[k]);
  }

  /** A further check, and pinning the pod of a connection that has none, disturb no channel. */
  lemma CheckedOk(x: Connection, pod: Option<string>)
    requires ConnectionOk(x) && (x.pod.Some? ==> pod == x.pod)
    ensures ConnectionOk(x.(checks := x.checks + 1, pod := pod))
  {
    var y := x.(checks := x.checks + 1, pod := pod);
    forall k | k in y.channels
      ensures ChannelOk(y, y.channels[k])
    {
      assert ChannelOk(x, x.channels[k]);
    }
  }

  lemma AcceptedOk(x: Connection, ch: nat, live: Channel)
    requires ConnectionOk(x) && ch in x.channels && x.channels[ch].Opening?
    requires live.Live? && ChannelOk(x, live) && live.check == x.checks
    requires forall k :: k in x.channels && x.channels[k].Live? ==> x.channels[k].check < x.checks
    ensures ConnectionOk(x.(channels := x.channels[ch := live]))
  {
    var y := x.(channels := x.channels[ch := live]);
    assert y.channels.Keys == x.channels.Keys;
    assert |y.channels| == |y.channels.Keys| && |x.channels| == |x.channels.Keys|;
    forall k | k in y.channels
      ensures ChannelOk(y, y.channels[k])
    {
      assert ChannelOk(x, x.channels[k]);
    }
  }

  lemma OpenedOk(x: Connection, ch: nat, allowed: bool, containers: Option<seq<Container>>, connected: bool)
    requires ConnectionOk(x) && ch in x.channels && x.channels[ch].Opening?
    ensures ConnectionOk(Opened(x, ch, allowed, containers, connected))
  {
    hide FirstEligible;
    DroppedOk(x, ch);
    if x.identity.Some? {
      var pod := if x.pod.Some? then x.pod else if containers.None? then None else FirstEligible(containers.value);
      var checked := x.(checks := x.checks + 1);
      CheckedOk(x, x.pod);
      assert checked == x.(checks := x.checks + 1, pod := x.pod);
      DroppedOk(checked, ch);
      if pod.Some? {
        CheckedOk(x, pod);
        var pinned := x.(checks := x.checks + 1, pod := pod);
        DroppedOk(pinned, ch);
        assert ChannelOk(x, x.channels[ch]);
        forall k | k in pinned.channels && pinned.channels[k].Live?
          ensures pinned.channels[k].check < pinned.checks
        {
          assert ChannelOk(x, x.channels[k]);
        }
        AcceptedOk(pinned, ch, Live(pod.value, x.identity.value, x.channels[ch].since, pinned.checks));
      }
    }
  }

  lemma BegunOk(x: Connection, ch: nat)
    requires ConnectionOk(x) && ch !in x.channels && x.free > 0 && x.serving
    ensures ConnectionOk(x.(free := x.free - 1, channels := x.channels[ch := Opening(x.checks)]))
  {
    var y := x.(free := x.free - 1, channels := x.channels[ch := Opening(x.checks)]);
    assert y.channels.Keys == x.channels.Keys + {ch};
    assert |y.channels| == |y.channels.Keys| && |x.channels| == |x.channels.Keys|;
    forall k | k in y.channels
      ensures ChannelOk(y, y.channels[k])
    {
      assert k != ch ==> ChannelOk(x, x.channels[k]);
    }
  }

  lemma AuthenticatedOk(
    x: Connection, username: string, rsa: bool, key: Option<(int, int)>, fingerprint: string, permitted: bool)
    requires ConnectionOk(x)
    ensures ConnectionOk(Authenticated(x, username, rsa, key, fingerprint, permitted))
  {
    hide SshUsername;
    var y := Authenticated(x, username, rsa, key, fingerprint, permitted);
    forall k | k in y.channels
      ensures ChannelOk(y, y.channels[k])
    {
      assert ChannelOk(x, x.channels[k]);
    }
  }

  lemma FreshOk(expected: Option<Target>)
    ensures ConnectionOk(Fresh(expected))
  {
  }

  lemma ArrivePreserves(s: State, c: nat, expected: Option<Target>)
    requires Inv(s)
    ensures Inv(ArriveStep(s, c, expected))
  {
    hide ConnectionOk;
    FreshOk(expected);
    if c !in s.connections && s.free > 0 {
      assert Serving(ArriveStep(s, c, expected)) == Serving(s) + {c};
    }
  }

  lemma DepartPreserves(s: State, c: nat)
    requires Inv(s)
    ensures Inv(DepartStep(s, c))
  {
    hide ConnectionOk;
    if c in s.connections && s.connections[c].serving {
      DepartedOk(s.connections[c]);
      assert Serving(DepartStep(s, c)) == Serving(s) - {c};
    }
  }

  lemma StepPreserves(s: State, e: Event)
    requires Inv(s)
    ensures Inv(Step(s, e))
  {
    hide ConnectionOk, Opened, Authenticated, Dropped, ArriveStep, DepartStep;
    match e {
      case Arrive(c, expected) => ArrivePreserves(s, c, expected);
      case Depart(c) => DepartPreserves(s, c);
      case Authenticate(c, username, rsa, key, fingerprint, permitted) =>
        if Step(s, e) != s {
          AuthenticatedOk(s.connections[c], username, rsa, key, fingerprint, permitted);
          ServingKept(s.connections[c], 0, false, None, false, username, rsa, key, fingerprint, permitted);
          InPlace(s, c, Authenticated(s.connections[c], username, rsa, key, fingerprint, permitted));
        }
      case BeginOpen(c, ch, request) =>
        if Step(s, e) != s {
          var x := s.connections[c];
          BegunOk(x, ch);
          InPlace(s, c, x.(free := x.free - 1, channels := x.channels[ch := Opening(x.checks)]));
        }
      case FinishOpen(c, ch, allowed, containers, connected) =>
        if Step(s, e) != s {
          OpenedOk(s.connections[c], ch, allowed, containers, connected);
          ServingKept(s.connections[c], ch, allowed, containers, connected, "", false, None, "", false);
          InPlace(s, c, Opened(s.connections[c], ch, allowed, containers, connected));
        }
      case EndChannel(c, ch) =>
        if Step(s, e) != s {
          DroppedOk(s.connections[c], ch);
          ServingKept(s.connections[c], ch, false, None, false, "", false, None, "", false);
          InPlace(s, c, Dropped(s.connections[c], ch));
        }
    }
  }

  lemma ServingKept(
    x: Connection, ch: nat, allowed: bool, containers: Option<seq<Container>>, connected: bool,
    username: string, rsa: bool, key: Option<(int, int)>, fingerprint: string, permitted: bool)
    ensures Dropped(x, ch).serving == x.serving
    ensures Authenticated(x, username, rsa, key, fingerprint, permitted).serving == x.serving
    ensures ch in x.channels && x.channels[ch].Opening? ==>
              Opened(x, ch, allowed, containers, connected).serving == x.serving
  {
    hide FirstEligible, SshUsername;
  }

  lemma {:induction false} RunPreserves(s: State, events: seq<Event>)
    requires Inv(s)
    ensures Inv(Run(s, events))
    decreases |events|
  {
    if events != [] {
      RunPreserves(s, events[..|events| - 1]);
      StepPreserves(Run(s, events[..|events| - 1]), events[|events| - 1]);
    }
  }

  // ---------------------------------------------------------------- main results

  /**
  Conservation. Over every sequence of arrivals by TCP or WebSocket, refusals, aborts and closes,
  free permits plus holders stay constant; so at most 64 connections are served and at most 8
  channels of a connection, alive or opening, exist at once. An arrival is refused only at the limit.
  */
  lemma PermitsAreConserved(events: seq<Event>)
    ensures var s := Run(INITIAL, events);
            && s.free + |Serving(s)| == 64 && |Serving(s)| <= 64
            && (forall c :: c in s.connections ==>
                  && s.connections[c].free + |s.connections[c].channels| == 8
                  && |s.connections[c].channels| <= 8)
            && (forall c, expected :: c !in s.connections ==>
                  (c !in ArriveStep(s, c, expected).connections <==> |Serving(s)| == 64))
  {
    RunPreserves(INITIAL, events);
  }

  /**
  Admission. Every live channel had an identity check of its own, made after its opening began and
  shared with no other channel; all live channels of a connection run in the same pod, and those of
  a WebSocket belong to the service its URL named.
  */
  lemma ChannelsAreCheckedAndPinned(events: seq<Event>, c: nat)
    requires c in Run(INITIAL, events).connections
    ensures var x := Run(INITIAL, events).connections[c];
            && (forall a :: a in x.channels && x.channels[a].Live? ==>
                  && x.channels[a].since < x.channels[a].check <= x.checks
                  && (x.expected.Some? ==> x.expected == Some(x.channels[a].identity.target)))
            && (forall a, b :: a in x.channels && b in x.channels && x.channels[a].Live? && x.channels[b].Live? ==>
                  && x.channels[a].pod == x.channels[b].pod
                  && (a != b ==> x.channels[a].check != x.channels[b].check))
  {
    RunPreserves(INITIAL, events);
    var x := Run(INITIAL, events).connections[c];
    assert forall a :: a in x.channels ==> ChannelOk(x, x.channels[a]);
  }

  predicate PodKept(s: State, s': State, c: nat) {
    c in s.connections && s.connections[c].pod.Some? ==>
      c in s'.connections && s'.connections[c].pod == s.connections[c].pod
  }

  lemma OpenedKeepsPod(x: Connection, ch: nat, allowed: bool, containers: Option<seq<Container>>, connected: bool)
    requires ch in x.channels && x.channels[ch].Opening? && x.pod.Some?
    ensures Opened(x, ch, allowed, containers, connected).pod == x.pod
  {
  }

  lemma StepKeepsPod(s: State, e: Event, c: nat)
    ensures PodKept(s, Step(s, e), c)
  {
    hide Opened, SshUsername, LiveOnly;
    if e.FinishOpen? && e.c in s.connections && s.connections[e.c].pod.Some? && e.ch in s.connections[e.c].channels
       && s.connections[e.c].channels[e.ch].Opening? {
      OpenedKeepsPod(s.connections[e.c], e.ch, e.allowed, e.containers, e.connected);
    }
  }

  /** Once a connection has a pod it keeps that pod for every later channel. */
  lemma {:induction false} PodIsPinned(s: State, events: seq<Event>, c: nat)
    ensures PodKept(s, Run(s, events), c)
    decreases |events|
  {
    hide Step;
    if events != [] {
      PodIsPinned(s, events[..|events| - 1], c);
      StepKeepsPod(Run(s, events[..|events| - 1]), events[|events| - 1], c);
    }
  }

  // ---------------------------------------------------------------- in place

  predicate Elsewhere(before: map<nat, Connection>, after: map<nat, Connection>, c: nat) {
    && (forall k :: k != c && k in before ==> k in after && after[k] == before[k])
    && (forall k :: k != c && k in after ==> k in before)
  }

  /** Every permit is free or held: 64 by the served connections, 8 by the channels of each connection. */
  ghost predicate Conserved(s: State) {
    && s.free + |Serving(s)| == MAX_CONNECTIONS
    && forall c :: c in s.connections ==> s.connections[c].free + |s.connections[c].channels| == MAX_CHANNELS
  }

  lemma RunSnoc(s: State, events: seq<Event>, e: Event)
    ensures Run(s, events + [e]) == Step(Run(s, events), e)
  {
    hide Step;
    assert (events + [e])[..|events|] == events;
  }

  lemma RunsConserve(events: seq<Event>)
    ensures Conserved(Run(INITIAL, events)) && Inv(Run(INITIAL, events))
  {
    hide Run;
    RunPreserves(INITIAL, events);
  }

  /** The gateway's mutable state, with one method per thing that happens to it. Every history is a run. */
  class Gateway {
    var free: nat
    var connections: map<nat, Connection>
    ghost var trace: seq<Event>

    ghost function View(): State
      reads this
    {
      State(free, connections)
    }

    ghost predicate Valid()
      reads this
    {
      View() == Run(INITIAL, trace)
    }

    constructor ()
      ensures Valid() && View() == INITIAL
    {
      free, connections, trace := MAX_CONNECTIONS, map[], [];
    }

    /** Nothing but bookkeeping: what was just done is the machine's step for this event. */
    ghost method Record(e: Event, before: State)
      requires before == Run(INITIAL, trace) && View() == Step(before, e)
      modifies this`trace
      ensures Valid() && trace == old(trace) + [e] && Conserved(View()) && Inv(View())
    {
      hide Step, Run, Inv, Conserved;
      RunSnoc(INITIAL, trace, e);
      trace := trace + [e];
      RunsConserve(trace);
    }

    /** A TCP accept or a WebSocket upgrade: take a connection permit or turn the peer away. */
    method Accept(c: nat, expected: Option<Target>) returns (accepted: bool)
      requires Valid() && c !in connections
      modifies this
      ensures Valid() && Conserved(View()) && trace == old(trace) + [Arrive(c, expected)]
      ensures accepted <==> old(free) > 0
      ensures if accepted
              then && free == old(free) - 1 && c in connections
                   && connections[c] == Connection(true, expected, None, 0, None, 8, map[])
              else free == old(free) && c !in connections
      ensures Elsewhere(old(connections), connections, c)
    {
      hide Run, Conserved, Inv;
      ghost var before := View();
      accepted := free > 0;
      if accepted {
        free := free - 1;
        connections := connections[c := Fresh(expected)];
      }
      Record(Arrive(c, expected), before);
    }

    /** The served stream ends, by itself or by abort: its permit is dropped with it, and those of half-open channels. */
    method Release(c: nat)
      requires Valid()
      modifies this
      ensures Valid() && Conserved(View()) && trace == old(trace) + [Depart(c)]
      ensures free == old(free) + (if old(c in connections && connections[c].serving) then 1 else 0)
      ensures c in connections <==> c in old(connections)
      ensures c in connections ==>
                && !connections[c].serving
                && (forall ch :: ch in connections[c].channels <==>
                      ch in old(connections)[c].channels && old(connections)[c].channels[ch].Live?)
                && (forall ch :: ch in connections[c].channels ==>
                      connections[c].channels[ch] == old(connections)[c].channels[ch])
      ensures Elsewhere(old(connections), connections, c)
    {
      hide Run, Conserved, Inv;
      KnownOk(trace, c);
      ghost var before := View();
      if c in connections && connections[c].serving {
        free := free + 1;
        connections := connections[c := Departed(connections[c])];
      }
      Record(Depart(c), before);
    }

    /** `auth_publickey`: the identity is cleared first and set only when every check passed. */
    method AuthPublicKey(
      c: nat, username: string, rsa: bool, key: Option<(int, int)>, fingerprint: string, permitted: bool)
      returns (accepted: bool)
      requires Valid() && c in connections && connections[c].serving
      modifies this
      ensures Valid() && Conserved(View())
      ensures trace == old(trace) + [Authenticate(c, username, rsa, key, fingerprint, permitted)]
      ensures free == old(free) && Elsewhere(old(connections), connections, c)
      ensures c in connections && connections[c].channels == old(connections[c].channels)
      ensures accepted <==> connections[c].identity.Some?
      ensures accepted <==>
                && !rsa && SshUsername(username).Some? && key.Some? && permitted
                && (old(connections[c].expected).Some? ==> old(connections[c].expected) == SshUsername(username))
      ensures accepted ==>
                connections[c].identity == Some(Identity(SshUsername(username).value, key.value.0, key.value.1, fingerprint))
    {
      hide Run, SshUsername, Conserved, Inv;
      ghost var before := View();
      accepted := Authorise(c, username, rsa, key, fingerprint, permitted);
      Record(Authenticate(c, username, rsa, key, fingerprint, permitted), before);
    }

    method Authorise(
      c: nat, username: string, rsa: bool, key: Option<(int, int)>, fingerprint: string, permitted: bool)
      returns (accepted: bool)
      requires c in connections && connections[c].serving
      modifies this`connections
      ensures View() == old(AuthenticateStep(View(), c, username, rsa, key, fingerprint, permitted))
      ensures c in connections && (accepted <==> connections[c].identity.Some?)
    {
      hide SshUsername;
      accepted := false;
      var x := connections[c];
      connections := connections[c := x.(identity := None)];
      if rsa { return; }
      var target := SshUsername(username);
      if target.None? { return; }
      if x.expected.Some? && x.expected.value != target.value { return; }
      if key.None? { return; }
      if !permitted { return; }
      connections := connections[
        c := x.(identity := Some(Identity(target.value, key.value.0, key.value.1, fingerprint)))];
      accepted := true;
    }

    /** The first half of a channel open: the request is checked and a permit taken. */
    method TakeChannel(c: nat, ch: nat, request: Request) returns (taken: bool)
      requires Valid() && c in connections && connections[c].serving && ch !in connections[c].channels
      modifies this
      ensures Valid() && Conserved(View()) && trace == old(trace) + [BeginOpen(c, ch, request)]
      ensures taken <==> LoopbackOnly(request) && |old(connections[c].channels)| < 8
      ensures free == old(free) && Elsewhere(old(connections), connections, c) && c in connections
      ensures if taken then ch in connections[c].channels && connections[c].channels[ch].Opening?
                            && connections[c].free == old(connections[c].free) - 1
              else connections == old(connections)
    {
      hide Run, Conserved, Inv;
      KnownOk(trace, c);
      ghost var before := View();
      AcceptableExactly(request);
      var x := connections[c];
      taken := Acceptable(request) && x.free > 0;
      if taken {
        connections := connections[c := x.(free := x.free - 1, channels := x.channels[ch := Opening(x.checks)])];
      }
      Record(BeginOpen(c, ch, request), before);
    }

    /** The second half: recheck the identity, pin the pod, connect, and only then accept. */
    method OpenChannel(c: nat, ch: nat, allowed: bool, containers: Option<seq<Container>>, connected: bool)
      returns (accepted: bool)
      requires Valid() && c in connections && connections[c].serving
      requires ch in connections[c].channels && connections[c].channels[ch].Opening?
      modifies this
      ensures Valid() && Conserved(View()) && trace == old(trace) + [FinishOpen(c, ch, allowed, containers, connected)]
      ensures free == old(free) && Elsewhere(old(connections), connections, c) && c in connections
      ensures accepted <==> ch in connections[c].channels && connections[c].channels[ch].Live?
      ensures !accepted ==> ch !in connections[c].channels && connections[c].free == old(connections[c].free) + 1
      ensures accepted <==>
                && old(connections[c].identity).Some? && allowed && connected
                && (old(connections[c].pod).Some? || (containers.Some? && SomeEligible(containers.value)))
      ensures old(connections[c].pod).Some? ==> connections[c].pod == old(connections[c].pod)
      ensures old(connections[c].pod).None? && connections[c].pod.Some? ==>
                containers.Some? && IsFirstEligible(containers.value, connections[c].pod.value)
      ensures accepted ==>
                && connections[c].channels[ch].check == old(connections[c].checks) + 1
                && Some(connections[c].channels[ch].pod) == connections[c].pod
                && Some(connections[c].channels[ch].identity) == old(connections[c].identity)
    {
      hide Run, FirstEligible, IsFirstEligible, Conserved, Inv;
      ghost var before := View();
      if containers.Some? { FirstEligibleIsLeast(containers.value); }
      accepted := Admit(c, ch, allowed, containers, connected);
      Record(FinishOpen(c, ch, allowed, containers, connected), before);
    }

    method Admit(c: nat, ch: nat, allowed: bool, containers: Option<seq<Container>>, connected: bool)
      returns (accepted: bool)
      requires c in connections && connections[c].serving
      requires ch in connections[c].channels && connections[c].channels[ch].Opening?
      modifies this`connections
      ensures View() == old(FinishOpenStep(View(), c, ch, allowed, containers, connected))
      ensures c in connections && (accepted <==> ch in connections[c].channels && connections[c].channels[ch].Live?)
    {
      hide FirstEligible;
      var x := connections[c];
      accepted := false;
      if x.identity.None? {
        connections := connections[c := Dropped(x, ch)];
        return;
      }
      x := x.(checks := x.checks + 1);
      if !allowed {
        connections := connections[c := Dropped(x, ch)];
        return;
      }
      if x.pod.None? {
        var pod := if containers.None? then None else FirstEligible(containers.value);
        if pod.None? {
          connections := connections[c := Dropped(x, ch)];
          return;
        }
        x := x.(pod := pod);
      }
      if !connected {
        connections := connections[c := Dropped(x, ch)];
        return;
      }
      var live := Live(x.pod.value, x.identity.value, x.channels[ch].since, x.checks);
      connections := connections[c := x.(channels := x.channels[ch := live])];
      accepted := true;
    }

    /** A channel task returns: its permit is dropped with it, and no other channel notices. */
    method CloseChannel(c: nat, ch: nat)
      requires Valid()
      modifies this
      ensures Valid() && Conserved(View()) && trace == old(trace) + [EndChannel(c, ch)]
      ensures free == old(free) && Elsewhere(old(connections), connections, c)
      ensures if old(c in connections && ch in connections[c].channels && connections[c].channels[ch].Live?)
              then && c in connections && connections[c].channels == old(connections[c].channels) - {ch}
                   && connections[c].free == old(connections[c].free) + 1
                   && connections[c].serving == old(connections[c].serving)
              else connections == old(connections)
    {
      hide Run, Conserved, Inv;
      ghost var before := View();
      if c in connections && ch in connections[c].channels && connections[c].channels[ch].Live? {
        connections := connections[c := Dropped(connections[c], ch)];
      }
      Record(EndChannel(c, ch), before);
    }
  }

  lemma KnownOk(events: seq<Event>, c: nat)
    ensures c in Run(INITIAL, events).connections ==> ConnectionOk(Run(INITIAL, events).connections[c])
  {
    hide Run;
    RunPreserves(INITIAL, events);
  }
}
