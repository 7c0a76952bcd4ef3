/**
Requests to the identity provider: the bounded reading of a body, the retry loop of the metadata
GETs, and the order of calls that completes a login. Clocks are read from the scripts that say what
arrives when; timers are exact. Times are in milliseconds.
*/
module Oidc {
  import opened Basics
  import opened Outcomes

  datatype Fault =
    | TimedOut
    | Transport(connect: bool, request: bool, body: bool)
    | Status(code: int)
    | Oversized
    | InvalidJson

  predicate Retryable(f: Fault) {
    match f
    case TimedOut => true
    case Transport(connect, request, body) => connect || request || body
    case Status(code) => 502 <= code <= 504
    case _ => false
  }

  /** What can go wrong below HTTP. */
  type LinkFault = f: Fault | f.TimedOut? || f.Transport? witness TimedOut

  datatype Chunk = Data(bytes: string) | Broken(fault: LinkFault)

  datatype Reply = Unreachable(fault: LinkFault) | Response(status: int, contentLength: Option<nat>, chunks: seq<Chunk>)

  /** A reply that is complete this long after its request. */
  datatype Arrival = Arrival(after: nat, reply: Reply)

  // ---------------------------------------------------------------- reading a body

  predicate Complete(chunks: seq<Chunk>) {
    forall i :: 0 <= i < |chunks| ==> chunks[i].Data?
  }

  function Joined(chunks: seq<Chunk>): string {
    if chunks == [] then ""
    else Joined(chunks[..|chunks| - 1]) + (if chunks[|chunks| - 1].Data? then chunks[|chunks| - 1].bytes else "")
  }

  predicate ReadUpTo(chunks: seq<Chunk>, limit: nat, k: nat) {
    k < |chunks| && Complete(chunks[..k]) && |Joined(chunks[..k])| <= limit
  }

  /** The chunk at k is the first that does not fit, and everything before it arrived whole. */
  predicate TooMuchAt(chunks: seq<Chunk>, limit: nat, k: nat) {
    ReadUpTo(chunks, limit, k) && chunks[k].Data? && |Joined(chunks[..k + 1])| > limit
  }

  predicate BrokenAt(chunks: seq<Chunk>, limit: nat, k: nat, f: Fault) {
    ReadUpTo(chunks, limit, k) && chunks[k].Broken? && chunks[k].fault == f
  }

  /** The body is returned exactly when all of it arrives and it fits; what is buffered never exceeds the limit. */
  method ReadBody(contentLength: Option<nat>, chunks: seq<Chunk>, limit: nat) returns (r: Result<string, Fault>)
    ensures r.Ok? <==> (contentLength.Some? ==> contentLength.value <= limit) && Complete(chunks) && |Joined(chunks)| <= limit
    ensures r.Ok? ==> r.value == Joined(chunks)
    ensures contentLength.Some? && contentLength.value > limit ==> r == Err(Oversized)
    ensures (contentLength.Some? ==> contentLength.value <= limit) && r.Err? ==>
              exists k: nat :: (r.error == Oversized && TooMuchAt(chunks, limit, k)) || BrokenAt(chunks, limit, k, r.error)
  {
    if contentLength.Some? && contentLength.value > limit { return Err(Oversized); }
    var body := "";
    for k := 0 to |chunks|
      invariant Complete(chunks[..k]) && body == Joined(chunks[..k]) && |body| <= limit
    {
      assert chunks[..k + 1][..k] == chunks[..k];
      match chunks[k] {
        case Broken(f) =>
          assert BrokenAt(chunks, limit, k, f);
          assert !Complete(chunks);
          return Err(f);
        case Data(bytes) =>
          if |body| + |bytes| > limit {
            assert TooMuchAt(chunks, limit, k);
            JoinedGrows(chunks, k + 1);
            return Err(Oversized);
          }
          body := body + bytes;
      }
    }
    assert chunks[..|chunks|] == chunks;
    r := Ok(body);
  }

  /** A body is the concatenation of its chunks. */
  lemma {:induction false} JoinedAppends(before: seq<Chunk>, after: seq<Chunk>)
    ensures Joined(before + after) == Joined(before) + Joined(after)
    decreases |after|
  {
    var all := before + after;
    if after == [] {
      assert all == before;
    } else {
      JoinedAppends(before, after[..|after| - 1]);
      assert all[..|all| - 1] == before + after[..|after| - 1];
      assert all[|all| - 1] == after[|after| - 1];
    }
  }

  lemma JoinedOne(bytes: string)
    ensures Joined([]) == "" && Joined([Data(bytes)]) == bytes
  {
    assert [Data(bytes)][..0] == [];
  }

  lemma {:induction false} JoinedGrows(chunks: seq<Chunk>, k: nat)
    requires k <= |chunks|
    ensures |Joined(chunks[..k])| <= |Joined(chunks)|
    decreases |chunks|
  {
    if k < |chunks| {
      JoinedGrows(chunks[..|chunks| - 1], k);
      assert chunks[..|chunks| - 1][..k] == chunks[..k];
    } else {
      assert chunks[..k] == chunks;
    }
  }

  // ---------------------------------------------------------------- one attempt, and the retry loop

  datatype Attempt<T> = Attempt(started: int, ended: int, outcome: Result<T, Fault>)

  datatype GetPolicy = GetPolicy(total: nat, attempt: nat, backoff: nat, jitter: nat)

  const DEFAULT_POLICY := GetPolicy(10_000, 5_000, 150, 100)

  /** The reply carries this value: a success whose whole body fits the limit and parses to it. */
  ghost predicate Carries<T>(reply: Reply, limit: nat, parse: string -> Option<T>, value: T) {
    && reply.Response? && 200 <= reply.status <= 299
    && (reply.contentLength.Some? ==> reply.contentLength.value <= limit)
    && Complete(reply.chunks) && |Joined(reply.chunks)| <= limit
    && parse(Joined(reply.chunks)) == Some(value)
  }

  /** An attempt ends with what arrived, or at its deadline, and has a value exactly when the reply carries it in time. */
  ghost predicate Faithful<T(!new)>(a: Attempt<T>, arrival: Arrival, deadline: int, limit: nat, parse: string -> Option<T>) {
    && a.ended == Min(a.started + arrival.after, deadline)
    && (a.started + arrival.after > deadline ==> a.outcome == Err(TimedOut))
    && (a.started + arrival.after <= deadline ==>
          && (forall value :: a.outcome == Ok(value) <==> Carries(arrival.reply, limit, parse, value))
          && (arrival.reply.Unreachable? ==> a.outcome == Err(arrival.reply.fault))
          && (arrival.reply.Response? && !(200 <= arrival.reply.status <= 299) ==>
                a.outcome == Err(Status(arrival.reply.status)))
          && (arrival.reply.Response? && 200 <= arrival.reply.status <= 299 && a.outcome.Err? ==>
                BodyFails(arrival.reply, limit, parse, a.outcome.error)))
  }

  /** The body of a success is announced or turns out too long, breaks off, or does not parse. */
  ghost predicate BodyFails<T>(reply: Reply, limit: nat, parse: string -> Option<T>, f: Fault)
    requires reply.Response?
  {
    if reply.contentLength.Some? && reply.contentLength.value > limit then f == Oversized
    else
      || (f == Oversized && exists k: nat :: TooMuchAt(reply.chunks, limit, k))
      || (exists k: nat :: BrokenAt(reply.chunks, limit, k, f))
      || (f == InvalidJson && Complete(reply.chunks) && |Joined(reply.chunks)| <= limit && parse(Joined(reply.chunks)) == None)
  }

  method Fetch<T(!new, ==)>(started: int, arrival: Arrival, deadline: int, limit: nat, parse: string -> Option<T>)
    returns (a: Attempt<T>)
    ensures a.started == started && Faithful(a, arrival, deadline, limit, parse)
  {
    if started + arrival.after > deadline { return Attempt(started, deadline, Err(TimedOut)); }
    var ended := started + arrival.after;
    match arrival.reply {
      case Unreachable(fault) => a := Attempt(started, ended, Err(fault));
      case Response(status, contentLength, chunks) =>
        if !(200 <= status <= 299) { return Attempt(started, ended, Err(Status(status))); }
        var body := ReadBody(contentLength, chunks, limit);
        if body.Err? { return Attempt(started, ended, Err(body.error)); }
        var value := parse(body.value);
        a := Attempt(started, ended, if value.Some? then Ok(value.value) else Err(InvalidJson));
    }
  }

  /** When a second attempt may follow this one. */
  predicate MayRetry<T>(first: Attempt<T>, policy: GetPolicy, jitter: nat, deadline: int) {
    first.outcome.Err? && Retryable(first.outcome.error) && first.ended + policy.backoff + jitter < deadline
  }

  function AttemptDeadline(policy: GetPolicy, now: int, deadline: int): int {
    Min(deadline, now + policy.attempt)
  }

  /**
  The log of a GET: one attempt, or two when the first failed retryably and left room; each within
  its own deadline and the total.
  */
  ghost predicate Logged<T(!new)>(
    log: seq<Attempt<T>>, policy: GetPolicy, started: int, arrivals: seq<Arrival>, jitter: nat, limit: nat,
    parse: string -> Option<T>)
  {
    var deadline := started + policy.total;
    && 1 <= |log| <= 2 && |arrivals| == 2
    && log[0].started == started
    && Faithful(log[0], arrivals[0], AttemptDeadline(policy, started, deadline), limit, parse)
    && (|log| == 2 <==> MayRetry(log[0], policy, jitter, deadline))
    && (|log| == 2 ==>
          && log[1].started == log[0].ended + policy.backoff + jitter
          && Faithful(log[1], arrivals[1], AttemptDeadline(policy, log[1].started, deadline), limit, parse))
  }

  /** `provider_get_json`: its result is that of its last attempt. */
  method ProviderGet<T(!new, ==)>(
    policy: GetPolicy, started: int, arrivals: seq<Arrival>, jitter: nat, limit: nat, parse: string -> Option<T>)
    returns (result: Option<T>, finished: int, log: seq<Attempt<T>>)
    requires |arrivals| == 2 && jitter <= policy.jitter
    ensures Logged(log, policy, started, arrivals, jitter, limit, parse)
    ensures match log[|log| - 1].outcome case Ok(value) => result == Some(value) case Err(_) => result == None
    ensures started <= log[|log| - 1].ended <= finished <= started + policy.total
  {
    hide Faithful;
    var deadline := started + policy.total;
    var now := started;
    log := [];
    result := None;
    for attempt := 1 to 3
      invariant |log| == attempt - 1 && result == None
      invariant attempt == 1 ==> now == started
      invariant attempt == 2 ==>
                  && log[0].started == started && now < deadline
                  && Faithful(log[0], arrivals[0], AttemptDeadline(policy, started, deadline), limit, parse)
                  && MayRetry(log[0], policy, jitter, deadline) && now == log[0].ended + policy.backoff + jitter
                  && started <= log[0].ended
      invariant attempt < 3
    {
      var tried := Fetch(now, arrivals[attempt - 1], AttemptDeadline(policy, now, deadline), limit, parse);
      InTime(tried, arrivals[attempt - 1], AttemptDeadline(policy, now, deadline), limit, parse);
      log := log + [tried];
      now := tried.ended;
      if tried.outcome.Ok? {
        result := Some(tried.outcome.value);
        break;
      }
      if !Retryable(tried.outcome.error) || attempt == 2 { break; }
      var retryAt := now + policy.backoff + jitter;
      if retryAt >= deadline { break; }
      now := retryAt;
      if now >= deadline { break; }
    }
    finished := now;
  }

  lemma InTime<T(!new)>(a: Attempt<T>, arrival: Arrival, deadline: int, limit: nat, parse: string -> Option<T>)
    requires Faithful(a, arrival, deadline, limit, parse) && a.started <= deadline
    ensures a.started <= a.ended <= deadline
  {
  }

  /** With the default budget there is always room for the second attempt, and it gets almost its full time. */
  lemma DefaultAlwaysRetries<T(!new)>(
    log: seq<Attempt<T>>, started: int, arrivals: seq<Arrival>, jitter: nat, limit: nat, parse: string -> Option<T>)
    requires Logged(log, DEFAULT_POLICY, started, arrivals, jitter, limit, parse) && jitter <= DEFAULT_POLICY.jitter
    ensures |log| == 2 <==> log[0].outcome.Err? && Retryable(log[0].outcome.error)
    ensures |log| == 2 ==>
              AttemptDeadline(DEFAULT_POLICY, log[1].started, started + DEFAULT_POLICY.total) >= log[1].started + 4_750
  {
    hide Retryable;
    InTime(log[0], arrivals[0], AttemptDeadline(DEFAULT_POLICY, started, started + DEFAULT_POLICY.total), limit, parse);
  }

  /** A metadata GET succeeds exactly when an attempt it is entitled to is answered in time with a parsable, bounded success. */
  lemma GetSucceedsExactly<T(!new)>(
    log: seq<Attempt<T>>, policy: GetPolicy, started: int, arrivals: seq<Arrival>, jitter: nat, limit: nat,
    parse: string -> Option<T>, value: T)
    requires Logged(log, policy, started, arrivals, jitter, limit, parse)
    ensures log[|log| - 1].outcome == Ok(value) <==>
            var deadline := started + policy.total;
            || (started + arrivals[0].after <= AttemptDeadline(policy, started, deadline)
                && Carries(arrivals[0].reply, limit, parse, value))
            || (MayRetry(log[0], policy, jitter, deadline)
                && var again := log[0].ended + policy.backoff + jitter;
                   again + arrivals[1].after <= AttemptDeadline(policy, again, deadline)
                   && Carries(arrivals[1].reply, limit, parse, value))
  {
    hide Retryable, Carries;
  }

  // ---------------------------------------------------------------- the default GET, exactly

  /** Worth a second attempt: a timeout, a transport error of these kinds, or a bad gateway. */
  predicate Transient(f: Fault) {
    match f
    case TimedOut => true
    case Transport(false, false, false) => false
    case Transport(_, _, _) => true
    case Status(code) => code == 502 || code == 503 || code == 504
    case Oversized => false
    case InvalidJson => false
  }

  /** The first answer calls for a second attempt. */
  ghost predicate CallsForRetry(a: Arrival, limit: nat) {
    if a.after > 5_000 then true
    else
      match a.reply
      case Unreachable(fault) => Transient(fault)
      case Response(status, contentLength, chunks) =>
        if status == 502 || status == 503 || status == 504 then true
        else if status < 200 || 299 < status then false
        else (contentLength.Some? ==> contentLength.value <= limit)
             && exists k: nat, f: Fault :: BrokenAt(chunks, limit, k, f) && Transient(f)
  }

  /** The time the second attempt has left after the first, its pause and its jitter. */
  function TimeLeft(first: Arrival, jitter: nat): int {
    var paused := (if first.after > 5_000 then 5_000 else first.after) + 150 + jitter;
    if paused > 5_000 then 10_000 - paused else 5_000
  }

  /** What a metadata GET gives: what its first answer carries, or, if that calls for a retry, its second. */
  ghost predicate Gives<T>(arrivals: seq<Arrival>, jitter: nat, limit: nat, parse: string -> Option<T>, value: T) {
    && |arrivals| == 2
    && ((arrivals[0].after <= 5_000 && Carries(arrivals[0].reply, limit, parse, value))
        || (CallsForRetry(arrivals[0], limit)
            && arrivals[1].after <= TimeLeft(arrivals[0], jitter) && Carries(arrivals[1].reply, limit, parse, value)))
  }

  lemma WholeBefore(chunks: seq<Chunk>, limit: nat, k: nat)
    requires ReadUpTo(chunks, limit, k)
    ensures forall i :: 0 <= i < k ==> chunks[i].Data?
    ensures forall n :: 0 <= n <= k ==> |Joined(chunks[..n])| <= limit
  {
    assert forall i :: 0 <= i < k ==> chunks[..k][i] == chunks[i];
    forall n | 0 <= n <= k ensures |Joined(chunks[..n])| <= limit {
      JoinedGrows(chunks[..k], n);
      assert chunks[..k][..n] == chunks[..n];
    }
  }

  lemma BreaksOnce(chunks: seq<Chunk>, limit: nat, k: nat, f: Fault)
    requires BrokenAt(chunks, limit, k, f)
    ensures !Complete(chunks)
    ensures forall j: nat :: !TooMuchAt(chunks, limit, j)
    ensures forall j: nat, g: Fault :: BrokenAt(chunks, limit, j, g) ==> g == f
  {
    hide Joined;
    WholeBefore(chunks, limit, k);
    forall j: nat | ReadUpTo(chunks, limit, j) ensures j <= k {
      WholeBefore(chunks, limit, j);
    }
  }

  /** The default GET makes a second attempt exactly when its first answer calls for one. */
  lemma RetriesExactly<T(!new)>(
    log: seq<Attempt<T>>, started: int, arrivals: seq<Arrival>, jitter: nat, limit: nat, parse: string -> Option<T>)
    requires Logged(log, DEFAULT_POLICY, started, arrivals, jitter, limit, parse) && jitter <= DEFAULT_POLICY.jitter
    ensures |log| == 2 <==> CallsForRetry(arrivals[0], limit)
  {
    DefaultAlwaysRetries(log, started, arrivals, jitter, limit, parse);
    hide Logged, MayRetry, Carries;
    var reply := arrivals[0].reply;
    FirstIsFaithful(log, started, arrivals, jitter, limit, parse);
    if arrivals[0].after <= 5_000 && reply.Response? && 200 <= reply.status <= 299 {
      if log[0].outcome.Ok? { CarriesIsComplete(reply, limit, parse, log[0].outcome.value); }
      if k: nat, f: Fault :| BrokenAt(reply.chunks, limit, k, f) {
        BreaksOnce(reply.chunks, limit, k, f);
      }
    }
  }

  lemma FirstIsFaithful<T(!new)>(
    log: seq<Attempt<T>>, started: int, arrivals: seq<Arrival>, jitter: nat, limit: nat, parse: string -> Option<T>)
    requires Logged(log, DEFAULT_POLICY, started, arrivals, jitter, limit, parse)
    ensures Faithful(log[0], arrivals[0], started + 5_000, limit, parse) && log[0].started == started
  {
    hide Faithful;
  }

  lemma CarriesIsComplete<T>(reply: Reply, limit: nat, parse: string -> Option<T>, value: T)
    requires Carries(reply, limit, parse, value)
    ensures reply.Response? && Complete(reply.chunks)
  {
  }

  /** And it answers exactly what these answers give. */
  lemma GivesExactly<T(!new)>(
    log: seq<Attempt<T>>, started: int, arrivals: seq<Arrival>, jitter: nat, limit: nat, parse: string -> Option<T>, value: T)
    requires Logged(log, DEFAULT_POLICY, started, arrivals, jitter, limit, parse) && jitter <= DEFAULT_POLICY.jitter
    ensures log[|log| - 1].outcome == Ok(value) <==> Gives(arrivals, jitter, limit, parse, value)
  {
    RetriesExactly(log, started, arrivals, jitter, limit, parse);
    GetSucceedsExactly(log, DEFAULT_POLICY, started, arrivals, jitter, limit, parse, value);
    hide Carries, CallsForRetry, Retryable, Faithful;
    assert log[0].ended == started + (if arrivals[0].after > 5_000 then 5_000 else arrivals[0].after) by {
      FirstEnds(log, started, arrivals, jitter, limit, parse);
    }
  }

  lemma FirstEnds<T(!new)>(
    log: seq<Attempt<T>>, started: int, arrivals: seq<Arrival>, jitter: nat, limit: nat, parse: string -> Option<T>)
    requires Logged(log, DEFAULT_POLICY, started, arrivals, jitter, limit, parse)
    ensures log[0].ended == started + (if arrivals[0].after > 5_000 then 5_000 else arrivals[0].after)
  {
    hide Carries, Retryable;
  }
}

/** Completing a login: the checks, then discovery, one token exchange, the keys, and the token's validation. */
module OidcLogin {
  import opened Outcomes
  import opened Oidc

  datatype Query = Query(code: Option<string>, state: Option<string>, error: Option<string>, description: Option<string>)

  datatype Transaction = Transaction(state: string, nonce: string, verifier: string, issuedAt: nat)

  datatype Metadata = Metadata(issuer: string, endpointsValid: bool)

  datatype LoginError = InvalidRequest | AuthorizationRejected | ProviderUnavailable | InvalidToken

  /** What a login sends, in order. */
  datatype Event = DiscoveryGet | TokenPost(code: string, verifier: string) | KeysGet

  const MAX_CODE := 16 * 1024
  const MAX_DISCOVERY := 256 * 1024
  const MAX_TOKENS := 256 * 1024
  const MAX_KEYS_BYTES := 1024 * 1024
  const MAX_ID_TOKEN := 128 * 1024
  const MAX_KEYS := 128
  const TTL := 300
  const SKEW := 60
  const CLIENT_TIMEOUT := 10_000

  predicate LongerThan(s: Option<string>, limit: nat) {
    s.Some? && |s.value| > limit
  }

  predicate Within(s: Option<string>, limit: nat) {
    match s
    case Some(text) => |text| <= limit
    case None => true
  }

  /** The callback is of reasonable size and belongs to a transaction of this browser, of the last five minutes. */
  predicate Belongs(q: Query, transaction: Option<Transaction>, now: nat) {
    && Within(q.code, 16384) && Within(q.state, 128) && Within(q.error, 1024) && Within(q.description, 4096)
    && match transaction
       case Some(tx) => q.state == Some(tx.state) && tx.issuedAt <= now + 60 && now <= tx.issuedAt + 300
       case None => false
  }

  /** It also carries an authorization code, and no error. */
  predicate Admissible(q: Query, transaction: Option<Transaction>, now: nat) {
    Belongs(q, transaction, now) && q.error == None && q.code.Some? && |q.code.value| >= 1
  }

  /** The checks that precede any request. */
  method CheckCallback(q: Query, transaction: Option<Transaction>, now: nat) returns (r: Result<string, LoginError>)
    ensures r.Ok? <==> Admissible(q, transaction, now)
    ensures r.Ok? ==> q.code == Some(r.value)
    ensures r.Err? ==>
              r.error == if Belongs(q, transaction, now) && q.error.Some? then AuthorizationRejected else InvalidRequest
  {
    if LongerThan(q.code, MAX_CODE) || LongerThan(q.state, 128) || LongerThan(q.error, 1024) || LongerThan(q.description, 4096) {
      return Err(InvalidRequest);
    }
    if transaction.None? || q.state.None? { return Err(InvalidRequest); }
    if q.state.value != transaction.value.state { return Err(InvalidRequest); }
    var issuedAt := transaction.value.issuedAt;
    if issuedAt > now + SKEW || (if now >= issuedAt then now - issuedAt else 0) > TTL { return Err(InvalidRequest); }
    if q.error.Some? { return Err(AuthorizationRejected); }
    if q.code.None? || q.code.value == "" { return Err(InvalidRequest); }
    r := Ok(q.code.value);
  }

  /** How the provider behaves, and the library functions a login relies on. */
  datatype Provider = Provider(
    discovery: seq<Arrival>,
    tokens: Arrival,
    keys: seq<Arrival>,
    jitters: (nat, nat),
    parseMetadata: string -> Option<Metadata>,
    parseTokens: string -> Option<string>,
    parseKeys: string -> Option<seq<string>>,
    validate: (string, string, seq<string>) -> Option<string>)

  function Posts(log: seq<Event>): nat {
    if log == [] then 0 else Posts(log[..|log| - 1]) + (if log[|log| - 1].TokenPost? then 1 else 0)
  }

  function Times(e: Event, n: nat): seq<Event> {
    if n == 0 then [] else Times(e, n - 1) + [e]
  }

  /** Up to two discovery GETs, then at most one token POST, then up to two GETs of the keys. */
  function Sent(d: nat, posted: bool, k: nat, code: string, verifier: string): seq<Event> {
    Times(DiscoveryGet, d) + (if posted then [TokenPost(code, verifier)] else []) + Times(KeysGet, k)
  }

  ghost predicate InOrder(log: seq<Event>, code: string, verifier: string) {
    exists d: nat, k: nat, posted: bool ::
      && log == Sent(d, posted, k, code, verifier)
      && 1 <= d <= 2 && k <= 2 && (k > 0 ==> posted)
  }

  /** The provider refuses the code: a client error, in time. */
  predicate Rejects(arrival: Arrival) {
    arrival.after <= 10_000 && arrival.reply.Response? && 400 <= arrival.reply.status <= 499
  }

  ghost predicate Sends(arrival: Arrival, parse: string -> Option<string>, token: string) {
    arrival.after <= 10_000 && Carries(arrival.reply, 262144, parse, token)
  }

  /** One token exchange. It is never repeated, whatever comes back. */
  method Exchange(started: int, arrival: Arrival, parse: string -> Option<string>)
    returns (r: Result<string, LoginError>, finished: int)
    ensures started <= finished <= started + CLIENT_TIMEOUT
    ensures forall token :: r == Ok(token) <==>
              Sends(arrival, parse, token) && 1 <= |token| <= 131072
    ensures r.Err? ==>
              r.error == (if Rejects(arrival) then AuthorizationRejected
                          else if exists token :: Sends(arrival, parse, token) then InvalidToken
                          else ProviderUnavailable)
  {
    var tried := Fetch(started, arrival, started + CLIENT_TIMEOUT, MAX_TOKENS, parse);
    finished := tried.ended;
    match tried.outcome {
      case Ok(token) =>
        assert Sends(arrival, parse, token);
        r := if token == "" || |token| > MAX_ID_TOKEN then Err(InvalidToken) else Ok(token);
      case Err(fault) =>
        assert forall token :: !Sends(arrival, parse, token);
        assert fault.Status? <==> arrival.after <= 10_000 && arrival.reply.Response? && !(200 <= arrival.reply.status <= 299);
        r := Err(if fault.Status? && 400 <= fault.code <= 499 then AuthorizationRejected else ProviderUnavailable);
    }
  }

  /** The provider describes itself as the configured issuer, with valid endpoints. */
  ghost predicate Discovers(issuer: string, p: Provider, metadata: Metadata) {
    && Gives(p.discovery, p.jitters.0, 262144, p.parseMetadata, metadata)
    && metadata.issuer == issuer && metadata.endpointsValid
  }

  ghost predicate HasKeys(p: Provider, keys: seq<string>) {
    Gives(p.keys, p.jitters.1, 1048576, p.parseKeys, keys)
  }

  /**
  The provider's answers, in time, amount to this identity: the discovery is the issuer's, a token of
  acceptable size is exchanged, and it is valid for this transaction's nonce with the fetched keys.
  */
  ghost predicate Grants(issuer: string, p: Provider, tx: Transaction, identity: string) {
    exists metadata, token, keys ::
      && Discovers(issuer, p, metadata)
      && Sends(p.tokens, p.parseTokens, token) && 1 <= |token| <= 131072
      && HasKeys(p, keys) && 1 <= |keys| <= 128
      && p.validate(token, tx.nonce, keys) == Some(identity)
  }

  /** The error of a login that fails: that of the first thing to fail. */
  ghost function Failure(issuer: string, q: Query, transaction: Option<Transaction>, now: nat, p: Provider): LoginError {
    if !Admissible(q, transaction, now) then
      if Belongs(q, transaction, now) && q.error.Some? then AuthorizationRejected else InvalidRequest
    else if !exists metadata :: Discovers(issuer, p, metadata) then ProviderUnavailable
    else if Rejects(p.tokens) then AuthorizationRejected
    else if !exists token :: Sends(p.tokens, p.parseTokens, token) then ProviderUnavailable
    else if !exists token :: Sends(p.tokens, p.parseTokens, token) && 1 <= |token| <= 131072 then InvalidToken
    else if !exists keys :: HasKeys(p, keys) then ProviderUnavailable
    else InvalidToken
  }

  lemma DiscoversExactly(issuer: string, p: Provider, log: seq<Attempt<Metadata>>, started: int)
    requires Logged(log, DEFAULT_POLICY, started, p.discovery, p.jitters.0, MAX_DISCOVERY, p.parseMetadata)
    requires p.jitters.0 <= DEFAULT_POLICY.jitter
    ensures var outcome := log[|log| - 1].outcome;
            (exists metadata :: Discovers(issuer, p, metadata))
            <==> outcome.Ok? && outcome.value.issuer == issuer && outcome.value.endpointsValid
  {
    LoggedSize(log, DEFAULT_POLICY, started, p.discovery, p.jitters.0, MAX_DISCOVERY, p.parseMetadata);
    hide Logged, Gives;
    var outcome := log[|log| - 1].outcome;
    forall metadata ensures outcome == Ok(metadata) <==> Gives(p.discovery, p.jitters.0, 262144, p.parseMetadata, metadata) {
      GivesExactly(log, started, p.discovery, p.jitters.0, MAX_DISCOVERY, p.parseMetadata, metadata);
    }
    if outcome.Ok? && outcome.value.issuer == issuer && outcome.value.endpointsValid {
      assert Discovers(issuer, p, outcome.value);
    }
  }

  lemma KeysExactly(p: Provider, log: seq<Attempt<seq<string>>>, started: int)
    requires Logged(log, DEFAULT_POLICY, started, p.keys, p.jitters.1, MAX_KEYS_BYTES, p.parseKeys)
    requires p.jitters.1 <= DEFAULT_POLICY.jitter
    ensures forall keys :: log[|log| - 1].outcome == Ok(keys) <==> HasKeys(p, keys)
  {
    LoggedSize(log, DEFAULT_POLICY, started, p.keys, p.jitters.1, MAX_KEYS_BYTES, p.parseKeys);
    hide Logged, Gives;
    forall keys ensures log[|log| - 1].outcome == Ok(keys) <==> HasKeys(p, keys) {
      GivesExactly(log, started, p.keys, p.jitters.1, MAX_KEYS_BYTES, p.parseKeys, keys);
    }
  }

  lemma SendsOne(arrival: Arrival, parse: string -> Option<string>, token: string, other: string)
    requires Sends(arrival, parse, token) && Sends(arrival, parse, other)
    ensures token == other
  {
  }

  /** What the calls answered decides whether, and as whom, the login succeeds. */
  lemma Decided(
    issuer: string, p: Provider, tx: Transaction, metadata: Metadata, token: string, keys: seq<string>)
    requires Discovers(issuer, p, metadata) && Sends(p.tokens, p.parseTokens, token)
    requires forall other :: HasKeys(p, other) <==> other == keys
    ensures forall identity :: Grants(issuer, p, tx, identity) <==>
              1 <= |token| <= 131072 && 1 <= |keys| <= 128 && p.validate(token, tx.nonce, keys) == Some(identity)
  {
    hide Discovers, Sends, HasKeys;
    forall identity | Grants(issuer, p, tx, identity)
      ensures 1 <= |token| <= 131072 && 1 <= |keys| <= 128 && p.validate(token, tx.nonce, keys) == Some(identity)
    {
      var m, t, ks :|
        && Discovers(issuer, p, m) && Sends(p.tokens, p.parseTokens, t) && 1 <= |t| <= 131072
        && HasKeys(p, ks) && 1 <= |ks| <= 128 && p.validate(t, tx.nonce, ks) == Some(identity);
      SendsOne(p.tokens, p.parseTokens, token, t);
    }
  }

  /** A login needs every one of the three answers. */
  lemma GrantsNeeds(issuer: string, p: Provider, tx: Transaction, identity: string)
    requires Grants(issuer, p, tx, identity)
    ensures exists metadata :: Discovers(issuer, p, metadata)
    ensures exists token :: Sends(p.tokens, p.parseTokens, token) && 1 <= |token| <= 131072
    ensures exists keys :: HasKeys(p, keys)
  {
    hide Discovers, Sends, HasKeys;
  }

  method CompleteLogin(issuer: string, q: Query, transaction: Option<Transaction>, now: nat, started: int, p: Provider)
    returns (result: Result<string, LoginError>, finished: int, log: seq<Event>)
    requires |p.discovery| == 2 && |p.keys| == 2
    requires p.jitters.0 <= DEFAULT_POLICY.jitter && p.jitters.1 <= DEFAULT_POLICY.jitter
    ensures started <= finished <= started + 30_000
    ensures !Admissible(q, transaction, now) ==> log == []
    ensures Admissible(q, transaction, now) ==> InOrder(log, q.code.value, transaction.value.verifier)
    ensures forall identity :: result == Ok(identity) <==>
              Admissible(q, transaction, now) && Grants(issuer, p, transaction.value, identity)
    ensures result.Err? ==> result.error == Failure(issuer, q, transaction, now, p)
    ensures result.Ok? ==> Posts(log) == 1 && log[|log| - 1] == KeysGet
  {
    hide Logged, Carries, InOrder, Posts, Times, Sent, Grants, Discovers, Sends, HasKeys, Rejects, Within;
    log := [];
    var checked := CheckCallback(q, transaction, now);
    if checked.Err? { return Err(checked.error), started, log; }
    var code, tx := checked.value, transaction.value;
    forall identity | Grants(issuer, p, tx, identity)
      ensures exists metadata :: Discovers(issuer, p, metadata)
      ensures exists token :: Sends(p.tokens, p.parseTokens, token) && 1 <= |token| <= 131072
      ensures exists keys :: HasKeys(p, keys)
    {
      GrantsNeeds(issuer, p, tx, identity);
    }
    var metadata, discovered, gets :=
      ProviderGet(DEFAULT_POLICY, started, p.discovery, p.jitters.0, MAX_DISCOVERY, p.parseMetadata);
    LoggedSize(gets, DEFAULT_POLICY, started, p.discovery, p.jitters.0, MAX_DISCOVERY, p.parseMetadata);
    DiscoversExactly(issuer, p, gets, started);
    log := Times(DiscoveryGet, |gets|);
    SentGrows(|gets|, 0, code, tx.verifier);
    OrderOf(|gets|, false, 0, code, tx.verifier);
    if metadata.None? || metadata.value.issuer != issuer || !metadata.value.endpointsValid {
      return Err(ProviderUnavailable), discovered, log;
    }
    var token, exchanged := Exchange(discovered, p.tokens, p.parseTokens);
    log := log + [TokenPost(code, tx.verifier)];
    OrderOf(|gets|, true, 0, code, tx.verifier);
    if token.Err? { return Err(token.error), exchanged, log; }
    var keys, ended, fetches := ProviderGet(DEFAULT_POLICY, exchanged, p.keys, p.jitters.1, MAX_KEYS_BYTES, p.parseKeys);
    LoggedSize(fetches, DEFAULT_POLICY, exchanged, p.keys, p.jitters.1, MAX_KEYS_BYTES, p.parseKeys);
    KeysExactly(p, fetches, exchanged);
    log := log + Times(KeysGet, |fetches|);
    SentGrows(|gets|, |fetches|, code, tx.verifier);
    OrderOf(|gets|, true, |fetches|, code, tx.verifier);
    finished := ended;
    NotRejected(p.tokens, p.parseTokens, token.value);
    if keys.None? { return Err(ProviderUnavailable), finished, log; }
    ghost var described :| Discovers(issuer, p, described);
    Decided(issuer, p, tx, described, token.value, keys.value);
    if keys.value == [] || |keys.value| > MAX_KEYS { return Err(InvalidToken), finished, log; }
    var identity := p.validate(token.value, tx.nonce, keys.value);
    if identity.None? { return Err(InvalidToken), finished, log; }
    result := Ok(identity.value);
  }

  lemma NotRejected(arrival: Arrival, parse: string -> Option<string>, token: string)
    requires Sends(arrival, parse, token)
    ensures !Rejects(arrival)
  {
  }

  lemma SentGrows(d: nat, k: nat, code: string, verifier: string)
    ensures Times(DiscoveryGet, d) == Sent(d, false, 0, code, verifier)
    ensures Sent(d, false, 0, code, verifier) + [TokenPost(code, verifier)] == Sent(d, true, 0, code, verifier)
    ensures Sent(d, true, 0, code, verifier) + Times(KeysGet, k) == Sent(d, true, k, code, verifier)
  {
  }

  lemma LoggedSize<T(!new)>(
    log: seq<Attempt<T>>, policy: GetPolicy, started: int, arrivals: seq<Arrival>, jitter: nat, limit: nat,
    parse: string -> Option<T>)
    requires Logged(log, policy, started, arrivals, jitter, limit, parse)
    ensures 1 <= |log| <= 2
  {
  }

  lemma {:induction false} TimesNone(e: Event, n: nat)
    requires !e.TokenPost?
    ensures Posts(Times(e, n)) == 0 && |Times(e, n)| == n && forall i :: 0 <= i < n ==> Times(e, n)[i] == e
  {
    if n > 0 {
      TimesNone(e, n - 1);
      assert Times(e, n)[..|Times(e, n)| - 1] == Times(e, n - 1);
    }
  }

  lemma {:induction false} PostsAdd(a: seq<Event>, b: seq<Event>)
    ensures Posts(a + b) == Posts(a) + Posts(b)
    decreases |b|
  {
    if b == [] {
      assert a + b == a;
    } else {
      PostsAdd(a, b[..|b| - 1]);
      assert (a + b)[..|a + b| - 1] == a + b[..|b| - 1];
    }
  }

  lemma SentPosts(d: nat, posted: bool, k: nat, code: string, verifier: string)
    ensures var log := Sent(d, posted, k, code, verifier);
            && Posts(log) == (if posted then 1 else 0)
            && |log| == d + (if posted then 1 else 0) + k
            && (forall i :: 0 <= i < d ==> log[i] == DiscoveryGet)
            && (posted ==> log[d] == TokenPost(code, verifier))
            && (forall i :: |log| - k <= i < |log| ==> log[i] == KeysGet)
  {
    TimesNone(DiscoveryGet, d);
    TimesNone(KeysGet, k);
    var middle := if posted then [TokenPost(code, verifier)] else [];
    assert middle != [] ==> middle[..0] == [];
    PostsAdd(Times(DiscoveryGet, d), middle);
    PostsAdd(Times(DiscoveryGet, d) + middle, Times(KeysGet, k));
  }

  lemma OrderOf(d: nat, posted: bool, k: nat, code: string, verifier: string)
    requires 1 <= d <= 2 && k <= 2 && (k > 0 ==> posted)
    ensures var log := Sent(d, posted, k, code, verifier);
            && InOrder(log, code, verifier)
            && Posts(log) == (if posted then 1 else 0)
            && (k > 0 ==> log != [] && log[|log| - 1] == KeysGet)
  {
    hide Posts, Sent;
    SentPosts(d, posted, k, code, verifier);
  }

  /** Whatever fails, at most one token POST is sent, after a discovery and before any fetch of the keys. */
  lemma OneTokenExchange(log: seq<Event>, code: string, verifier: string)
    requires InOrder(log, code, verifier)
    ensures Posts(log) <= 1
    ensures log != [] && log[0] == DiscoveryGet
    ensures forall i, j :: 0 <= i < |log| && 0 <= j < |log| && log[i].TokenPost? && log[j].KeysGet? ==> i < j
    ensures forall i, j :: 0 <= i < |log| && 0 <= j < |log| && log[i].TokenPost? && log[j].DiscoveryGet? ==> j < i
    ensures forall i :: 0 <= i < |log| && log[i].TokenPost? ==> log[i] == TokenPost(code, verifier)
    ensures (exists i :: 0 <= i < |log| && log[i].KeysGet?) ==> Posts(log) == 1
  {
    hide Posts, Sent;
    var d: nat, k: nat, posted: bool :|
      log == Sent(d, posted, k, code, verifier) && 1 <= d <= 2 && k <= 2 && (k > 0 ==> posted);
    SentPosts(d, posted, k, code, verifier);
  }
}
