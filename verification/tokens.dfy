/** The five bearer-token formats: how each is printed, and which authenticator takes a string for which lookup key. */
module Tokens {
  import opened Outcomes

  predicate IsDigit(c: char) { '0' <= c <= '9' }

  predicate IsHexDigit(c: char) { IsDigit(c) || 'a' <= c <= 'f' }

  /** The alphabet of generated secrets: letters, digits, '-' and '_'. */
  predicate IsTokenChar(c: char) {
    IsDigit(c) || 'a' <= c <= 'z' || 'A' <= c <= 'Z' || c == '-' || c == '_'
  }

  predicate AllHex(s: string) { forall i :: 0 <= i < |s| ==> IsHexDigit(s[i]) }

  predicate AllToken(s: string) { forall i :: 0 <= i < |s| ==> IsTokenChar(s[i]) }

  predicate IsSpace(c: char) { c == ' ' || '\t' <= c <= '\r' }

  predicate NoSpace(s: string) { forall i :: 0 <= i < |s| ==> !IsSpace(s[i]) }

  const FRAGMENT := 16
  const SECRET := 43
  const MIN_SECRET := 32
  const MAX_OPAQUE := 256

  function StripPrefix(s: string, prefix: string): Option<string> {
    if prefix <= s then Some(s[|prefix|..]) else None
  }

  /** Splits at the first underscore. */
  function SplitOnce(s: string): Option<(string, string)> {
    if s == "" then None
    else if s[0] == '_' then Some(("", s[1..]))
    else
      match SplitOnce(s[1..])
      case None => None
      case Some(parts) => Some(([s[0]] + parts.0, parts.1))
  }

  // ---------------------------------------------------------------- parsers

  function ParseApiKey(token: string): Option<string> {
    match SplitOnce(token)
    case None => None
    case Some(first) =>
      if first.0 != "hc" then None
      else
        match SplitOnce(first.1)
        case None => None
        case Some(rest) => if |rest.0| != 16 || |rest.1| < MIN_SECRET then None else Some(rest.0)
  }

  function ParseCli(token: string): Option<string> {
    match StripPrefix(token, "hcu_")
    case None => None
    case Some(value) =>
      if |value| < 17 || value[16] != '_' then None
      else
        var prefix, secret := value[..16], value[17..];
        if |secret| < MIN_SECRET || !AllToken(prefix + secret) then None else Some(prefix)
  }

  function ParseFlow(token: string): Option<string> {
    match StripPrefix(token, "hcf_")
    case None => None
    case Some(rest) =>
      match SplitOnce(rest)
      case None => None
      case Some(parts) =>
        if |parts.0| != FRAGMENT || !AllHex(parts.0) || |parts.1| != SECRET || !AllToken(parts.1) then None
        else if |token| < 4 + FRAGMENT then None
        else Some(token[..4 + FRAGMENT])
  }

  /** Role-session and workload tokens are looked up whole. */
  function ParseOpaque(token: string, prefix: string): Option<string> {
    if prefix <= token && |token| <= MAX_OPAQUE && NoSpace(token) then Some(token) else None
  }

  // ---------------------------------------------------------------- authenticators

  datatype Kind = ApiKey | Cli | Role | Workload | Flow

  /** What an authenticator looks a string up by, if it takes it at all. */
  function LookupKey(kind: Kind, token: string): Option<string> {
    match kind
    case ApiKey => ParseApiKey(token)
    case Cli => ParseCli(token)
    case Role => ParseOpaque(token, "hcr_")
    case Workload => ParseOpaque(token, "hcw_")
    case Flow => ParseFlow(token)
  }

  /** The dispatch of bearer tokens on the management interface; credentials of Flow developers have their own. */
  function Dispatch(token: string): Option<(Kind, string)> {
    if "hcw_" <= token then Tagged(Workload, ParseOpaque(token, "hcw_"))
    else if "hcr_" <= token then Tagged(Role, ParseOpaque(token, "hcr_"))
    else if "hcu_" <= token then Tagged(Cli, ParseCli(token))
    else Tagged(ApiKey, ParseApiKey(token))
  }

  function Tagged(kind: Kind, key: Option<string>): Option<(Kind, string)> {
    if key.Some? then Some((kind, key.value)) else None
  }

  // ---------------------------------------------------------------- splitting

  lemma {:induction false} SplitOnceJoins(s: string)
    ensures SplitOnce(s).Some? ==>
              var parts := SplitOnce(s).value; s == parts.0 + "_" + parts.1 && '_' !in parts.0
    ensures SplitOnce(s).None? <==> '_' !in s
  {
    if s != "" {
      SplitOnceJoins(s[1..]);
      assert s == [s[0]] + s[1..];
    }
  }

  lemma {:induction false} SplitOnceSplits(a: string, b: string)
    requires '_' !in a
    ensures SplitOnce(a + "_" + b) == Some((a, b))
  {
    if a == "" {
      assert a + "_" + b == "_" + b;
    } else {
      SplitOnceSplits(a[1..], b);
      assert (a + "_" + b)[1..] == a[1..] + "_" + b;
      assert (a + "_" + b)[0] == a[0];
      assert a == [a[0]] + a[1..];
    }
  }

  // ---------------------------------------------------------------- the languages, exactly

  ghost predicate IsApiKey(token: string, prefix: string) {
    exists secret :: token == "hc_" + prefix + "_" + secret && '_' !in prefix && |prefix| == 16 && |secret| >= 32
  }

  ghost predicate IsCli(token: string, prefix: string) {
    exists secret ::
      && token == "hcu_" + prefix + "_" + secret && |prefix| == 16 && |secret| >= 32
      && AllToken(prefix) && AllToken(secret)
  }

  ghost predicate IsFlow(token: string, prefix: string) {
    exists secret ::
      && token == prefix + "_" + secret && |prefix| == 20 && prefix[..4] == "hcf_" && AllHex(prefix[4..])
      && |secret| == 43 && AllToken(secret)
  }

  lemma ApiKeysExactly(token: string, prefix: string)
    ensures ParseApiKey(token) == Some(prefix) <==> IsApiKey(token, prefix)
  {
    if ParseApiKey(token) == Some(prefix) {
      SplitOnceJoins(token);
      var first := SplitOnce(token).value;
      SplitOnceJoins(first.1);
      var rest := SplitOnce(first.1).value;
      assert token == "hc_" + prefix + "_" + rest.1;
    }
    if IsApiKey(token, prefix) {
      var secret :|
        token == "hc_" + prefix + "_" + secret && '_' !in prefix && |prefix| == 16 && |secret| >= 32;
      assert token == "hc" + "_" + (prefix + "_" + secret);
      SplitOnceSplits("hc", prefix + "_" + secret);
      SplitOnceSplits(prefix, secret);
    }
  }

  lemma CliExactly(token: string, prefix: string)
    ensures ParseCli(token) == Some(prefix) <==> IsCli(token, prefix)
  {
    if ParseCli(token) == Some(prefix) {
      var value := token[4..];
      var secret := value[17..];
      assert token == "hcu_" + prefix + "_" + secret;
      AllTokenParts(prefix, secret);
    }
    if IsCli(token, prefix) {
      var secret :|
        && token == "hcu_" + prefix + "_" + secret && |prefix| == 16 && |secret| >= 32
        && AllToken(prefix) && AllToken(secret);
      assert token[..4] == "hcu_";
      assert token[4..] == prefix + "_" + secret;
      assert token[4..][..16] == prefix && token[4..][17..] == secret;
      AllTokenParts(prefix, secret);
    }
  }

  lemma AllTokenParts(a: string, b: string)
    ensures AllToken(a + b) <==> AllToken(a) && AllToken(b)
  {
    hide IsTokenChar;
    if AllToken(a + b) {
      assert forall i :: 0 <= i < |a| ==> a[i] == (a + b)[i];
      assert forall i :: 0 <= i < |b| ==> b[i] == (a + b)[|a| + i];
    }
  }

  lemma HexHasNoUnderscore(s: string)
    requires AllHex(s)
    ensures '_' !in s
  {
  }

  lemma FlowExactly(token: string, prefix: string)
    ensures ParseFlow(token) == Some(prefix) <==> IsFlow(token, prefix)
  {
    if ParseFlow(token) == Some(prefix) {
      FlowParses(token, prefix);
    }
    if IsFlow(token, prefix) {
      FlowPrints(token, prefix);
    }
  }

  lemma FlowParses(token: string, prefix: string)
    requires ParseFlow(token) == Some(prefix)
    ensures IsFlow(token, prefix)
  {
    hide AllHex, AllToken, SplitOnce;
    SplitOnceJoins(token[4..]);
    var parts := SplitOnce(token[4..]).value;
    assert token == token[..4] + token[4..];
    assert token == ("hcf_" + parts.0) + "_" + parts.1;
    assert prefix == "hcf_" + parts.0;
    assert prefix[..4] == "hcf_" && prefix[4..] == parts.0;
  }

  lemma FlowPrints(token: string, prefix: string)
    requires IsFlow(token, prefix)
    ensures ParseFlow(token) == Some(prefix)
  {
    hide AllHex, AllToken, SplitOnce;
    var secret :|
      && token == prefix + "_" + secret && |prefix| == 20 && prefix[..4] == "hcf_" && AllHex(prefix[4..])
      && |secret| == 43 && AllToken(secret);
    assert token[..4] == "hcf_";
    assert token[4..] == prefix[4..] + "_" + secret;
    HexHasNoUnderscore(prefix[4..]);
    SplitOnceSplits(prefix[4..], secret);
    assert token[..20] == prefix;
  }

  predicate HasSpace(s: string) {
    exists i :: 0 <= i < |s| && s[i] in [' ', '\t', '\n', 11 as char, 12 as char, '\r']
  }

  /** Role-session and workload tokens: the marker, at most 256 characters, none of them white space; looked up whole. */
  lemma OpaquesExactly(token: string, key: string)
    ensures LookupKey(Role, token) == Some(key) <==>
            key == token && |token| <= 256 && !HasSpace(token) && |token| >= 4 && token[..4] == "hcr_"
    ensures LookupKey(Workload, token) == Some(key) <==>
            key == token && |token| <= 256 && !HasSpace(token) && |token| >= 4 && token[..4] == "hcw_"
  {
    assert NoSpace(token) <==> !HasSpace(token);
  }

  const DIGITS := "0123456789"
  const LOWER := "abcdefghijklmnopqrstuvwxyz"
  const UPPER := "ABCDEFGHIJKLMNOPQRSTUVWXYZ"

  /** The alphabets of fragments and secrets. */
  lemma AlphabetsExactly(c: char)
    ensures IsHexDigit(c) <==> c in DIGITS || c in LOWER[..6]
    ensures IsTokenChar(c) <==> c in DIGITS || c in LOWER || c in UPPER || c in "-_"
  {
    assert forall i :: 0 <= i < 10 ==> DIGITS[i] as int == '0' as int + i;
    assert forall i :: 0 <= i < 26 ==> LOWER[i] as int == 'a' as int + i;
    assert forall i :: 0 <= i < 26 ==> UPPER[i] as int == 'A' as int + i;
    if IsDigit(c) { assert DIGITS[c as int - '0' as int] == c; }
    if 'a' <= c <= 'z' { assert LOWER[c as int - 'a' as int] == c; }
    if 'a' <= c <= 'f' { assert LOWER[..6][c as int - 'a' as int] == c; }
    if 'A' <= c <= 'Z' { assert UPPER[c as int - 'A' as int] == c; }
    assert "-_"[0] == '-' && "-_"[1] == '_';
  }

  // ---------------------------------------------------------------- disjoint languages

  /** What every string an authenticator takes begins with. */
  function Marker(kind: Kind): string {
    match kind
    case ApiKey => "hc_"
    case Cli => "hcu_"
    case Role => "hcr_"
    case Workload => "hcw_"
    case Flow => "hcf_"
  }

  lemma TakenStringsAreMarked(kind: Kind, token: string)
    requires LookupKey(kind, token).Some?
    ensures Marker(kind) <= token
  {
    hide SplitOnce;
    if kind == ApiKey {
      SplitOnceJoins(token);
      var first := SplitOnce(token).value;
      assert token == "hc_" + first.1;
    }
  }

  /** Any string is taken for lookup by at most one of the five authenticators. */
  lemma LanguagesAreDisjoint(token: string, kind: Kind, other: Kind)
    requires LookupKey(kind, token).Some? && LookupKey(other, token).Some?
    ensures kind == other
  {
    hide LookupKey;
    TakenStringsAreMarked(kind, token);
    TakenStringsAreMarked(other, token);
    MarkersDiffer(kind, other, token);
  }

  lemma MarkersDiffer(kind: Kind, other: Kind, token: string)
    requires Marker(kind) <= token && Marker(other) <= token
    ensures kind == other
  {
    assert token[2] == Marker(kind)[2] && token[2] == Marker(other)[2];
  }

  /** The dispatch takes a string exactly when one of its four authenticators would, and for that one. */
  lemma DispatchAgrees(token: string, kind: Kind, key: string)
    ensures Dispatch(token) == Some((kind, key)) <==> kind != Flow && LookupKey(kind, token) == Some(key)
  {
    hide ParseApiKey, ParseCli, ParseFlow, ParseOpaque;
    if LookupKey(kind, token) == Some(key) {
      TakenStringsAreMarked(kind, token);
      if "hcw_" <= token { MarkersDiffer(kind, Workload, token); }
      else if "hcr_" <= token { MarkersDiffer(kind, Role, token); }
      else if "hcu_" <= token { MarkersDiffer(kind, Cli, token); }
      else if kind != Flow { assert kind == ApiKey; }
    }
  }

  // ---------------------------------------------------------------- issued tokens

  datatype Issued = Issued(kind: Kind, fragment: string, secret: string)

  /** Fragments are the first sixteen digits of a UUID; secrets are 32 random bytes in URL-safe base64. */
  predicate WellFormed(t: Issued) {
    |t.fragment| == FRAGMENT && AllHex(t.fragment) && |t.secret| == SECRET && AllToken(t.secret)
  }

  function Print(t: Issued): string {
    if t.kind == Role || t.kind == Workload then Marker(t.kind) + t.secret
    else Marker(t.kind) + t.fragment + "_" + t.secret
  }

  /** What the issuer stored the token under. */
  function StoredKey(t: Issued): string {
    match t.kind
    case ApiKey => t.fragment
    case Cli => t.fragment
    case Flow => "hcf_" + t.fragment
    case _ => Print(t)
  }

  /** What each issuer prints and stores: role and workload tokens have no fragment and are stored whole. */
  lemma PrintsExactly(fragment: string, secret: string)
    ensures Print(Issued(ApiKey, fragment, secret)) == "hc_" + fragment + "_" + secret
    ensures Print(Issued(Cli, fragment, secret)) == "hcu_" + fragment + "_" + secret
    ensures Print(Issued(Flow, fragment, secret)) == "hcf_" + fragment + "_" + secret
    ensures Print(Issued(Role, fragment, secret)) == "hcr_" + secret
    ensures Print(Issued(Workload, fragment, secret)) == "hcw_" + secret
    ensures StoredKey(Issued(ApiKey, fragment, secret)) == fragment == StoredKey(Issued(Cli, fragment, secret))
    ensures StoredKey(Issued(Flow, fragment, secret)) == "hcf_" + fragment
    ensures StoredKey(Issued(Role, fragment, secret)) == "hcr_" + secret
    ensures StoredKey(Issued(Workload, fragment, secret)) == "hcw_" + secret
  {
  }

  lemma HexIsToken(s: string)
    requires AllHex(s)
    ensures AllToken(s)
  {
  }

  lemma TokenHasNoSpace(s: string)
    requires AllToken(s)
    ensures NoSpace(s)
  {
  }

  lemma OpaquePrints(t: Issued)
    requires WellFormed(t) && (t.kind == Role || t.kind == Workload)
    ensures LookupKey(t.kind, Print(t)) == Some(StoredKey(t))
  {
    assert AllToken(Marker(t.kind));
    AllTokenParts(Marker(t.kind), t.secret);
    TokenHasNoSpace(Print(t));
  }

  /** Whatever its secret contains, underscores included, an issued token leads back to the key it is stored under. */
  lemma IssuedTokensParseBack(t: Issued)
    requires WellFormed(t)
    ensures LookupKey(t.kind, Print(t)) == Some(StoredKey(t))
  {
    hide AllHex, AllToken, ParseApiKey, ParseCli, ParseFlow, ParseOpaque;
    HexHasNoUnderscore(t.fragment);
    match t.kind {
      case ApiKey =>
        assert IsApiKey(Print(t), t.fragment);
        ApiKeysExactly(Print(t), t.fragment);
      case Cli =>
        HexIsToken(t.fragment);
        assert IsCli(Print(t), t.fragment);
        CliExactly(Print(t), t.fragment);
      case Flow =>
        var prefix := "hcf_" + t.fragment;
        assert prefix[..4] == "hcf_" && prefix[4..] == t.fragment;
        assert IsFlow(Print(t), prefix);
        FlowExactly(Print(t), prefix);
      case _ => OpaquePrints(t);
    }
  }

  /** And to no other authenticator; so the dispatch sends it to its own. */
  lemma IssuedTokensReachTheirOwn(t: Issued, kind: Kind)
    requires WellFormed(t)
    ensures LookupKey(kind, Print(t)).Some? <==> kind == t.kind
    ensures t.kind != Flow ==> Dispatch(Print(t)) == Some((t.kind, StoredKey(t)))
    ensures t.kind == Flow ==> Dispatch(Print(t)) == None
  {
    hide LookupKey, Dispatch, Print, StoredKey, WellFormed;
    IssuedTokensParseBack(t);
    if LookupKey(kind, Print(t)).Some? {
      LanguagesAreDisjoint(Print(t), kind, t.kind);
    }
    DispatchAgrees(Print(t), t.kind, StoredKey(t));
    if t.kind == Flow && Dispatch(Print(t)).Some? {
      var (k, key) := Dispatch(Print(t)).value;
      DispatchAgrees(Print(t), k, key);
      LanguagesAreDisjoint(Print(t), k, Flow);
    }
  }
}
