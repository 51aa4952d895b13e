/**
 * lib/client.mjs: the credential-presence check of `createClient`, the
 * tweet-identifier parser `parseTweetId` and the URL builder `tweetUrl`.
 *
 * The environment is a map passed in (how it is filled from the two `.env`
 * files is not part of this model), and the regular expression
 * `/(?:twitter\.com|x\.com)\/\w+\/status\/(\d+)/i` is written out as a
 * leftmost search over the string.
 */
module Client {
  import opened Wrappers
  import opened Text

  // ---------------------------------------------------------------------
  // Credentials
  // ---------------------------------------------------------------------

  /** The four variables an authenticated client needs, in declared order. */
  const RequiredVars: seq<string> :=
    ["X_API_KEY", "X_API_SECRET", "X_ACCESS_TOKEN", "X_ACCESS_TOKEN_SECRET"]

  /** The process environment after the configuration files were loaded. */
  type Env = map<string, string>

  /** `process.env[key]` is truthy: present and not the empty string. */
  predicate IsSet(env: Env, key: string) {
    key in env && env[key] != ""
  }

  /** `keys.filter((v) => !process.env[v])`. */
  function MissingVars(keys: seq<string>, env: Env): (missing: seq<string>)
    ensures |missing| <= |keys|
    ensures forall j :: 0 <= j < |missing| ==> !IsSet(env, missing[j])
  {
    if keys == [] then []
    else (if IsSet(env, keys[0]) then [] else [keys[0]]) + MissingVars(keys[1..], env)
  }

  /** A key is reported exactly when it is required and not set. */
  lemma {:induction false} MissingVarsMembers(keys: seq<string>, env: Env, k: string)
    ensures k in MissingVars(keys, env) <==> k in keys && !IsSet(env, k)
  {
    if keys != [] {
      MissingVarsMembers(keys[1..], env, k);
      assert k in keys <==> k == keys[0] || k in keys[1..];
    }
  }

  /** The filter keeps the declared order: it distributes over concatenation. */
  lemma {:induction false} MissingVarsAppend(a: seq<string>, b: seq<string>, env: Env)
    ensures MissingVars(a + b, env) == MissingVars(a, env) + MissingVars(b, env)
  {
    if a == [] {
      assert a + b == b;
    } else {
      var head := if IsSet(env, a[0]) then [] else [a[0]];
      assert (a + b)[0] == a[0] && (a + b)[1..] == a[1..] + b;
      calc {
        MissingVars(a + b, env);
        head + MissingVars(a[1..] + b, env);
        { MissingVarsAppend(a[1..], b, env); }
        head + (MissingVars(a[1..], env) + MissingVars(b, env));
      }
    }
  }

  /** When none of the keys is set, every key is reported, in order. */
  lemma {:induction false} MissingVarsAll(keys: seq<string>, env: Env)
    requires forall k :: k in keys ==> !IsSet(env, k)
    ensures MissingVars(keys, env) == keys
  {
    if keys != [] {
      MissingVarsAll(keys[1..], env);
    }
  }

  /** The four secrets handed to the API client. */
  datatype Credentials = Credentials(
    appKey: string, appSecret: string, accessToken: string, accessSecret: string)

  /** The error `createClient` throws: the names of the missing variables. */
  datatype ConfigError = MissingCredentials(missing: seq<string>)

  /**
   * The credential check of `createClient`: fails, naming the missing
   * variables in declared order, unless all four are set to non-empty values,
   * and otherwise yields exactly those four values.
   */
  function CreateClient(env: Env): (r: Result<Credentials, ConfigError>)
    ensures r.Success? <==> forall k :: k in RequiredVars ==> IsSet(env, k)
    ensures r.Success? ==> (IsSet(env, "X_API_KEY") && IsSet(env, "X_API_SECRET")
                            && IsSet(env, "X_ACCESS_TOKEN") && IsSet(env, "X_ACCESS_TOKEN_SECRET"))
    ensures r.Success? ==> r.value == Credentials(
      env["X_API_KEY"], env["X_API_SECRET"], env["X_ACCESS_TOKEN"], env["X_ACCESS_TOKEN_SECRET"])
    ensures r.Success? ==> (r.value.appKey != "" && r.value.appSecret != ""
                            && r.value.accessToken != "" && r.value.accessSecret != "")
    ensures r.Failure? ==> (r.error.missing != []
                            && r.error.missing == MissingVars(RequiredVars, env))
  {
    var missing := MissingVars(RequiredVars, env);
    assert forall k :: k in missing <==> k in RequiredVars && !IsSet(env, k) by {
      forall k { MissingVarsMembers(RequiredVars, env, k); }
    }
    if |missing| > 0 then
      assert missing[0] in missing;
      Failure(MissingCredentials(missing))
    else
      assert RequiredVars[0] in RequiredVars && RequiredVars[1] in RequiredVars;
      assert RequiredVars[2] in RequiredVars && RequiredVars[3] in RequiredVars;
      Success(Credentials(
        env["X_API_KEY"], env["X_API_SECRET"], env["X_ACCESS_TOKEN"], env["X_ACCESS_TOKEN_SECRET"]))
  }

  /** The lines after the list of missing names: where to set the credentials. */
  const CredentialsHint :=
    "Set them in ~/.config/tweet-cli/.env or as environment variables.\n" + "See: tweet-cli --help"

  /**
   * The message of the thrown error: its first line lists the missing names
   * after "Missing credentials: ", and the hint follows.
   */
  function ConfigErrorMessage(e: ConfigError): (m: string)
    ensures var names := Join(e.missing, ", ");
      var p := "Missing credentials: ";
      |p| + |names| < |m| && m[..|p|] == p
      && m[|p|..|p| + |names|] == names && m[|p| + |names|] == '\n'
    ensures var names := Join(e.missing, ", ");
      m[|"Missing credentials: "| + |names|..] == "\n" + CredentialsHint
  {
    var p := "Missing credentials: ";
    var names := Join(e.missing, ", ");
    Concat3Slices(p, names, "\n" + CredentialsHint);
    p + names + ("\n" + CredentialsHint)
  }

  /** The four names joined as the error message lists them. */
  lemma RequiredVarsJoined()
    ensures Join(RequiredVars, ", ") == "X_API_KEY" + ", " + "X_API_SECRET" + ", "
      + "X_ACCESS_TOKEN" + ", " + "X_ACCESS_TOKEN_SECRET"
  {
    var names := RequiredVars;
    assert names[1..][1..][1..] == ["X_ACCESS_TOKEN_SECRET"];
    assert Join(names[1..][1..], ", ") == "X_ACCESS_TOKEN" + ", " + "X_ACCESS_TOKEN_SECRET";
    assert Join(names[1..], ", ")
      == "X_API_SECRET" + ", " + ("X_ACCESS_TOKEN" + ", " + "X_ACCESS_TOKEN_SECRET");
  }

  /** The full message for all four names missing. */
  lemma AllFourMessage()
    ensures ConfigErrorMessage(MissingCredentials(RequiredVars)) ==
      "Missing credentials: "
      + ("X_API_KEY" + ", " + "X_API_SECRET" + ", " + "X_ACCESS_TOKEN" + ", " + "X_ACCESS_TOKEN_SECRET")
      + ("\n" + CredentialsHint)
  {
    RequiredVarsJoined();
  }

  /** With no credential set at all, the error lists all four names. */
  lemma NothingSetListsAllFour(env: Env)
    requires forall k :: k in RequiredVars ==> !IsSet(env, k)
    ensures CreateClient(env) == Failure(MissingCredentials(RequiredVars))
    ensures ConfigErrorMessage(CreateClient(env).error) ==
      "Missing credentials: "
      + ("X_API_KEY" + ", " + "X_API_SECRET" + ", " + "X_ACCESS_TOKEN" + ", " + "X_ACCESS_TOKEN_SECRET")
      + ("\n" + CredentialsHint)
  {
    MissingVarsAll(RequiredVars, env);
    AllFourMessage();
  }

  // ---------------------------------------------------------------------
  // The URL pattern, as an explicit search
  // ---------------------------------------------------------------------

  const TwitterHost := "twitter.com"
  const XHost := "x.com"
  const StatusSegment := "/status/"

  /** `/^\d+$/`: a non-empty run of ASCII digits and nothing else. */
  predicate IsTweetId(s: string) {
    |s| > 0 && AllDigits(s)
  }

  /**
   * The lower-case ASCII literal `lit` occurs at `i` in `s` when compared
   * case-insensitively.
   */
  predicate FoldedAt(s: string, i: nat, lit: string) {
    i + |lit| <= |s| && forall k :: 0 <= k < |lit| ==> AsciiLower(s[i + k]) == lit[k]
  }

  lemma FoldedAtChar(s: string, i: nat, lit: string, k: nat)
    requires FoldedAt(s, i, lit) && k < |lit|
    ensures AsciiLower(s[i + k]) == lit[k]
  {
  }

  /** The end of the longest run of characters satisfying `p` from `i`. */
  function RunEnd(s: string, i: nat, p: char -> bool): (j: nat)
    requires i <= |s|
    ensures i <= j <= |s|
    ensures forall k :: i <= k < j ==> p(s[k])
    ensures j == |s| || !p(s[j])
    decreases |s| - i
  {
    if i < |s| && p(s[i]) then RunEnd(s, i + 1, p) else i
  }

  /** Any index closing a maximal run is the one `RunEnd` finds. */
  lemma RunEndUnique(s: string, i: nat, j: nat, p: char -> bool)
    requires i <= j <= |s|
    requires forall k :: i <= k < j ==> p(s[k])
    requires j == |s| || !p(s[j])
    ensures RunEnd(s, i, p) == j
  {
  }

  /** `(?:twitter\.com|x\.com)` at `i`: the index just after the host. */
  function HostEnd(s: string, i: nat): (a: Option<nat>)
    ensures a.Some? ==> i < a.value <= |s|
  {
    if FoldedAt(s, i, TwitterHost) then Some(i + |TwitterHost|)
    else if FoldedAt(s, i, XHost) then Some(i + |XHost|)
    else None
  }

  /**
   * The rest of an attempt once the host ends at `a`, with backtracking
   * resolved: `\w+` can only stop where the next `/` is, and the greedy
   * `(\d+)` takes the whole digit run. The result is the captured group.
   */
  function PathAt(s: string, a: nat): (r: Option<string>)
    ensures r.Some? ==> a < |s| && IsTweetId(r.value)
  {
    if a < |s| && s[a] == '/' then
      var u := RunEnd(s, a + 1, IsWordChar);
      if u > a + 1 && FoldedAt(s, u, StatusSegment) then
        var e := RunEnd(s, u + |StatusSegment|, IsDigit);
        if e > u + |StatusSegment| then Some(s[u + |StatusSegment|..e]) else None
      else None
    else None
  }

  /** One attempt of the whole pattern at index `i`. */
  function MatchAt(s: string, i: nat): (r: Option<string>)
    ensures r.Some? ==> i < |s| && IsTweetId(r.value)
  {
    match HostEnd(s, i)
    case None => None
    case Some(a) => PathAt(s, a)
  }

  /** Reference meaning of the host alternative: the host (in any case) spans `[i, a)`. */
  ghost predicate HostShape(s: string, i: nat, a: nat) {
    (FoldedAt(s, i, TwitterHost) && a == i + |TwitterHost|)
    || (FoldedAt(s, i, XHost) && a == i + |XHost|)
  }

  /**
   * Reference meaning of the rest, capturing `d`: `/`, the user segment
   * `s[a+1..u]` of one or more word characters, `/status/` (in any case),
   * then `d`, a digit run that is not followed by a further digit.
   */
  ghost predicate PathShape(s: string, a: nat, u: nat, d: string) {
    a + 1 < u <= |s| && s[a] == '/' && AllWordChars(s[a + 1..u])
    && FoldedAt(s, u, StatusSegment)
    && IsTweetId(d) && u + |StatusSegment| + |d| <= |s|
    && s[u + |StatusSegment|..u + |StatusSegment| + |d|] == d
    && (u + |StatusSegment| + |d| == |s| || !IsDigit(s[u + |StatusSegment| + |d|]))
  }

  ghost predicate MatchShape(s: string, i: nat, a: nat, u: nat, d: string) {
    HostShape(s, i, a) && PathShape(s, a, u, d)
  }

  ghost predicate MatchesAt(s: string, i: nat, d: string) {
    exists a: nat, u: nat :: MatchShape(s, i, a, u, d)
  }

  /** The two host literals cannot both match: they differ in their first letter. */
  lemma HostEndComplete(s: string, i: nat, a: nat)
    requires HostShape(s, i, a)
    ensures HostEnd(s, i) == Some(a)
  {
    if FoldedAt(s, i, XHost) && FoldedAt(s, i, TwitterHost) {
      FoldedAtChar(s, i, XHost, 0);
      FoldedAtChar(s, i, TwitterHost, 0);
    }
  }

  lemma PathAtComplete(s: string, a: nat, u: nat, d: string)
    requires PathShape(s, a, u, d)
    ensures PathAt(s, a) == Some(d)
  {
    FoldedAtChar(s, u, StatusSegment, 0);
    forall k | a + 1 <= k < u ensures IsWordChar(s[k]) {
      assert s[a + 1..u][k - (a + 1)] == s[k];
    }
    RunEndUnique(s, a + 1, u, IsWordChar);
    var v := u + |StatusSegment|;
    var e := v + |d|;
    forall k | v <= k < e ensures IsDigit(s[k]) {
      assert s[v..e][k - v] == s[k];
    }
    RunEndUnique(s, v, e, IsDigit);
  }

  lemma HostEndSound(s: string, i: nat)
    requires HostEnd(s, i).Some?
    ensures HostShape(s, i, HostEnd(s, i).value)
  {
  }

  lemma PathAtSound(s: string, a: nat)
    requires PathAt(s, a).Some?
    ensures PathShape(s, a, RunEnd(s, a + 1, IsWordChar), PathAt(s, a).value)
  {
    var u := RunEnd(s, a + 1, IsWordChar);
    var w := s[a + 1..u];
    forall k | 0 <= k < |w| ensures IsWordChar(w[k]) {
      assert w[k] == s[a + 1 + k];
    }
  }

  lemma MatchAtSound(s: string, i: nat)
    requires MatchAt(s, i).Some?
    ensures MatchesAt(s, i, MatchAt(s, i).value)
  {
    var a := HostEnd(s, i).value;
    var u := RunEnd(s, a + 1, IsWordChar);
    HostEndSound(s, i);
    PathAtSound(s, a);
    assert MatchShape(s, i, a, u, MatchAt(s, i).value);
  }

  lemma MatchAtComplete(s: string, i: nat, a: nat, u: nat, d: string)
    requires MatchShape(s, i, a, u, d)
    ensures MatchAt(s, i) == Some(d)
  {
    HostEndComplete(s, i, a);
    PathAtComplete(s, a, u, d);
  }

  /** The explicit attempt agrees with the reference meaning, both ways. */
  lemma MatchAtIff(s: string, i: nat, d: string)
    ensures MatchAt(s, i) == Some(d) <==> MatchesAt(s, i, d)
  {
    if MatchAt(s, i) == Some(d) {
      MatchAtSound(s, i);
    }
    if MatchesAt(s, i, d) {
      var a: nat, u: nat :| MatchShape(s, i, a, u, d);
      MatchAtComplete(s, i, a, u, d);
    }
  }

  /** A successful attempt: where the match starts (`match.index`) and what it captured. */
  datatype Hit = Hit(index: nat, capture: string)

  /**
   * The scan `String.prototype.match` performs without the `g` flag: try the
   * start indices `i`, `i + 1`, ... below `n` in turn and keep the first
   * attempt that succeeds.
   */
  function FirstHit(attempt: nat -> Option<string>, i: nat, n: nat): (r: Option<Hit>)
    ensures r.Some? ==> i <= r.value.index < n && attempt(r.value.index) == Some(r.value.capture)
    decreases n - i
  {
    if i >= n then None
    else
      match attempt(i)
      case Some(d) => Some(Hit(i, d))
      case None => FirstHit(attempt, i + 1, n)
  }

  /** No attempt at an index in `[lo, hi)` succeeds. */
  ghost predicate NoHitBetween(attempt: nat -> Option<string>, lo: nat, hi: nat) {
    forall j: nat :: lo <= j < hi ==> attempt(j).None?
  }

  /** The scan stops at the first index whose attempt succeeds. */
  lemma {:induction false} FirstHitAt(attempt: nat -> Option<string>, i: nat, k: nat, n: nat)
    requires i <= k < n && attempt(k).Some? && NoHitBetween(attempt, i, k)
    ensures FirstHit(attempt, i, n) == Some(Hit(k, attempt(k).value))
    decreases k - i
  {
    if i < k {
      FirstHitAt(attempt, i + 1, k, n);
    }
  }

  /** No attempt before the one the scan returns succeeds. */
  lemma {:induction false} FirstHitIsFirst(attempt: nat -> Option<string>, i: nat, n: nat)
    requires FirstHit(attempt, i, n).Some?
    ensures NoHitBetween(attempt, i, FirstHit(attempt, i, n).value.index)
    decreases n - i
  {
    if attempt(i).None? {
      FirstHitIsFirst(attempt, i + 1, n);
    }
  }

  /** The scan finds nothing exactly when no attempt in `[i, n)` succeeds. */
  lemma {:induction false} FirstHitNone(attempt: nat -> Option<string>, i: nat, n: nat)
    ensures FirstHit(attempt, i, n).None? <==> NoHitBetween(attempt, i, n)
    decreases n - i
  {
    if i < n && attempt(i).None? {
      FirstHitNone(attempt, i + 1, n);
    }
  }

  /** The attempts of the URL pattern at each index of `s`. */
  function Attempts(s: string): nat -> Option<string>
  {
    (j: nat) => MatchAt(s, j)
  }

  /** `s.match(pattern)`, reduced to the captured digit run. */
  function Search(s: string): (r: Option<string>)
    ensures r.Some? ==> IsTweetId(r.value)
  {
    match FirstHit(Attempts(s), 0, |s|)
    case Some(h) => assert MatchAt(s, h.index) == Some(h.capture); Some(h.capture)
    case None => None
  }

  ghost predicate NoMatchBetween(s: string, lo: nat, hi: nat) {
    forall j: nat, d :: lo <= j < hi ==> !MatchesAt(s, j, d)
  }

  /** `d` is captured by the leftmost match, which starts at `k`. */
  ghost predicate IsLeftmostMatch(s: string, k: nat, d: string) {
    MatchesAt(s, k, d) && NoMatchBetween(s, 0, k)
  }

  /** "No match" in the reference reading is "no successful attempt". */
  lemma NoMatchBetweenIff(s: string, lo: nat, hi: nat)
    ensures NoMatchBetween(s, lo, hi) <==> NoHitBetween(Attempts(s), lo, hi)
  {
    if NoMatchBetween(s, lo, hi) {
      forall j: nat | lo <= j < hi ensures Attempts(s)(j).None? {
        forall d ensures MatchAt(s, j) != Some(d) {
          MatchAtIff(s, j, d);
        }
        assert Attempts(s)(j) == MatchAt(s, j);
      }
    }
    if NoHitBetween(Attempts(s), lo, hi) {
      forall j: nat, d | lo <= j < hi ensures !MatchesAt(s, j, d) {
        assert Attempts(s)(j) == MatchAt(s, j);
        MatchAtIff(s, j, d);
      }
    }
  }

  /**
   * The search returns `d` exactly when `d` is the capture of the leftmost
   * match of the pattern.
   */
  lemma SearchIsLeftmost(s: string, d: string)
    ensures Search(s) == Some(d) <==> exists k: nat :: IsLeftmostMatch(s, k, d)
  {
    var r := FirstHit(Attempts(s), 0, |s|);
    if Search(s) == Some(d) {
      var k := r.value.index;
      FirstHitIsFirst(Attempts(s), 0, |s|);
      assert MatchAt(s, k) == Some(d);
      MatchAtIff(s, k, d);
      NoMatchBetweenIff(s, 0, k);
      assert IsLeftmostMatch(s, k, d);
    }
    if exists k: nat :: IsLeftmostMatch(s, k, d) {
      var k: nat :| IsLeftmostMatch(s, k, d);
      MatchAtIff(s, k, d);
      NoMatchBetweenIff(s, 0, k);
      assert Attempts(s)(k) == Some(d);
      FirstHitAt(Attempts(s), 0, k, |s|);
    }
  }

  /** The search finds nothing exactly when the pattern matches nowhere. */
  lemma SearchIsEmpty(s: string)
    ensures Search(s).None? <==> forall j: nat, d :: !MatchesAt(s, j, d)
  {
    FirstHitNone(Attempts(s), 0, |s|);
    forall j: nat, d { MatchAtIff(s, j, d); }
    NoMatchBetweenIff(s, 0, |s|);
  }

  // ---------------------------------------------------------------------
  // parseTweetId and tweetUrl
  // ---------------------------------------------------------------------

  /** The two errors `parseTweetId` throws. */
  datatype ParseError =
    | IdRequired               // the input was falsy
    | InvalidId(trimmed: string)  // neither a numeric ID nor a post URL

  /** The second line of the "invalid" message: the accepted forms of input. */
  const ExpectedForms := "Expected a numeric ID or a URL like https://x.com/user/status/123456"

  /**
   * The text of the thrown error. An invalid input is echoed, trimmed, between
   * double quotes on the first line; the accepted forms follow.
   */
  function ParseErrorMessage(e: ParseError): (m: string)
    ensures e.IdRequired? ==> m == "Tweet ID or URL is required."
    ensures e.InvalidId? ==>
      var p := "Invalid tweet ID or URL: \"";
      |p| + |e.trimmed| < |m| && m[..|p|] == p
      && m[|p|..|p| + |e.trimmed|] == e.trimmed && m[|p| + |e.trimmed|] == '"'
    ensures e.InvalidId? ==>
      m[|"Invalid tweet ID or URL: \""| + |e.trimmed|..] == "\"\n" + ExpectedForms
  {
    match e
    case IdRequired => "Tweet ID or URL is required."
    case InvalidId(t) =>
      var p := "Invalid tweet ID or URL: \"";
      Concat3Slices(p, t, "\"\n" + ExpectedForms);
      p + t + ("\"\n" + ExpectedForms)
  }


  /**
   * `parseTweetId(input)`; `None` stands for `undefined`. A falsy input is
   * refused before anything else; otherwise the trimmed input is returned if
   * it is all digits, else the digit run the URL pattern captures.
   */
  function ParseTweetId(input: Option<string>): (r: Result<string, ParseError>)
    ensures r == Failure(IdRequired) <==> input == None || input == Some("")
    ensures r.Success? ==> IsTweetId(r.value)
    ensures r.Failure? && input.Some? && input.value != "" ==>
      r.error == InvalidId(Trim(input.value))
  {
    if input.None? || input.value == "" then Failure(IdRequired)
    else
      var trimmed := Trim(input.value);
      if IsTweetId(trimmed) then Success(trimmed)
      else
        match Search(trimmed)
        case Some(d) => Success(d)
        case None => Failure(InvalidId(trimmed))
  }

  /** A trimmed input of digits only is returned unchanged. */
  lemma NumericIdUnchanged(input: string)
    requires input != "" && IsTweetId(Trim(input))
    ensures ParseTweetId(Some(input)) == Success(Trim(input))
  {
  }

  /**
   * For any other non-empty input the result is the capture of the leftmost
   * match in the trimmed input, and nothing else.
   */
  lemma UrlIdIsLeftmostCapture(input: string, d: string)
    requires input != "" && !IsTweetId(Trim(input))
    ensures ParseTweetId(Some(input)) == Success(d)
      <==> exists k: nat :: IsLeftmostMatch(Trim(input), k, d)
  {
    var t := Trim(input);
    assert ParseTweetId(Some(input)) == Success(d) <==> Search(t) == Some(d);
    SearchIsLeftmost(t, d);
  }

  /** An input whose trim is not all digits parses to what the search finds. */
  lemma ParsedBySearch(input: string, d: string)
    requires input != "" && !IsTweetId(Trim(input)) && Search(Trim(input)) == Some(d)
    ensures ParseTweetId(Some(input)) == Success(d)
  {
  }

  /**
   * A non-empty input is refused as invalid exactly when its trim is not all
   * digits and the URL pattern matches nowhere in it.
   */
  lemma InvalidIffNoMatch(input: string)
    requires input != ""
    ensures ParseTweetId(Some(input)).Failure?
      <==> !IsTweetId(Trim(input)) && forall j: nat, d :: !MatchesAt(Trim(input), j, d)
  {
    SearchIsEmpty(Trim(input));
  }

  /** White space alone passes the falsy check but is an invalid ID. */
  lemma WhitespaceOnlyIsInvalid(input: string)
    requires input != ""
    requires forall k :: 0 <= k < |input| ==> IsJsSpace(input[k])
    ensures ParseTweetId(Some(input)) == Failure(InvalidId(""))
  {
  }

  /** `h` is the lower-case ASCII literal `lit` written in any case. */
  predicate FoldsTo(h: string, lit: string) {
    |h| == |lit| && FoldedAt(h, 0, lit)
  }

  /** No match of the pattern can start inside a leading `https://`. */
  lemma NoMatchInScheme(s: string)
    requires |s| >= 8 && s[..8] == "https://"
    ensures NoMatchBetween(s, 0, 8)
  {
    assert s[0] == 'h' && s[1] == 't' && s[2] == 't' && s[3] == 'p';
    assert s[4] == 's' && s[5] == ':' && s[6] == '/' && s[7] == '/';
    assert XHost[0] == 'x' && TwitterHost[0] == 't' && TwitterHost[1] == 'w';
    forall j: nat, d | j < 8 ensures !MatchesAt(s, j, d) {
      if j == 1 || j == 2 {
        assert AsciiLower(s[j]) != 'x' && AsciiLower(s[j + 1]) != 'w';
      } else {
        assert AsciiLower(s[j]) != 'x' && AsciiLower(s[j]) != 't';
      }
    }
  }

  /** A match right after a leading `https://` is the leftmost one. */
  lemma SearchAfterScheme(s: string, a: nat, u: nat, d: string)
    requires |s| >= 8 && s[..8] == "https://"
    requires MatchShape(s, 8, a, u, d)
    ensures Search(s) == Some(d)
  {
    NoMatchInScheme(s);
    NoMatchBetweenIff(s, 0, 8);
    MatchAtComplete(s, 8, a, u, d);
    assert Attempts(s)(8) == Some(d);
    FirstHitAt(Attempts(s), 0, 8, |s|);
  }

  /** An input whose trim starts with `https://` and matches right after it parses to the capture. */
  lemma SchemeUrlParses(input: string, a: nat, u: nat, d: string)
    requires var t := Trim(input);
      |t| >= 8 && t[..8] == "https://" && MatchShape(t, 8, a, u, d)
    ensures ParseTweetId(Some(input)) == Success(d)
  {
    var t := Trim(input);
    SearchAfterScheme(t, a, u, d);
    assert !IsDigit(t[0]) by { assert t[0] == t[..8][0]; }
    ParsedBySearch(input, d);
  }

  /** The text of a post URL with the given parts. */
  function PostUrl(host: string, user: string, id: string, rest: string): string
  {
    "https://" + host + "/" + user + "/status/" + id + rest
  }

  /** Where the parts of a post URL lie. */
  lemma PostUrlPieces(host: string, user: string, id: string, rest: string)
    ensures var s := PostUrl(host, user, id, rest);
      var a := 8 + |host|;
      var u := a + 1 + |user|;
      var v := u + |StatusSegment|;
      var e := v + |id|;
      e + |rest| == |s| && s[..8] == "https://" && s[8..a] == host && s[a] == '/'
      && s[a + 1..u] == user && s[u..v] == StatusSegment && s[v..e] == id
      && s[e..] == rest
  {
    var s := PostUrl(host, user, id, rest);
    var p1 := "https://" + host;
    var p2 := p1 + "/";
    var p3 := p2 + user;
    var p4 := p3 + StatusSegment;
    var p5 := p4 + id;
    assert s == p5 + rest;
    var a, u, e := |p1|, |p3|, |p5|;
    assert s[..e] == p5;
    assert s[..|p4|] == p4 by { assert p5[..|p4|] == p4; }
    assert s[..|p3|] == p3 by { assert p4[..|p3|] == p3; }
    assert s[..|p2|] == p2 by { assert p3[..|p2|] == p2; }
    assert s[..a] == p1 by { assert p2[..a] == p1; }
    assert s[..8] == "https://" by { assert p1[..8] == "https://"; }
    assert s[8..a] == host by { assert p1[8..] == host; }
    assert s[a] == '/' by { assert p2[a] == '/'; }
    assert s[a + 1..u] == user by { assert p3[a + 1..] == user; }
    var v := |p4|;
    assert s[u..v] == StatusSegment by { assert p4[u..] == StatusSegment; }
    assert s[v..e] == id by { assert p5[v..] == id; }
  }

  /** A copy of `h`, which folds to `lit`, placed at `i` in `s`. */
  lemma FoldedAtCopy(s: string, i: nat, h: string, lit: string)
    requires FoldsTo(h, lit) && i + |h| <= |s| && s[i..i + |h|] == h
    ensures FoldedAt(s, i, lit)
  {
    forall k | 0 <= k < |lit| ensures AsciiLower(s[i + k]) == lit[k] {
      assert s[i..i + |h|][k] == h[k];
      FoldedAtChar(h, 0, lit, k);
    }
  }

  lemma StatusSegmentFolds()
    ensures FoldsTo(StatusSegment, StatusSegment)
  {
    forall k | 0 <= k < |StatusSegment| ensures AsciiLower(StatusSegment[k]) == StatusSegment[k] {
      assert StatusSegment[k] in {'/', 's', 't', 'a', 'u'};
    }
  }

  /** The pattern matches a post URL at its host. */
  lemma PostUrlShape(host: string, user: string, id: string, rest: string)
    requires FoldsTo(host, TwitterHost) || FoldsTo(host, XHost)
    requires |user| > 0 && AllWordChars(user)
    requires IsTweetId(id)
    requires rest == [] || !IsDigit(rest[0])
    ensures var s := PostUrl(host, user, id, rest);
      |s| >= 8 && s[..8] == "https://" && s[0] == 'h'
      && s[|s| - 1] == (if rest == [] then id[|id| - 1] else rest[|rest| - 1])
      && MatchShape(s, 8, 8 + |host|, 9 + |host| + |user|, id)
  {
    var s := PostUrl(host, user, id, rest);
    var a := 8 + |host|;
    var u := a + 1 + |user|;
    var v := u + |StatusSegment|;
    var e := v + |id|;
    PostUrlPieces(host, user, id, rest);
    if FoldsTo(host, TwitterHost) {
      FoldedAtCopy(s, 8, host, TwitterHost);
    } else {
      FoldedAtCopy(s, 8, host, XHost);
    }
    assert HostShape(s, 8, a);
    StatusSegmentFolds();
    FoldedAtCopy(s, u, StatusSegment, StatusSegment);
    assert s[0] == 'h' by { assert s[..8][0] == 'h'; }
    if rest == [] {
      assert s[|s| - 1] == s[v..e][|id| - 1];
    } else {
      assert s[|s| - 1] == s[e..][|rest| - 1];
      assert s[e] == s[e..][0];
    }
    assert PathShape(s, a, u, id);
  }

  /** A post URL is the URL up to the ID followed by the rest. */
  lemma PostUrlAppend(host: string, user: string, id: string, rest: string)
    requires id != []
    ensures var p := PostUrl(host, user, id, "");
      PostUrl(host, user, id, rest) == p + rest && p[0] == 'h' && p[|p| - 1] == id[|id| - 1]
  {
  }

  /**
   * Trimming a post URL can only drop white space at the end of the text after
   * the ID: the URL starts with `h` and the ID ends with a digit.
   */
  lemma PostUrlTrim(host: string, user: string, id: string, rest: string)
    requires IsTweetId(id)
    ensures Trim(PostUrl(host, user, id, rest)) == PostUrl(host, user, id, TrimEnd(rest))
  {
    var p := PostUrl(host, user, id, "");
    PostUrlAppend(host, user, id, rest);
    PostUrlAppend(host, user, id, TrimEnd(rest));
    assert IsDigit(id[|id| - 1]);
    TrimAppend(p, rest);
  }

  /** A trimmed post URL still has the pattern's shape right after the scheme. */
  lemma TrimmedPostUrlShape(host: string, user: string, id: string, rest: string)
    requires FoldsTo(host, TwitterHost) || FoldsTo(host, XHost)
    requires |user| > 0 && AllWordChars(user)
    requires IsTweetId(id)
    requires rest == [] || !IsDigit(rest[0])
    ensures var t := Trim(PostUrl(host, user, id, rest));
      |t| >= 8 && t[..8] == "https://"
      && MatchShape(t, 8, 8 + |host|, 9 + |host| + |user|, id)
  {
    var kept := TrimEnd(rest);
    PostUrlTrim(host, user, id, rest);
    assert kept == [] || kept[0] == rest[0];
    PostUrlShape(host, user, id, kept);
  }

  /**
   * `https://<host>/<user>/status/<id><rest>` with the host `x.com` or
   * `twitter.com` in any case parses to `<id>`, whatever query string, other
   * non-digit text or trailing white space follows.
   */
  lemma PostUrlParses(host: string, user: string, id: string, rest: string)
    requires FoldsTo(host, TwitterHost) || FoldsTo(host, XHost)
    requires |user| > 0 && AllWordChars(user)
    requires IsTweetId(id)
    requires rest == [] || !IsDigit(rest[0])
    ensures ParseTweetId(Some(PostUrl(host, user, id, rest))) == Success(id)
  {
    TrimmedPostUrlShape(host, user, id, rest);
    SchemeUrlParses(PostUrl(host, user, id, rest), 8 + |host|, 9 + |host| + |user|, id);
  }

  /** `tweetUrl(username, tweetId)`: the post URL on the `x.com` host, with nothing after the ID. */
  function TweetUrl(username: string, tweetId: string): (u: string)
    ensures u == PostUrl(XHost, username, tweetId, "")
  {
    "https://x.com/" + username + "/status/" + tweetId
  }

  /** Parsing the URL built for a post gives back the post's ID. */
  lemma TweetUrlRoundTrip(username: string, tweetId: string)
    requires |username| > 0 && AllWordChars(username)
    requires IsTweetId(tweetId)
    ensures ParseTweetId(Some(TweetUrl(username, tweetId))) == Success(tweetId)
  {
    PostUrlParses(XHost, username, tweetId, "");
  }
}
