/**
 * bin/tweet-cli.mjs: the actions behind `whoami`, `post`, `reply`, `quote`
 * and `delete`, and the error report `handleError` prints.
 *
 * Each action is a method that returns what the process does: the calls it
 * makes (reading the credentials and the remote API requests, in order), the
 * lines it writes, and its exit status. The answers of the remote API are
 * parameters, so every possible answer is covered.
 */
module Cli {
  import opened Wrappers
  import opened Text
  import opened Client

  // ---------------------------------------------------------------------
  // Errors and their report
  // ---------------------------------------------------------------------

  /** The JavaScript values a status field carries: a number or a string. */
  datatype JsValue = Num(n: int) | Str(s: string)

  /** One entry of an `errors` array of the API's error payload. */
  datatype SubError = SubError(message: Option<string>, detail: Option<string>)

  /** The `data` payload of an API error. */
  datatype ErrorData = ErrorData(
    title: Option<string>,
    reason: Option<string>,
    detail: Option<string>,
    errors: Option<seq<SubError>>)

  /**
   * A thrown error as `handleError` sees it. Errors the client itself throws
   * carry only a message; errors of the API library may carry the rest.
   */
  datatype ErrorRecord = ErrorRecord(
    code: Option<JsValue>,
    statusCode: Option<JsValue>,
    data: Option<ErrorData>,
    errors: Option<seq<SubError>>,
    message: string,
    rateLimit: Option<int>)

  /** `new Error(message)`. */
  function PlainError(message: string): ErrorRecord
  {
    ErrorRecord(None, None, None, None, message, None)
  }

  /**
   * One write of the process. The reset time of a rate limit is written as
   * an ISO timestamp, whose rendering is not modelled: the line records the
   * raw reset value instead.
   */
  datatype Line = Stdout(text: string) | Stderr(text: string) | RateLimitNotice(reset: int)

  /** What `handleError` does: the lines it writes, then `process.exit(code)`. */
  datatype Report = Report(lines: seq<Line>, exitCode: int)

  const PermissionHint :=
    "\n" + "Hint: 403 usually means your app permissions are \"Read\" only.\n"
    + "Go to the X Developer Portal, set permissions to \"Read and write\",\n"
    + "then regenerate your Access Token and Secret."

  /** `${v}`. */
  function JsText(v: JsValue): string
  {
    match v
    case Num(n) => IntToString(n)
    case Str(s) => s
  }

  /** `err.code ?? err.statusCode ?? "unknown"`. */
  function StatusOf(err: ErrorRecord): (v: JsValue)
    ensures err.code.Some? ==> v == err.code.value
    ensures err.code.None? && err.statusCode.Some? ==> v == err.statusCode.value
    ensures err.code.None? && err.statusCode.None? ==> v == Str("unknown")
  {
    GetOr(OrElse(err.code, err.statusCode), Str("unknown"))
  }

  /** `err.data?.title ?? err.data?.reason ?? ""`. */
  function TitleOf(d: ErrorData): (t: string)
    ensures d.title.Some? ==> t == d.title.value
    ensures d.title.None? && d.reason.Some? ==> t == d.reason.value
    ensures d.title.None? && d.reason.None? ==> t == ""
  {
    GetOr(OrElse(d.title, d.reason), "")
  }

  /** `err.data?.detail ?? ""`. */
  function DetailOf(d: ErrorData): (t: string)
    ensures d.detail.Some? ==> t == d.detail.value
    ensures d.detail.None? ==> t == ""
  {
    GetOr(d.detail, "")
  }

  /** `err.data?.errors ?? err.errors ?? []`. */
  function SubErrorsOf(err: ErrorRecord, d: ErrorData): (es: seq<SubError>)
    ensures d.errors.Some? ==> es == d.errors.value
    ensures d.errors.None? && err.errors.Some? ==> es == err.errors.value
    ensures d.errors.None? && err.errors.None? ==> es == []
  {
    GetOr(OrElse(d.errors, err.errors), [])
  }

  /**
   * `e.message || e.detail`, then `filter(Boolean)`: the first non-empty of
   * the two, or nothing.
   */
  function SubMessage(e: SubError): (m: Option<string>)
    ensures m.Some? ==> m.value != ""
    ensures m.Some? <==> (e.message.Some? && e.message.value != "")
                         || (e.detail.Some? && e.detail.value != "")
    ensures e.message.Some? && e.message.value != "" ==> m == e.message
    ensures !(e.message.Some? && e.message.value != "") && e.detail.Some? && e.detail.value != ""
            ==> m == e.detail
  {
    if e.message.Some? && e.message.value != "" then e.message
    else if e.detail.Some? && e.detail.value != "" then e.detail
    else None
  }

  /** `errors.map((e) => e.message || e.detail).filter(Boolean)`. */
  function SubMessages(es: seq<SubError>): (ms: seq<string>)
    ensures |ms| <= |es|
    ensures forall j :: 0 <= j < |ms| ==> ms[j] != ""
    ensures ms == [] <==> forall i :: 0 <= i < |es| ==> SubMessage(es[i]).None?
  {
    if es == [] then []
    else
      (match SubMessage(es[0]) case Some(m) => [m] case None => [])
      + SubMessages(es[1..])
  }

  /** The map and the filter keep the order of the entries. */
  lemma {:induction false} SubMessagesAppend(a: seq<SubError>, b: seq<SubError>)
    ensures SubMessages(a + b) == SubMessages(a) + SubMessages(b)
  {
    if a == [] {
      assert a + b == b;
    } else {
      assert (a + b)[0] == a[0] && (a + b)[1..] == a[1..] + b;
      SubMessagesAppend(a[1..], b);
    }
  }

  /** The kept strings are exactly the entries' `message || detail` values. */
  lemma {:induction false} SubMessagesMembers(es: seq<SubError>, m: string)
    ensures m in SubMessages(es) <==> exists i :: 0 <= i < |es| && SubMessage(es[i]) == Some(m)
  {
    if es != [] {
      SubMessagesMembers(es[1..], m);
      if exists i :: 0 <= i < |es[1..]| && SubMessage(es[1..][i]) == Some(m) {
        var i :| 0 <= i < |es[1..]| && SubMessage(es[1..][i]) == Some(m);
        assert SubMessage(es[i + 1]) == Some(m);
      }
      if exists i :: 0 <= i < |es| && SubMessage(es[i]) == Some(m) {
        var i :| 0 <= i < |es| && SubMessage(es[i]) == Some(m);
        if i > 0 {
          assert SubMessage(es[1..][i - 1]) == Some(m);
        }
      }
    }
  }

  /** 1 if `b` holds, else 0. */
  function Count(b: bool): nat { if b then 1 else 0 }

  /**
   * The first line of a report of an API error: the status, then the title,
   * or the error's message when the title is empty.
   */
  function Headline(err: ErrorRecord, d: ErrorData): (h: string)
    ensures var status := JsText(StatusOf(err));
      var tail := if TitleOf(d) != "" then TitleOf(d) else err.message;
      |h| == 15 + |status| + |tail| && h[..12] == "Error (HTTP "
      && h[12..12 + |status|] == status && h[12 + |status|..15 + |status|] == "): "
      && h[15 + |status|..] == tail
  {
    var title := TitleOf(d);
    "Error (HTTP " + JsText(StatusOf(err)) + "): " + (if title != "" then title else err.message)
  }

  /**
   * The lines `handleError` writes for an error that carries `data`: the
   * status line first, and every line on standard error.
   */
  function ApiErrorLines(err: ErrorRecord, d: ErrorData): (ls: seq<Line>)
    ensures 1 <= |ls| <= 5 && ls[0] == Stderr(Headline(err, d))
    ensures forall k :: 0 <= k < |ls| ==> !ls[k].Stdout?
  {
    var detail := DetailOf(d);
    var messages := SubMessages(SubErrorsOf(err, d));
    var withDetail := [Stderr(Headline(err, d))]
      + (if detail != "" then [Stderr("  Detail: " + detail)] else []);
    var withMessages := withDetail
      + (if messages != [] then [Stderr("  " + Join(messages, "; "))] else []);
    assert forall k :: 0 <= k < |withMessages| ==> !withMessages[k].Stdout?;
    var withHint := withMessages
      + (if StatusOf(err) == Num(403) then [Stderr(PermissionHint)] else []);
    assert forall k :: 0 <= k < |withHint| ==> !withHint[k].Stdout?;
    withHint + (match err.rateLimit case Some(reset) => [RateLimitNotice(reset)] case None => [])
  }

  /**
   * `handleError(err)`: without `data`, one line with the message; always
   * exit status 1, and nothing on standard output.
   */
  function HandleError(err: ErrorRecord): (r: Report)
    ensures r.exitCode == 1
    ensures forall k :: 0 <= k < |r.lines| ==> !r.lines[k].Stdout?
    ensures err.data.None? ==> r.lines == [Stderr("Error: " + err.message)]
    ensures err.data.Some? ==> |r.lines| >= 1 && r.lines[0] == Stderr(Headline(err, err.data.value))
  {
    match err.data
    case None => Report([Stderr("Error: " + err.message)], 1)
    case Some(d) => Report(ApiErrorLines(err, d), 1)
  }

  /**
   * With `data`: after the status line, a Detail line only for a non-empty
   * detail, then one line of the non-empty sub-messages joined by "; " only
   * if there is one, then the permission hint and the rate-limit line.
   */
  lemma HandleErrorLayout(err: ErrorRecord)
    requires err.data.Some?
    ensures var r := HandleError(err);
      var d := err.data.value;
      var detail := DetailOf(d);
      var messages := SubMessages(SubErrorsOf(err, d));
      && |r.lines| == 1 + Count(detail != "") + Count(messages != [])
                     + Count(StatusOf(err) == Num(403)) + Count(err.rateLimit.Some?)
      && (detail != "" ==> r.lines[1] == Stderr("  Detail: " + detail))
      && (messages != [] ==>
            r.lines[1 + Count(detail != "")] == Stderr("  " + Join(messages, "; ")))
      && (err.rateLimit.Some? ==> r.lines[|r.lines| - 1] == RateLimitNotice(err.rateLimit.value))
  {
  }

  /** The permission hint is written exactly when the status is the number 403. */
  lemma PermissionHintIff(err: ErrorRecord)
    ensures Stderr(PermissionHint) in HandleError(err).lines
            <==> err.data.Some? && StatusOf(err) == Num(403)
  {
    assert PermissionHint[0] == '\n';
    if err.data.Some? {
      var d := err.data.value;
      var lines := ApiErrorLines(err, d);
      var detail := DetailOf(d);
      var messages := SubMessages(SubErrorsOf(err, d));
      assert Headline(err, d)[0] == 'E';
      assert ("  Detail: " + detail)[0] == ' ';
      assert ("  " + Join(messages, "; "))[0] == ' ';
    }
  }

  /** A rate-limit line is written exactly when an API error carries rate-limit data. */
  lemma RateLimitLineIff(err: ErrorRecord)
    ensures (exists k :: 0 <= k < |HandleError(err).lines| && HandleError(err).lines[k].RateLimitNotice?)
            <==> err.data.Some? && err.rateLimit.Some?
  {
    var lines := HandleError(err).lines;
    if err.data.Some? && err.rateLimit.Some? {
      HandleErrorLayout(err);
      assert lines[|lines| - 1].RateLimitNotice?;
    }
  }

  /** `??` stops at an empty title: the reason is not consulted, and the message is used. */
  lemma EmptyTitleFallsBackToMessage(err: ErrorRecord)
    requires err.data.Some? && err.data.value.title == Some("")
    ensures Headline(err, err.data.value)
      == "Error (HTTP " + JsText(StatusOf(err)) + "): " + err.message
  {
  }

  /**
   * A status given as the string "403" reads the same in the status line as
   * the number 403, but does not bring the permission hint.
   */
  lemma StringStatusGetsNoHint(err: ErrorRecord)
    requires err.data.Some? && err.code == Some(Str("403"))
    ensures Headline(err, err.data.value) == Headline(err.(code := Some(Num(403))), err.data.value)
    ensures Stderr(PermissionHint) !in HandleError(err).lines
    ensures Stderr(PermissionHint) in HandleError(err.(code := Some(Num(403)))).lines
  {
    assert NatToString(4) == "4";
    assert NatToString(40) == "40";
    assert NatToString(403) == "403";
    PermissionHintIff(err);
    PermissionHintIff(err.(code := Some(Num(403))));
  }

  // ---------------------------------------------------------------------
  // The actions
  // ---------------------------------------------------------------------

  /** A step of an action: reading the credentials, or one request to the API. */
  datatype Call =
    | LoadCredentials
    | FetchMe
    | CreatePost(text: string)
    | CreateReply(text: string, inReplyTo: string)
    | CreateQuote(text: string, quoted: string)
    | DeletePost(id: string)

  /** The answer to a request: its result, or the error it throws. */
  datatype ApiResult<T> = Returned(value: T) | Rejected(error: ErrorRecord)

  datatype Metrics = Metrics(followers: nat, following: nat, tweets: nat)

  /** The authenticated user as `client.v2.me` returns it. */
  datatype User = User(username: string, name: string, id: string, metrics: Option<Metrics>)

  /** What an action did: its steps in order, the lines it wrote, its exit status. */
  datatype Outcome = Outcome(calls: seq<Call>, lines: seq<Line>, exitCode: int)

  /** The action threw `err` after the steps `calls`; `handleError` reports it. */
  function Aborted(calls: seq<Call>, err: ErrorRecord): (o: Outcome)
    ensures o.calls == calls && o.exitCode == 1
    ensures forall k :: 0 <= k < |o.lines| ==> !o.lines[k].Stdout?
  {
    Outcome(calls, HandleError(err).lines, HandleError(err).exitCode)
  }

  /** An error the client throws itself is reported as one line, "Error: " and its message. */
  lemma PlainErrorReport(message: string)
    ensures HandleError(PlainError(message)) == Report([Stderr("Error: " + message)], 1)
  {
  }

  /** The error `createClient` throws for missing credentials. */
  function ConfigFailure(e: ConfigError): ErrorRecord
  {
    PlainError(ConfigErrorMessage(e))
  }

  /** The error `parseTweetId` throws. */
  function ParseFailure(e: ParseError): ErrorRecord
  {
    PlainError(ParseErrorMessage(e))
  }

  /**
   * The metrics line of `whoami`: the three counts in decimal, in this order,
   * each after a label of fixed length.
   */
  function MetricsLine(m: Metrics): (l: string)
    ensures var f := NatToString(m.followers);
      var g := NatToString(m.following);
      var t := NatToString(m.tweets);
      |l| == 38 + |f| + |g| + |t| && l[13..13 + |f|] == f
      && l[27 + |f|..27 + |f| + |g|] == g && l[38 + |f| + |g|..] == t
  {
    "  Followers: " + NatToString(m.followers) + " | Following: " + NatToString(m.following)
    + " | Tweets: " + NatToString(m.tweets)
  }

  /** `whoami`: read the credentials, fetch the user, print who it is. */
  method Whoami(env: Env, me: ApiResult<User>) returns (o: Outcome)
    ensures CreateClient(env).Failure? ==>
      o == Aborted([LoadCredentials], ConfigFailure(CreateClient(env).error))
    ensures CreateClient(env).Success? ==> |o.calls| == 2 && o.calls == [LoadCredentials, FetchMe]
    ensures CreateClient(env).Success? && me.Rejected? ==>
      o == Aborted([LoadCredentials, FetchMe], me.error)
    ensures CreateClient(env).Success? && me.Returned? ==>
      var u := me.value;
      && o.exitCode == 0
      && |o.lines| == 2 + Count(u.metrics.Some?)
      && o.lines[0] == Stdout("@" + u.username + " (" + u.name + ")")
      && o.lines[1] == Stdout("  ID: " + u.id)
      && (u.metrics.Some? ==> o.lines[2] == Stdout(MetricsLine(u.metrics.value)))
    ensures o.exitCode == 0 <==> CreateClient(env).Success? && me.Returned?
  {
    var client := CreateClient(env);
    if client.Failure? {
      return Aborted([LoadCredentials], ConfigFailure(client.error));
    }
    var calls := [LoadCredentials, FetchMe];
    if me.Rejected? {
      return Aborted(calls, me.error);
    }
    var u := me.value;
    var lines := [Stdout("@" + u.username + " (" + u.name + ")"), Stdout("  ID: " + u.id)];
    if u.metrics.Some? {
      lines := lines + [Stdout(MetricsLine(u.metrics.value))];
    }
    o := Outcome(calls, lines, 0);
  }

  /**
   * `post <text>`: refuse blank text before anything else, then read the
   * credentials, fetch the user, create the post and print its URL.
   */
  method Post(text: string, env: Env, me: ApiResult<User>, posted: ApiResult<string>)
    returns (o: Outcome)
    ensures Trim(text) == "" ==> o == Aborted([], PlainError("Tweet text cannot be empty."))
    ensures Trim(text) != "" && CreateClient(env).Failure? ==>
      o == Aborted([LoadCredentials], ConfigFailure(CreateClient(env).error))
    ensures Trim(text) != "" && CreateClient(env).Success? && me.Rejected? ==>
      o == Aborted([LoadCredentials, FetchMe], me.error)
    ensures Trim(text) != "" && CreateClient(env).Success? && me.Returned? && posted.Rejected? ==>
      o == Aborted([LoadCredentials, FetchMe, CreatePost(text)], posted.error)
    ensures Trim(text) != "" && CreateClient(env).Success? && me.Returned? && posted.Returned? ==>
      o == Outcome([LoadCredentials, FetchMe, CreatePost(text)],
                   [Stdout("Posted: " + TweetUrl(me.value.username, posted.value))], 0)
    ensures o.exitCode == 0 <==>
      Trim(text) != "" && CreateClient(env).Success? && me.Returned? && posted.Returned?
  {
    if Trim(text) == "" {
      return Aborted([], PlainError("Tweet text cannot be empty."));
    }
    var client := CreateClient(env);
    if client.Failure? {
      return Aborted([LoadCredentials], ConfigFailure(client.error));
    }
    if me.Rejected? {
      return Aborted([LoadCredentials, FetchMe], me.error);
    }
    var calls := [LoadCredentials, FetchMe, CreatePost(text)];
    if posted.Rejected? {
      return Aborted(calls, posted.error);
    }
    var url := TweetUrl(me.value.username, posted.value);
    o := Outcome(calls, [Stdout("Posted: " + url)], 0);
  }

  /**
   * `reply <tweetIdOrUrl> <text>`: refuse blank text, then parse the target,
   * and only then read the credentials; an invalid target is reported even
   * when credentials are missing.
   */
  method Reply(target: string, text: string, env: Env, me: ApiResult<User>, posted: ApiResult<string>)
    returns (o: Outcome)
    ensures Trim(text) == "" ==> o == Aborted([], PlainError("Reply text cannot be empty."))
    ensures Trim(text) != "" && ParseTweetId(Some(target)).Failure? ==>
      o == Aborted([], ParseFailure(ParseTweetId(Some(target)).error))
    ensures Trim(text) != "" && ParseTweetId(Some(target)).Success? ==>
      var id := ParseTweetId(Some(target)).value;
      && (CreateClient(env).Failure? ==>
            o == Aborted([LoadCredentials], ConfigFailure(CreateClient(env).error)))
      && (CreateClient(env).Success? && me.Rejected? ==>
            o == Aborted([LoadCredentials, FetchMe], me.error))
      && (CreateClient(env).Success? && me.Returned? && posted.Rejected? ==>
            o == Aborted([LoadCredentials, FetchMe, CreateReply(text, id)], posted.error))
      && (CreateClient(env).Success? && me.Returned? && posted.Returned? ==>
            o == Outcome([LoadCredentials, FetchMe, CreateReply(text, id)],
                         [Stdout("Replied: " + TweetUrl(me.value.username, posted.value))], 0))
    ensures o.exitCode == 0 <==>
      Trim(text) != "" && ParseTweetId(Some(target)).Success? && CreateClient(env).Success?
      && me.Returned? && posted.Returned?
  {
    if Trim(text) == "" {
      return Aborted([], PlainError("Reply text cannot be empty."));
    }
    var parsed := ParseTweetId(Some(target));
    if parsed.Failure? {
      return Aborted([], ParseFailure(parsed.error));
    }
    var replyToId := parsed.value;
    var client := CreateClient(env);
    if client.Failure? {
      return Aborted([LoadCredentials], ConfigFailure(client.error));
    }
    if me.Rejected? {
      return Aborted([LoadCredentials, FetchMe], me.error);
    }
    var calls := [LoadCredentials, FetchMe, CreateReply(text, replyToId)];
    if posted.Rejected? {
      return Aborted(calls, posted.error);
    }
    var url := TweetUrl(me.value.username, posted.value);
    o := Outcome(calls, [Stdout("Replied: " + url)], 0);
  }

  /**
   * `quote <tweetIdOrUrl> <text>`: the same order of checks as `reply`; the
   * new post carries the quoted ID.
   */
  method Quote(target: string, text: string, env: Env, me: ApiResult<User>, posted: ApiResult<string>)
    returns (o: Outcome)
    ensures Trim(text) == "" ==> o == Aborted([], PlainError("Quote text cannot be empty."))
    ensures Trim(text) != "" && ParseTweetId(Some(target)).Failure? ==>
      o == Aborted([], ParseFailure(ParseTweetId(Some(target)).error))
    ensures Trim(text) != "" && ParseTweetId(Some(target)).Success? ==>
      var id := ParseTweetId(Some(target)).value;
      && (CreateClient(env).Failure? ==>
            o == Aborted([LoadCredentials], ConfigFailure(CreateClient(env).error)))
      && (CreateClient(env).Success? && me.Rejected? ==>
            o == Aborted([LoadCredentials, FetchMe], me.error))
      && (CreateClient(env).Success? && me.Returned? && posted.Rejected? ==>
            o == Aborted([LoadCredentials, FetchMe, CreateQuote(text, id)], posted.error))
      && (CreateClient(env).Success? && me.Returned? && posted.Returned? ==>
            o == Outcome([LoadCredentials, FetchMe, CreateQuote(text, id)],
                         [Stdout("Quoted: " + TweetUrl(me.value.username, posted.value))], 0))
    ensures o.exitCode == 0 <==>
      Trim(text) != "" && ParseTweetId(Some(target)).Success? && CreateClient(env).Success?
      && me.Returned? && posted.Returned?
  {
    if Trim(text) == "" {
      return Aborted([], PlainError("Quote text cannot be empty."));
    }
    var parsed := ParseTweetId(Some(target));
    if parsed.Failure? {
      return Aborted([], ParseFailure(parsed.error));
    }
    var quotedId := parsed.value;
    var client := CreateClient(env);
    if client.Failure? {
      return Aborted([LoadCredentials], ConfigFailure(client.error));
    }
    if me.Rejected? {
      return Aborted([LoadCredentials, FetchMe], me.error);
    }
    var calls := [LoadCredentials, FetchMe, CreateQuote(text, quotedId)];
    if posted.Rejected? {
      return Aborted(calls, posted.error);
    }
    var url := TweetUrl(me.value.username, posted.value);
    o := Outcome(calls, [Stdout("Quoted: " + url)], 0);
  }

  /**
   * `delete <tweetIdOrUrl>`: parse the target before reading the credentials,
   * request the deletion, and print a confirmation only if the answer says
   * `deleted`; otherwise write a failure line and exit 1 without going through
   * `handleError`. `deleted` is `data?.deleted` of the answer (None when absent).
   */
  method Delete(target: string, env: Env, deleted: ApiResult<Option<bool>>) returns (o: Outcome)
    ensures ParseTweetId(Some(target)).Failure? ==>
      o == Aborted([], ParseFailure(ParseTweetId(Some(target)).error))
    ensures ParseTweetId(Some(target)).Success? ==>
      var id := ParseTweetId(Some(target)).value;
      && (CreateClient(env).Failure? ==>
            o == Aborted([LoadCredentials], ConfigFailure(CreateClient(env).error)))
      && (CreateClient(env).Success? && deleted.Rejected? ==>
            o == Aborted([LoadCredentials, DeletePost(id)], deleted.error))
      && (CreateClient(env).Success? && deleted.Returned? ==>
            (deleted.value == Some(true) ==>
               o == Outcome([LoadCredentials, DeletePost(id)], [Stdout("Deleted: " + id)], 0))
            && (deleted.value != Some(true) ==>
                  o == Outcome([LoadCredentials, DeletePost(id)],
                               [Stderr("Failed to delete tweet " + id + ".")], 1)))
    ensures o.exitCode == 0 <==>
      ParseTweetId(Some(target)).Success? && CreateClient(env).Success?
      && deleted == Returned(Some(true))
  {
    var parsed := ParseTweetId(Some(target));
    if parsed.Failure? {
      return Aborted([], ParseFailure(parsed.error));
    }
    var tweetId := parsed.value;
    var client := CreateClient(env);
    if client.Failure? {
      return Aborted([LoadCredentials], ConfigFailure(client.error));
    }
    var calls := [LoadCredentials, DeletePost(tweetId)];
    if deleted.Rejected? {
      return Aborted(calls, deleted.error);
    }
    if deleted.value == Some(true) {
      o := Outcome(calls, [Stdout("Deleted: " + tweetId)], 0);
    } else {
      o := Outcome(calls, [Stderr("Failed to delete tweet " + tweetId + ".")], 1);
    }
  }
}
