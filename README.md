# tweet-cli, modelled in Dafny

`tweet-cli` is a small command-line client that posts, replies to, quotes and
deletes posts on X (formerly Twitter) through the platform's v2 API,
authenticating with four OAuth 1 secrets read from the environment. This
project models the parts of it with behaviour of their own:

- `wrappers.dfy` — `Option`/`Result`, and JavaScript `??` on optional values.
- `text.dfy` — the JavaScript string behaviour the client relies on:
  `String.prototype.trim` (ECMAScript white space and line terminators), the
  regular-expression classes `\d` and `\w`, ASCII case folding, `join`, and the
  decimal text of integral numbers.
- `client.dfy` (lib/client.mjs) — the credential check of `createClient` over an
  environment map; `parseTweetId`, with the pattern
  `/(?:twitter\.com|x\.com)\/\w+\/status\/(\d+)/i` written out as a leftmost
  search (`MatchAt` tried at each index in turn by `FirstHit`, in `Search`) and proved equal to a declarative reading of
  the pattern (`MatchShape`, `MatchesAt`, `IsLeftmostMatch`); and `tweetUrl`.
- `cli.dfy` (bin/tweet-cli.mjs) — `handleError` as a function from an error
  record to the lines it writes and exit status 1, and the five actions
  (`whoami`, `post`, `reply`, `quote`, `delete`) as methods. Each method takes
  the remote API's answers as parameters. It returns the steps taken in order
  (reading the credentials, each API request), the lines written to standard
  output or standard error, and the exit status.

Output is one `Line` per `console.log`/`console.error` call; a line's text may
contain newlines, as the thrown messages do. The input of `parseTweetId` is an
`Option<string>`; `None` stands for `undefined`. The actions always pass a
string.

An empty identifier and a whitespace-only one fail with different errors. An
empty input throws "Tweet ID or URL is required." before trimming. A
whitespace-only input passes that check and throws "Invalid tweet ID or URL:
""" after trimming (`WhitespaceOnlyIsInvalid`).

## Model

| member | source | states |
|---|---|---|
| `Wrappers.OrElse` | bin/tweet-cli.mjs:134-137 | `a ?? b` is `a` whenever `a` is present (even the empty string), otherwise `b` |
| `Wrappers.GetOr` | bin/tweet-cli.mjs:134-137 | `a ?? fallback` gives the present value, or the fallback only when absent |
| `Text.IsDigit` | lib/client.mjs:71-77 | `\d` without the `u` flag: the ASCII digits `0`-`9` (a definition) |
| `Text.IsWordChar` | lib/client.mjs:77 | `\w` without the `u` flag: ASCII letters, digits and `_` (a definition) |
| `Text.IsJsSpace` | lib/client.mjs:68 | the characters `trim` removes: ECMAScript white space and line terminators; none of them is a `\w` character |
| `Text.AsciiLower` | lib/client.mjs:77 | when compared against this pattern's ASCII characters, the `i` flag folds exactly the letters A-Z, each onto its lower-case letter, and leaves every other character as it is |
| `Text.SkipSpace` | lib/client.mjs:68 | the scan from `i` stops at the first character that is not white space, or at the end, and passes only white space |
| `Text.SkipSpaceBack` | lib/client.mjs:68 | the scan back from `j` stops just after the last character that is not white space, or at its lower bound, and passes only white space |
| `Text.TrimEnd` | lib/client.mjs:68 | the result is a prefix of the input, everything dropped is white space, and it does not end with white space |
| `Text.Trim` | lib/client.mjs:68 | the result is a contiguous piece of the input with only white space around it, has no white space at either end, and is empty exactly when the input is all white space |
| `Text.TrimUnchanged` | lib/client.mjs:68 | a string without white space at its ends is left unchanged by trim |
| `Text.SkipSpaceBackAppend` | lib/client.mjs:68 | scanning back over `a + b`, where `a` does not end in white space, stops inside `b` where the scan of `b` alone stops, or at its start |
| `Text.TrimAppend` | lib/client.mjs:68 | trimming `a + b`, where `a` has no white space at its ends, keeps `a` whole and drops only the trailing white space of `b` |
| `Text.Join` | lib/client.mjs:42 | joining no parts gives the empty string; otherwise the result has the parts' total length plus one separator between each two parts, and starts with the first part |
| `Text.JoinAppend` | lib/client.mjs:42 | joining one more part appends the separator and that part, so the parts appear in order with one separator between neighbours |
| `Text.NatToString` | bin/tweet-cli.mjs:140 | the decimal text of a number is a non-empty digit string without a leading zero |
| `Text.NatToStringRoundTrip` | bin/tweet-cli.mjs:140 | reading the decimal text back gives the number |
| `Text.IntToString` | bin/tweet-cli.mjs:140 | the decimal text of an integer starts with `-` exactly when it is negative, followed by digits with no leading zero (a lone `0` only for zero) that read back as its absolute value |
| `Client.MissingVars` | lib/client.mjs:39 | the filter keeps at most the given keys, each of them unset or empty in the environment |
| `Client.MissingVarsMembers` | lib/client.mjs:39 | a key is reported as missing exactly when it is required and absent or empty |
| `Client.MissingVarsAppend` | lib/client.mjs:39 | the filter distributes over concatenation, so the missing keys keep their declared order |
| `Client.MissingVarsAll` | lib/client.mjs:39 | with none of the keys set, all of them are reported in order |
| `Client.IsSet` | lib/client.mjs:39 | `process.env[v]` is truthy: the key is present and its value is not the empty string (a definition) |
| `Client.CreateClient` | lib/client.mjs:39-53 | fails exactly when one of the four variables is absent or empty, listing the missing ones in order; otherwise yields exactly the four environment values, all non-empty |
| `Client.ConfigErrorMessage` | lib/client.mjs:41-45 | the message is "Missing credentials: ", the missing names joined by ", ", a newline, then the two hint lines "Set them in ~/.config/tweet-cli/.env or as environment variables." and "See: tweet-cli --help" |
| `Client.RequiredVarsJoined` | lib/client.mjs:42 | the four names joined by ", " in declared order |
| `Client.AllFourMessage` | lib/client.mjs:41-45 | with all four names missing, the message is the full text naming them in declared order |
| `Client.NothingSetListsAllFour` | lib/client.mjs:39-46 | with no credential set, the error names all four variables and the message is the full text |
| `Client.RunEnd` | lib/client.mjs:77 | the index reached is the end of the longest run of matching characters (`\w+`, `\d+`) |
| `Client.RunEndUnique` | lib/client.mjs:77 | any index that closes a maximal run is the one the run search finds |
| `Client.IsTweetId` | lib/client.mjs:71 | `/^\d+$/.test`: non-empty and ASCII digits only (a definition) |
| `Client.FoldedAt` | lib/client.mjs:77 | the `i` flag comparing a lower-case literal at an index: it fits, and each character folds onto the literal's (a definition) |
| `Client.HostEnd` | lib/client.mjs:77 | a host alternative matched at `i` ends after `i`, within the string |
| `Client.HostEndSound` | lib/client.mjs:77 | where the host search stops, `twitter.com` or `x.com` (in any case) spans exactly the text before it |
| `Client.HostEndComplete` | lib/client.mjs:77 | wherever a host (in any case) spans `[i, a)`, the host search stops at `a`: the two alternatives never both match |
| `Client.PathAt` | lib/client.mjs:77 | the rest of an attempt lies within the string and captures a non-empty digit string |
| `Client.PathAtSound` | lib/client.mjs:77 | what the rest of an attempt captures follows `/`, a word-character user, `/status/` (in any case), and is a digit run not followed by a digit |
| `Client.PathAtComplete` | lib/client.mjs:77 | every text of that shape after the host is matched, with that capture |
| `Client.MatchAt` | lib/client.mjs:76-78 | a match attempt at `i` lies within the string and captures a non-empty digit string |
| `Client.MatchAtSound` | lib/client.mjs:76-78 | what an attempt captures has the shape host, `/`, word characters, `/status/`, maximal digit run |
| `Client.MatchAtComplete` | lib/client.mjs:76-78 | every text of that shape at `i` is matched there, with that capture |
| `Client.MatchAtIff` | lib/client.mjs:76-78 | the attempt and the declarative reading of the pattern agree in both directions |
| `Client.FirstHitAt` | lib/client.mjs:76-78 | the left-to-right scan returns the attempt at the first start index that succeeds |
| `Client.FirstHit` | lib/client.mjs:76-78 | whatever the left-to-right scan returns lies in the range and is the capture of a successful attempt at that index |
| `Client.FirstHitIsFirst` | lib/client.mjs:76-78 | every attempt before the index the scan returns fails |
| `Client.FirstHitNone` | lib/client.mjs:76-78 | the scan finds nothing exactly when every attempt in range fails |
| `Client.NoMatchBetweenIff` | lib/client.mjs:76-78 | "the pattern matches nowhere in a range" and "every attempt in the range fails" are the same |
| `Client.Search` | lib/client.mjs:76-80 | every capture the search returns is a non-empty digit string |
| `Client.SearchIsLeftmost` | lib/client.mjs:76-81 | the search returns `d` exactly when `d` is the capture of the leftmost match |
| `Client.SearchIsEmpty` | lib/client.mjs:76-81 | the search finds nothing exactly when the pattern matches nowhere |
| `Client.ParseErrorMessage` | lib/client.mjs:65-86 | "required" has its fixed text; "invalid" is "Invalid tweet ID or URL: ", the trimmed input in double quotes, a newline, then "Expected a numeric ID or a URL like https://x.com/user/status/123456" |
| `Client.ParseTweetId` | lib/client.mjs:63-87 | a falsy input, and only that, gives "required"; every success is a non-empty digit string; every other failure is "invalid" with the trimmed input |
| `Client.NumericIdUnchanged` | lib/client.mjs:68-73 | a trimmed input of digits only is returned as the trimmed string |
| `Client.UrlIdIsLeftmostCapture` | lib/client.mjs:75-81 | otherwise the result is `d` exactly when `d` is the capture of the leftmost match in the trimmed input |
| `Client.ParsedBySearch` | lib/client.mjs:75-81 | a non-empty input whose trim is not all digits parses to what the search finds in the trim |
| `Client.InvalidIffNoMatch` | lib/client.mjs:68-86 | a non-empty input is invalid exactly when its trim is not all digits and the pattern matches nowhere in it |
| `Client.WhitespaceOnlyIsInvalid` | lib/client.mjs:63-86 | white space alone passes the falsy check and fails as an invalid ID with an empty trimmed text |
| `Client.NoMatchInScheme` | lib/client.mjs:58-61 | no match starts inside a leading `https://` |
| `Client.SearchAfterScheme` | lib/client.mjs:58-61 | a match right after a leading `https://` is the one the search returns |
| `Client.SchemeUrlParses` | lib/client.mjs:58-61 | an input whose trim starts with `https://` followed by text of the pattern's shape parses to that text's capture |
| `Client.PostUrlPieces` | lib/client.mjs:58-61 | where the scheme, host, user, `/status/`, ID and trailing text lie in a post URL |
| `Client.FoldedAtCopy` | lib/client.mjs:77 | a copy of a host written in any case matches the host literal case-insensitively |
| `Client.PostUrlShape` | lib/client.mjs:58-61 | a post URL has the pattern's shape at index 8, right after the scheme |
| `Client.PostUrlAppend` | lib/client.mjs:58-61 | a post URL with trailing text is the bare post URL followed by that text; it starts with `h` and ends with the ID's last digit |
| `Client.PostUrlTrim` | lib/client.mjs:68 | trimming a post URL drops only the trailing white space of the text after the ID |
| `Client.TrimmedPostUrlShape` | lib/client.mjs:58-68 | a trimmed post URL still starts with `https://` and has the pattern's shape right after it |
| `Client.PostUrlParses` | lib/client.mjs:58-61 | `https://<x.com or twitter.com in any case>/<user>/status/<id><rest>` parses to `<id>` whenever the rest is empty or starts with a non-digit; trailing white space is allowed |
| `Client.TweetUrl` | lib/client.mjs:92-94 | the URL is `https://x.com/`, the username, `/status/` and the ID, with nothing after it |
| `Client.TweetUrlRoundTrip` | lib/client.mjs:92-94 | parsing `tweetUrl(user, id)` gives back `id` for every word-character user and digit id |
| `Cli.SubMessage` | bin/tweet-cli.mjs:138 | `message \|\| detail` keeps a non-empty message, else a non-empty detail, else nothing; each of the three cases is stated |
| `Cli.SubMessages` | bin/tweet-cli.mjs:138 | the kept sub-messages are all non-empty, at most one per entry, and there are none exactly when no entry has a non-empty message or detail |
| `Cli.SubMessagesAppend` | bin/tweet-cli.mjs:138 | the map and filter keep the entries' order |
| `Cli.SubMessagesMembers` | bin/tweet-cli.mjs:138 | a string is kept exactly when some entry's `message \|\| detail` is that string |
| `Cli.StatusOf` | bin/tweet-cli.mjs:134 | `code`, else `statusCode`, else "unknown": the first one present, even a falsy one |
| `Cli.TitleOf` | bin/tweet-cli.mjs:135 | `data.title`, else `data.reason`, else the empty string |
| `Cli.DetailOf` | bin/tweet-cli.mjs:136 | `data.detail`, else the empty string |
| `Cli.SubErrorsOf` | bin/tweet-cli.mjs:137 | `data.errors`, else `err.errors`, else no entries |
| `Cli.Headline` | bin/tweet-cli.mjs:140 | "Error (HTTP ", the status text, "): ", then the title when it is non-empty and the message otherwise |
| `Cli.ApiErrorLines` | bin/tweet-cli.mjs:133-155 | one to five lines, the first being the status line, none on standard output |
| `Cli.HandleError` | bin/tweet-cli.mjs:131-159 | exit status is always 1 and nothing goes to standard output; without `data` the only line is "Error: <message>"; with `data` the first line is the status line |
| `Cli.HandleErrorLayout` | bin/tweet-cli.mjs:133-155 | with `data`: a Detail line only for a non-empty detail, one "; "-joined line only if a sub-message remains, then the hint and rate-limit lines; the line count says which are present |
| `Cli.PermissionHintIff` | bin/tweet-cli.mjs:145-151 | the permission hint is written exactly when the error has `data` and its status is the number 403 |
| `Cli.RateLimitLineIff` | bin/tweet-cli.mjs:152-155 | a rate-limit line is written exactly when an error with `data` carries rate-limit data |
| `Cli.EmptyTitleFallsBackToMessage` | bin/tweet-cli.mjs:135-140 | an empty title stops `??` (the reason is not used) and the status line shows the message |
| `Cli.StringStatusGetsNoHint` | bin/tweet-cli.mjs:134-151 | a status given as the string "403" prints the same status line as the number 403 but brings no hint, while the number does |
| `Cli.JsText` | bin/tweet-cli.mjs:140 | `${status}`: a number as its decimal text, a string as itself (a definition) |
| `Cli.PlainError` | bin/tweet-cli.mjs:51 | `new Error(message)`: only a message, no `data` (a definition) |
| `Cli.PlainErrorReport` | bin/tweet-cli.mjs:156-159 | an error the client throws itself is reported as the single line "Error: <message>" on standard error, with exit status 1 |
| `Cli.ConfigFailure` | lib/client.mjs:41-45 | the error `createClient` throws carries the missing-credentials message (a definition) |
| `Cli.ParseFailure` | lib/client.mjs:65-86 | the error `parseTweetId` throws carries its message (a definition) |
| `Cli.Aborted` | bin/tweet-cli.mjs:38-39 | an action that throws keeps the steps taken so far, exits with status 1 and writes nothing to standard output |
| `Cli.MetricsLine` | bin/tweet-cli.mjs:33-36 | the line holds the follower, following and post counts in decimal, in that order, at fixed places between the labels |
| `Cli.Whoami` | bin/tweet-cli.mjs:21-41 | missing credentials or a failed request are reported by `handleError`; on success "@user (name)", the ID line and a metrics line exactly when metrics are present; exit 0 exactly on success |
| `Cli.Post` | bin/tweet-cli.mjs:45-61 | blank text fails before any step; then credentials, user, post in that order, each failure reported by `handleError`; success prints "Posted: " and the post URL; exit 0 exactly on success |
| `Cli.Reply` | bin/tweet-cli.mjs:65-82 | blank text, then an invalid target, fail before any step (whatever the credentials); then credentials, user, reply to the parsed ID; success prints "Replied: " and the URL |
| `Cli.Quote` | bin/tweet-cli.mjs:86-106 | same order as reply, the new post quoting the parsed ID; success prints "Quoted: " and the URL |
| `Cli.Delete` | bin/tweet-cli.mjs:110-127 | an invalid target fails before the credentials are read; "Deleted: <id>" exactly when the answer says deleted; otherwise "Failed to delete tweet <id>." on standard error with exit 1, not through `handleError` |

## Left out

- Loading of the two `.env` files (`loadEnv`, lib/client.mjs:20-30): file access and the no-override rule live in the dotenv library, which is not part of this model; the environment after loading is a parameter.
- The `TwitterApi` client and its `v2` requests: network I/O. Their answers are parameters (`ApiResult`), and the model records the request made, not what the server does with it.
- Argument parsing by commander, `--version`/`--help` and reading `package.json`: command-line plumbing.
- The ISO rendering of the rate-limit reset time (`new Date(...).toISOString()`): library date formatting. The model writes a `RateLimitNotice` line carrying the raw reset value, then exits with status 1.
- `Cli.HandleError`: a reset outside the range `Date` accepts raises a `RangeError` in `toISOString`. That covers a reset that is not a number, and also a number of more than 8.64 * 10^12 seconds either side of 1970. Then the notice is not written and `process.exit(1)` (bin/tweet-cli.mjs:159) is never reached. The model's `rateLimit` holds any integer and always writes the notice and exits with 1.
- JavaScript values other than the ones modelled: `parseTweetId` gets a string or `undefined`; a status is an integer or a string; message fields are strings. Numbers are unbounded integers, with no floating point.
- `Text.IntToString`, `Text.NatToString`: a number of 10^21 or more in absolute value (a status or a metrics count) is printed as plain digits. JavaScript prints it in exponent notation (`1e+21`).
- The answers of `me` and of the post requests without `data` are not modelled. With such an answer, `me.data.username` or `result.data.id` throws a `TypeError`. The `delete` answer without `data` is modelled: `result.data?.deleted` is then `undefined` (`None`) and the failure branch runs.
- Strings are sequences of Unicode scalar values, not UTF-16 code units. Lone surrogates cannot be expressed. Every comparison here is against ASCII or BMP characters, so nothing else differs.
- `async`/`await` sequencing: each action runs its steps strictly one after another, which is the order the model records.
