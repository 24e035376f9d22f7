# GitHub review-request notifier — a verified model

The program polls GitHub for open pull requests on which a review has been
requested from one user and forwards a summary to a Telegram chat. It runs a
check at startup and again after every 4-hour tick. A check outside 09:00–21:00
local (Europe/Madrid) time is skipped. This project models the decisions and
texts of that loop as Dafny functions over everything the I/O would have
supplied, and proves what they promise:

- `config.dfy` (`Config`): the startup check on the environment values.
- `github.dfy` (`GitHub`, the fetcher): the search query, the optional
  `Authorization` header, and the classification of what comes back (request
  error, client error, non-200 status, decode failure, items).
- `telegram.dfy` (`Telegram`, the notifier): the `sendMessage` request and the
  success/error decision on its reply.
- `message.dfy` (`Message`): the notification text. It is a recursive
  specification, the step-by-step loop proved equal to it, and a parser
  proved to be its inverse.
- `scheduler.dfy` (`Scheduler`): the hour gate, the decision made on one tick,
  and the main loop over a finite run of ticks.
- `http.dfy` and `wrappers.dfy`: the HTTP reply type, `Option` and `Result`.

The outside world enters as parameters. The local hour is an integer 0–23.
The HTTP clients are functions from a request to a reply: a client error, or
a status code plus body. The JSON decoder is a function from a body to either
a result or an error. A failing decode also carries whatever it had already
filled in. The `http.NewRequest` failure is an optional error message. A Go
`nil` slice and an empty slice are both the empty sequence, because the caller
only takes their length and ranges over them.

The loop checks once before it first waits on the ticker (the `for` body runs
before `<-ticker.C`). So the first check is made at startup, not one period
later. The model follows the code. `Scheduler.Poll` takes its first tick to
be that startup check.

## Model

| member | source | states |
|---|---|---|
| Config.LoadConfig | main.go:95-102 | startup is rejected, with the fixed message, exactly when the username, the Telegram token or the chat ID is empty; otherwise the configuration holds the four values read (an unset variable reads as empty) and all required ones are non-empty |
| Config.GitHubTokenNeverRejects | main.go:96-100 | changing or unsetting the GitHub token never changes whether startup is rejected |
| GitHub.SearchQuery | main.go:33 | the query is the prefix `is:open is:pr review-requested:` followed by exactly the username |
| GitHub.ReviewerOfQuery | main.go:33 | a query names a reviewer exactly when it is that reviewer's search query |
| GitHub.AuthorizationHeader | main.go:41-43 | a header value exists exactly when the token is non-empty, and it is `token ` followed by the token |
| GitHub.NewSearchRequest | main.go:33-43 | the request carries the search query; its only possible header is `Authorization`, present exactly when the token is non-empty, with value `token ` + token |
| GitHub.SearchRequestRoundTrip | main.go:33-43 | the reviewer and the token can both be recovered from the request |
| GitHub.SearchRequestInjective | main.go:33-43 | different (username, token) pairs never build the same request |
| GitHub.FetchPullRequests | main.go:31-65 | no error exactly when the request was built, the reply is 200 and the body decodes; then the items are the decoded ones; a request error, a client error, a non-200 status (`GitHub API error: ` + body) and a decode failure each give their own error; every error returns no items, not even what a failed decode had parsed |
| Telegram.NewSendRequest | main.go:69-72 | the URL is the bot API base, the token and `/sendMessage`; the form has exactly `chat_id` and `text`, set to the chat ID and the message |
| Telegram.SendTelegramMessage | main.go:68-85 | no error exactly when the reply is 200; a client error is passed on; a non-200 reply gives `Telegram API error: ` + body |
| Message.Compose | main.go:126 | the message always begins with the header `Pull requests requiring review:\n` |
| Message.BlocksAppend | main.go:127-128 | the blocks of a list with one more item are the earlier blocks followed by that item's block |
| Message.ComposeAppend | main.go:126-129 | appending an item extends the message by exactly its `- title\nurl\n` block and leaves the earlier text unchanged |
| Message.BuildMessage | main.go:126-129 | the loop that starts from the header and appends one block per item yields exactly the specified message |
| Message.ParseBlockOf | main.go:128 | when neither the title nor the URL contains a line break, one block read back gives the item it was written from and leaves the text that follows |
| Message.MessageRoundTrip | main.go:126-129 | when no title or URL contains a line break, the message reads back as exactly the input list: N items give N blocks, in input order |
| Message.ComposeInjective | main.go:126-129 | two lists of single-line items give the same message only when they are equal |
| Message.ComposeExample | main.go:126-128 | one item "Fix bug" at `https://x/pr/1` gives `Pull requests requiring review:\n- Fix bug\nhttps://x/pr/1\n` |
| Scheduler.InAllowedHours | main.go:118 | a tick runs a cycle exactly when 9 <= hour < 21 |
| Scheduler.WindowBoundaries | main.go:118 | hours 8 and 21 skip, hours 9 and 20 run |
| Scheduler.Tick | main.go:118-138 | the fetch is run, with the reviewer's search request, exactly when the tick is in the window; a message is sent exactly when, in addition, the fetch succeeded with at least one item, and it is the composed message for those items, sent to the configured chat; a fetch error is reported as is; "no pull requests" exactly on a successful empty fetch; the delivery result only chooses between the sent and the failed outcome |
| Scheduler.Poll | main.go:115-141 | the loop produces one report per tick, each the tick decision for that tick: no outcome stops it |

## Left out

- HTTP transport (`http.NewRequest`, `client.Do`, `http.PostForm`, reading bodies): network I/O, modelled as the client functions and the optional request error.
- JSON decoding (`json.NewDecoder(...).Decode`): a foreign library, modelled as a decoder function giving a result or an error. `total_count` is decoded but never used.
- `url.QueryEscape` in the search URL and the form encoding of `url.Values`: library encoders whose source is not part of this model. Only the unescaped query and the form fields are modelled, so the escape/unescape round trip is not stated.
- Time-zone loading, the fallback to `time.Local`, `time.Now()` and the 4-hour ticker: clock and timer plumbing. Each tick's local hour is an input. Minutes do not matter because the gate reads only the hour, so 08:59 skips and 20:59 runs.
- The infinite loop: `Scheduler.Poll` models any finite run of ticks, not the unbounded one.
- Scheduler.Poll: each HTTP call is assumed to return. The source sets no timeout (`&http.Client{}`, and `http.PostForm` on the default client), so a call that never answers stalls the loop before it waits on the ticker, and no later tick runs; Poll does not capture that.
- `.env` loading, `os.Getenv` on the real process environment, `log.Fatal` and the other log calls: environment and I/O glue. The environment is a map. The log line that ends a tick is the `Outcome` value, not its text.
- Scheduler.Tick: does not carry the "Checking pull requests for review..." line or the error texts that `log.Println` adds; it names the outcome only.
