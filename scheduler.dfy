/**
 * The polling loop: each tick is gated on the local hour, and an allowed tick
 * runs one fetch-then-maybe-notify cycle. No outcome of a cycle stops the
 * loop.
 */
module Scheduler {
  import opened Wrappers
  import opened Http
  import opened Config
  import opened GitHub
  import opened Message
  import opened Telegram

  /** What `time.Time.Hour` can return. */
  type Hour = h: int | 0 <= h < 24

  /** The hour window: a cycle runs from 09:00 up to, but not including, 21:00. */
  function InAllowedHours(hour: Hour): (run: bool)
    ensures run <==> 9 <= hour < 21
  {
    !(hour < 9 || hour >= 21)
  }

  /** The boundary hours: 8 and 21 skip, 9 and 20 run. */
  lemma WindowBoundaries()
    ensures !InAllowedHours(8) && InAllowedHours(9) && InAllowedHours(20) && !InAllowedHours(21)
  {
  }

  /** What the outside world supplies to one tick: the local hour, the search side and the Telegram client. */
  datatype TickIO = TickIO(hour: Hour, search: SearchIO, telegram: Telegram.SendRequest -> Reply)

  /** Which of the cycle's log lines ends the tick. */
  datatype Outcome =
    | Skipped                          // outside the hour window
    | FetchFailed(fetchError: FetchError)   // "Error fetching pull requests:"
    | NoPullRequests                   // "No pull requests requiring review found."
    | SendFailed(deliveryError: DeliveryError) // "Error sending Telegram message:"
    | Sent                             // "Message sent successfully!"

  /**
   * One tick as seen from outside: the search the tick ran, as the request
   * `fetchPullRequests` builds for it (whether that request reached the
   * network is told by the fetch error), if any; the Telegram request made,
   * if any; and how the tick ended.
   */
  datatype TickReport = TickReport(search: Option<GitHub.SearchRequest>, send: Option<Telegram.SendRequest>, outcome: Outcome)

  /**
   * The body of the main loop for one tick. A message is sent only when the
   * tick is in the window, the fetch succeeded and found at least one pull
   * request; the message lists them all.
   */
  function Tick(cfg: Config, io: TickIO): (r: TickReport)
    ensures r.search.Some? <==> InAllowedHours(io.hour)
    ensures r.search.Some? ==> r.search.value == NewSearchRequest(cfg.githubUsername, cfg.githubToken)
    ensures r.outcome.Skipped? <==> !InAllowedHours(io.hour)
    ensures r.send.Some? <==>
      && InAllowedHours(io.hour)
      && FetchPullRequests(cfg.githubUsername, cfg.githubToken, io.search).err.None?
      && |FetchPullRequests(cfg.githubUsername, cfg.githubToken, io.search).prs| > 0
    ensures r.send.Some? ==>
      r.send.value == NewSendRequest(cfg.telegramToken, cfg.chatID,
                                     Compose(FetchPullRequests(cfg.githubUsername, cfg.githubToken, io.search).prs))
    ensures r.outcome.FetchFailed? ==>
      Some(r.outcome.fetchError) == FetchPullRequests(cfg.githubUsername, cfg.githubToken, io.search).err
    ensures r.outcome.NoPullRequests? <==>
      && InAllowedHours(io.hour)
      && FetchPullRequests(cfg.githubUsername, cfg.githubToken, io.search).err.None?
      && FetchPullRequests(cfg.githubUsername, cfg.githubToken, io.search).prs == []
    ensures r.outcome.Sent? || r.outcome.SendFailed? <==> r.send.Some?
    ensures r.outcome.Sent? ==> IsOK(io.telegram(r.send.value))
    ensures r.outcome.SendFailed? ==> !IsOK(io.telegram(r.send.value))
    ensures r.outcome.SendFailed? ==>
      Some(r.outcome.deliveryError) == SendTelegramMessage(cfg.telegramToken, cfg.chatID, r.send.value.form["text"], io.telegram)
  {
    if !InAllowedHours(io.hour) then
      TickReport(None, None, Skipped)
    else
      var search := Some(NewSearchRequest(cfg.githubUsername, cfg.githubToken));
      var fetched := FetchPullRequests(cfg.githubUsername, cfg.githubToken, io.search);
      if fetched.err.Some? then
        TickReport(search, None, FetchFailed(fetched.err.value))
      else if |fetched.prs| > 0 then
        var message := Compose(fetched.prs);
        var send := NewSendRequest(cfg.telegramToken, cfg.chatID, message);
        match SendTelegramMessage(cfg.telegramToken, cfg.chatID, message, io.telegram)
        case Some(err) => TickReport(search, Some(send), SendFailed(err))
        case None => TickReport(search, Some(send), Sent)
      else
        TickReport(search, None, NoPullRequests)
  }

  /**
   * The main loop over the first `|ticks|` checks: the first one is made at
   * startup, each later one a ticker period after the previous. Every tick,
   * whatever went wrong in the one before, gets its own report.
   */
  method Poll(cfg: Config, ticks: seq<TickIO>) returns (reports: seq<TickReport>)
    ensures |reports| == |ticks|
    ensures forall k :: 0 <= k < |ticks| ==> reports[k] == Tick(cfg, ticks[k])
  {
    reports := [];
    for k := 0 to |ticks|
      invariant |reports| == k
      invariant forall i :: 0 <= i < k ==> reports[i] == Tick(cfg, ticks[i])
    {
      var io := ticks[k];
      var report: TickReport;
      if io.hour < 9 || io.hour >= 21 {
        report := TickReport(None, None, Skipped);
      } else {
        var search := NewSearchRequest(cfg.githubUsername, cfg.githubToken);
        var fetched := FetchPullRequests(cfg.githubUsername, cfg.githubToken, io.search);
        if fetched.err.Some? {
          report := TickReport(Some(search), None, FetchFailed(fetched.err.value));
        } else if |fetched.prs| > 0 {
          var message := BuildMessage(fetched.prs);
          var sent := SendTelegramMessage(cfg.telegramToken, cfg.chatID, message, io.telegram);
          var send := NewSendRequest(cfg.telegramToken, cfg.chatID, message);
          report := TickReport(Some(search), Some(send), if sent.Some? then SendFailed(sent.value) else Sent);
        } else {
          report := TickReport(Some(search), None, NoPullRequests);
        }
      }
      reports := reports + [report];
    }
  }
}
