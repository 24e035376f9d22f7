/** The notifier: one form POST to the Telegram Bot API per message. */
module Telegram {
  import opened Wrappers
  import opened Http

  const ApiBase: string := "https://api.telegram.org/bot"
  const SendMethod: string := "/sendMessage"
  const ApiErrorPrefix: string := "Telegram API error: "

  /** The POST: endpoint URL and the form fields (their URL encoding is not modelled). */
  datatype SendRequest = SendRequest(url: string, form: map<string, string>)

  datatype DeliveryError = TransportError(msg: string) | ApiError(msg: string)

  /** The request for sending `message` to `chatID` with the bot `telegramToken`. */
  function NewSendRequest(telegramToken: string, chatID: string, message: string): (req: SendRequest)
    ensures req.form.Keys == {"chat_id", "text"}
    ensures req.form["chat_id"] == chatID && req.form["text"] == message
    ensures |req.url| == |ApiBase| + |telegramToken| + |SendMethod|
    ensures req.url[..|ApiBase|] == ApiBase
    ensures req.url[|ApiBase|..|req.url| - |SendMethod|] == telegramToken
    ensures req.url[|req.url| - |SendMethod|..] == SendMethod
  {
    var url := ApiBase + telegramToken + SendMethod;
    assert url[|ApiBase|..|url| - |SendMethod|] == telegramToken;
    SendRequest(url, map["chat_id" := chatID, "text" := message])
  }

  /**
   * `sendTelegramMessage`: no error exactly when the reply is a 200 response;
   * a client failure and a non-200 response are told apart.
   */
  function SendTelegramMessage(telegramToken: string, chatID: string, message: string,
                               client: SendRequest -> Reply): (r: Option<DeliveryError>)
    ensures r.None? <==> IsOK(client(NewSendRequest(telegramToken, chatID, message)))
    ensures client(NewSendRequest(telegramToken, chatID, message)).ClientError? ==>
      r == Some(TransportError(client(NewSendRequest(telegramToken, chatID, message)).msg))
    ensures r.Some? && r.value.ApiError? ==>
      r.value.msg == ApiErrorPrefix + client(NewSendRequest(telegramToken, chatID, message)).body
    ensures var reply := client(NewSendRequest(telegramToken, chatID, message));
      reply.Response? && reply.status != StatusOK ==> r == Some(ApiError(ApiErrorPrefix + reply.body))
  {
    match client(NewSendRequest(telegramToken, chatID, message))
    case ClientError(msg) => Some(TransportError(msg))
    case Response(status, body) =>
      if status != StatusOK then Some(ApiError(ApiErrorPrefix + body)) else None
  }
}
