/**
 * The webhook request builders that the Telegraph client mixes in: each
 * one copies the client, points the copy at a webhook endpoint of the
 * Telegram Bot API, fills in its payload and hands the copy back.
 */
module InteractsWithWebhooks {
  import opened Wrappers
  import opened Payload

  /** The client's `ENDPOINT_*` constants: distinct names whose string values are not modelled. */
  datatype Endpoint =
    | SetWebhook
    | UnsetWebhook
    | GetWebhookDebugInfo
    | AnswerWebhook
    | OtherEndpoint(name: string)

  /** The bot the client talks for (its id and API token). */
  datatype Bot = Bot(id: int, token: string)

  /** `TelegramWebhookException::invalidScheme()`. */
  datatype WebhookError = InvalidScheme

  /**
   * What a client object holds, as a value: the bot, the endpoint and payload
   * of the next call, and the client's other properties (chat, message,
   * files, ...) by name, which the builders only carry over.
   */
  datatype Request = Request(bot: Bot, endpoint: Endpoint, data: Data, others: map<string, Value>)

  const HttpsPrefix: string := "https://"

  /** The update kinds a registered webhook asks Telegram to deliver, in this order. */
  const AllowedUpdates: seq<string> := [
    "message", "edited_message", "channel_post", "edited_channel_post",
    "inline_query", "chosen_inline_result", "callback_query",
    "shipping_query", "pre_checkout_query", "poll", "poll_answer",
    "my_chat_member", "chat_member", "chat_join_request"
  ]

  /**
   * PHP's `str_starts_with`: an exact, case-sensitive prefix test. PHP compares
   * bytes; for the ASCII prefix `https://` this agrees with comparing characters.
   */
  function StartsWith(s: string, prefix: string): (r: bool)
    ensures r <==> |prefix| <= |s| && s[..|prefix|] == prefix
  {
    if prefix == [] then true
    else if s == [] then false
    else s[0] == prefix[0] && StartsWith(s[1..], prefix[1..])
  }

  /** The payload of a registration: the webhook URL and the allowed update kinds. */
  function RegisterPayload(url: string): (d: Data)
    ensures UniqueKeys(d)
    ensures Keys(d) == ["url", "allowed_updates"]
    ensures Lookup(d, "url") == Some(Str(url))
    ensures Lookup(d, "allowed_updates") == Some(StrList(AllowedUpdates))
  {
    [("url", Str(url)), ("allowed_updates", StrList(AllowedUpdates))]
  }

  /** The request `registerWebhook` builds from a client in state `req`, for the route URL `url`. */
  function Registered(req: Request, url: string): (r: Result<Request, WebhookError>)
    ensures r.Err? <==> !(|url| >= 8 && url[..8] == "https://")
    ensures r.Err? ==> r.error == InvalidScheme
    ensures r.Ok? ==> r.value.bot == req.bot && r.value.others == req.others
    ensures r.Ok? ==> r.value.endpoint == SetWebhook
    ensures r.Ok? ==> UniqueKeys(r.value.data) && Keys(r.value.data) == ["url", "allowed_updates"]
    ensures r.Ok? ==> Lookup(r.value.data, "url") == Some(Str(url))
    ensures r.Ok? ==> Lookup(r.value.data, "allowed_updates") == Some(StrList(AllowedUpdates))
  {
    if !StartsWith(url, HttpsPrefix) then Err(InvalidScheme)
    else Ok(req.(endpoint := SetWebhook, data := RegisterPayload(url)))
  }

  /** The request `unregisterWebhook` builds. */
  function Unregistered(req: Request, dropPendingUpdates: bool): (r: Request)
    ensures r.bot == req.bot && r.others == req.others && r.endpoint == UnsetWebhook
    ensures UniqueKeys(r.data) && Keys(r.data) == ["drop_pending_updates"]
    ensures Lookup(r.data, "drop_pending_updates") == Some(Bool(dropPendingUpdates))
  {
    req.(endpoint := UnsetWebhook, data := [("drop_pending_updates", Bool(dropPendingUpdates))])
  }

  /** The request `getWebhookDebugInfo` builds: only the endpoint changes. */
  function DebugInfo(req: Request): (r: Request)
    ensures r.bot == req.bot && r.others == req.others && r.endpoint == GetWebhookDebugInfo
    ensures r.data == req.data
  {
    req.(endpoint := GetWebhookDebugInfo)
  }

  /** The synchronous answer to a callback query that `replyWebhook` builds. */
  function Replied(req: Request, callbackQueryId: int, message: string): (r: Request)
    ensures r.bot == req.bot && r.others == req.others && r.endpoint == AnswerWebhook
    ensures UniqueKeys(r.data) && Keys(r.data) == ["callback_query_id", "text"]
    ensures Lookup(r.data, "callback_query_id") == Some(Int(callbackQueryId))
    ensures Lookup(r.data, "text") == Some(Str(message))
  {
    req.(endpoint := AnswerWebhook,
         data := [("callback_query_id", Int(callbackQueryId)), ("text", Str(message))])
  }

  /** The registration asks for exactly fourteen update kinds, none of them twice. */
  lemma AllowedUpdatesDistinct()
    ensures |AllowedUpdates| == 14 && Distinct(AllowedUpdates)
  {
  }

  /** The prefix test is exact and case-sensitive: plain HTTP and an upper-case scheme are refused. */
  lemma SchemeGuardExamples(req: Request)
    ensures Registered(req, "http://bot.example/telegraph/1/webhook").Err?
    ensures Registered(req, "HTTPS://bot.example/telegraph/1/webhook").Err?
    ensures Registered(req, "https:/bot.example").Err?
    ensures Registered(req, "https://bot.example/telegraph/1/webhook").Ok?
  {
    var plain, upper, short := "http://bot.example/telegraph/1/webhook",
      "HTTPS://bot.example/telegraph/1/webhook", "https:/bot.example";
    assert plain[4] == ':' && HttpsPrefix[4] == 's';
    assert upper[0] == 'H' && HttpsPrefix[0] == 'h';
    assert short[..8][7] != HttpsPrefix[7];
    var secure := "https://bot.example/telegraph/1/webhook";
    assert secure[..8] == HttpsPrefix;
  }

  /** The client: `endpoint` and `data` are what the next API call will send for `bot`. */
  class Telegraph {
    var bot: Bot
    var endpoint: Endpoint
    var data: Data
    var others: map<string, Value>

    /** A PHP array never repeats a key. */
    ghost predicate Valid()
      reads this
    {
      UniqueKeys(data)
    }

    function State(): Request
      reads this
    {
      Request(bot, endpoint, data, others)
    }

    constructor (bot: Bot, endpoint: Endpoint, data: Data, others: map<string, Value>)
      requires UniqueKeys(data)
      ensures Valid() && State() == Request(bot, endpoint, data, others)
    {
      this.bot := bot;
      this.endpoint := endpoint;
      this.data := data;
      this.others := others;
    }

    /** `clone $this`: a new object with the same field values. */
    method Clone() returns (t: Telegraph)
      requires Valid()
      ensures fresh(t) && t.Valid() && t.State() == State()
    {
      t := new Telegraph(bot, endpoint, data, others);
    }

    /**
     * `registerWebhook()`, where `url` is what the framework's route helper
     * yields for the bot's webhook route.
     */
    method RegisterWebhook(url: string) returns (r: Result<Telegraph, WebhookError>)
      requires Valid()
      ensures r.Ok? <==> Registered(old(State()), url).Ok?
      ensures r.Err? ==> r.error == InvalidScheme
      ensures r.Ok? ==> fresh(r.value) && r.value.Valid() &&
                        r.value.State() == Registered(old(State()), url).value
      ensures State() == old(State())
    {
      var telegraph := Clone();
      if !StartsWith(url, HttpsPrefix) {
        return Err(InvalidScheme);
      }
      telegraph.endpoint := SetWebhook;
      telegraph.data := RegisterPayload(url);
      r := Ok(telegraph);
    }

    /** `unregisterWebhook($dropPendingUpdates = false)`. */
    method UnregisterWebhook(dropPendingUpdates: bool := false) returns (t: Telegraph)
      requires Valid()
      ensures fresh(t) && t.Valid() && t.State() == Unregistered(old(State()), dropPendingUpdates)
      ensures State() == old(State())
    {
      t := Clone();
      t.endpoint := UnsetWebhook;
      t.data := [("drop_pending_updates", Bool(dropPendingUpdates))];
    }

    /** `getWebhookDebugInfo()`. */
    method GetWebhookDebugInfo() returns (t: Telegraph)
      requires Valid()
      ensures fresh(t) && t.Valid() && t.State() == DebugInfo(old(State()))
      ensures State() == old(State())
    {
      t := Clone();
      t.endpoint := Endpoint.GetWebhookDebugInfo;
    }

    /** `replyWebhook($callbackQueryId, $message)`. */
    method ReplyWebhook(callbackQueryId: int, message: string) returns (t: Telegraph)
      requires Valid()
      ensures fresh(t) && t.Valid() && t.State() == Replied(old(State()), callbackQueryId, message)
      ensures State() == old(State())
    {
      t := Clone();
      t.endpoint := AnswerWebhook;
      t.data := [("callback_query_id", Int(callbackQueryId)), ("text", Str(message))];
    }
  }
}
