# Telegraph webhook request builders in Dafny

This project models the webhook part of the Telegraph client for the Telegram
Bot API: the `InteractsWithWebhooks` mixin of the `Telegraph` client class. It
has four request builders. Each one clones the client, points the clone at a
webhook endpoint, sets the clone's payload and returns the clone. The client it
was called on is never changed.

- `registerWebhook` takes the webhook route URL. It refuses any URL that does
  not begin with the exact text `https://`, which is the invalid-scheme error.
  Otherwise it sends the URL and a fixed, ordered list of 14 update kinds.
- `unregisterWebhook` sends the `drop_pending_updates` flag. The flag is
  false by default.
- `getWebhookDebugInfo` changes only the endpoint.
- `replyWebhook` builds the direct answer to a callback query: its id and a
  text.

Layout:

- `wrappers.dfy` (module `Wrappers`) holds `Option` and `Result`.
- `payload.dfy` (module `Payload`) models the payload. It is an ordered PHP
  array whose values are strings, ints, bools or lists of strings. It holds
  the key-order function `Keys` and the PHP lookup `Lookup`.
- `interacts_with_webhooks.dfy` (module `InteractsWithWebhooks`) holds the
  rest:
  - the endpoint constants, as distinct datatype constructors;
  - the `https://` guard (`StartsWith`);
  - one specification function per builder (`Registered`, `Unregistered`,
    `DebugInfo`, `Replied`), stated over the client's state as a value;
  - the class `Telegraph`. Its fields are `bot`, `endpoint` and `data`. Its
    four methods clone the object, assign the clone's fields and return it,
    as the source does. A fourth field, `others`, stands for the client's
    remaining properties, which `clone` copies too. Each method's `ensures` says three things: the
    result is `fresh`, its state is the specification function of the
    receiver's old state, and the receiver's state is unchanged.

## Model

| member | source | states |
|---|---|---|
| `InteractsWithWebhooks.StartsWith` | src/Concerns/InteractsWithWebhooks.php:21 | the guard's `str_starts_with` holds exactly when the prefix is no longer than the string and equals the string's leading characters (exact, case-sensitive) |
| `InteractsWithWebhooks.RegisterPayload` | src/Concerns/InteractsWithWebhooks.php:26-44 | the registration payload has exactly the keys `url`, `allowed_updates` in that order, no key twice, `url` maps to the given URL and `allowed_updates` to the 14-name list |
| `InteractsWithWebhooks.Registered` | src/Concerns/InteractsWithWebhooks.php:15-47 | fails with the invalid-scheme error exactly when the URL's first 8 characters are not `https://`; on success the bot and the other properties are kept, the endpoint is the set-webhook one and the payload holds exactly `url` (the input URL) and `allowed_updates` (the 14 names) |
| `InteractsWithWebhooks.Unregistered` | src/Concerns/InteractsWithWebhooks.php:49-59 | bot and other properties kept, endpoint is the unset-webhook one, the payload is exactly `{drop_pending_updates: flag}` |
| `InteractsWithWebhooks.DebugInfo` | src/Concerns/InteractsWithWebhooks.php:61-68 | bot and other properties kept, endpoint is the debug-info one, payload identical to the receiver's (nothing else changes) |
| `InteractsWithWebhooks.Replied` | src/Concerns/InteractsWithWebhooks.php:70-81 | bot and other properties kept, endpoint is the answer-webhook one, the payload is exactly `{callback_query_id: id, text: message}` in that order |
| `InteractsWithWebhooks.AllowedUpdatesDistinct` | src/Concerns/InteractsWithWebhooks.php:28-43 | the allowed-updates list has 14 entries and no name twice |
| `InteractsWithWebhooks.SchemeGuardExamples` | src/Concerns/InteractsWithWebhooks.php:21-23 | a plain `http://` URL, an upper-case `HTTPS://` URL and a URL with one slash are refused; an `https://` URL is accepted |
| `InteractsWithWebhooks.Telegraph.Clone` | src/Concerns/InteractsWithWebhooks.php:17 | `clone $this` makes a new object with the same state |
| `InteractsWithWebhooks.Telegraph.RegisterWebhook` | src/Concerns/InteractsWithWebhooks.php:15-47 | returns an error exactly when `Registered` does, and otherwise a fresh client whose state is `Registered` of the receiver's state; the receiver is unchanged |
| `InteractsWithWebhooks.Telegraph.UnregisterWebhook` | src/Concerns/InteractsWithWebhooks.php:49-59 | the flag defaults to false; returns a fresh client whose state is `Unregistered` of the receiver's state; the receiver is unchanged |
| `InteractsWithWebhooks.Telegraph.GetWebhookDebugInfo` | src/Concerns/InteractsWithWebhooks.php:61-68 | returns a fresh client whose state is `DebugInfo` of the receiver's state; the receiver is unchanged |
| `InteractsWithWebhooks.Telegraph.ReplyWebhook` | src/Concerns/InteractsWithWebhooks.php:70-81 | returns a fresh client whose state is `Replied` of the receiver's state; the receiver is unchanged |

## Left out

- The URL from `route('telegraph.webhook', $telegraph->getBot())` comes from the Laravel router. It is a parameter of `RegisterWebhook`.
- `getBot()` is modelled as a plain read of the client's `bot` field, which is always present. A client with no bot, and any failure or lazy loading inside `getBot()`, are not modelled. The "fails exactly when" and "bot kept" clauses of `Registered` rest on this.
- The `Telegraph` client class is not part of this model. Neither are its `ENDPOINT_*` string values nor its other methods. The endpoints are distinct constructors of `Endpoint`. The client has the fields the builders name (`bot`, `endpoint`, `data`) and one map `others` for all of its other properties. Every builder copies `others` unchanged. The values in `others` and in `data` are limited to the four value kinds of `Value`.
- `TelegramWebhookException` is not part of this model. The thrown exception is the error value `InvalidScheme`.
- Sending a built request over HTTP is not modelled. No network I/O happens in these builders.
- The bot is a `Bot` record of an id and a token. The bot model class is not part of this model.
- `InteractsWithWebhooks.Telegraph.ReplyWebhook`: the callback-query id is an unbounded `int`. PHP's 64-bit integer range is not modelled, and the id is only stored, never computed on.
- The incoming-update dispatcher (`WebhookHandler`) is outside this model: update classification, the unknown-chat gate, chat storage, command parsing and callback-action routing.
- Strings are sequences of characters. PHP's `str_starts_with` compares bytes, which agrees with a character comparison for the ASCII prefix `https://`.
