# Order-intake bot of the exchange channel, modelled in Dafny

The bot (`bot.py`) walks a Telegram user through a currency order: the
direction (buy or sell), a currency chosen on an inline keyboard, for any
currency but USDT a transfer type (cash or account), an amount and a price.
It then shows the user a summary and, on the send button, posts the order to
a channel. The model covers the conversation engine, the parser and formatter
of the amount and price, and the two texts the bot renders.

- `Wrappers.dfy`: the `Option` datatype.
- `Numbers.dfy`: `text.replace(",", "")`, `str.isdigit`, `int(...)` and
  `"{:,}".format(...)` on strings of ASCII digits. The parse-and-regroup step
  of the amount and price handlers is `ParseNumber`. It comes with a
  round-trip lemma against `Format` and a characterisation of its fixed
  points.
- `Messages.dfy`: `user_data` as a map from the keys the bot writes to
  values `str` / `int` / `None`, plus Python's substring test and
  truthiness. It renders the user summary (`Summary`) and the channel post
  (`ChannelText`). Lemmas read both texts back line by line.
- `Conversation.dfy`: the conversation states and inbound updates. The class
  `Session` holds one user's conversation state and `user_data`. It has one
  method per handler, each returning the next state the way the handler
  does. `Step` dispatches an update the way the conversation handler does. A
  ghost field records which keys were written since the last call of `start`
  (the `/start` command or the reset button). The
  invariant `Valid` says that whatever the user sends, an order in FINAL is
  complete, so its broadcast can always be rendered (`FinalBroadcast`).
- `Scenarios.dfy`: whole conversations through `Step` with their outputs
  worked out.

A few behaviours of the code worth knowing, which the model follows:
- the reset button goes back to BUY_SELL and keeps `user_data`;
- in START, where no handler is registered, the reset button is ignored;
- after the send button the conversation is in START whether or not the post
  went out;
- the channel post does not contain the transfer type the user chose, only a
  phrase that depends on the direction.

The wall clock is a `Clock` parameter of `Step`. The outcome of posting to
the channel is the boolean parameter `delivered`. What the bot sends is
returned as a list of `Outbound` events.

## Model

| member | source | states |
|---|---|---|
| Numbers.StripCommas | bot.py:172 | `text.replace(",", "")`: the result holds no comma and is no longer than the text |
| Numbers.IsDigits | bot.py:173 | `str.isdigit` on ASCII digits: the string is non-empty and made only of digits |
| Numbers.ToDecimal | bot.py:177 | `str(n)` of a natural: a non-empty digit string with a leading zero only for 0; read back by `ValueOfToDecimal` |
| Numbers.IntToString | bot.py:79 | `str(i)` of an integer id: the decimal digits of its magnitude, after a `-` when negative |
| Numbers.Group | bot.py:177 | the comma insertion of `"{:,}"`: a comma before every third digit from the right; its shape is `GroupWellGrouped` and its inverse `StripGroup` |
| Numbers.Value | bot.py:177 | `int(s)` of a digit string; tied to `str` by `ValueOfToDecimal` and `ToDecimalOfValue` |
| Numbers.FormatShape | bot.py:177 | `Format(n)`, the model of `"{:,}".format(n)`, is a grouped numeral with no leading zero whose commas removed give `str(n)`, which reads back as `n` |
| Numbers.StripCommasDigits | bot.py:172-173 | removing the commas leaves a non-empty digit string exactly when the text has only digits and commas and at least one digit |
| Numbers.ParseNumber | bot.py:172-178 | `None` exactly when the amount or price step rejects the text; otherwise a well-grouped numeral with no leading zero, whose digits are the text's digits without leading zeros and denote the same number |
| Numbers.ParseNumberValue | bot.py:177 | an accepted text is stored as the thousands grouping of its digits with leading zeros dropped |
| Numbers.FormatRoundTrip | bot.py:172-178 | the grouped rendering of any natural number is accepted and stored unchanged, and reads back as that number |
| Numbers.ParseNumberFixedPoints | bot.py:172-178 | a text is stored exactly as typed iff it is a grouped numeral with no leading zero |
| Numbers.GroupWellGrouped | bot.py:177 | thousands grouping of a digit string yields groups of three digits separated by commas after a first group of one to three |
| Numbers.StripGroup | bot.py:172-177 | removing commas from a grouped digit string gives the digits back |
| Numbers.GroupStrip | bot.py:172-177 | regrouping the digits of a well-grouped string gives the string back |
| Numbers.ValueOfToDecimal | bot.py:177 | `int(str(n)) == n` |
| Numbers.ToDecimalOfValue | bot.py:177 | `str(int(s))` is `s` with leading zeros dropped, `"0"` for all zeros |
| Messages.Show | bot.py:208-218 | a stored value inside an f-string: a string as is, an integer as `str`, `None` as `"None"` |
| Messages.Truthy | bot.py:79 | Python truthiness of a stored value: a non-empty string, a non-zero integer, never `None` |
| Messages.Contains | bot.py:71 | Python's `p in s` holds iff `p` occurs in `s` at some index |
| Messages.PostNamesBuyerIff | bot.py:71-88 | the post's role line starts with the buyer role, and for a currency other than USDT its transfer line names the seller's account, iff the buy marker occurs in the direction text |
| Messages.Summary | bot.py:208-218 | the summary f-string, defined when its lookups succeed (`SummaryReadable`); read back line by line by `SummaryLines` |
| Messages.Role | bot.py:71-76 | the status word of the post, buyer iff the direction holds the buy marker; a single line (see `PostNamesBuyerIff`) |
| Messages.TransferPhrase | bot.py:71-76 | the account phrase of the post, the seller's account iff the direction holds the buy marker; a single line |
| Messages.Mention | bot.py:78-80 | `@username` when the stored username is truthy, otherwise `str(user_id)` |
| Messages.SummaryLines | bot.py:208-218 | for a direction and transfer type on one line each, the summary has 5 lines for USDT and 6 otherwise: time header, direction, amount with currency code and name, price in toman, transfer type only when not USDT, user id last |
| Messages.SummaryIgnoresTransferType | bot.py:215-216 | for a USDT order the summary is the same whatever transfer type is stored or whether one is stored at all |
| Messages.ChannelText | bot.py:60-91 | the post can be built, with no lookup raising, exactly when there are a direction string, the username key (and the id when the username is empty or None), time, amount, price and a known currency |
| Messages.ChannelLines | bot.py:82-91 | the post has 5 lines for USDT and 6 otherwise: header with time, an empty line, role with amount and currency, price, the transfer phrase only when not USDT, the user reference last |
| Messages.ChannelIgnoresTransferType | bot.py:63-91 | the post does not depend on the stored transfer type |
| Conversation.SelectedText | bot.py:139-141 | the confirmation that replaces the currency prompt: the button data and its display name |
| Conversation.UsernameValue | bot.py:197 | the sender's username as stored: the string, or `None` when there is none |
| Conversation.Collected | bot.py:113-230 | what the handlers have written once a run from `start` reaches each state; in FINAL every key the post reads, with a known currency, grouped amount and price and a six-digit time; kept by every `Step` |
| Conversation.Stamp | bot.py:198 | the time stamp is six digits that read back as hour, minute and second |
| Conversation.FinalBroadcast | bot.py:60-91 | for an order collected up to FINAL the post can always be built, and its lines carry the role, the stored amount and price, the transfer phrase exactly when not USDT, and `@username` or the id |
| Conversation.Session.constructor | bot.py:254-265 | a new session is in START with empty `user_data`; the source's user starts with no conversation state rather than in START, and the model merges the two because in either only `/start` is taken |
| Conversation.Session.StartHandler | bot.py:105-110 | sends the greeting and the direction prompt and goes to BUY_SELL, writing nothing |
| Conversation.Session.BuySellHandler | bot.py:113-122 | the reset text restarts; any other text is stored verbatim as the direction and leads to CURRENCY |
| Conversation.Session.CurrencyHandler | bot.py:125-156 | stores the button data first; a known currency goes to AMOUNT for USDT and TRANSFER_TYPE otherwise, with the confirmation; unknown data raises after the store |
| Conversation.Session.TransferHandler | bot.py:159-165 | the reset text restarts; any other text is stored as the transfer type and leads to AMOUNT |
| Conversation.Session.AmountHandler | bot.py:168-181 | the reset text restarts; a rejected text changes nothing and asks for digits; an accepted one stores the regrouped amount and leads to PRICE |
| Conversation.Session.PriceHandler | bot.py:184-230 | like the amount step for the price; an accepted price sends the summary, stores the id, username and time and leads to FINAL |
| Conversation.Session.SendToChannel | bot.py:60-102 | hands the text to the channel transport exactly when it can be built, and reports success iff it was built and the transport delivered it |
| Conversation.Session.FinalHandler | bot.py:233-249 | the reset text restarts; the send text hands the post to the channel transport, reports the outcome and leads to START; other text keeps FINAL |
| Conversation.Session.TextToStore | bot.py:256-260 | a text in BUY_SELL or TRANSFER_TYPE is handled by the state's handler and the invariant is kept |
| Conversation.Session.TextToAmount | bot.py:261 | a text in AMOUNT stays in AMOUNT iff it is rejected |
| Conversation.Session.TextToPrice | bot.py:262 | a text in PRICE stays in PRICE iff it is rejected; otherwise FINAL with the complete record |
| Conversation.Session.TextToFinal | bot.py:263 | the send text in FINAL always produces the post, since the invariant makes it renderable |
| Conversation.Session.HandleText | bot.py:255-264 | a text message goes to the current state's handler; START and CURRENCY ignore it |
| Conversation.Session.HandleButton | bot.py:125-156 | a button press is handled only in CURRENCY, where the currency handler is registered (bot.py:257): the data is stored, a known currency leads to AMOUNT for USDT and TRANSFER_TYPE otherwise with the confirmation edit and the next prompt, unknown data changes only the stored currency |
| Conversation.Session.Step | bot.py:252-266 | `/start` goes to BUY_SELL from any state; each other update does what its state's handler does, with its new state, `user_data` and outbound events, or nothing; the completeness invariant is kept |
| Scenarios.ThousandKept | bot.py:172-178 | `1,000` is stored as typed |
| Scenarios.FiftyThousandGrouped | bot.py:172-178 | `50000` is stored as `50,000` |
| Scenarios.LetterRefused | bot.py:172-175 | `12a3` is rejected |
| Scenarios.NoonStamp | bot.py:198 | 12:05:07 is stamped `120507` |
| Scenarios.OrderSummaryText | bot.py:208-218 | the exact summary of the USDT order of the scenario |
| Scenarios.OrderBroadcastText | bot.py:82-91 | the exact post of the USDT order of the scenario |
| Scenarios.PublishedUsdtOrder | bot.py:105-249 | a USDT order from `/start` to the send button yields that summary and that post, a success reply, and START |
| Scenarios.RejectedAmount | bot.py:168-175 | an amount with a letter is refused, the state stays AMOUNT and no amount is stored |
| Scenarios.FailedPublish | bot.py:237-266 | an undelivered post yields the failure reply and START; the reset button is then ignored, `/start` leads to BUY_SELL and the old order data stays |

## Left out

- The Telegram transport, keyboards, `query.answer()` and message editing beyond the text: they are I/O. A `Broadcast` event is the text handed to the channel transport, whether or not it is delivered; the outcome is the `delivered` parameter. The currency confirmation is an `EditSelection` event.
- The failure of `int(CHANNEL_ID)` (bot.py:94) and an unset `CHANNEL_ID` (bot.py:25-30) are folded into `delivered`, because both end in the same `except` branch.
- Logging, the environment and `.env` loading, `main` and polling (bot.py:11-30, 269-284): configuration and I/O.
- Concurrency and the per-user keying of the conversation handler: the model is one user's session, and updates are handled one at a time.
- Numbers.ParseNumber: digits are the ASCII digits only. Python's `isdigit` also accepts other Unicode decimal digits, such as Persian digits, which `int` then converts, and some digit characters on which `int` raises. Those inputs are not modelled.
- Messages.SummaryLines: the line count holds only when the direction and the transfer type are each one line. The bot stores any typed text as is (bot.py:117-118, 163), and a text typed on several lines adds lines to the summary.
- Conversation.Stamp: the clock reading is a parameter, and `datetime.now()` itself is not modelled.
- The `filters.TEXT & ~filters.COMMAND` filter is taken as given: a command other than `/start` and any non-text update are `OtherUpdate`, which no handler takes.
- After a failed post the conversation is in START, where only `/start` is handled, although the failure reply invites the user to try again. The model keeps the code's behaviour (see `Scenarios.FailedPublish`).
