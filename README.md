# Paws bot: the withdrawal dialogue and the duplicate filter

A model of the Telegram "Paws" bot in `main.py`. The bot does three things:

- `/start` registers a user with zero points and zero referrals and sends a welcome.
- `/withdraw` runs a three-step dialogue:
  1. It asks for an amount.
  2. It accepts an integer from 200 to 10000, both included, and asks for a wallet address line.
  3. It takes the second whitespace-separated token of that line as the address.
  On success it confirms to the user and then notifies the admin chat. Each validation failure sends one error message and ends the dialogue.
- A duplicate filter sends a spam warning instead of the amount prompt when a user's `/withdraw` message has the same normal form as that user's previous one. The normal form is `text.strip().lower()`.

## Modules

- `Text` (`text.dfy`): Python's `str.strip()`, `str.lower()` and `str.split()` with no arguments. Whitespace is the set `str.isspace()` accepts.
- `Decimal` (`decimal.dfy`): `int()` on decimal text, which is a `ParseInt` returning `Option<int>`, and its inverse `Show`. `Wrappers` holds `Option`.
- `Withdrawal` (`withdrawal.dfy`): the amount check, with the constants 200 and 10000, and the address extraction.
- `PawsBot` (`bot.dfy`): the class `Bot`. It holds:
  - the dictionaries `user_points`, `user_referrals` and `user_last_message`, as maps;
  - the per-user dialogue state `Idle | AwaitingAmount | AwaitingAddress(amount)`;
  - an outbox.

  Each handler is a method of `Bot`. The admin chat id is a constructor parameter, because the source reads it from the environment.
- `Scenarios` (`scenarios.dfy`): short conversations stated from the methods' contracts alone.

### How the framework's continuations are modelled

The source calls `bot.register_next_step_handler` to bind a user's next message to `process_withdraw` or to a closure over `confirm_withdraw`. Here that binding is the explicit `dialogue` map.

`Bot.HandleReply` delivers a message to the bound step, if there is one, and reports whether it consumed the message. A message that is not consumed goes to the command handlers. The bot framework does this routing itself, and it is not part of this model.

Each `bot.send_message(chat, text)` appends one `Outgoing(chat, kind)` record to the outbox. The record names the kind of message and the values it reports; the Markdown text is not modelled.

### A consequence the scenarios make explicit

Only the `/withdraw` handler updates the duplicate filter. The amount and address replies never pass through it.

So retyping the same command after any finished dialogue, successful or failed, gets only the spam warning (`WithdrawRetryIsSpam`, `WithdrawAgainAfterSuccess`). The user has to vary the command text to start over.

## Model

| member | source | states |
|---|---|---|
| Text.IsSpace | main.py:38 | the whitespace set that `strip()` and `split()` with no arguments use, which is exactly the characters Python's `str.isspace()` accepts |
| Text.Strip | main.py:38 | `strip()` returns text with no whitespace at either end and no longer than its input |
| Text.StripPadded | main.py:38 | `strip()` removes whitespace padding on both sides and keeps the trimmed core exactly |
| Text.StripTrimmed | main.py:71 | text with no whitespace at its ends is unchanged by `strip()` |
| Text.StripIdempotent | main.py:38-39 | `strip()` applied twice equals `strip()` applied once |
| Text.StripEmptyIffAllSpace | main.py:38 | `strip()` yields the empty string exactly when the text is whitespace only |
| Text.LowerChar | main.py:38 | `lower()` on one character maps A-Z to a-z and leaves every other character alone |
| Text.Lower | main.py:38 | the model's `lower()` keeps the length of the text, since it folds only A-Z |
| Text.LowerAt | main.py:38 | `lower()` works character by character: position `i` of the result is the lowered `i`-th character |
| Text.LowerIdempotent | main.py:38-39 | lower-casing twice equals lower-casing once |
| Text.LowerKeepsTrimmed | main.py:38 | lower-casing a stripped text leaves it stripped |
| Text.Normalize | main.py:38-39 | the normal form `text.strip().lower()` has no whitespace at its ends and is no longer than the text |
| Text.NormalizeIdempotent | main.py:38-39 | a normal form is its own normal form |
| Text.NormalizeNonBlank | main.py:37-39 | a text with a non-whitespace character has a non-empty normal form, so it never equals the `""` default of an unseen user |
| Text.NormalizePadded | main.py:38-39 | surrounding whitespace never affects the normal form |
| Text.StripLower | main.py:38 | `strip()` and `lower()` can be applied in either order |
| Text.NormalizeLower | main.py:38-39 | case never affects the normal form: a lower-cased text normalises like the original |
| Text.Split | main.py:88 | `split()` returns only non-empty tokens without whitespace |
| Text.SplitPadded | main.py:88 | leading whitespace adds no token |
| Text.SplitAllSpace | main.py:88 | whitespace-only text has no tokens |
| Text.SplitToken | main.py:88 | a token followed by whitespace or by nothing is split off whole, as the first token |
| Text.SplitJoin | main.py:88 | `split()` recovers exactly the tokens that were joined with single spaces |
| Decimal.ParseInt | main.py:71 | `int()` succeeds exactly on an optional sign followed by one or more digits |
| Decimal.ShowNat | main.py:71 | the numeral of a natural number is a non-empty digit run with no leading zero unless the number is 0 |
| Decimal.Show | main.py:71 | the numeral of an integer is text that `int()` accepts |
| Decimal.DigitsValueShowNat | main.py:71 | a digit run built from `n` has the value `n` |
| Decimal.ParseShow | main.py:71 | `int(str(n)) == n` for every integer `n` |
| Decimal.ParseLeadingZero | main.py:71 | a leading zero is accepted and does not change the value |
| Decimal.ParseSigned | main.py:71 | a `-` sign negates the value and a `+` sign is ignored |
| Withdrawal.InRange | main.py:72 | the inclusive range test `200 <= amount <= 10000` |
| Withdrawal.CheckAmount | main.py:71-72 | the stripped reply is a number error exactly when it is no integer; otherwise it is accepted exactly when its value is in 200..10000 and is a range error otherwise, carrying the parsed value |
| Withdrawal.CheckAmountOfNumeral | main.py:71-72 | for every integer `a`, the numeral of `a` with any whitespace around it is accepted iff 200 <= a <= 10000, and otherwise is a range error, never a number error |
| Withdrawal.WalletAddress | main.py:88-92 | an address exists exactly when the reply has at least two tokens, and it is the second token |
| Withdrawal.WalletAddressOfJoin | main.py:88-92 | for tokens typed with single spaces, the address is the second token, and tokens after it are ignored |
| Withdrawal.WalletAddressOfLine | main.py:88-92 | the line the prompt asks for, a command, a space and an address, yields that address |
| Withdrawal.WalletAddressOfOneToken | main.py:88-90 | a single token with any padding has no address |
| Withdrawal.WalletAddressOfWord | main.py:88-90 | one bare word has no address |
| Withdrawal.WalletAddressOfBlank | main.py:88-90 | a whitespace-only reply has no address |
| PawsBot.LastOf | main.py:37 | `user_last_message.get(user_id, "")`: the stored normal form, or `""` for a user never seen |
| PawsBot.AmountReply | main.py:72-83 | the one message the amount step sends: the address prompt for an accepted amount, the range error for an integer out of range, the number error for a reply that is no integer |
| PawsBot.AfterAmount | main.py:72-83 | the state the amount step leaves: waiting for the address, carrying the amount, only when the amount was accepted, and idle otherwise |
| PawsBot.AmountStepOutcome | main.py:71-83 | the amount step waits for an address iff the stripped reply is an integer in range, and it carries that integer. It never stays at the amount step. It sends the number error iff the reply is no integer and the range error iff the integer is out of range |
| PawsBot.ConfirmReplies | main.py:88-105 | the messages the address step sends: the confirmation to the user and then the notification to the admin (main.py:93-100), or only the format error (main.py:101-105) |
| PawsBot.ConfirmRepliesOutcome | main.py:88-105 | with two or more tokens, the user is confirmed and then the admin is notified, both with the amount and the second token. With fewer tokens, only a format error goes to the user and the admin hears nothing |
| PawsBot.Bot.Valid | main.py:45-47 | the invariant every handler keeps. `user_points` and `user_referrals` always have the same keys, because `start` creates both entries together. Both counters stay 0, because nothing credits or debits them. A user awaiting an address always carries an amount that passed the range check (main.py:72-78) |
| PawsBot.Bot.constructor | main.py:23-24 | a new bot has empty counters, an empty filter, no pending dialogue or outbox, and the given admin chat id |
| PawsBot.Bot.IsSpam | main.py:35-39 | a message is a duplicate iff its normal form equals the user's stored one (`""` if none). The stored entry becomes the new normal form either way, for this user only |
| PawsBot.Bot.Start | main.py:43-52 | a new user gets both counters at 0, a known user's counters are untouched, and the welcome is sent every time |
| PawsBot.Bot.WithdrawPaws | main.py:56-66 | a duplicate gets only the spam warning and leaves the dialogue as it was. Otherwise the amount prompt is sent and the user's next message goes to the amount step; the filter records the message in both cases |
| PawsBot.Bot.ProcessWithdraw | main.py:69-83 | the amount step sends exactly one message for its outcome. It either binds the address step with the accepted amount or ends the dialogue |
| PawsBot.Bot.ConfirmWithdraw | main.py:86-105 | the address step sends the confirmation and then the admin notification, or only the format error, and ends the dialogue |
| PawsBot.Bot.HandleReply | main.py:66-78 | a message from a user with a bound step goes to that step; the address step uses the amount captured by the amount step. With nothing bound, nothing changes and the message is not consumed |
| Scenarios.SpamTwice | main.py:35-39 | a second message is a duplicate exactly when it normalises like the first, whatever was stored before |
| Scenarios.SpamInterleaved | main.py:35-39 | only the immediately preceding message counts |
| Scenarios.SpamPerUser | main.py:35-39 | another user's messages do not affect this user's duplicate check |
| Scenarios.StartTwice | main.py:43-52 | `/start` is idempotent on the counters and welcomes each time |
| Scenarios.NewUserStarts | main.py:43-52 | a new user's `/start` sends one welcome and sets both counters to 0 |
| Scenarios.FirstCommand | main.py:56-66 | a new user's first non-blank `/withdraw` gets the amount prompt and binds the amount step |
| Scenarios.ReplyAmount | main.py:69-83 | the numeral of an amount in range gets the address prompt and binds the address step with that amount. Any other integer gets the range error and ends the dialogue |
| Scenarios.ReplyAddress | main.py:86-100 | a command and an address on one line get the confirmation and then the admin notification with the carried amount |
| Scenarios.ReplyWord | main.py:86-105 | a one-word address reply gets only the format error |
| Scenarios.WithdrawSucceeds | main.py:56-100 | a full successful withdrawal sends, in order, the two prompts, the confirmation and the admin notification, and ends idle |
| Scenarios.WithdrawOutOfRange | main.py:56-81 | an out-of-range amount gets the prompt and then the range error, and ends idle |
| Scenarios.WithdrawNotANumber | main.py:56-83 | a non-integer amount gets the prompt and then the number error, and ends idle |
| Scenarios.WithdrawSingleToken | main.py:56-105 | a one-token address line gets a format error, with no confirmation and no admin notification |
| Scenarios.WithdrawRetryIsSpam | main.py:35-83 | retyping the command after a failed amount step gets only the spam warning |
| Scenarios.WithdrawAgainAfterSuccess | main.py:35-100 | retyping the command after a completed withdrawal gets only the spam warning |
| Scenarios.AcceptedNumeral | main.py:71-72 | the numeral of an integer is judged by its value alone |
| Scenarios.ExampleAmounts | main.py:71-72 | "500" and "5000" are accepted and "50" is out of range |
| Scenarios.ExampleAddress | main.py:88-92 | the line `/pawsaddress XYZ123` from the address prompt's own example (main.py:75) yields the address `XYZ123` |
| Scenarios.ExampleNoAddress | main.py:88-90 | a one-word reply yields no address |
| Scenarios.ExampleCommand | main.py:37-39 | the `/withdraw` command never matches an unseen user's `""` entry |

## Left out

- The web server routes, the webhook endpoint and webhook registration (main.py:110-150). They are transport, not bot logic.
- Loading and validating `TOKEN` and `ADMIN_ID` from the environment (main.py:7-18). The admin chat id is a parameter of `Bot`.
- The bot framework itself (main.py:20, 66, 77): update decoding, command routing and `register_next_step_handler`. Its continuations are replaced by the `dialogue` map and `Bot.HandleReply`.
- The exchange-rate constants and the app link (main.py:26-29). No modelled operation uses the rates, and the link appears only in the welcome text.
- The Markdown text of every message. The outbox records the kind of each message and the values it reports.
- The catch-all `except Exception` of `confirm_withdraw` (main.py:106-107). With text messages, `split()` raises nothing. The only other source of an exception is a failed send, described below.
- Messages without text (`message.text` is `None`). For these the source fails in `strip()` or `split()` with errors other than `ValueError`.
- Failures of `send_message`. Every send is assumed to succeed. Some failures come from the network or a blocked chat. Others come from what the user types: the bot sends with `parse_mode="Markdown"` (main.py:20), so a wallet token with an unbalanced `_`, `*`, `` ` `` or `[` makes the confirmation send at main.py:93-96 fail. The `except Exception` at main.py:106-107 then sends only a generic error, and the admin is not notified. `ConfirmWithdraw` records the confirmation and the notification in that case.
- Concurrent updates and races on the shared dictionaries. The model handles one message at a time.
- Text.Lower: folds only the ASCII letters A-Z. Python's `lower()` also folds non-ASCII letters (`"É"` to `"é"`), so non-ASCII texts with case differences can be duplicates in the source but not in the model. Python's `lower()` can also change the length of a text (`"İ".lower()` has two code points), while the model's keeps it.
- Decimal.ParseInt: rejects underscores between digits (`"1_000"`) and decimal digits of other scripts, which Python's `int()` accepts. Such replies are number errors in the model and may be accepted amounts in the source.
