# Withdrawal conversation and settlement of a custodial TRX wallet bot

This project models, in Dafny, the withdrawal subsystem of a Telegram bot
that holds TRX balances for its users and pays them out through the
FaucetPay API. All of it lives in `handlers/send.js`:

* **Amount collection.** `/withdraw` (or the "💸 Withdraw" button) looks up
  the user's account and linked wallet email. It then registers a one-shot
  `message` listener for that chat and that user. The listener takes the
  first reply from that user in that chat and reads it as an amount. The
  amount must be a finite number of at least 0.001 TRX and at most the
  balance read at `/withdraw` time. The bot then answers with a prompt
  whose two buttons carry correlation tokens:
  `confirm_send:<telegram id>:<amount.toFixed(8)>` and
  `cancel_send:<telegram id>`.
* **Settlement.** A button tap is split on `:`. It is accepted only from
  the user named in the token. Cancel is acknowledged. Confirm re-checks
  the minimum. It then checks and adds the lock key (user, amount) in the
  process-wide set `confirmedTx`, re-reads the account, balance and wallet
  email, and calls the payout provider with `Math.floor(amount * 1e8)`
  satoshis. It debits the ledger by the full amount, and only when the
  provider answers with status 200.

Amounts are integers in units of 1e-8 TRX, the scale the bot already works
at (`toFixed(8)`, `Math.floor(amount * 1e8)`). The minimum 0.001 TRX is
100000 units.

Files, one module each:

* `wrappers.dfy` (`Wrappers`): `Option`.
* `decimal.dfy` (`Decimal`): digit strings, covering `Number#toString` of
  an id and the fixed-width fraction of `toFixed(8)`.
* `amount.dfy` (`Amount`): `trim`, `parseFloat` on decimal notation,
  `toFixed(8)`, the minimum-amount test, and the round trip between the
  printing and the parsing.
* `token.dfy` (`Token`): JavaScript's `split`, the two button tokens, and
  the pure checks a tap goes through before any state is touched (lines
  96-119).
* `send.dfy` (`Send`): the parts that change state in place.
  * Class `Ledger`: the `users` and `wallet` tables, with the debit.
  * Class `SendHandler`: the lock set `confirmedTx`, the bot's registry of
    reply listeners, and a log of the payout requests sent. Its methods
    are the `/withdraw` handler, one listener receiving one message, and
    the `callback_query` handler.
  * The pure body of the reply listener (`Respond`).
* `scenarios.dfy` (`Scenarios`): client methods that walk whole
  withdrawals through the class contracts, for every id, balance and amount
  their requires clauses admit. They cover a reply from another user, a
  reply with a valid amount, a double tap on "Confirm", a payout timeout, a
  request above the balance, and a tap by another user.

The class invariant `SendHandler.Valid()` states at-most-once payout. Every
payout request was sent under a lock key that is in `confirmedTx`, for the
key's amount or one unit less, and no two payout requests share a key.
Keys are never removed.

The database, the Telegram API and the payout provider are outside the
model. `SendHandler.OnCallback` takes the provider's answer as a parameter
(`PayoutResult`), and whether `FAUCETPAY_API_KEY` is set as a boolean. The
ledger is a pair of maps read and updated in place.

Notes on the code:

* The debit is an unconditional `UPDATE ... wallet_balance - ?`, issued
  after a separate read of the balance. It is not a conditional update.
* A reply listener is removed only when its user replies in its chat.
  There is no timeout.
* A missing API key is its own failure outcome, with no payout and no
  debit.

## Model

| member | source | states |
|---|---|---|
| `Decimal.NatToString` | handlers/send.js:100 | The `toString()` of a user id is a non-empty, all-digit numeral with no leading zero that denotes the id. So two ids print alike only if they are equal. |
| `Decimal.FixedDigits` | handlers/send.js:76 | The fraction part of `toFixed(8)` is exactly eight digits and denotes the fraction of the amount, zero-padded. |
| `Amount.TrimStart` | handlers/send.js:52 | Leading white space is removed: the result is a suffix, everything cut is white space, and the result does not start with white space. |
| `Amount.TrimEnd` | handlers/send.js:52 | Trailing white space is removed: the result is a prefix, everything cut is white space, and the result does not end with white space. |
| `Amount.Trim` | handlers/send.js:52 | `trim()` leaves a string that neither starts nor ends with white space and is no longer than the input. |
| `Amount.TrimCutsOnlySpace` | handlers/send.js:52 | `trim()` returns one contiguous stretch of the input, and everything outside that stretch is white space. |
| `Amount.LeadingDigits` | handlers/send.js:52 | The number `parseFloat` starts from is the longest run of leading digits: all of it is digits and the next character is not. |
| `Amount.ParseAmountSkipsSpace` | handlers/send.js:116 | `parseFloat` skips leading white space and reads the number that follows it. |
| `Amount.NumberStart` | handlers/send.js:52 | A finite result means that, after the white space, the text starts with a digit, a sign or a point. Only a leading minus gives a negative number. |
| `Amount.LeadingSpaceIgnored` | handlers/send.js:116 | White space in front of the text does not change what `parseFloat` reads. So the untrimmed `amtStr` of a token reads like the trimmed text. |
| `Amount.FormatAmountShape` | handlers/send.js:76 | `toFixed(8)` prints whole digits, a point and exactly eight fraction digits. Together they denote the amount, and the whole part has no leading zero. |
| `Amount.ValidAmount` | handlers/send.js:53 | An amount passes the reply check exactly when it is finite and at least 0.001 TRX. So a valid amount is finite and positive, and a positive amount under 0.001 TRX is not valid. The same test is applied again to the token's amount at line 117. |
| `Amount.ReadsFormattedReply` | handlers/send.js:52 | A reply typed exactly as `toFixed(8)` prints an amount is read as that amount. |
| `Amount.FormatAmountRoundTrip` | handlers/send.js:116 | `parseFloat` of an amount printed with `toFixed(8)` gives back exactly that amount. |
| `Token.Split` | handlers/send.js:99 | `split(":")` always yields at least one piece, and no piece contains the separator. |
| `Token.JoinSplit` | handlers/send.js:99 | Splitting loses nothing: joining the pieces with the separator rebuilds the data. |
| `Token.SplitJoin` | handlers/send.js:99 | Pieces that contain no separator come back unchanged from splitting their join. |
| `Token.NoSeparatorInAmount` | handlers/send.js:76 | A printed amount contains no `:`, so it stays one field of the token. |
| `Token.DestructureFields` | handlers/send.js:99 | `const [action, tgIdStr, amtStr] = data.split(":")`. The action is the data up to the first `:`, or all of it when there is none. The id is present exactly when the data contains a `:`. Action and id are all of the data when there is only one `:`. Each field is free of `:` and the fields are read in order from the start. The amount is the whole third piece: it ends at the third `:` or at the end of the data. |
| `Token.ConfirmTokenFields` | handlers/send.js:76 | Destructuring a confirm token gives back the action `confirm_send`, the user id string and the printed amount. |
| `Token.CancelTokenFields` | handlers/send.js:78 | Destructuring a cancel token gives back the action `cancel_send` and the user id string, with no amount field. |
| `Token.ClassifyTap` | handlers/send.js:96-119 | A tap that cancels or confirms carries data whose id field is the tapping user's id printed in decimal. A cancel needs the action `cancel_send`; a confirm, or a refused amount, needs `confirm_send`, so a tap with any other action is neither a cancel, a confirm nor a refused amount. A confirm acts for the tapping user, and its amount is what `parseFloat` reads from the third field, at least 0.001 TRX. |
| `Token.ConfirmTapRoundTrip` | handlers/send.js:99-119 | A confirm token for user u and amount a is refused when another user taps it. It is refused as an invalid amount when a is below the minimum. Otherwise it decodes to a confirm by u of exactly a. |
| `Token.CancelTapRoundTrip` | handlers/send.js:99-112 | A cancel token for user u cancels when u taps it and is refused for everyone else. |
| `Token.OnlyNamedUserActs` | handlers/send.js:100-104 | Whenever some data lets one user cancel or confirm, any other user tapping the same data is refused. |
| `Send.Respond` | handlers/send.js:49-84 | A reply from another chat or user is ignored, and only such a reply is. A prompt is produced only for a reply that parses to an amount between 0.001 TRX and the balance read at `/withdraw`, and it carries that amount with the confirm token for the listener's user and that amount and the cancel token for that user. A rejected amount is either not finite, below the minimum, or above that balance. |
| `Send.PromptForAmount` | handlers/send.js:52-83 | When the owner replies with an amount between 0.001 TRX and the balance, written as `toFixed(8)` prints it, the prompt is for exactly that amount, with the confirm and cancel tokens for that user. |
| `Send.PromptButtonsRoundTrip` | handlers/send.js:72-79 | The owner's "Confirm" on a prompt decodes to a confirm of exactly the prompted amount, and the owner's "Cancel" to a cancel. A tap by anyone else on either button is refused. |
| `Send.CommandIsNotAnAmount` | handlers/send.js:9 | A second `/withdraw` or "💸 Withdraw" from the same user in the same chat, sent while a listener is waiting there, is taken as an invalid amount. |
| `Send.EmailOf` | handlers/send.js:31 | A wallet email is found exactly when the user has a `wallet` row with a non-empty email, and it is that email. The same lookup is made again at settlement time (line 155). |
| `Send.ProviderReason` | handlers/send.js:221 | The reason shown is the provider's message when it is non-empty, else "Unknown error". It is never empty. |
| `Send.Satoshis` | handlers/send.js:174 | `Math.floor(amount * 1e8)` is at most the amount in units and at least one unit less. It equals the amount unless the double product falls just below it. This bound is for amounts below 2^26 TRX. |
| `Send.TxId` | handlers/send.js:195 | The transaction id shown is never empty. It is `payout_id` when the provider sent one, else `transactionId` when sent, else "N/A". |
| `Send.Ledger.Debit` | handlers/send.js:190-193 | The balance of the given telegram id decreases by exactly the amount. Nothing else in the ledger changes, and an unknown id changes nothing. |
| `Send.SendHandler.constructor` | handlers/send.js:6 | The lock set and the listener registry start empty, and no payout has been sent. |
| `Send.SendHandler.Withdraw` | handlers/send.js:10-86 | An unknown user gets "register first", a user without a wallet email gets "set your wallet", and neither registers a listener. Otherwise exactly one listener is added under a fresh handle. It is bound to this chat and this user and holds the balance read now and the destination email. The lock set and the payouts are untouched. |
| `Send.SendHandler.OnReply` | handlers/send.js:48-84 | The listener answers as `Respond` says. A non-matching message leaves the registry unchanged. A matching message removes this listener and no other. The lock set and the payouts are untouched. |
| `Send.SendHandler.OnCallback` | handlers/send.js:94-235 | A non-confirm tap touches neither the lock set, the payouts nor the ledger. A confirm whose key is locked answers "already processed" and changes nothing. Any other confirm adds its key, which stays, and then checks the user, the current balance, the wallet email and the API key. The provider is called once, exactly when all those checks pass, with `Math.floor(amount * 1e8)` satoshis: the confirmed amount, or one unit less. The ledger is debited by exactly the confirmed amount exactly when the provider answers 200; thrown calls and other statuses leave it unchanged. The ledger changes if and only if the outcome is "sent". Non-negative balances stay non-negative, and `Valid()` (at most one payout per key) is kept. |

## Left out

- handlers/balance.js, handlers/help.js, handlers/start.js and index.js are not part of this model. They hold display formatting, static messages and bot wiring.
- Telegram transport calls (`sendMessage`, `editMessageText`, `editMessageReplyMarkup`, `answerCallbackQuery`), message texts and Markdown are not modelled. Each handler returns an outcome value instead.
- Database failures are not modelled: the tables always answer. This covers the `catch` blocks at lines 87-90 and 232-234, and the case where the `UPDATE` at line 190 throws after a successful payout and is reported as a failed withdrawal.
- The HTTP request (form encoding, URL, 15 s timeout) is not modelled. The provider's answer is a parameter, and any exception from the call is `Thrown`. The environment variable read is a boolean parameter.
- The fire-and-forget post to the log channel (lines 203-218) and console logging are not modelled, because they do not affect the outcome or the state.
- Interleaving between handlers is not modelled: each handler runs to completion. The lock check-and-add (lines 122-125) has no `await` between its two steps, so it is atomic in the source too. The read-then-write debit race, where two different amounts pass the balance re-check concurrently, is not represented.
- The event emitter's delivery of one message to every registered listener is not modelled. `OnReply` is one listener receiving one message.
- Amount.ParseAmount: skips leading white space as `parseFloat` does, then reads only plain decimal notation: an optional sign, digits, and an optional point with at most eight fraction digits. `parseFloat` also reads exponent notation, `Infinity`, more fraction digits, and a numeric prefix followed by other text. The model treats all of those as not a number, and so as an invalid amount.
- Binary floating point is not modelled. Amounts and balances are exact multiples of 1e-8. Below 2^26 TRX (67,108,864 TRX), neighbouring doubles are less than 1e-8 apart, so `parseFloat` and `toFixed(8)` keep every 8-decimal amount exactly. There, `Math.floor(amount * 1e8)` (line 174) is the one place where double rounding changes a value. It is modelled by `Send.Satoshis` with a `roundsDown` parameter. The exponent form `toFixed` uses from 1e21 up is left out.
- Send.Satoshis: the model covers amounts below 2^26 TRX. From 2^26 TRX up, doubles are more than 1e-8 apart. A typed amount can then be read as a neighbouring double, so the confirm token can carry a different amount than the one typed (a reply of `67108864.00000002` gives a token for `67108864.00000001`). `Math.floor(amount * 1e8)` can also exceed the token's amount by one unit: a token for `129298779.05886775` pays 12929877905886776 satoshis. `Satoshis`' bound `r <= units` and the model's exact round trip of printed amounts do not hold there.
- Send.SendHandler.OnCallback: the provider may be paid one unit (1e-8 TRX) less than the ledger is debited. Which amounts lose that unit depends on binary floating point. It is the `roundsDown` parameter, not a function of the amount. For amounts from 2^26 TRX up, the source can also pay one unit more than the amount debited. The model, and `Valid()`'s `satoshis <= key.units`, do not cover that range (see `Send.Satoshis` above).
- Send.SendHandler.Withdraw: the prompt `sendMessage` at line 41 is assumed never to throw. In the source, a throw there lands in the `catch` at lines 87-90. The user gets "Something went wrong" and no reply listener is registered, while the model always registers one once the user and the wallet email are found.
- Send.Account: `wallet_balance` is assumed never to be NULL; the schema is not part of this model. In the source a NULL balance reads as NaN (`parseFloat` at lines 24 and 143). Both `balance < amount` tests (lines 57 and 144) are then false, so the prompt is sent, the payout goes out, and the `UPDATE` at line 191 leaves the balance NULL. The model's "insufficient balance means no payout" holds only for non-NULL balances.
- Send.SendHandler.OnCallback: the Telegram calls are assumed never to throw. In the source, a throw from `answerCallbackQuery` or `editMessageText` after a successful payout (lines 197-201) lands in the `catch` at lines 225-231. The user is then told the withdrawal failed, although the payout went out and the ledger was debited. A throw from `editMessageReplyMarkup` (line 128) happens after the lock key is added. It leaves the key locked, with no payout, no debit and no reply.
- The lock key string `${tgIdStr}:${amount}` is modelled as the pair (telegram id, amount), which the string determines and is determined by.
