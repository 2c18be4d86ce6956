/** The `/withdraw` conversation and the settlement of its confirmation
    buttons: the amount reply listener, the process-wide lock set
    `confirmedTx`, the payout call and the ledger debit. */
module Send {
  import opened Wrappers
  import opened Decimal
  import opened Amount
  import opened Token

  /** A row of `users`: the internal user id and `wallet_balance` in units. */
  datatype Account = Account(userId: nat, balance: int)

  /** `wallet_email` of a user, `None` when there is no `wallet` row or the
      email is empty (`walletRows.length === 0 || !walletRows[0].wallet_email`). */
  function EmailOf(wallets: map<nat, string>, userId: nat): (r: Option<string>)
    ensures r.Some? ==> userId in wallets && r.value == wallets[userId] && r.value != ""
    ensures r.None? ==> userId !in wallets || wallets[userId] == ""
  {
    if userId in wallets && wallets[userId] != "" then Some(wallets[userId]) else None
  }

  /** An account after `wallet_balance = wallet_balance - amount`. */
  function Debited(account: Account, units: nat): Account {
    account.(balance := account.balance - units)
  }

  /** The two tables the handlers use: `users` keyed by telegram id and
      `wallet` keyed by internal user id. */
  class Ledger {
    var users: map<nat, Account>
    var wallets: map<nat, string>

    constructor (users: map<nat, Account>, wallets: map<nat, string>)
      ensures this.users == users && this.wallets == wallets
    {
      this.users := users;
      this.wallets := wallets;
    }

    /** `UPDATE users SET wallet_balance = wallet_balance - ? WHERE telegram_id = ?`:
        an unconditional update, which touches no row for an unknown id. */
    method Debit(telegramId: nat, units: nat)
      modifies this
      ensures wallets == old(wallets)
      ensures users == if telegramId in old(users)
                       then old(users)[telegramId := Debited(old(users)[telegramId], units)]
                       else old(users)
    {
      if telegramId in users {
        users := users[telegramId := Debited(users[telegramId], units)];
      }
    }
  }

  /** The texts that start a withdrawal: `/^(\/withdraw|💸 Withdraw)$/`. */
  const WithdrawCommands: set<string> := {"/withdraw", "\U{1F4B8} Withdraw"}

  /** What the `onReply` closure captured when it was registered. */
  datatype Listener = Listener(chatId: int, telegramId: nat, balance: int, destination: string)

  /** An incoming message; `text` is `None` for a message without text. */
  datatype Message = Message(chatId: int, fromId: nat, text: Option<string>)

  /** `reply.text || ""` */
  function TextOf(m: Message): string {
    if m.text.Some? then m.text.value else ""
  }

  /** What a listener does with one message. */
  datatype Reply =
    | NotForMe                                         // another chat or another user: ignored
    | InvalidReply                                     // not a finite number, or below 0.001
    | OverBalance(balance: int)                        // more than the balance read at /withdraw
    | Prompt(units: nat, confirm: string, cancel: string)  // the confirmation prompt's buttons

  /** The body of `onReply`, apart from deregistering itself. */
  function Respond(l: Listener, m: Message): (r: Reply)
    ensures r.NotForMe? <==> m.chatId != l.chatId || m.fromId != l.telegramId
    ensures r.Prompt? ==> ParseAmount(Trim(TextOf(m))) == Some(r.units as int)
                          && MinUnits <= r.units && r.units <= l.balance
    ensures r.Prompt? ==> r.confirm == ConfirmToken(l.telegramId, r.units)
                          && r.cancel == CancelToken(l.telegramId)
    ensures r.InvalidReply? ==> !ValidAmount(ParseAmount(Trim(TextOf(m))))
    ensures r.OverBalance? ==> r.balance == l.balance && ValidAmount(ParseAmount(Trim(TextOf(m))))
                               && l.balance < ParseAmount(Trim(TextOf(m))).value
  {
    if m.chatId != l.chatId || m.fromId != l.telegramId then NotForMe
    else
      var amount := ParseAmount(Trim(TextOf(m)));
      if !ValidAmount(amount) then InvalidReply
      else if l.balance < amount.value then OverBalance(l.balance)
      else Prompt(amount.value, ConfirmToken(l.telegramId, amount.value), CancelToken(l.telegramId))
  }

  /** The owner replying with an amount from 0.001 TRX up to the balance,
      typed as `toFixed(8)` prints it, gets the prompt for exactly that
      amount. */
  lemma PromptForAmount(l: Listener, units: nat)
    requires MinUnits <= units <= l.balance
    ensures Respond(l, Message(l.chatId, l.telegramId, Some(FormatAmount(units))))
            == Prompt(units, ConfirmToken(l.telegramId, units), CancelToken(l.telegramId))
  {
    ReadsFormattedReply(units);
  }

  /** The buttons of a prompt settle what the prompt showed: its owner's
      "Confirm" decodes to a confirm of exactly the prompted amount, its
      owner's "Cancel" to a cancel, and anybody else's tap is refused. */
  lemma PromptButtonsRoundTrip(l: Listener, m: Message, chatId: int, fromId: nat)
    requires Respond(l, m).Prompt?
    requires chatId != 0
    ensures var p := Respond(l, m);
            && ClassifyTap(Some(chatId), Some(p.confirm), fromId)
               == (if fromId == l.telegramId then ConfirmTap(l.telegramId, p.units) else Unauthorized)
            && ClassifyTap(Some(chatId), Some(p.cancel), fromId)
               == (if fromId == l.telegramId then CancelTap else Unauthorized)
  {
    var p := Respond(l, m);
    ConfirmTapRoundTrip(chatId, l.telegramId, p.units, fromId);
    CancelTapRoundTrip(chatId, l.telegramId, fromId);
  }

  /** `parseFloat` of the `/withdraw` command is NaN. The text is a
      parameter rather than a literal, so that the verifier reasons about it
      through the contracts instead of evaluating the literal. */
  lemma SlashCommandNotANumber(command: string)
    requires command == "/withdraw"
    ensures ParseAmount(Trim(command)) == None
  {
  }

  /** `parseFloat` of the "\U{1F4B8} Withdraw" button text is NaN. */
  lemma ButtonCommandNotANumber(command: string)
    requires command == "\U{1F4B8} Withdraw"
    ensures ParseAmount(Trim(command)) == None
  {
  }

  /** A second `/withdraw` from the same user in the same chat reaches the
      listener still waiting there for that user's amount, which takes it for
      an invalid amount. */
  lemma CommandIsNotAnAmount(l: Listener, command: string)
    requires command in WithdrawCommands
    ensures Respond(l, Message(l.chatId, l.telegramId, Some(command))) == InvalidReply
  {
    if command == "/withdraw" {
      SlashCommandNotANumber(command);
    } else {
      ButtonCommandNotANumber(command);
    }
  }

  /** The idempotency key `${tgIdStr}:${amount}` as the pair it encodes. */
  datatype LockKey = LockKey(telegramId: nat, units: nat)

  /** One outbound payout request: `amount` in satoshis (1e-8 TRX) and `to`. */
  datatype PayoutCall = PayoutCall(key: LockKey, satoshis: nat, to: string)

  /** What the payout provider answered: the fields of `resp.data` that the
      handler reads (an empty string for a missing or falsy one), or an
      exception from the HTTP call (timeout, network error, HTTP error). */
  datatype PayoutResult =
    | Response(status: int, payoutId: string, transactionId: string, message: string)
    | Thrown

  /** `data.payout_id || data.transactionId || "N/A"` */
  function TxId(payoutId: string, transactionId: string): (r: string)
    ensures r != ""
    ensures payoutId != "" ==> r == payoutId
    ensures payoutId == "" && transactionId != "" ==> r == transactionId
    ensures payoutId == "" && transactionId == "" ==> r == "N/A"
  {
    if payoutId != "" then payoutId else if transactionId != "" then transactionId else "N/A"
  }

  /** `data.message || "Unknown error"` */
  function ProviderReason(message: string): (r: string)
    ensures r != ""
    ensures message != "" ==> r == message
    ensures message == "" ==> r == "Unknown error"
  {
    if message == "" then "Unknown error" else message
  }

  /** `Math.floor(amount * 1e8)` for an amount of `units` 1e-8 TRX, below
      2^26 TRX. There the double nearest to `units / 1e8`, times `1e8`, is
      within a unit of `units` but can land just below it (0.29 gives
      28999999.999999996), and the floor then loses one unit. Which amounts
      do so is a matter of binary floating point, outside this model:
      `roundsDown` says whether this amount does. From 2^26 TRX up the floor
      can also exceed `units` by one, which this function does not model. */
  function Satoshis(units: nat, roundsDown: bool): (r: nat)
    ensures r <= units && units <= r + 1
    ensures !roundsDown ==> r == units
    ensures roundsDown && units > 0 ==> r == units - 1
  {
    if roundsDown && units > 0 then units - 1 else units
  }

  /** A `callback_query` as the handler reads it. */
  datatype Query = Query(chatId: Option<int>, data: Option<string>, fromId: nat)

  /** The outcome of `/withdraw`. */
  datatype Intent =
    | Unregistered                               // no `users` row: register with /start first
    | WalletUnset                                // no wallet email linked
    | AskAmount(destination: string, handle: nat)  // prompt sent, listener `handle` registered

  /** The outcome of a button tap, as shown to the user. */
  datatype Settlement =
    | Ignored | NotAuthorized | Cancelled | InvalidAmount | AlreadyProcessed
    | UserNotFound | InsufficientBalance(balance: int) | NoWallet | Misconfigured
    | Sent(txid: string) | ProviderError(reason: string) | Failed

  /** The outcome of a tap that is not a valid confirm. */
  function Early(tap: Tap): Settlement
    requires !tap.ConfirmTap?
  {
    match tap
    case Ignore => Ignored
    case Unauthorized => NotAuthorized
    case CancelTap => Cancelled
    case BadAmount => InvalidAmount
  }

  /** A confirm that passes every check before the payout call: the lock key
      is new, the user exists, the balance read now covers the amount, a
      wallet email is linked and the API key is configured. */
  ghost predicate Cleared(users: map<nat, Account>, wallets: map<nat, string>,
                          locked: set<LockKey>, tap: Tap, apiKeySet: bool)
  {
    && tap.ConfirmTap?
    && LockKey(tap.telegramId, tap.units) !in locked
    && tap.telegramId in users
    && users[tap.telegramId].balance >= tap.units
    && EmailOf(wallets, users[tap.telegramId].userId).Some?
    && apiKeySet
  }

  /** The handlers of handlers/send.js with the state they share: the
      module-level lock set, the bot's `message` listeners, and a log of the
      payout requests sent to the provider. */
  class SendHandler {
    const ledger: Ledger
    var confirmedTx: set<LockKey>
    var listeners: map<nat, Listener>
    var nextHandle: nat
    var payouts: seq<PayoutCall>

    /** Every registered listener has a handle below `nextHandle`; every
        payout request went out under a key that is locked, for its amount
        or one unit less, and no two payout requests share a key. */
    ghost predicate Valid()
      reads this
    {
      && (forall h :: h in listeners ==> h < nextHandle)
      && (forall i :: 0 <= i < |payouts| ==>
            && payouts[i].key in confirmedTx
            && payouts[i].satoshis <= payouts[i].key.units <= payouts[i].satoshis + 1)
      && (forall i, j :: 0 <= i < j < |payouts| ==> payouts[i].key != payouts[j].key)
    }

    constructor (ledger: Ledger)
      ensures Valid()
      ensures this.ledger == ledger
      ensures confirmedTx == {} && listeners == map[] && nextHandle == 0 && payouts == []
    {
      this.ledger := ledger;
      confirmedTx := {};
      listeners := map[];
      nextHandle := 0;
      payouts := [];
    }

    /** `/withdraw`: look the user and the wallet email up, and register a
        one-shot listener for this chat and this user that remembers the
        balance read now. */
    method Withdraw(chatId: int, telegramId: nat) returns (out: Intent)
      requires Valid()
      modifies this
      ensures Valid()
      ensures confirmedTx == old(confirmedTx) && payouts == old(payouts)
      ensures telegramId !in ledger.users ==> out == Unregistered
      ensures telegramId in ledger.users ==>
                match EmailOf(ledger.wallets, ledger.users[telegramId].userId)
                case None => out == WalletUnset
                case Some(email) => out == AskAmount(email, old(nextHandle))
      ensures out.AskAmount? ==>
                && out.handle !in old(listeners)
                && listeners == old(listeners)[out.handle :=
                     Listener(chatId, telegramId, ledger.users[telegramId].balance, out.destination)]
      ensures !out.AskAmount? ==> listeners == old(listeners) && nextHandle == old(nextHandle)
    {
      if telegramId !in ledger.users {
        return Unregistered;
      }
      var account := ledger.users[telegramId];
      var email := EmailOf(ledger.wallets, account.userId);
      if email.None? {
        return WalletUnset;
      }
      var handle := nextHandle;
      listeners := listeners[handle := Listener(chatId, telegramId, account.balance, email.value)];
      nextHandle := nextHandle + 1;
      out := AskAmount(email.value, handle);
    }

    /** Listener `handle` receives message `m`: a message from another chat
        or user leaves everything as it was; the first matching one removes
        the listener and is answered as `Respond` says. */
    method OnReply(handle: nat, m: Message) returns (out: Reply)
      requires Valid() && handle in listeners
      modifies this
      ensures Valid()
      ensures out == Respond(old(listeners)[handle], m)
      ensures listeners == if out.NotForMe? then old(listeners) else old(listeners) - {handle}
      ensures confirmedTx == old(confirmedTx) && payouts == old(payouts) && nextHandle == old(nextHandle)
    {
      var l := listeners[handle];
      out := Respond(l, m);
      if m.chatId != l.chatId || m.fromId != l.telegramId {
        return;
      }
      listeners := listeners - {handle};
    }

    /** A button tap. `apiKeySet` says whether FAUCETPAY_API_KEY is set,
        `roundsDown` whether `Math.floor(amount * 1e8)` loses a unit on this
        amount, and `payout` is what the provider would answer if it is
        called. */
    method OnCallback(q: Query, apiKeySet: bool, roundsDown: bool, payout: PayoutResult)
      returns (out: Settlement)
      requires Valid()
      modifies this, ledger
      ensures Valid()
      ensures listeners == old(listeners) && nextHandle == old(nextHandle)
      ensures ledger.wallets == old(ledger.wallets)
      // the lock set only grows
      ensures old(confirmedTx) <= confirmedTx
      // anything but a confirm touches neither the lock set, the payout nor the ledger
      ensures var tap := ClassifyTap(q.chatId, q.data, q.fromId);
              !tap.ConfirmTap? ==>
                && out == Early(tap)
                && confirmedTx == old(confirmedTx)
                && payouts == old(payouts)
                && ledger.users == old(ledger.users)
      // a confirm whose key is already locked changes nothing
      ensures var tap := ClassifyTap(q.chatId, q.data, q.fromId);
              tap.ConfirmTap? && LockKey(tap.telegramId, tap.units) in old(confirmedTx) ==>
                && out == AlreadyProcessed
                && confirmedTx == old(confirmedTx)
                && payouts == old(payouts)
                && ledger.users == old(ledger.users)
      // any other confirm locks its key, whatever happens next
      ensures var tap := ClassifyTap(q.chatId, q.data, q.fromId);
              tap.ConfirmTap? && LockKey(tap.telegramId, tap.units) !in old(confirmedTx) ==>
                confirmedTx == old(confirmedTx) + {LockKey(tap.telegramId, tap.units)}
      // the checks made after locking, on the ledger as it is now
      ensures var tap := ClassifyTap(q.chatId, q.data, q.fromId);
              var users := old(ledger.users);
              tap.ConfirmTap? && LockKey(tap.telegramId, tap.units) !in old(confirmedTx) ==>
                if tap.telegramId !in users then out == UserNotFound
                else if users[tap.telegramId].balance < tap.units then
                  out == InsufficientBalance(users[tap.telegramId].balance)
                else if EmailOf(ledger.wallets, users[tap.telegramId].userId).None? then out == NoWallet
                else if !apiKeySet then out == Misconfigured
                else if payout.Thrown? then out == Failed
                else if payout.status != 200 then out == ProviderError(ProviderReason(payout.message))
                else out == Sent(TxId(payout.payoutId, payout.transactionId))
      // the provider is called once, with the floored amount, exactly when every check passed
      ensures var tap := ClassifyTap(q.chatId, q.data, q.fromId);
              payouts == if Cleared(old(ledger.users), ledger.wallets, old(confirmedTx), tap, apiKeySet)
                         then old(payouts) + [PayoutCall(LockKey(tap.telegramId, tap.units), Satoshis(tap.units, roundsDown),
                                EmailOf(ledger.wallets, old(ledger.users)[tap.telegramId].userId).value)]
                         else old(payouts)
      // the ledger is debited by exactly the confirmed amount, and only on status 200
      ensures var tap := ClassifyTap(q.chatId, q.data, q.fromId);
              ledger.users == if Cleared(old(ledger.users), ledger.wallets, old(confirmedTx), tap, apiKeySet)
                                 && payout.Response? && payout.status == 200
                              then old(ledger.users)[tap.telegramId :=
                                     Debited(old(ledger.users)[tap.telegramId], tap.units)]
                              else old(ledger.users)
      // the ledger changes exactly when the withdrawal is reported as sent
      ensures out.Sent? <==> ledger.users != old(ledger.users)
      // a settlement never drives a balance below zero
      ensures (forall t :: t in old(ledger.users) ==> old(ledger.users)[t].balance >= 0) ==>
                (forall t :: t in ledger.users ==> ledger.users[t].balance >= 0)
    {
      var tap := ClassifyTap(q.chatId, q.data, q.fromId);
      if !tap.ConfirmTap? {
        return Early(tap);
      }
      var key := LockKey(tap.telegramId, tap.units);
      if key in confirmedTx {
        return AlreadyProcessed;
      }
      confirmedTx := confirmedTx + {key};

      if tap.telegramId !in ledger.users {
        return UserNotFound;
      }
      var account := ledger.users[tap.telegramId];
      if account.balance < tap.units {
        return InsufficientBalance(account.balance);
      }
      var email := EmailOf(ledger.wallets, account.userId);
      if email.None? {
        return NoWallet;
      }
      if !apiKeySet {
        return Misconfigured;
      }

      payouts := payouts + [PayoutCall(key, Satoshis(tap.units, roundsDown), email.value)];
      match payout {
        case Thrown =>
          out := Failed;
        case Response(status, payoutId, transactionId, message) =>
          if status == 200 {
            ledger.Debit(tap.telegramId, tap.units);
            out := Sent(TxId(payoutId, transactionId));
          } else {
            out := ProviderError(ProviderReason(message));
          }
      }
    }
  }
}
