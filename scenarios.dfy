/** Clients of the handlers that walk through whole withdrawals using only
    the contracts of `SendHandler`. Each scenario holds for every user id,
    chat, balance and amount its requires clause admits. */
module Scenarios {
  import opened Wrappers
  import opened Amount
  import opened Token
  import opened Send

  /** While the user's listener waits, a reply from somebody else in the
      chat is ignored and leaves the listener in place. */
  method OtherUserReplies(chatId: int, telegramId: nat, otherId: nat, balance: nat, units: nat)
    requires otherId != telegramId
  {
    var ledger := new Ledger(map[telegramId := Account(1, balance)], map[1 := "user@example.com"]);
    var bot := new SendHandler(ledger);
    var intent := bot.Withdraw(chatId, telegramId);
    assert intent == AskAmount("user@example.com", 0);
    var other := bot.OnReply(0, Message(chatId, otherId, Some(FormatAmount(units))));
    assert other == NotForMe && 0 in bot.listeners;
  }

  /** The user's own reply, written as `toFixed(8)` prints the amount, brings
      the prompt for exactly that amount and retires the listener. */
  method AskForAmount(chatId: int, telegramId: nat, balance: nat, units: nat)
    requires MinUnits <= units <= balance
  {
    var ledger := new Ledger(map[telegramId := Account(1, balance)], map[1 := "user@example.com"]);
    var bot := new SendHandler(ledger);
    var intent := bot.Withdraw(chatId, telegramId);
    assert intent == AskAmount("user@example.com", 0);
    var l := Listener(chatId, telegramId, balance, "user@example.com");
    assert bot.listeners[0] == l;
    PromptForAmount(l, units);
    var reply := bot.OnReply(0, Message(chatId, telegramId, Some(FormatAmount(units))));
    assert reply.Prompt? && reply.units == units;
    assert 0 !in bot.listeners;
  }

  /** The prompt confirmed twice (2.5 TRX out of 5 leaves 2.5): one payout,
      one debit of the full amount, and the second tap is already processed.
      The provider is asked for the floored amount, which is one unit short
      when the floating-point product rounds down. */
  method ConfirmTwice(chatId: int, telegramId: nat, balance: nat, units: nat, roundsDown: bool)
    requires chatId != 0
    requires MinUnits <= units <= balance
  {
    var ledger := new Ledger(map[telegramId := Account(1, balance)], map[1 := "user@example.com"]);
    var bot := new SendHandler(ledger);
    var tap := Query(Some(chatId), Some(ConfirmToken(telegramId, units)), telegramId);
    ConfirmTapRoundTrip(chatId, telegramId, units, telegramId);
    var first := bot.OnCallback(tap, true, roundsDown, Response(200, "P-1", "", ""));
    assert first == Sent("P-1");
    assert ledger.users[telegramId].balance == balance - units;
    assert bot.payouts[0].satoshis == if roundsDown then units - 1 else units;

    var second := bot.OnCallback(tap, true, roundsDown, Response(200, "P-2", "", ""));
    assert second == AlreadyProcessed;
    assert |bot.payouts| == 1 && ledger.users[telegramId].balance == balance - units;
  }

  /** The provider call times out: no debit, and the key stays locked, so
      tapping again does not reach the provider a second time. */
  method PayoutTimesOut(chatId: int, telegramId: nat, balance: nat, units: nat, roundsDown: bool)
    requires chatId != 0
    requires MinUnits <= units <= balance
  {
    var ledger := new Ledger(map[telegramId := Account(1, balance)], map[1 := "user@example.com"]);
    var bot := new SendHandler(ledger);
    var tap := Query(Some(chatId), Some(ConfirmToken(telegramId, units)), telegramId);
    ConfirmTapRoundTrip(chatId, telegramId, units, telegramId);
    var first := bot.OnCallback(tap, true, roundsDown, Thrown);
    assert first == Failed && ledger.users[telegramId].balance == balance;
    var second := bot.OnCallback(tap, true, roundsDown, Response(200, "P-1", "", ""));
    assert second == AlreadyProcessed && |bot.payouts| == 1;
    assert ledger.users[telegramId].balance == balance;
  }

  /** A request above the balance read at `/withdraw` (0.001 TRX against
      0.0005, say) is refused before any prompt. */
  method RequestOverBalance(chatId: int, telegramId: nat, balance: nat, units: nat)
    requires MinUnits <= units && balance < units
  {
    var ledger := new Ledger(map[telegramId := Account(1, balance)], map[1 := "user@example.com"]);
    var bot := new SendHandler(ledger);
    var intent := bot.Withdraw(chatId, telegramId);
    assert intent == AskAmount("user@example.com", 0);
    assert bot.listeners[0] == Listener(chatId, telegramId, balance, "user@example.com");
    ReadsFormattedReply(units);
    var reply := bot.OnReply(0, Message(chatId, telegramId, Some(FormatAmount(units))));
    assert reply == OverBalance(balance);
  }

  /** Another user taps the owner's "Confirm": refused, nothing changes. */
  method ForeignTap(chatId: int, telegramId: nat, otherId: nat, balance: nat, units: nat, roundsDown: bool)
    requires chatId != 0 && otherId != telegramId
  {
    var ledger := new Ledger(map[telegramId := Account(1, balance)], map[1 := "user@example.com"]);
    var bot := new SendHandler(ledger);
    ConfirmTapRoundTrip(chatId, telegramId, units, otherId);
    var out := bot.OnCallback(Query(Some(chatId), Some(ConfirmToken(telegramId, units)), otherId), true,
                              roundsDown, Response(200, "P-1", "", ""));
    assert out == NotAuthorized && bot.confirmedTx == {} && bot.payouts == [];
    assert ledger.users[telegramId].balance == balance;
  }
}
