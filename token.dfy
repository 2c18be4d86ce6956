/** The correlation tokens carried in the confirmation prompt's buttons
    (`confirm_send:<telegramId>:<amount>` and `cancel_send:<telegramId>`) and
    the decoding of a button tap. */
module Token {
  import opened Wrappers
  import opened Decimal
  import opened Amount

  const Separator: char := ':'
  const ConfirmAction: string := "confirm_send"
  const CancelAction: string := "cancel_send"

  /** `s.split(sep)` as JavaScript defines it: the pieces between separators,
      empty pieces included, and always at least one piece. */
  function Split(s: string, sep: char): (parts: seq<string>)
    ensures |parts| >= 1
    ensures forall i :: 0 <= i < |parts| ==> sep !in parts[i]
  {
    if s == [] then [""]
    else
      var rest := Split(s[1..], sep);
      if s[0] == sep then [""] + rest
      else [[s[0]] + rest[0]] + rest[1..]
  }

  /** The pieces glued back together with `sep` between them. */
  function Join(parts: seq<string>, sep: char): string
    requires |parts| >= 1
  {
    if |parts| == 1 then parts[0] else parts[0] + [sep] + Join(parts[1..], sep)
  }

  /** Splitting loses nothing: joining the pieces gives back the string. */
  lemma {:induction false} JoinSplit(s: string, sep: char)
    ensures Join(Split(s, sep), sep) == s
  {
    if s != [] {
      var rest := Split(s[1..], sep);
      JoinSplit(s[1..], sep);
      if s[0] != sep && |rest| > 1 {
        assert rest == [rest[0]] + rest[1..];
      }
    }
  }

  lemma {:induction false} SplitOne(a: string, sep: char)
    requires sep !in a
    ensures Split(a, sep) == [a]
  {
    if a != [] {
      SplitOne(a[1..], sep);
      assert a == [a[0]] + a[1..];
    }
  }

  lemma {:induction false} SplitFirst(a: string, sep: char, rest: string)
    requires sep !in a
    ensures Split(a + [sep] + rest, sep) == [a] + Split(rest, sep)
  {
    if a == [] {
      assert (a + [sep] + rest)[1..] == rest;
    } else {
      assert (a + [sep] + rest)[1..] == a[1..] + [sep] + rest;
      SplitFirst(a[1..], sep, rest);
      assert a == [a[0]] + a[1..];
    }
  }

  /** Pieces free of the separator come back from splitting their join. */
  lemma {:induction false} SplitJoin(parts: seq<string>, sep: char)
    requires |parts| >= 1
    requires forall i :: 0 <= i < |parts| ==> sep !in parts[i]
    ensures Split(Join(parts, sep), sep) == parts
  {
    if |parts| == 1 {
      SplitOne(parts[0], sep);
    } else {
      SplitJoin(parts[1..], sep);
      SplitFirst(parts[0], sep, Join(parts[1..], sep));
    }
  }

  /** `const [action, tgIdStr, amtStr] = data.split(":")`: the first three
      pieces, `None` where the data has fewer (JavaScript's `undefined`). */
  datatype Fields = Fields(action: string, telegramId: Option<string>, amount: Option<string>)

  function Destructure(data: string): Fields {
    var parts := Split(data, Separator);
    Fields(parts[0],
           if |parts| > 1 then Some(parts[1]) else None,
           if |parts| > 2 then Some(parts[2]) else None)
  }

  /** The fields are the data read up to the first, second and third
      separator: the action is all of the data when it has no separator,
      action and id are all of it when it has exactly one, and the amount
      runs to the third separator or to the end. */
  lemma DestructureFields(data: string)
    ensures var f := Destructure(data);
            && Separator !in f.action
            && (f.telegramId.None? <==> Separator !in data)
            && (f.telegramId.None? ==> data == f.action)
            && (f.telegramId.Some? ==>
                  Separator !in f.telegramId.value && f.action + [Separator] + f.telegramId.value <= data)
            && (f.telegramId.Some? && f.amount.None? ==>
                  data == f.action + [Separator] + f.telegramId.value)
            && (f.amount.Some? ==>
                  && f.telegramId.Some? && Separator !in f.amount.value
                  && f.action + [Separator] + f.telegramId.value + [Separator] + f.amount.value <= data
                  && var k := |f.action| + |f.telegramId.value| + |f.amount.value| + 2;
                     k <= |data| && (k == |data| || data[k] == Separator))
  {
    var parts := Split(data, Separator);
    JoinSplit(data, Separator);
    if |parts| > 2 {
      var tail := Join(parts[2..], Separator);
      assert data == parts[0] + [Separator] + parts[1] + [Separator] + tail;
      if |parts| > 3 {
        assert parts[2..][1..] == parts[3..];
        assert tail == parts[2] + [Separator] + Join(parts[3..], Separator);
      }
    }
  }

  lemma DigitsHaveNoSeparator(s: string)
    requires AllDigits(s)
    ensures Separator !in s
  {
  }

  /** The confirm button's data: `confirm_send:${telegramId}:${amount.toFixed(8)}`. */
  function ConfirmToken(telegramId: nat, units: nat): string {
    ConfirmAction + [Separator] + NatToString(telegramId) + [Separator] + FormatAmount(units)
  }

  /** The cancel button's data: `cancel_send:${telegramId}`. */
  function CancelToken(telegramId: nat): string {
    CancelAction + [Separator] + NatToString(telegramId)
  }

  /** A printed amount has no `:`, so it stays one field of a token. */
  lemma NoSeparatorInAmount(units: nat)
    ensures Separator !in FormatAmount(units)
  {
  }

  /** Splitting a confirm token gives back its action, user id and amount. */
  lemma ConfirmTokenFields(telegramId: nat, units: nat)
    ensures Destructure(ConfirmToken(telegramId, units))
            == Fields(ConfirmAction, Some(NatToString(telegramId)), Some(FormatAmount(units)))
  {
    var parts := [ConfirmAction, NatToString(telegramId), FormatAmount(units)];
    NoSeparatorInAmount(units);
    DigitsHaveNoSeparator(NatToString(telegramId));
    assert Separator !in ConfirmAction;
    assert parts[1..][1..] == [FormatAmount(units)];
    assert Join(parts[1..], Separator) == NatToString(telegramId) + [Separator] + FormatAmount(units);
    assert Join(parts, Separator) == ConfirmToken(telegramId, units);
    SplitJoin(parts, Separator);
  }

  /** Splitting a cancel token gives back its action and user id, and no amount. */
  lemma CancelTokenFields(telegramId: nat)
    ensures Destructure(CancelToken(telegramId))
            == Fields(CancelAction, Some(NatToString(telegramId)), None)
  {
    var parts := [CancelAction, NatToString(telegramId)];
    DigitsHaveNoSeparator(NatToString(telegramId));
    assert Separator !in CancelAction;
    assert Join(parts, Separator) == CancelToken(telegramId);
    SplitJoin(parts, Separator);
  }

  /** What a button tap asks for, once decoded and checked. */
  datatype Tap =
    | Ignore                                  // no chat, no data, or an unknown action
    | Unauthorized                            // the tapping user is not the one in the token
    | CancelTap
    | BadAmount                               // not a finite number, or below the minimum
    | ConfirmTap(telegramId: nat, units: nat)

  /** The checks a button tap goes through before any state is touched:
      a chat and data must be present, the token's user id must be the
      tapping user's `toString()`, then the action decides, and a confirm
      must carry a finite amount of at least the minimum. */
  function ClassifyTap(chatId: Option<int>, data: Option<string>, fromId: nat): (r: Tap)
    ensures r.ConfirmTap? ==> r.telegramId == fromId && r.units >= MinUnits
    ensures r.CancelTap? ==> data.Some? && Destructure(data.value).action == CancelAction
    ensures (r.ConfirmTap? || r.BadAmount?) ==>
              data.Some? && Destructure(data.value).action == ConfirmAction
    ensures (r.CancelTap? || r.ConfirmTap?) ==>
              data.Some? && Destructure(data.value).telegramId == Some(NatToString(fromId))
    ensures r.ConfirmTap? ==>
              && data.Some? && Destructure(data.value).amount.Some?
              && ParseAmount(Destructure(data.value).amount.value) == Some(r.units as int)
  {
    if chatId.None? || chatId.value == 0 || data.None? || data.value == "" then Ignore
    else
      var f := Destructure(data.value);
      if f.telegramId.None? || f.telegramId.value == "" || NatToString(fromId) != f.telegramId.value then
        Unauthorized
      else if f.action == CancelAction then CancelTap
      else if f.action != ConfirmAction then Ignore
      else
        var amount := if f.amount.Some? then ParseAmount(f.amount.value) else None;
        if !ValidAmount(amount) then BadAmount else ConfirmTap(fromId, amount.value)
  }

  /** Tapping "Confirm" on a prompt issued for `telegramId` and `units`:
      only that user gets through, and with the very amount of the prompt. */
  lemma ConfirmTapRoundTrip(chatId: int, telegramId: nat, units: nat, fromId: nat)
    requires chatId != 0
    ensures ClassifyTap(Some(chatId), Some(ConfirmToken(telegramId, units)), fromId)
            == if fromId != telegramId then Unauthorized
               else if units < MinUnits then BadAmount
               else ConfirmTap(telegramId, units)
  {
    ConfirmTokenFields(telegramId, units);
    FormatAmountRoundTrip(units);
  }

  /** Tapping "Cancel" on a prompt issued for `telegramId`: that user
      cancels, anybody else is turned away. */
  lemma CancelTapRoundTrip(chatId: int, telegramId: nat, fromId: nat)
    requires chatId != 0
    ensures ClassifyTap(Some(chatId), Some(CancelToken(telegramId)), fromId)
            == if fromId != telegramId then Unauthorized else CancelTap
  {
    CancelTokenFields(telegramId);
  }

  /** Whatever the data, once it lets one user cancel or confirm, every
      other user tapping the same button is refused. */
  lemma OnlyNamedUserActs(chatId: Option<int>, data: Option<string>, fromId: nat, otherId: nat)
    requires ClassifyTap(chatId, data, fromId).CancelTap? || ClassifyTap(chatId, data, fromId).ConfirmTap?
    requires otherId != fromId
    ensures ClassifyTap(chatId, data, otherId) == Unauthorized
  {
  }
}
