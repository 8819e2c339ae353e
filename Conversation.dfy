/**
  The order-intake conversation: one `Session` per user holds the conversation
  state and the `user_data` dictionary, and `Step` handles one inbound update
  the way the conversation handler dispatches it to the state's handler.

  What the handlers send back through the chat transport is returned as a list
  of outbound events; keyboards are not modelled.
*/
module Conversation {
  import opened Wrappers
  import Numbers
  import M = Messages

  /** The conversation states, in their declared order. */
  datatype State = Start | BuySell | Currency | Amount | Price | TransferType | Final

  /** The sender of a message: numeric id and optional username. */
  datatype User = User(id: int, username: Option<string>)

  type Hour = h: nat | h < 24
  type MinuteOrSecond = m: nat | m < 60

  /** A wall-clock reading, passed in by the caller at the price step. */
  datatype Clock = Clock(hour: Hour, minute: MinuteOrSecond, second: MinuteOrSecond)

  /**
    An inbound update: the `/start` command, a non-command text message, a press
    on an inline currency button (its callback data), or any other update
    (another command, a photo, ...), which no handler of the conversation takes.
  */
  datatype Event = StartCommand | TextMessage(text: string, from: User) | ButtonPress(data: string) | OtherUpdate

  /**
    What the bot sends: a message in the user's chat, an edit of the currency
    prompt, or the text handed to the channel transport (whether the transport
    then delivers it is the `delivered` outcome).
  */
  datatype Outbound = Reply(text: string) | EditSelection(text: string) | Broadcast(text: string)

  const ResetText := "🔄 ثبت مجدد درخواست"
  const SendText := "📤 ارسال به کانال"

  const Welcome := "به بازار صرافی سیمرغ خوش آمدید"
  const AskDirection := "خرید یا فروش لطفاً انتخاب کنید:"
  const AskCurrency := "ارز را انتخاب کنید:"
  const AskAmount := "مقدار یا تعداد را نوشته و ارسال کنید:"
  const AskTransfer := "حسابی یا نقدی را انتخاب کنید:"
  const NumbersOnly := "فقط عدد بنویسید. ممنون"
  const AskPrice := "قیمت به تومان نوشته و ارسال کنید:"
  const Registered := "ثبت شد. برای ارسال به کانال کلیک کنید"
  const Sent := "✅ سفارش شما به کانال ارسال شد"
  const SendFailed := "❌ خطا در ارسال به کانال. لطفاً مجدد تلاش کنید"
  const RestartHint := "برای شروع مجدد /start"

  /** The two messages `start` sends. */
  const StartReplies := [Reply(Welcome), Reply(AskDirection)]

  /** The states whose handler compares the text with the reset text before anything else. */
  const ResetStates := {BuySell, TransferType, Amount, Price, Final}

  function TwoDigits(n: nat): (r: string)
    requires n < 100
    ensures |r| == 2 && Numbers.AllDigits(r)
  {
    [Numbers.DigitChar(n / 10), Numbers.DigitChar(n % 10)]
  }

  lemma ValueOfTwoDigits(x: string)
    requires |x| == 2 && Numbers.AllDigits(x)
    ensures Numbers.Value(x) == 10 * Numbers.DigitValue(x[0]) + Numbers.DigitValue(x[1])
  {
    var y := x[..1];
    assert y[..0] == [] && y[0] == x[0];
    assert Numbers.Value(y) == Numbers.DigitValue(x[0]);
  }

  /** `strftime("%H%M%S")`: six digits, two each for hour, minute and second. */
  function Stamp(c: Clock): (r: string)
    ensures |r| == 6 && Numbers.AllDigits(r)
    ensures Numbers.Value(r[..2]) == c.hour && Numbers.Value(r[2..4]) == c.minute &&
      Numbers.Value(r[4..]) == c.second
  {
    var h, m, s := TwoDigits(c.hour), TwoDigits(c.minute), TwoDigits(c.second);
    var r := h + m + s;
    assert r[..2] == h && r[2..4] == m && r[4..] == s;
    ValueOfTwoDigits(h);
    ValueOfTwoDigits(m);
    ValueOfTwoDigits(s);
    r
  }

  /** The confirmation that replaces the currency prompt. */
  function SelectedText(data: string): (r: string)
    requires data in M.CurrencyNames
  {
    "ارز انتخاب شده: " + data + " (" + M.CurrencyNames[data] + ")"
  }

  /** How the sender's optional username is stored: the string, or `None`. */
  function UsernameValue(u: User): (r: M.Value) {
    match u.username
    case Some(name) => M.Str(name)
    case None => M.NoneValue
  }

  /** An amount or price as the number steps store it. */
  predicate IsStoredNumber(v: M.Value) {
    v.Str? && Numbers.IsGroupedNumeral(v.s)
  }

  /**
    What a run from `/start` has written by the time it is in state `st`, where
    `w` is the set of keys written since the latest `start`: the direction once
    past BUY_SELL; a currency with a display name once past CURRENCY; for a
    currency other than USDT a transfer type before AMOUNT; a stored amount in
    PRICE; and in FINAL also the price, the user id, the username and the time.
  */
  ghost predicate Collected(st: State, d: M.UserData, w: set<M.Key>) {
    w <= d.Keys &&
    (st in {Currency, TransferType, Amount, Price, Final} ==> M.BuySell in w && d[M.BuySell].Str?) &&
    (st in {TransferType, Amount, Price, Final} ==>
      M.Currency in w && d[M.Currency].Str? && d[M.Currency].s in M.CurrencyNames) &&
    (st == TransferType ==> d[M.Currency] != M.Str(M.Usdt)) &&
    (st in {Amount, Price, Final} && d[M.Currency] != M.Str(M.Usdt) ==>
      M.TransferType in w && d[M.TransferType].Str?) &&
    (st in {Price, Final} ==> M.Amount in w && IsStoredNumber(d[M.Amount])) &&
    (st == Final ==>
      M.Price in w && IsStoredNumber(d[M.Price]) &&
      M.UserId in w && d[M.UserId].Int? &&
      M.Username in w && (d[M.Username].Str? || d[M.Username].NoneValue?) &&
      M.Time in w && d[M.Time].Str? && |d[M.Time].s| == 6 && Numbers.AllDigits(d[M.Time].s))
  }

  /**
    With an amount collected, a stored price makes the summary readable, and
    storing the sender and the time then completes everything FINAL needs.
  */
  lemma PriceCompletes(d: M.UserData, w: set<M.Key>, price: string, from: User, time: string)
    requires Collected(Price, d, w)
    requires Numbers.IsGroupedNumeral(price)
    requires |time| == 6 && Numbers.AllDigits(time)
    ensures M.SummaryReadable(d[M.Price := M.Str(price)])
    ensures Collected(Final,
      d[M.Price := M.Str(price)][M.UserId := M.Int(from.id)][M.Username := UsernameValue(from)][M.Time := M.Str(time)],
      w + {M.Price} + {M.UserId, M.Username, M.Time})
  {
  }

  lemma StoredNumberSingleLine(v: M.Value)
    requires IsStoredNumber(v)
    ensures M.SingleLine(M.Show(v))
  {
    assert forall i :: 0 <= i < |v.s| ==> v.s[i] == ',' || Numbers.IsDigit(v.s[i]);
  }

  /**
    In FINAL the broadcast can always be rendered, so publishing fails only when
    the transport does; read line by line it carries the role, the amount, the
    price, the transfer phrase exactly when the currency is not USDT, and the
    user reference. The username is required to be a single line: Telegram
    usernames consist of letters, digits and `_`, while the model's `User`
    admits any string.
  */
  lemma FinalBroadcast(d: M.UserData, w: set<M.Key>)
    requires Collected(Final, d, w)
    requires d[M.Username].Str? ==> M.SingleLine(d[M.Username].s)
    ensures M.ChannelText(d).Some?
    ensures var ls := M.Lines(M.ChannelText(d).value);
      && |ls| == (if d[M.Currency] == M.Str(M.Usdt) then 5 else 6)
      && ls[2] == "💱" + M.Role(d[M.BuySell].s) + " : " + d[M.Amount].s + " " +
                  M.CurrencyNames[d[M.Currency].s] + " " + d[M.Currency].s
      && ls[3] == "💵 با قیمت " + d[M.Price].s + " تومان"
      && (d[M.Currency] != M.Str(M.Usdt) ==> ls[4] == "🏦 " + M.TransferPhrase(d[M.BuySell].s))
      && ls[|ls| - 1] == "👤 ID : " + (if d[M.Username].Str? && d[M.Username].s != ""
                                       then "@" + d[M.Username].s
                                       else Numbers.IntToString(d[M.UserId].i))
  {
    StoredNumberSingleLine(d[M.Amount]);
    StoredNumberSingleLine(d[M.Price]);
    assert M.SingleLine(d[M.Time].s) by {
      assert forall i :: 0 <= i < |d[M.Time].s| ==> Numbers.IsDigit(d[M.Time].s[i]);
    }
    if !M.Truthy(d[M.Username]) {
      M.ShowIntSingleLine(d[M.UserId].i);
    }
    M.ChannelLines(d);
  }

  class Session {
    /** The conversation state of this user. */
    var state: State
    /** `context.user_data`. */
    var userData: M.UserData
    /** The keys written since the latest `start` (proof bookkeeping). */
    ghost var written: set<M.Key>

    ghost predicate Valid()
      reads this
    {
      Collected(state, userData, written)
    }

    /** A user before the conversation has begun: only `/start` moves it. */
    constructor ()
      ensures Valid() && state == Start && userData == map[] && written == {}
    {
      state := Start;
      userData := map[];
      written := {};
    }

    /** `start`: greets the user, asks for buy or sell, writes nothing into `user_data`. */
    method StartHandler() returns (next: State, out: seq<Outbound>)
      modifies this`written
      ensures next == BuySell && out == StartReplies && written == {}
    {
      written := {};
      next, out := BuySell, StartReplies;
    }

    /** `buy_sell_handler`: any text other than the reset text is stored verbatim as the direction. */
    method BuySellHandler(text: string) returns (next: State, out: seq<Outbound>)
      modifies this`userData, this`written
      ensures text == ResetText ==>
        next == BuySell && out == StartReplies && userData == old(userData) && written == {}
      ensures text != ResetText ==>
        next == Currency && out == [Reply(AskCurrency)] &&
        userData == old(userData)[M.BuySell := M.Str(text)] && written == old(written) + {M.BuySell}
    {
      if text == ResetText {
        next, out := StartHandler();
        return;
      }
      userData := userData[M.BuySell := M.Str(text)];
      written := written + {M.BuySell};
      next, out := Currency, [Reply(AskCurrency)];
    }

    /**
      `currency_handler`: stores the button data verbatim, then confirms the
      choice and moves on, to AMOUNT for USDT and to TRANSFER_TYPE otherwise.
      Data without a display name makes the lookup raise after the store:
      `None`, the state is left as it is.
    */
    method CurrencyHandler(data: string) returns (next: Option<State>, out: seq<Outbound>)
      modifies this`userData, this`written
      ensures userData == old(userData)[M.Currency := M.Str(data)] && written == old(written) + {M.Currency}
      ensures data !in M.CurrencyNames ==> next == None && out == []
      ensures data in M.CurrencyNames ==>
        next == Some(if data == M.Usdt then Amount else TransferType) &&
        out == [EditSelection(SelectedText(data)), Reply(if data == M.Usdt then AskAmount else AskTransfer)]
    {
      userData := userData[M.Currency := M.Str(data)];
      written := written + {M.Currency};
      if data !in M.CurrencyNames {
        next, out := None, [];
        return;
      }
      var selected := EditSelection(SelectedText(data));
      if userData[M.Currency] == M.Str(M.Usdt) {
        next, out := Some(Amount), [selected, Reply(AskAmount)];
      } else {
        next, out := Some(TransferType), [selected, Reply(AskTransfer)];
      }
    }

    /** `transfer_handler`: any text other than the reset text is stored verbatim as the transfer type. */
    method TransferHandler(text: string) returns (next: State, out: seq<Outbound>)
      modifies this`userData, this`written
      ensures text == ResetText ==>
        next == BuySell && out == StartReplies && userData == old(userData) && written == {}
      ensures text != ResetText ==>
        next == Amount && out == [Reply(AskAmount)] &&
        userData == old(userData)[M.TransferType := M.Str(text)] && written == old(written) + {M.TransferType}
    {
      if text == ResetText {
        next, out := StartHandler();
        return;
      }
      userData := userData[M.TransferType := M.Str(text)];
      written := written + {M.TransferType};
      next, out := Amount, [Reply(AskAmount)];
    }

    /** `amount_handler`: a rejected text leaves everything as it was and asks again. */
    method AmountHandler(text: string) returns (next: State, out: seq<Outbound>)
      modifies this`userData, this`written
      ensures text == ResetText ==>
        next == BuySell && out == StartReplies && userData == old(userData) && written == {}
      ensures text != ResetText && Numbers.ParseNumber(text).None? ==>
        next == Amount && out == [Reply(NumbersOnly)] && userData == old(userData) && written == old(written)
      ensures text != ResetText && Numbers.ParseNumber(text).Some? ==>
        next == Price && out == [Reply(AskPrice)] &&
        userData == old(userData)[M.Amount := M.Str(Numbers.ParseNumber(text).value)] &&
        written == old(written) + {M.Amount}
    {
      if text == ResetText {
        next, out := StartHandler();
        return;
      }
      var amount := Numbers.ParseNumber(text);
      if amount.None? {
        next, out := Amount, [Reply(NumbersOnly)];
        return;
      }
      userData := userData[M.Amount := M.Str(amount.value)];
      written := written + {M.Amount};
      next, out := Price, [Reply(AskPrice)];
    }

    /**
      `price_handler`: like the amount step for the price; once the price is
      stored it shows the summary and stores the sender's id and username and
      the time. A summary lookup that raises (`None`) stops it after the price
      is stored.
    */
    method PriceHandler(text: string, from: User, now: Clock) returns (next: Option<State>, out: seq<Outbound>)
      modifies this`userData, this`written
      ensures text == ResetText ==>
        next == Some(BuySell) && out == StartReplies && userData == old(userData) && written == {}
      ensures text != ResetText && Numbers.ParseNumber(text).None? ==>
        next == Some(Price) && out == [Reply(NumbersOnly)] && userData == old(userData) && written == old(written)
      ensures text != ResetText && Numbers.ParseNumber(text).Some? ==>
        var priced := old(userData)[M.Price := M.Str(Numbers.ParseNumber(text).value)];
        if M.SummaryReadable(priced) then
          next == Some(Final) &&
          out == [Reply(M.Summary(priced, Stamp(now), from.id)), Reply(Registered)] &&
          userData == priced[M.UserId := M.Int(from.id)][M.Username := UsernameValue(from)][M.Time := M.Str(Stamp(now))] &&
          written == old(written) + {M.Price, M.UserId, M.Username, M.Time}
        else
          next == None && out == [] && userData == priced && written == old(written) + {M.Price}
    {
      if text == ResetText {
        var s;
        s, out := StartHandler();
        next := Some(s);
        return;
      }
      var price := Numbers.ParseNumber(text);
      if price.None? {
        next, out := Some(Price), [Reply(NumbersOnly)];
        return;
      }
      userData := userData[M.Price := M.Str(price.value)];
      written := written + {M.Price};
      if !M.SummaryReadable(userData) {
        next, out := None, [];
        return;
      }
      var time := Stamp(now);
      var summary := M.Summary(userData, time, from.id);
      userData := userData[M.UserId := M.Int(from.id)][M.Username := UsernameValue(from)][M.Time := M.Str(time)];
      written := written + {M.UserId, M.Username, M.Time};
      next, out := Some(Final), [Reply(summary), Reply(Registered)];
    }

    /**
      `send_to_channel`: renders the broadcast and hands it to the transport,
      whose outcome is `delivered`. A lookup that raises while rendering is
      caught, so nothing is posted and the result is `false`; it never raises.
    */
    method SendToChannel(delivered: bool) returns (ok: bool, out: seq<Outbound>)
      ensures ok <==> M.ChannelReadable(userData) && delivered
      ensures out == if M.ChannelReadable(userData) then [Broadcast(M.ChannelText(userData).value)] else []
    {
      var text := M.ChannelText(userData);
      if text.None? {
        ok, out := false, [];
        return;
      }
      ok, out := delivered, [Broadcast(text.value)];
    }

    /**
      `final_handler`: the reset text restarts; the send text publishes the order,
      reports the outcome and ends in START whatever it was; any other text
      returns `None`, which keeps the state.
    */
    method FinalHandler(text: string, delivered: bool) returns (next: Option<State>, out: seq<Outbound>)
      modifies this`written
      ensures text == ResetText ==> next == Some(BuySell) && out == StartReplies && written == {}
      ensures text == SendText ==>
        next == Some(Start) && written == old(written) &&
        out == (if M.ChannelReadable(userData) then [Broadcast(M.ChannelText(userData).value)] else []) +
               [Reply(if M.ChannelReadable(userData) && delivered then Sent else SendFailed), Reply(RestartHint)]
      ensures text != ResetText && text != SendText ==> next == None && out == [] && written == old(written)
    {
      if text == ResetText {
        var s;
        s, out := StartHandler();
        next := Some(s);
        return;
      }
      if text == SendText {
        var success, posted := SendToChannel(delivered);
        out := posted + [Reply(if success then Sent else SendFailed), Reply(RestartHint)];
        next := Some(Start);
        return;
      }
      next, out := None, [];
    }

    /** A text in BUY_SELL or TRANSFER_TYPE: stored verbatim under the state's key. */
    method TextToStore(text: string) returns (out: seq<Outbound>)
      requires Valid() && state in {BuySell, TransferType}
      modifies this
      ensures Valid()
      ensures text == ResetText ==> state == BuySell && userData == old(userData) && out == StartReplies
      ensures text != ResetText && old(state) == BuySell ==>
        state == Currency && userData == old(userData)[M.BuySell := M.Str(text)] && out == [Reply(AskCurrency)]
      ensures text != ResetText && old(state) == TransferType ==>
        state == Amount && userData == old(userData)[M.TransferType := M.Str(text)] && out == [Reply(AskAmount)]
    {
      if state == BuySell {
        state, out := BuySellHandler(text);
      } else {
        state, out := TransferHandler(text);
      }
    }

    /** A text in AMOUNT: accepted only when it is a number. */
    method TextToAmount(text: string) returns (out: seq<Outbound>)
      requires Valid() && state == Amount
      modifies this
      ensures Valid()
      ensures text == ResetText ==> state == BuySell && userData == old(userData) && out == StartReplies
      ensures text != ResetText ==> (state == Amount <==> !Numbers.IsDigits(Numbers.StripCommas(text)))
      ensures text != ResetText && !Numbers.IsDigits(Numbers.StripCommas(text)) ==>
        userData == old(userData) && out == [Reply(NumbersOnly)]
      ensures text != ResetText && Numbers.IsDigits(Numbers.StripCommas(text)) ==>
        state == Price && userData == old(userData)[M.Amount := M.Str(Numbers.ParseNumber(text).value)] &&
        out == [Reply(AskPrice)]
    {
      state, out := AmountHandler(text);
    }

    /** A text in PRICE: accepted only when it is a number, and then the order is complete. */
    method TextToPrice(text: string, from: User, now: Clock) returns (out: seq<Outbound>)
      requires Valid() && state == Price
      modifies this
      ensures Valid()
      ensures text == ResetText ==> state == BuySell && userData == old(userData) && out == StartReplies
      ensures text != ResetText ==> (state == Price <==> !Numbers.IsDigits(Numbers.StripCommas(text)))
      ensures text != ResetText && !Numbers.IsDigits(Numbers.StripCommas(text)) ==>
        userData == old(userData) && out == [Reply(NumbersOnly)]
      ensures text != ResetText && Numbers.IsDigits(Numbers.StripCommas(text)) ==>
        var priced := old(userData)[M.Price := M.Str(Numbers.ParseNumber(text).value)];
        var time := Stamp(now);
        state == Final &&
        userData == priced[M.UserId := M.Int(from.id)][M.Username := UsernameValue(from)][M.Time := M.Str(time)] &&
        M.SummaryReadable(priced) && out == [Reply(M.Summary(priced, time, from.id)), Reply(Registered)]
    {
      ghost var d, w := userData, written;
      var next;
      next, out := PriceHandler(text, from, now);
      if text == ResetText || Numbers.ParseNumber(text).None? {
        state := next.value;
      } else {
        PriceCompletes(d, w, Numbers.ParseNumber(text).value, from, Stamp(now));
        state := next.value;
      }
    }

    /** A text in FINAL: the reset text, the send text, or nothing happens. */
    method TextToFinal(text: string, delivered: bool) returns (out: seq<Outbound>)
      requires Valid() && state == Final
      modifies this
      ensures Valid()
      ensures text == ResetText ==> state == BuySell && userData == old(userData) && out == StartReplies
      ensures text == SendText ==>
        state == Start && userData == old(userData) && M.ChannelReadable(userData) &&
        out == [Broadcast(M.ChannelText(userData).value), Reply(if delivered then Sent else SendFailed), Reply(RestartHint)]
      ensures text != ResetText && text != SendText ==> state == Final && userData == old(userData) && out == []
    {
      var next;
      next, out := FinalHandler(text, delivered);
      if next.Some? {
        state := next.value;
      }
    }

    /** A non-command text message, passed to the handler of the current state. */
    method HandleText(text: string, from: User, now: Clock, delivered: bool) returns (out: seq<Outbound>)
      requires Valid()
      modifies this
      ensures Valid()
      ensures text == ResetText && old(state) in ResetStates ==>
        state == BuySell && userData == old(userData) && out == StartReplies
      ensures old(state) in {Start, Currency} ==> state == old(state) && userData == old(userData) && out == []
      ensures text != ResetText && old(state) == BuySell ==>
        state == Currency && userData == old(userData)[M.BuySell := M.Str(text)] && out == [Reply(AskCurrency)]
      ensures text != ResetText && old(state) == TransferType ==>
        state == Amount && userData == old(userData)[M.TransferType := M.Str(text)] && out == [Reply(AskAmount)]
      ensures text != ResetText && old(state) in {Amount, Price} ==>
        (state == old(state) <==> !Numbers.IsDigits(Numbers.StripCommas(text)))
      ensures text != ResetText && old(state) in {Amount, Price} && !Numbers.IsDigits(Numbers.StripCommas(text)) ==>
        userData == old(userData) && out == [Reply(NumbersOnly)]
      ensures text != ResetText && old(state) == Amount && Numbers.IsDigits(Numbers.StripCommas(text)) ==>
        state == Price && userData == old(userData)[M.Amount := M.Str(Numbers.ParseNumber(text).value)] &&
        out == [Reply(AskPrice)]
      ensures text != ResetText && old(state) == Price && Numbers.IsDigits(Numbers.StripCommas(text)) ==>
        var priced := old(userData)[M.Price := M.Str(Numbers.ParseNumber(text).value)];
        var time := Stamp(now);
        state == Final &&
        userData == priced[M.UserId := M.Int(from.id)][M.Username := UsernameValue(from)][M.Time := M.Str(time)] &&
        M.SummaryReadable(priced) && out == [Reply(M.Summary(priced, time, from.id)), Reply(Registered)]
      ensures text == SendText && old(state) == Final ==>
        state == Start && userData == old(userData) && M.ChannelReadable(userData) &&
        out == [Broadcast(M.ChannelText(userData).value), Reply(if delivered then Sent else SendFailed), Reply(RestartHint)]
      ensures text != ResetText && text != SendText && old(state) == Final ==>
        state == Final && userData == old(userData) && out == []
    {
      match state {
        case BuySell =>
          out := TextToStore(text);
        case TransferType =>
          out := TextToStore(text);
        case Amount =>
          out := TextToAmount(text);
        case Price =>
          out := TextToPrice(text, from, now);
        case Final =>
          out := TextToFinal(text, delivered);
        case Start =>
          out := [];
        case Currency =>
          out := [];
      }
    }

    /** A press on a currency button: handled in CURRENCY only. */
    method HandleButton(data: string) returns (out: seq<Outbound>)
      requires Valid()
      modifies this
      ensures Valid()
      ensures old(state) != Currency ==> state == old(state) && userData == old(userData) && out == []
      ensures old(state) == Currency ==>
        userData == old(userData)[M.Currency := M.Str(data)] &&
        state == (if data == M.Usdt then Amount else if data in M.CurrencyNames then TransferType else Currency) &&
        out == (if data in M.CurrencyNames
                then [EditSelection(SelectedText(data)), Reply(if data == M.Usdt then AskAmount else AskTransfer)]
                else [])
    {
      if state == Currency {
        var next;
        next, out := CurrencyHandler(data);
        if next.Some? {
          state := next.value;
        }
      } else {
        out := [];
      }
    }

    /**
      One inbound update, dispatched as the conversation handler does: `/start`
      from any state (entry point and fallback), text to the handler of the five
      text states, a currency button in CURRENCY; anything else is not handled.
      A handler's `None` leaves the state as it is.
    */
    method Step(e: Event, now: Clock, delivered: bool) returns (out: seq<Outbound>)
      requires Valid()
      modifies this
      ensures Valid()
      // `/start` and the reset text go to BUY_SELL and leave `user_data` alone
      ensures e.StartCommand? ==> state == BuySell && userData == old(userData) && out == StartReplies
      ensures e.TextMessage? && e.text == ResetText && old(state) in ResetStates ==>
        state == BuySell && userData == old(userData) && out == StartReplies
      // nothing handles text in START or CURRENCY, a button outside CURRENCY, or other updates
      ensures (e.TextMessage? && old(state) in {Start, Currency}) || (e.ButtonPress? && old(state) != Currency) ||
              e.OtherUpdate? ==>
        state == old(state) && userData == old(userData) && out == []
      // direction and transfer type: stored verbatim, never rejected
      ensures e.TextMessage? && e.text != ResetText && old(state) == BuySell ==>
        state == Currency && userData == old(userData)[M.BuySell := M.Str(e.text)] && out == [Reply(AskCurrency)]
      ensures e.TextMessage? && e.text != ResetText && old(state) == TransferType ==>
        state == Amount && userData == old(userData)[M.TransferType := M.Str(e.text)] && out == [Reply(AskAmount)]
      // currency: stored verbatim, AMOUNT iff USDT, TRANSFER_TYPE for the other four, with the
      // confirmation edit and the next prompt; unknown data raises after the store
      ensures e.ButtonPress? && old(state) == Currency ==>
        userData == old(userData)[M.Currency := M.Str(e.data)] &&
        state == (if e.data == M.Usdt then Amount else if e.data in M.CurrencyNames then TransferType else Currency) &&
        out == (if e.data in M.CurrencyNames
                then [EditSelection(SelectedText(e.data)), Reply(if e.data == M.Usdt then AskAmount else AskTransfer)]
                else [])
      // amount and price: accepted iff the text without commas is a non-empty digit string
      ensures e.TextMessage? && e.text != ResetText && old(state) in {Amount, Price} ==>
        (state == old(state) <==> !Numbers.IsDigits(Numbers.StripCommas(e.text)))
      ensures e.TextMessage? && e.text != ResetText && old(state) in {Amount, Price} &&
              !Numbers.IsDigits(Numbers.StripCommas(e.text)) ==>
        userData == old(userData) && out == [Reply(NumbersOnly)]
      ensures e.TextMessage? && e.text != ResetText && old(state) == Amount &&
              Numbers.IsDigits(Numbers.StripCommas(e.text)) ==>
        state == Price && userData == old(userData)[M.Amount := M.Str(Numbers.ParseNumber(e.text).value)] &&
        out == [Reply(AskPrice)]
      ensures e.TextMessage? && e.text != ResetText && old(state) == Price &&
              Numbers.IsDigits(Numbers.StripCommas(e.text)) ==>
        var priced := old(userData)[M.Price := M.Str(Numbers.ParseNumber(e.text).value)];
        var time := Stamp(now);
        state == Final &&
        userData == priced[M.UserId := M.Int(e.from.id)][M.Username := UsernameValue(e.from)][M.Time := M.Str(time)] &&
        M.SummaryReadable(priced) && out == [Reply(M.Summary(priced, time, e.from.id)), Reply(Registered)]
      // final: the send text always posts and always ends in START; other text keeps FINAL
      ensures e.TextMessage? && e.text == SendText && old(state) == Final ==>
        state == Start && userData == old(userData) && M.ChannelReadable(userData) &&
        out == [Broadcast(M.ChannelText(userData).value), Reply(if delivered then Sent else SendFailed), Reply(RestartHint)]
      ensures e.TextMessage? && e.text != ResetText && e.text != SendText && old(state) == Final ==>
        state == Final && userData == old(userData) && out == []
    {
      match e {
        case StartCommand =>
          state, out := StartHandler();
        case TextMessage(text, from) =>
          out := HandleText(text, from, now, delivered);
        case ButtonPress(data) =>
          out := HandleButton(data);
        case OtherUpdate =>
          out := [];
      }
    }
  }
}
