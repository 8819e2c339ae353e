/**
  Whole conversations run through `Conversation.Session.Step`, with their
  outcomes worked out: an order for USDT that reaches the channel, an amount
  that is not a number, and a publish that fails.
*/
module Scenarios {
  import opened Wrappers
  import Numbers
  import M = Messages
  import opened Conversation

  const Customer := User(42, Some("ali"))
  const Noon := Clock(12, 5, 7)
  const BuyText := "💰 Buy - خرید دارم"

  /** The buy button's text carries the buy marker. */
  lemma BuyTextIsPurchase()
    ensures M.Contains(BuyText, M.BuyMarker)
    ensures M.Role(BuyText) == M.BuyerRole
  {
    assert M.OccursAt(BuyText, M.BuyMarker, |BuyText| - |M.BuyMarker|);
  }

  /** A grouped numeral is kept as it is. */
  lemma ThousandKept()
    ensures Numbers.ParseNumber("1,000") == Some("1,000")
  {
    var r := "1,000";
    assert Numbers.WellGrouped(r) by {
      assert r[0] == '1' && r[1] == ',' && r[2] == '0' && r[3] == '0' && r[4] == '0';
    }
    Numbers.ParseNumberFixedPoints(r);
  }

  /** Five digits without commas are regrouped. */
  lemma FiftyThousandGrouped()
    ensures Numbers.ParseNumber("50000") == Some("50,000")
  {
    var t := "50000";
    assert ',' !in t by {
      assert t[0] != ',' && t[1] != ',' && t[2] != ',' && t[3] != ',' && t[4] != ',';
    }
    Numbers.StripCommasNoComma(t);
    assert Numbers.IsDigits(t) by {
      assert t[0] == '5' && t[1] == '0' && t[2] == '0' && t[3] == '0' && t[4] == '0';
    }
    assert Numbers.Canonical(t) == t;
    assert t[..|t| - 3] == "50" && t[|t| - 3..] == "000";
    assert Numbers.Group(t) == "50,000";
    Numbers.ParseNumberValue(t);
  }

  /** A letter among the digits is refused. */
  lemma LetterRefused()
    ensures Numbers.ParseNumber("12a3") == None
  {
    var t := "12a3";
    assert t[2] == 'a' && !Numbers.IsDigit(t[2]);
    assert !Numbers.DigitsAndCommas(t);
  }

  /** The direction and currency of the scenario's order, before the amount. */
  const Chosen: M.UserData := map[M.BuySell := M.Str(BuyText), M.Currency := M.Str(M.Usdt)]
  const WithAmount: M.UserData := Chosen[M.Amount := M.Str("1,000")]
  const Priced: M.UserData := WithAmount[M.Price := M.Str("50,000")]
  const Complete: M.UserData := Priced[M.UserId := M.Int(42)][M.Username := M.Str("ali")][M.Time := M.Str("120507")]

  const OrderSummary :=
    "سفارش مشتری (120507)" + "\n" + (BuyText + "\n" + ("مقدار: 1,000 USDT (تتر)" + "\n" + (
    "قیمت: 50,000 تومان" + "\n" + "ID: 42")))
  const OrderBroadcast :=
    "💰 سفارش جدید مشتری (120507)" + "\n" + ("" + "\n" + ("💱خریدار : 1,000 تتر USDT" + "\n" + (
    "💵 با قیمت 50,000 تومان" + "\n" + "👤 ID : @ali")))

  /** Five past noon and seven seconds is stamped `120507`. */
  lemma NoonStamp()
    ensures Stamp(Noon) == "120507"
  {
    assert TwoDigits(12) == "12" && TwoDigits(5) == "05" && TwoDigits(7) == "07";
  }

  /** `str(42)`. */
  lemma IdText()
    ensures Numbers.IntToString(42) == "42"
  {
    assert Numbers.ToDecimal(4) == "4" && Numbers.DigitChar(2) == '2';
  }

  lemma SummaryAmountText()
    ensures M.SummaryReadable(Priced) && M.SummaryAmountLine(Priced) == "مقدار: 1,000 USDT (تتر)"
  {
    assert Priced[M.Currency] == M.Str(M.Usdt) && Priced[M.Amount] == M.Str("1,000");
  }

  lemma SummaryPriceText()
    ensures M.SummaryPriceLine(Priced) == "قیمت: 50,000 تومان"
  {
    assert Priced[M.Price] == M.Str("50,000");
  }

  /** The scenario's summary as the join of its line helpers, without a transfer line. */
  lemma OrderSummaryJoin()
    ensures M.SummaryReadable(Priced) && M.Summary(Priced, "120507", 42) ==
      M.SummaryHeader("120507") + "\n" + (BuyText + "\n" + (M.SummaryAmountLine(Priced) + "\n" + (
      M.SummaryPriceLine(Priced) + "\n" + M.SummaryIdLine(42))))
  {
    assert Priced[M.BuySell] == M.Str(BuyText) && Priced[M.Currency] == M.Str(M.Usdt);
  }

  /** The summary of the scenario's order. */
  lemma OrderSummaryText()
    ensures M.SummaryReadable(Priced) && M.Summary(Priced, "120507", 42) == OrderSummary
  {
    OrderSummaryJoin();
    IdText();
    SummaryAmountText();
    SummaryPriceText();
  }

  lemma ChannelAmountText()
    ensures M.ChannelReadable(Complete)
    ensures M.ChannelAmountLine(Complete, M.Role(Complete[M.BuySell].s)) == "💱خریدار : 1,000 تتر USDT"
  {
    BuyTextIsPurchase();
    assert Complete[M.BuySell] == M.Str(BuyText) && Complete[M.Currency] == M.Str(M.Usdt);
    assert Complete[M.Amount] == M.Str("1,000");
    assert M.Truthy(Complete[M.Username]);
  }

  lemma ChannelOtherText()
    ensures M.ChannelReadable(Complete)
    ensures M.ChannelHeader(Complete) == "💰 سفارش جدید مشتری (120507)"
    ensures M.ChannelPriceLine(Complete) == "💵 با قیمت 50,000 تومان"
    ensures M.ChannelIdLine(M.Mention(Complete)) == "👤 ID : @ali"
  {
    assert Complete[M.Price] == M.Str("50,000") && Complete[M.Time] == M.Str("120507");
    assert Complete[M.Username] == M.Str("ali") && M.Truthy(Complete[M.Username]);
    assert Complete[M.BuySell] == M.Str(BuyText) && Complete[M.Currency] == M.Str(M.Usdt);
    assert Complete[M.Amount] == M.Str("1,000");
  }

  /** The scenario's broadcast as the join of its line helpers, without a transfer line. */
  lemma OrderBroadcastJoin()
    ensures M.ChannelReadable(Complete)
    ensures M.ChannelText(Complete).value ==
      M.ChannelHeader(Complete) + "\n" + ("" + "\n" + (
      M.ChannelAmountLine(Complete, M.Role(Complete[M.BuySell].s)) + "\n" + (
      M.ChannelPriceLine(Complete) + "\n" + M.ChannelIdLine(M.Mention(Complete)))))
  {
    ChannelOtherText();
    assert Complete[M.Currency] == M.Str(M.Usdt);
    M.ChannelTextJoin(Complete);
  }

  /** The broadcast of the scenario's order. */
  lemma OrderBroadcastText()
    ensures M.ChannelText(Complete) == Some(OrderBroadcast)
  {
    OrderBroadcastJoin();
    ChannelAmountText();
    ChannelOtherText();
  }

  /** Takes a fresh session to CURRENCY with the buy direction. */
  method ChooseBuy(s: Session) returns (out: seq<Outbound>)
    requires s.Valid() && s.state == Start && s.userData == map[]
    modifies s
    ensures s.Valid() && s.state == Currency && s.userData == map[M.BuySell := M.Str(BuyText)]
    ensures out == [Reply(AskCurrency)]
  {
    out := s.Step(StartCommand, Noon, true);
    assert BuyText != ResetText;
    out := s.Step(TextMessage(BuyText, Customer), Noon, true);
  }

  /** From CURRENCY, USDT and an amount of `1,000`. */
  method ChooseUsdtAmount(s: Session) returns (out: seq<Outbound>)
    requires s.Valid() && s.state == Currency && s.userData == map[M.BuySell := M.Str(BuyText)]
    modifies s
    ensures s.Valid() && s.state == Price && s.userData == WithAmount
    ensures out == [Reply(AskPrice)]
  {
    out := s.Step(ButtonPress(M.Usdt), Noon, true);
    assert s.state == Amount && s.userData == Chosen;
    ThousandKept();
    assert "1,000" != ResetText;
    Numbers.ParseNumberValue("1,000");
    out := s.Step(TextMessage("1,000", Customer), Noon, true);
  }

  /** From PRICE, a price of `50000`. */
  method EnterPrice(s: Session) returns (out: seq<Outbound>)
    requires s.Valid() && s.state == Price && s.userData == WithAmount
    modifies s
    ensures s.Valid() && s.state == Final && s.userData == Complete
    ensures out == [Reply(OrderSummary), Reply(Registered)]
  {
    FiftyThousandGrouped();
    NoonStamp();
    OrderSummaryText();
    assert "50000" != ResetText && Numbers.IsDigits(Numbers.StripCommas("50000"));
    assert UsernameValue(Customer) == M.Str("ali");
    out := s.Step(TextMessage("50000", Customer), Noon, true);
  }

  /** The whole order from a fresh session, then the send button. */
  method RunOrder(s: Session, delivered: bool) returns (summary: seq<Outbound>, published: seq<Outbound>)
    requires s.Valid() && s.state == Start && s.userData == map[]
    modifies s
    ensures s.Valid() && s.state == Start && s.userData == Complete
    ensures summary == [Reply(OrderSummary), Reply(Registered)]
    ensures published == [Broadcast(OrderBroadcast), Reply(if delivered then Sent else SendFailed), Reply(RestartHint)]
  {
    var out := ChooseBuy(s);
    out := ChooseUsdtAmount(s);
    summary := EnterPrice(s);
    OrderBroadcastText();
    assert SendText != ResetText;
    published := s.Step(TextMessage(SendText, Customer), Noon, delivered);
  }

  /**
    `/start`, the buy button, USDT, an amount of `1,000` and a price of `50000`,
    then the send button with a transport that delivers: the summary and the
    broadcast carry the regrouped numbers and the conversation ends in START.
  */
  method PublishedUsdtOrder() returns (summary: seq<Outbound>, published: seq<Outbound>, final: State)
    ensures summary == [Reply(OrderSummary), Reply(Registered)]
    ensures published == [Broadcast(OrderBroadcast), Reply(Sent), Reply(RestartHint)]
    ensures final == Start
  {
    var s := new Session();
    summary, published := RunOrder(s, true);
    final := s.state;
  }

  /** An amount with a letter in it is refused and the conversation stays in AMOUNT, the amount unset. */
  method RejectedAmount() returns (reply: seq<Outbound>, final: State, hasAmount: bool)
    ensures reply == [Reply(NumbersOnly)]
    ensures final == Amount && !hasAmount
  {
    LetterRefused();
    var s := new Session();
    var out := s.Step(StartCommand, Noon, true);
    out := s.Step(TextMessage(BuyText, Customer), Noon, true);
    out := s.Step(ButtonPress(M.Usdt), Noon, true);
    reply := s.Step(TextMessage("12a3", Customer), Noon, true);
    final := s.state;
    hasAmount := M.Amount in s.userData;
  }

  /**
    A publish the transport does not deliver still ends in START; there the
    reset button is ignored and only `/start` brings the user back, with the
    old order data still in place.
  */
  method FailedPublish() returns (published: seq<Outbound>, afterReset: State, afterStart: State, kept: bool)
    ensures published == [Broadcast(OrderBroadcast), Reply(SendFailed), Reply(RestartHint)]
    ensures afterReset == Start && afterStart == BuySell && kept
  {
    var s := new Session();
    var summary;
    summary, published := RunOrder(s, false);
    var out := s.Step(TextMessage(ResetText, Customer), Noon, false);
    afterReset := s.state;
    out := s.Step(StartCommand, Noon, false);
    afterStart := s.state;
    kept := s.userData[M.Price] == M.Str("50,000");
  }
}
