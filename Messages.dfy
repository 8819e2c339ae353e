/**
  The order record kept in the per-user `user_data` dictionary, and the two
  texts rendered from it: the summary shown to the user once the price has been
  entered, and the broadcast sent to the channel.
*/
module Messages {
  import opened Wrappers
  import Numbers

  /** The keys the conversation writes into `user_data`. */
  datatype Key = BuySell | Currency | TransferType | Amount | Price | UserId | Username | Time

  /** A value held in `user_data`: a Python `str`, an `int` (the user id) or `None` (no username). */
  datatype Value = Str(s: string) | Int(i: int) | NoneValue

  type UserData = map<Key, Value>

  const Usdt := "USDT"

  /** Display names of the five currencies offered, keyed by their button data. */
  const CurrencyNames: map<string, string> :=
    map["USDT" := "تتر", "TRY" := "لیر", "USD" := "دلار", "EUR" := "یورو", "GBP" := "پوند"]

  /** The marker whose presence in the direction text makes the order a purchase. */
  const BuyMarker := "خرید دارم"
  const BuyerRole := "خریدار"
  const SellerRole := "فروشنده"
  const ToSellerAccount := "واریز به حساب فروشنده"
  const ToBuyerAccount := "واریز به حساب خریدار"

  /** How an f-string renders a value (`format(v, "")`, which is `str(v)` here). */
  function Show(v: Value): (r: string) {
    match v
    case Str(s) => s
    case Int(i) => Numbers.IntToString(i)
    case NoneValue => "None"
  }

  /** Python truthiness of a value. */
  predicate Truthy(v: Value) {
    match v
    case Str(s) => |s| > 0
    case Int(i) => i != 0
    case NoneValue => false
  }

  /** `p` occurs in `s` starting at index `i`. */
  predicate OccursAt(s: string, p: string, i: int) {
    0 <= i <= |s| - |p| && s[i..i + |p|] == p
  }

  /** Python's `p in s` on strings: `p` occurs in `s` as a contiguous slice. */
  predicate Contains(s: string, p: string)
    ensures Contains(s, p) <==> exists i :: OccursAt(s, p, i)
    decreases |s|
  {
    if |p| <= |s| && s[..|p|] == p then
      assert OccursAt(s, p, 0);
      true
    else if |s| <= |p| then
      assert forall i :: !OccursAt(s, p, i);
      false
    else
      var r := Contains(s[1..], p);
      assert r ==> exists i :: OccursAt(s, p, i) by {
        if r {
          var j :| OccursAt(s[1..], p, j);
          assert s[1..][j..j + |p|] == s[j + 1..j + 1 + |p|];
          assert OccursAt(s, p, j + 1);
        }
      }
      assert (exists i :: OccursAt(s, p, i)) ==> r by {
        if exists i :: OccursAt(s, p, i) {
          var i :| OccursAt(s, p, i);
          assert i != 0;
          assert s[1..][i - 1..i - 1 + |p|] == s[i..i + |p|];
          assert OccursAt(s[1..], p, i - 1);
        }
      }
      r
  }

  /** `s.split("\n")`: the lines of a text, the pieces between its newline characters. */
  function Lines(s: string): (r: seq<string>)
    ensures |r| > 0
  {
    if |s| == 0 then [""]
    else
      var rest := Lines(s[1..]);
      if s[0] == '\n' then [""] + rest else [[s[0]] + rest[0]] + rest[1..]
  }

  predicate SingleLine(s: string) {
    '\n' !in s
  }

  lemma {:induction false} LinesOfLine(a: string)
    requires SingleLine(a)
    ensures Lines(a) == [a]
  {
    if |a| > 0 {
      LinesOfLine(a[1..]);
      assert [a[0]] + a[1..] == a;
    }
  }

  lemma {:induction false} LinesCons(a: string, b: string)
    requires SingleLine(a)
    ensures Lines(a + "\n" + b) == [a] + Lines(b)
  {
    if |a| == 0 {
      assert a + "\n" + b == "\n" + b;
      assert ("\n" + b)[1..] == b;
    } else {
      assert (a + "\n" + b)[1..] == a[1..] + "\n" + b;
      LinesCons(a[1..], b);
      assert [a[0]] + a[1..] == a;
    }
  }

  /** Four single lines joined in front of a text come out as four lines before its own. */
  lemma FourLinesCons(a: string, b: string, c: string, e: string, rest: string)
    requires SingleLine(a) && SingleLine(b) && SingleLine(c) && SingleLine(e)
    ensures Lines(a + "\n" + (b + "\n" + (c + "\n" + (e + "\n" + rest)))) == [a, b, c, e] + Lines(rest)
  {
    LinesCons(e, rest);
    LinesCons(c, e + "\n" + rest);
    LinesCons(b, c + "\n" + (e + "\n" + rest));
    LinesCons(a, b + "\n" + (c + "\n" + (e + "\n" + rest)));
  }

  /** An optional line before a last one. */
  lemma OptionalLineLines(present: bool, opt: string, last: string)
    requires SingleLine(opt) && SingleLine(last)
    ensures Lines(if present then opt + "\n" + last else last) == (if present then [opt] else []) + [last]
  {
    LinesOfLine(last);
    if present {
      LinesCons(opt, last);
    }
  }

  lemma {:induction false} ToDecimalSingleLine(n: nat)
    ensures SingleLine(Numbers.ToDecimal(n))
  {
    var d := Numbers.ToDecimal(n);
    assert forall i :: 0 <= i < |d| ==> Numbers.IsDigit(d[i]);
  }

  lemma ShowIntSingleLine(i: int)
    ensures SingleLine(Show(Int(i)))
  {
    if i < 0 { ToDecimalSingleLine(-i); } else { ToDecimalSingleLine(i); }
  }

  /** What the summary reads from `user_data` besides the price it has just stored. */
  predicate SummaryReadable(d: UserData) {
    BuySell in d && Amount in d && Currency in d &&
    d[Currency].Str? && d[Currency].s in CurrencyNames &&
    (d[Currency] != Str(Usdt) ==> TransferType in d)
  }

  function SummaryHeader(time: string): (r: string)
    ensures SingleLine(time) ==> SingleLine(r)
  {
    "سفارش مشتری (" + time + ")"
  }

  function SummaryAmountLine(d: UserData): (r: string)
    requires SummaryReadable(d)
    ensures SingleLine(Show(d[Amount])) ==> SingleLine(r)
  {
    assert SingleLine(CurrencyNames[d[Currency].s]) && SingleLine(d[Currency].s) by {
      assert d[Currency].s in CurrencyNames.Keys;
    }
    "مقدار: " + Show(d[Amount]) + " " + Show(d[Currency]) + " (" + CurrencyNames[d[Currency].s] + ")"
  }

  function SummaryPriceLine(d: UserData): (r: string)
    requires Price in d
    ensures SingleLine(Show(d[Price])) ==> SingleLine(r)
  {
    "قیمت: " + Show(d[Price]) + " تومان"
  }

  function SummaryIdLine(userId: int): (r: string)
    ensures SingleLine(r)
  {
    ShowIntSingleLine(userId);
    "ID: " + Numbers.IntToString(userId)
  }

  /**
    The order summary shown to the user at the end of the price step: five
    newline-terminated pieces, the transfer type only for a currency other than
    USDT, then the user id.
  */
  function Summary(d: UserData, time: string, userId: int): (r: string)
    requires SummaryReadable(d) && Price in d
  {
    SummaryHeader(time) + "\n" + (
    Show(d[BuySell]) + "\n" + (
    SummaryAmountLine(d) + "\n" + (
    SummaryPriceLine(d) + "\n" + (
    if d[Currency] != Str(Usdt) then Show(d[TransferType]) + "\n" + SummaryIdLine(userId)
    else SummaryIdLine(userId)))))
  }

  /**
    Read line by line, the summary is the time header, the direction text, the
    amount with its currency, the price, the transfer type exactly when the
    currency is not USDT, and the user id last.
  */
  lemma SummaryLines(d: UserData, time: string, userId: int)
    requires SummaryReadable(d) && Price in d
    requires SingleLine(time) && SingleLine(Show(d[BuySell])) && SingleLine(Show(d[Amount])) &&
      SingleLine(Show(d[Price]))
    requires d[Currency] != Str(Usdt) ==> SingleLine(Show(d[TransferType]))
    ensures var ls := Lines(Summary(d, time, userId));
      && |ls| == (if d[Currency] == Str(Usdt) then 5 else 6)
      && ls[0] == "سفارش مشتری (" + time + ")"
      && ls[1] == Show(d[BuySell])
      && ls[2] == "مقدار: " + Show(d[Amount]) + " " + d[Currency].s + " (" + CurrencyNames[d[Currency].s] + ")"
      && ls[3] == "قیمت: " + Show(d[Price]) + " تومان"
      && (d[Currency] != Str(Usdt) ==> ls[4] == Show(d[TransferType]))
      && ls[|ls| - 1] == "ID: " + Numbers.IntToString(userId)
  {
    var present := d[Currency] != Str(Usdt);
    var opt, last := if present then Show(d[TransferType]) else "", SummaryIdLine(userId);
    OptionalLineLines(present, opt, last);
    FourLinesCons(SummaryHeader(time), Show(d[BuySell]), SummaryAmountLine(d), SummaryPriceLine(d),
      if present then opt + "\n" + last else last);
  }

  /** For a USDT order the summary does not depend on any transfer type stored earlier. */
  lemma SummaryIgnoresTransferType(d: UserData, time: string, userId: int, v: Value)
    requires SummaryReadable(d) && Price in d && d[Currency] == Str(Usdt)
    ensures SummaryReadable(d[TransferType := v]) && Price in d[TransferType := v]
    ensures Summary(d[TransferType := v], time, userId) == Summary(d, time, userId)
    ensures SummaryReadable(d - {TransferType}) && Summary(d - {TransferType}, time, userId) == Summary(d, time, userId)
  {
  }

  /** What `send_to_channel` reads without raising: every lookup it makes succeeds. */
  predicate ChannelReadable(d: UserData) {
    BuySell in d && d[BuySell].Str? &&
    Username in d && (Truthy(d[Username]) || UserId in d) &&
    Time in d && Amount in d && Price in d &&
    Currency in d && d[Currency].Str? && d[Currency].s in CurrencyNames
  }

  /** The role the broadcast gives the customer: buyer iff the direction text holds the buy marker. */
  function Role(buySell: string): (r: string)
    ensures SingleLine(r)
  {
    if Contains(buySell, BuyMarker) then BuyerRole else SellerRole
  }

  /** The account the funds go to, named after the customer's counterpart. */
  function TransferPhrase(buySell: string): (r: string)
    ensures SingleLine(r)
  {
    if Contains(buySell, BuyMarker) then ToSellerAccount else ToBuyerAccount
  }

  /** `@username` when the username is truthy, otherwise the user id. */
  function Mention(d: UserData): (r: string)
    requires Username in d && (Truthy(d[Username]) || UserId in d)
  {
    if Truthy(d[Username]) then "@" + Show(d[Username]) else Show(d[UserId])
  }

  function ChannelHeader(d: UserData): (r: string)
    requires Time in d
    ensures SingleLine(Show(d[Time])) ==> SingleLine(r)
  {
    "💰 سفارش جدید مشتری (" + Show(d[Time]) + ")"
  }

  function ChannelAmountLine(d: UserData, status: string): (r: string)
    requires Amount in d && Currency in d && d[Currency].Str? && d[Currency].s in CurrencyNames
    ensures SingleLine(status) && SingleLine(Show(d[Amount])) ==> SingleLine(r)
  {
    assert SingleLine(CurrencyNames[d[Currency].s]) && SingleLine(d[Currency].s) by {
      assert d[Currency].s in CurrencyNames.Keys;
    }
    "💱" + status + " : " + Show(d[Amount]) + " " + CurrencyNames[d[Currency].s] + " " + Show(d[Currency])
  }

  function ChannelPriceLine(d: UserData): (r: string)
    requires Price in d
    ensures SingleLine(Show(d[Price])) ==> SingleLine(r)
  {
    "💵 با قیمت " + Show(d[Price]) + " تومان"
  }

  function ChannelTransferLine(transfer: string): (r: string)
    ensures SingleLine(transfer) ==> SingleLine(r)
  {
    "🏦 " + transfer
  }

  function ChannelIdLine(mention: string): (r: string)
    ensures SingleLine(mention) ==> SingleLine(r)
  {
    "👤 ID : " + mention
  }

  /**
    The text `send_to_channel` builds inside its `try` block: `None` when one of
    its lookups raises (a missing key, a currency without a display name, a
    direction that is not a string), which the `except` turns into `False`.
  */
  function ChannelText(d: UserData): (r: Option<string>)
    ensures r.Some? <==> ChannelReadable(d)
  {
    if BuySell !in d || !d[BuySell].Str? then None
    else
      var status := Role(d[BuySell].s);
      var transfer := TransferPhrase(d[BuySell].s);
      if Username !in d || (!Truthy(d[Username]) && UserId !in d) then None
      else
        var mention := Mention(d);
        if Time !in d || Amount !in d || Currency !in d || !d[Currency].Str? ||
           d[Currency].s !in CurrencyNames || Price !in d
        then None
        else
          Some(
            ChannelHeader(d) + "\n" + ("" + "\n" + (
            ChannelAmountLine(d, status) + "\n" + (
            ChannelPriceLine(d) + "\n" + (
            if d[Currency] != Str(Usdt) then ChannelTransferLine(transfer) + "\n" + ChannelIdLine(mention)
            else ChannelIdLine(mention))))))
  }

  /** The broadcast is the newline-join of its lines, the transfer line only for a currency other than USDT. */
  lemma ChannelTextJoin(d: UserData)
    requires ChannelReadable(d)
    ensures ChannelText(d).value ==
      ChannelHeader(d) + "\n" + ("" + "\n" + (
      ChannelAmountLine(d, Role(d[BuySell].s)) + "\n" + (
      ChannelPriceLine(d) + "\n" + (
      if d[Currency] != Str(Usdt) then ChannelTransferLine(TransferPhrase(d[BuySell].s)) + "\n" + ChannelIdLine(Mention(d))
      else ChannelIdLine(Mention(d))))))
  {
  }

  /**
    Read line by line, the broadcast is the time header, an empty line, the
    role with amount and currency, the price, the transfer phrase exactly when
    the currency is not USDT (to the seller's account for a buyer, to the
    buyer's for a seller), and the user reference last.
  */
  lemma ChannelLines(d: UserData)
    requires ChannelReadable(d)
    requires SingleLine(Show(d[Time])) && SingleLine(Show(d[Amount])) && SingleLine(Show(d[Price])) &&
      SingleLine(Mention(d))
    ensures var ls := Lines(ChannelText(d).value);
      && |ls| == (if d[Currency] == Str(Usdt) then 5 else 6)
      && ls[0] == "💰 سفارش جدید مشتری (" + Show(d[Time]) + ")"
      && ls[1] == ""
      && ls[2] == "💱" + Role(d[BuySell].s) + " : " + Show(d[Amount]) + " " +
                  CurrencyNames[d[Currency].s] + " " + d[Currency].s
      && ls[3] == "💵 با قیمت " + Show(d[Price]) + " تومان"
      && (d[Currency] != Str(Usdt) ==> ls[4] == "🏦 " + TransferPhrase(d[BuySell].s))
      && ls[|ls| - 1] == "👤 ID : " + Mention(d)
  {
    ChannelLineList(d);
  }

  /** The broadcast split at its newlines, as the list of its line helpers. */
  lemma ChannelLineList(d: UserData)
    requires ChannelReadable(d)
    requires SingleLine(Show(d[Time])) && SingleLine(Show(d[Amount])) && SingleLine(Show(d[Price])) &&
      SingleLine(Mention(d))
    ensures Lines(ChannelText(d).value) ==
      [ChannelHeader(d), "", ChannelAmountLine(d, Role(d[BuySell].s)), ChannelPriceLine(d)] +
      (if d[Currency] != Str(Usdt) then [ChannelTransferLine(TransferPhrase(d[BuySell].s))] else []) +
      [ChannelIdLine(Mention(d))]
  {
    var b := d[BuySell].s;
    var l0, l2, l3 := ChannelHeader(d), ChannelAmountLine(d, Role(b)), ChannelPriceLine(d);
    var l4, last := ChannelTransferLine(TransferPhrase(b)), ChannelIdLine(Mention(d));
    var present := d[Currency] != Str(Usdt);
    var tail := if present then l4 + "\n" + last else last;
    OptionalLineLines(present, l4, last);
    FourLinesCons(l0, "", l2, l3, tail);
    ChannelTextJoin(d);
  }

  /** `p` is a prefix of `s`. */
  predicate StartsWith(s: string, p: string) {
    OccursAt(s, p, 0)
  }

  /**
    The broadcast's role line names the customer a buyer, and for a currency
    other than USDT its transfer line sends the funds to the seller's account,
    iff the buy marker occurs somewhere in the direction text.
  */
  lemma PostNamesBuyerIff(d: UserData)
    requires ChannelReadable(d)
    requires SingleLine(Show(d[Time])) && SingleLine(Show(d[Amount])) && SingleLine(Show(d[Price])) &&
      SingleLine(Mention(d))
    ensures var ls := Lines(ChannelText(d).value);
      && |ls| == (if d[Currency] == Str(Usdt) then 5 else 6)
      && (StartsWith(ls[2], "💱" + BuyerRole) <==> exists i :: OccursAt(d[BuySell].s, BuyMarker, i))
      && (d[Currency] != Str(Usdt) ==>
            (ls[4] == "🏦 " + ToSellerAccount <==> exists i :: OccursAt(d[BuySell].s, BuyMarker, i)))
  {
    ChannelLines(d);
    var ls := Lines(ChannelText(d).value);
    var p := "💱" + BuyerRole;
    if !Contains(d[BuySell].s, BuyMarker) {
      assert ls[2][1] == SellerRole[0] != p[1];
    } else {
      assert ls[2] == p + ls[2][|p|..];
    }
  }

  /** The broadcast does not depend on the transfer type the user chose. */
  lemma ChannelIgnoresTransferType(d: UserData, v: Value)
    ensures ChannelText(d[TransferType := v]) == ChannelText(d)
  {
    var d' := d[TransferType := v];
    assert forall k :: k != TransferType ==> (k in d' <==> k in d) && (k in d ==> d'[k] == d[k]);
  }
}
