/**
 * The main screen's purchase logic: how many tickets an amount of money
 * buys, the change warning, the purchase and alert actions that update the
 * screen's state, and the colour a match count is shown in. Layout is not
 * modelled; the screen owns one view model and changes its tickets only
 * through `GenerateTickets`.
 */
module Views {
  import opened SwiftText
  import opened LottoConstants
  import opened ViewModel

  /** One ticket costs 1000 won. */
  const TicketPrice: int := 1000

  const CountSuffix: string := "장 구매 후 "
  const ChangeSuffix: string := "원이 남습니다.\n그래도 구매하시겠습니까?"

  /** The typed amount parses as an Int and pays for at least one ticket. */
  predicate Affordable(input: string) {
    var money := ParseInt(input);
    money.Some? && money.value >= TicketPrice
  }

  /**
   * `purchaseCount`: the number of whole tickets the typed amount pays for,
   * and 0 when it does not parse or is below one ticket.
   */
  function PurchaseCount(input: string): (n: int)
    ensures n >= 0
    ensures !Affordable(input) ==> n == 0
    ensures Affordable(input) ==>
              n >= 1 && n * TicketPrice <= ParseInt(input).value < n * TicketPrice + TicketPrice
  {
    var money := ParseInt(input);
    if money.Some? && money.value >= TicketPrice then SwiftDiv(money.value, TicketPrice) else 0
  }

  /**
   * `canPurchase`: the purchase button is enabled, which is exactly when the
   * amount parses and is at least one ticket's price.
   */
  predicate CanPurchase(input: string)
    ensures CanPurchase(input) <==> Affordable(input)
  {
    PurchaseCount(input) > 0
  }

  /**
   * `changeAlertMessage`: the ticket count and the change left over, by
   * Swift's truncating `/` and `%`; empty when the amount does not parse.
   */
  function ChangeAlertMessage(input: string): (msg: string)
    ensures ParseInt(input).None? <==> msg == ""
  {
    var money := ParseInt(input);
    if money.None? then ""
    else
      var count := SwiftDiv(money.value, TicketPrice);
      var change := SwiftRem(money.value, TicketPrice);
      FormatInt(count) + CountSuffix + FormatInt(change) + ChangeSuffix
  }

  /**
   * The count and the change in the message add back up to the amount; for
   * an amount that buys a ticket the change is less than a ticket's price.
   */
  lemma ChangeSplit(money: int)
    ensures SwiftDiv(money, TicketPrice) * TicketPrice + SwiftRem(money, TicketPrice) == money
    ensures money >= 0 ==> 0 <= SwiftRem(money, TicketPrice) < TicketPrice
    ensures money >= TicketPrice ==> SwiftDiv(money, TicketPrice) >= 1
  {
  }

  /**
   * The alert names exactly the number of tickets the purchase will buy:
   * the message opens with that count, written so that it reads back, and
   * the ticket unit right after it.
   */
  lemma AlertNamesPurchaseCount(input: string)
    requires Affordable(input)
    ensures var shown := FormatInt(PurchaseCount(input));
            var msg := ChangeAlertMessage(input);
            && |shown| < |msg| && msg[..|shown|] == shown && msg[|shown|] == '장'
            && ParseInt(shown) == Some(PurchaseCount(input))
  {
    var money := ParseInt(input).value;
    var count := SwiftDiv(money, TicketPrice);
    assert PurchaseCount(input) == count;
    var shown := FormatInt(count);
    var msg := shown + CountSuffix + FormatInt(SwiftRem(money, TicketPrice)) + ChangeSuffix;
    assert ChangeAlertMessage(input) == msg;
    assert msg[..|shown|] == shown;
    assert msg[|shown|] == CountSuffix[0];
    ParseFormatRoundTrip(count);
  }

  /**
   * The alert names the change the purchase leaves: between the ticket unit
   * and the closing question stands a number that reads back as the amount
   * less the price of the tickets bought, 1..999 when there is change and 0
   * otherwise.
   */
  lemma AlertNamesChange(input: string)
    requires Affordable(input)
    ensures var money := ParseInt(input).value;
            var msg := ChangeAlertMessage(input);
            var start := |FormatInt(PurchaseCount(input))| + |CountSuffix|;
            var end := |msg| - |ChangeSuffix|;
            && start <= end
            && msg[start - |CountSuffix|..start] == CountSuffix && msg[end..] == ChangeSuffix
            && ParseInt(msg[start..end]) == Some(money - PurchaseCount(input) * TicketPrice)
            && (LeavesChange(input) ==> 1 <= money - PurchaseCount(input) * TicketPrice <= TicketPrice - 1)
            && (!LeavesChange(input) ==> money - PurchaseCount(input) * TicketPrice == 0)
  {
    var money := ParseInt(input).value;
    var count := SwiftDiv(money, TicketPrice);
    var change := SwiftRem(money, TicketPrice);
    assert PurchaseCount(input) == count;
    assert change == money - count * TicketPrice;
    var shown, left := FormatInt(count), FormatInt(change);
    var msg := shown + CountSuffix + left + ChangeSuffix;
    assert ChangeAlertMessage(input) == msg;
    var start := |shown| + |CountSuffix|;
    assert msg[start - |CountSuffix|..start] == CountSuffix;
    assert msg[start..|msg| - |ChangeSuffix|] == left;
    assert msg[|msg| - |ChangeSuffix|..] == ChangeSuffix;
    ParseFormatRoundTrip(change);
  }

  /** The amount leaves change after buying whole tickets. */
  predicate LeavesChange(input: string)
    requires Affordable(input)
  {
    SwiftRem(ParseInt(input).value, TicketPrice) != 0
  }

  /** Buying `PurchaseCount` tickets spends at most the amount, and less than one ticket's price is left. */
  lemma PurchaseSpendsAmount(input: string)
    requires Affordable(input)
    ensures var money := ParseInt(input).value;
            && PurchaseCount(input) * TicketPrice + SwiftRem(money, TicketPrice) == money
            && 0 <= money - PurchaseCount(input) * TicketPrice < TicketPrice
            && (LeavesChange(input) <==> PurchaseCount(input) * TicketPrice < money)
  {
    ChangeSplit(ParseInt(input).value);
  }

  /** `resultColor`: the colour a ticket's match count is shown in. */
  function ResultColor(count: int): (c: Color)
    ensures c == Red <==> count == 6
    ensures c == Orange <==> count == 5
    ensures c == Blue <==> count == 4
    ensures c == Green <==> count == 3
    ensures c == Gray <==> !(3 <= count <= 6)
  {
    match count
    case 6 => Red
    case 5 => Orange
    case 4 => Blue
    case 3 => Green
    case _ => Gray
  }

  /** The screen's own state: the typed amount and whether the change alert is up. */
  class ContentView {
    const viewModel: LottoViewModel
    var inputMoney: string
    var showChangeAlert: bool

    constructor ()
      ensures fresh(viewModel) && viewModel.tickets == []
      ensures inputMoney == "" && !showChangeAlert
    {
      viewModel := new LottoViewModel();
      inputMoney := "";
      showChangeAlert := false;
    }

    /**
     * `completePurchase`: buys `PurchaseCount` tickets and clears the
     * amount; nothing happens when the amount buys no ticket.
     */
    method CompletePurchase()
      modifies this`inputMoney, viewModel`tickets
      ensures !CanPurchase(old(inputMoney)) ==>
                inputMoney == old(inputMoney) && viewModel.tickets == old(viewModel.tickets)
      ensures CanPurchase(old(inputMoney)) ==>
                && inputMoney == ""
                && AppendedDraws(old(viewModel.tickets), viewModel.tickets, PurchaseCount(old(inputMoney)))
    {
      var count := PurchaseCount(inputMoney);
      if count <= 0 {
        return;
      }
      viewModel.GenerateTickets(count);
      inputMoney := "";
    }

    /**
     * `purchaseTickets`, behind the purchase button: nothing for an amount
     * that buys no ticket; an amount that leaves change raises the alert and
     * buys nothing yet; an exact amount is bought at once.
     */
    method PurchaseTickets()
      modifies this`inputMoney, this`showChangeAlert, viewModel`tickets
      ensures !Affordable(old(inputMoney)) ==>
                && inputMoney == old(inputMoney) && showChangeAlert == old(showChangeAlert)
                && viewModel.tickets == old(viewModel.tickets)
      ensures Affordable(old(inputMoney)) && LeavesChange(old(inputMoney)) ==>
                && showChangeAlert
                && inputMoney == old(inputMoney) && viewModel.tickets == old(viewModel.tickets)
      ensures Affordable(old(inputMoney)) && !LeavesChange(old(inputMoney)) ==>
                && showChangeAlert == old(showChangeAlert)
                && inputMoney == ""
                && AppendedDraws(old(viewModel.tickets), viewModel.tickets, PurchaseCount(old(inputMoney)))
    {
      var money := ParseInt(inputMoney);
      if !(money.Some? && money.value >= TicketPrice) {
        return;
      }
      if SwiftRem(money.value, TicketPrice) != 0 {
        showChangeAlert := true;
      } else {
        CompletePurchase();
      }
    }

    /** The alert's "취소" button: clears the amount, buys nothing and dismisses the alert. */
    method CancelChange()
      modifies this`inputMoney, this`showChangeAlert
      ensures inputMoney == "" && !showChangeAlert
    {
      inputMoney := "";
      showChangeAlert := false;
    }

    /** The alert's "구매" button: completes the purchase and dismisses the alert. */
    method ConfirmChange()
      modifies this`inputMoney, this`showChangeAlert, viewModel`tickets
      ensures !showChangeAlert
      ensures !CanPurchase(old(inputMoney)) ==>
                inputMoney == old(inputMoney) && viewModel.tickets == old(viewModel.tickets)
      ensures CanPurchase(old(inputMoney)) ==>
                && inputMoney == ""
                && AppendedDraws(old(viewModel.tickets), viewModel.tickets, PurchaseCount(old(inputMoney)))
    {
      showChangeAlert := false;
      CompletePurchase();
    }
  }
}
