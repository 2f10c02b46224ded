/** The checkout page: the card-field formatters, the validity check of the simulated
    payment and what a payment does to the cart and the dashboard counters. */
module Checkout {
  import opened Js
  import Cart
  import Auth

  const CardGroup := 4
  const CardDigits := 16
  const CardDisplayLength := 19
  const ExpiryLength := 5
  const CvvLength := 3

  // ---------------------------------------------------------------- the card number

  /** `digits.match(/.{1,4}/g)?.join(' ') || ''`: runs of four characters separated by
      single spaces (the last run may be shorter), and "" for "". */
  function GroupFours(d: string): string
    decreases |d|
  {
    if |d| <= CardGroup then d else d[..CardGroup] + " " + GroupFours(d[CardGroup..])
  }

  /** `formatCardNumber`: the digits of the input in groups of four, cut at 19 characters. */
  function FormatCardNumber(v: string): (r: string)
    ensures |r| <= CardDisplayLength
  {
    Substring(GroupFours(DigitsOnly(v)), 0, CardDisplayLength)
  }

  /** The grouped string has a space at every fifth position and a digit everywhere else. */
  predicate CardShaped(r: string) {
    forall i :: 0 <= i < |r| ==> if i % 5 == 4 then r[i] == ' ' else IsDigit(r[i])
  }

  lemma {:induction false} GroupFoursShape(d: string)
    requires AllDigits(d)
    ensures CardShaped(GroupFours(d))
    ensures d == [] ==> GroupFours(d) == []
    ensures d != [] ==> |GroupFours(d)| == |d| + (|d| - 1) / 4
    decreases |d|
  {
    if |d| > CardGroup {
      var t := d[CardGroup..];
      GroupFoursShape(t);
      ShapeCons(d[..CardGroup], GroupFours(t));
    }
  }

  /** Four digits and a space in front of a shaped string keep it shaped. */
  lemma ShapeCons(head: string, tail: string)
    requires |head| == 4 && AllDigits(head) && CardShaped(tail)
    ensures CardShaped(head + " " + tail)
  {
    var r := head + " " + tail;
    forall i | 0 <= i < |r| ensures if i % 5 == 4 then r[i] == ' ' else IsDigit(r[i]) {
      if i >= 5 {
        assert r[i] == tail[i - 5];
        assert (i - 5) % 5 == i % 5;
      }
    }
  }

  /** The digits of the grouped string are the digits grouped, and so is the grouped
      string without its spaces. */
  lemma GroupFoursDigits(d: string)
    requires AllDigits(d)
    ensures DigitsOnly(GroupFours(d)) == d && RemoveWhitespace(GroupFours(d)) == d
  {
    GroupFoursDigitsOnly(d);
    GroupFoursUnspaced(d);
  }

  lemma {:induction false} GroupFoursDigitsOnly(d: string)
    requires AllDigits(d)
    ensures DigitsOnly(GroupFours(d)) == d
    decreases |d|
  {
    if |d| <= CardGroup {
      DigitsOnlyOfDigits(d);
    } else {
      var h, t := d[..CardGroup], d[CardGroup..];
      GroupFoursDigitsOnly(t);
      DigitsOnlyAppend(h + " ", GroupFours(t));
      DigitsOnlyAppend(h, " ");
      DigitsOnlyOfDigits(h);
      assert DigitsOnly(" ") == [];
      assert h + [] == h && h + t == d;
    }
  }

  lemma {:induction false} GroupFoursUnspaced(d: string)
    requires AllDigits(d)
    ensures RemoveWhitespace(GroupFours(d)) == d
    decreases |d|
  {
    if |d| <= CardGroup {
      RemoveWhitespaceOfSolid(d);
    } else {
      var h, t := d[..CardGroup], d[CardGroup..];
      GroupFoursUnspaced(t);
      RemoveWhitespaceAppend(h + " ", GroupFours(t));
      RemoveWhitespaceAppend(h, " ");
      RemoveWhitespaceOfSolid(h);
      assert RemoveWhitespace(" ") == [];
      assert h + [] == h && h + t == d;
    }
  }

  /** The first `k` groups of the grouped string are the grouping of the first `4k` digits. */
  lemma {:induction false} GroupFoursPrefix(d: string, k: nat)
    requires k >= 1 && |d| >= 4 * k
    ensures |GroupFours(d)| >= 5 * k - 1
    ensures GroupFours(d)[..5 * k - 1] == GroupFours(d[..4 * k])
    decreases k
  {
    if |d| > CardGroup {
      var t := d[CardGroup..];
      if k == 1 {
        assert d[..4 * k] == d[..CardGroup];
      } else {
        GroupFoursPrefix(t, k - 1);
        var p := d[..4 * k];
        assert p[..CardGroup] == d[..CardGroup];
        assert p[CardGroup..] == t[..4 * (k - 1)];
        var g := GroupFours(t);
        assert (d[..CardGroup] + " " + g)[..5 * k - 1] == d[..CardGroup] + " " + g[..5 * (k - 1) - 1];
      }
    }
  }

  /** The formatted card number is the grouping of the first sixteen digits of the input. */
  lemma FormatCardNumberGroups(v: string)
    ensures FormatCardNumber(v) == GroupFours(Take(DigitsOnly(v), CardDigits))
  {
    var d := DigitsOnly(v);
    GroupFoursShape(d);
    SubstringPrefix(GroupFours(d), CardDisplayLength);
    if |d| > CardDigits {
      GroupFoursPrefix(d, 4);
    }
  }

  /** `formatCardNumber` keeps digits and single spaces only, at most 19 characters, the
      spaces after each full group of four; its digits are the first sixteen digits of
      the input, and it is "" when the input has no digit. */
  lemma FormatCardNumberProperties(v: string)
    ensures var r := FormatCardNumber(v);
      && |r| <= CardDisplayLength
      && CardShaped(r)
      && DigitsOnly(r) == Take(DigitsOnly(v), CardDigits)
      && RemoveWhitespace(r) == Take(DigitsOnly(v), CardDigits)
      && (DigitsOnly(v) == [] <==> r == [])
  {
    FormatCardNumberGroups(v);
    var d := Take(DigitsOnly(v), CardDigits);
    GroupFoursShape(d);
    GroupFoursDigits(d);
  }

  /** Formatting a formatted card number changes nothing. */
  lemma FormatCardNumberIdempotent(v: string)
    ensures FormatCardNumber(FormatCardNumber(v)) == FormatCardNumber(v)
  {
    FormatCardNumberProperties(v);
    FormatCardNumberGroups(FormatCardNumber(v));
    FormatCardNumberGroups(v);
  }

  // ---------------------------------------------------------------- expiry and CVV

  /** `formatExpiryDate`: up to two digits as they are; more become the first two, "/",
      and the next up to two. */
  function FormatExpiryDate(v: string): (r: string)
    ensures |r| <= ExpiryLength
  {
    var d := DigitsOnly(v);
    if |d| > 2 then Substring(d, 0, 2) + "/" + Substring(d, 2, 4) else Substring(d, 0, 4)
  }

  lemma FormatExpiryDateProperties(v: string)
    ensures var d, r := DigitsOnly(v), FormatExpiryDate(v);
      && (|d| <= 2 ==> r == d)
      && (|d| > 2 ==> r == d[..2] + "/" + d[2..if |d| < 4 then |d| else 4])
      && |r| <= ExpiryLength
      && (|r| == ExpiryLength <==> |d| >= 4)
  {
  }

  /** A formatted expiry formats to itself. */
  lemma FormatExpiryDateIdempotent(v: string)
    ensures FormatExpiryDate(FormatExpiryDate(v)) == FormatExpiryDate(v)
  {
    var d := DigitsOnly(v);
    var r := FormatExpiryDate(v);
    if |d| > 2 {
      var mm, yy := d[..2], d[2..if |d| < 4 then |d| else 4];
      assert r == mm + "/" + yy;
      assert AllDigits(mm) && AllDigits(yy);
      DigitsOnlyAppend(mm + "/", yy);
      DigitsOnlyAppend(mm, "/");
      DigitsOnlyOfDigits(mm);
      DigitsOnlyOfDigits(yy);
      assert DigitsOnly("/") == [];
      assert DigitsOnly(r) == mm + yy;
      assert (mm + yy)[..2] == mm && (mm + yy)[2..] == yy;
    } else {
      SubstringPrefix(d, 4);
      assert d[..|d|] == d;
      assert r == d;
      DigitsOnlyOfDigits(d);
      assert DigitsOnly(r) == d;
    }
  }

  /** The CVV field as it is stored: the input's digits, at most three. */
  function FilterCvv(v: string): (r: string)
    ensures |r| <= CvvLength
  {
    Substring(DigitsOnly(v), 0, CvvLength)
  }

  lemma FilterCvvProperties(v: string)
    ensures var r := FilterCvv(v);
      && AllDigits(r) && |r| <= CvvLength
      && r == Take(DigitsOnly(v), CvvLength)
      && FilterCvv(r) == r
  {
    var r := FilterCvv(v);
    assert AllDigits(r);
    DigitsOnlyOfDigits(r);
  }

  // ---------------------------------------------------------------- validity

  /** `isValid`: sixteen characters of card number besides white space, five of expiry,
      three of CVV and a holder name that is not blank. */
  predicate IsValid(cardNumber: string, expiryDate: string, cvv: string, cardHolder: string) {
    && |RemoveWhitespace(cardNumber)| == CardDigits
    && |expiryDate| == ExpiryLength
    && |cvv| == CvvLength
    && Trim(cardHolder) != ""
  }

  /** For fields holding what the form displays, the payment is valid exactly when the
      entries carry enough digits and the holder name has a character that is not blank. */
  lemma ValidDisplayedFields(card: string, expiry: string, cvv: string, holder: string)
    ensures IsValid(FormatCardNumber(card), FormatExpiryDate(expiry), FilterCvv(cvv), holder)
        <==> |DigitsOnly(card)| >= CardDigits && |DigitsOnly(expiry)| >= 4 && |DigitsOnly(cvv)| >= CvvLength
             && !AllWhitespace(holder)
  {
    FormatCardNumberProperties(card);
    FormatExpiryDateProperties(expiry);
    FilterCvvProperties(cvv);
    TrimEmptyIffBlank(holder);
  }

  // ---------------------------------------------------------------- the page

  datatype PaymentStatus = Paid | Declined

  /** The page shows the empty-cart view for an empty cart, unless the payment just went through. */
  predicate ShowsEmptyCart(items: seq<Cart.CartItem>, status: Option<PaymentStatus>) {
    |items| == 0 && status != Some(Paid)
  }

  class CheckoutPage {
    var cardNumber: string
    var expiryDate: string
    var cvv: string
    var cardHolder: string
    var processing: bool
    var paymentStatus: Option<PaymentStatus>

    constructor ()
      ensures cardNumber == "" && expiryDate == "" && cvv == "" && cardHolder == ""
      ensures !processing && paymentStatus.None?
    {
      cardNumber, expiryDate, cvv, cardHolder := "", "", "", "";
      processing, paymentStatus := false, None;
    }

    /** What the card-number field displays. */
    function DisplayedCardNumber(): string
      reads this
    {
      FormatCardNumber(cardNumber)
    }

    /** What the expiry field displays. */
    function DisplayedExpiryDate(): string
      reads this
    {
      FormatExpiryDate(expiryDate)
    }

    method ChangeCardNumber(value: string)
      modifies this
      ensures cardNumber == value
      ensures expiryDate == old(expiryDate) && cvv == old(cvv) && cardHolder == old(cardHolder)
      ensures processing == old(processing) && paymentStatus == old(paymentStatus)
    {
      cardNumber := value;
    }

    method ChangeExpiryDate(value: string)
      modifies this
      ensures expiryDate == value
      ensures cardNumber == old(cardNumber) && cvv == old(cvv) && cardHolder == old(cardHolder)
      ensures processing == old(processing) && paymentStatus == old(paymentStatus)
    {
      expiryDate := value;
    }

    /** The CVV field stores only the filtered input. */
    method ChangeCvv(value: string)
      modifies this
      ensures cvv == FilterCvv(value) && AllDigits(cvv) && |cvv| <= CvvLength
      ensures cardNumber == old(cardNumber) && expiryDate == old(expiryDate) && cardHolder == old(cardHolder)
      ensures processing == old(processing) && paymentStatus == old(paymentStatus)
    {
      FilterCvvProperties(value);
      cvv := FilterCvv(value);
    }

    method ChangeCardHolder(value: string)
      modifies this
      ensures cardHolder == value
      ensures cardNumber == old(cardNumber) && expiryDate == old(expiryDate) && cvv == old(cvv)
      ensures processing == old(processing) && paymentStatus == old(paymentStatus)
    {
      cardHolder := value;
    }

    /** `handleSimulatePayment` once its delay is over: a valid form pays, empties the cart
        and counts the order with the cart's total from before; an invalid one is declined
        and the cart stays. The form fields are kept and processing ends either way. */
    method SimulatePayment(cart: Cart.CartStore, auth: Auth.AuthProvider, stats: Auth.StatsDocument, update: Auth.Write)
      modifies this, cart, stats
      ensures cardNumber == old(cardNumber) && expiryDate == old(expiryDate)
      ensures cvv == old(cvv) && cardHolder == old(cardHolder)
      ensures !processing
      ensures IsValid(cardNumber, expiryDate, cvv, cardHolder) ==>
        && paymentStatus == Some(Paid) && cart.items == []
        && stats.doc == (if auth.hasDb && Truthy(auth.appId)
                         then Some(Auth.AfterOrder(old(stats.doc), update, old(Cart.Total(cart.items))))
                         else old(stats.doc))
      ensures !IsValid(cardNumber, expiryDate, cvv, cardHolder) ==>
        paymentStatus == Some(Declined) && cart.items == old(cart.items) && stats.doc == old(stats.doc)
      ensures IsValid(cardNumber, expiryDate, cvv, cardHolder) ==> !ShowsEmptyCart(cart.items, paymentStatus)
      ensures !IsValid(cardNumber, expiryDate, cvv, cardHolder) ==>
        (ShowsEmptyCart(cart.items, paymentStatus) <==> old(cart.items) == [])
    {
      processing := true;
      paymentStatus := None;
      var valid := IsValid(cardNumber, expiryDate, cvv, cardHolder);
      var total := cart.CartTotal();
      if valid {
        paymentStatus := Some(Paid);
        cart.Clear();
        auth.IncrementOrderStats(stats, total, update);
      } else {
        paymentStatus := Some(Declined);
      }
      processing := false;
    }
  }
}
