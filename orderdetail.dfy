/** The order detail page (`pages/MyAccount/OrderDetail.jsx`): the 30-day
    return window, the Return and Track buttons, the payment-method label and
    how far down the PDF invoice the item lines reach. The clock and date
    parsing are parameters. */
module OrderDetail {
  import opened Options
  import opened Text
  import opened Seqs
  import opened Orders

  /** Milliseconds in a day: `1000 * 60 * 60 * 24`. */
  const DayMs := 86400000
  const ReturnWindowDays := 30

  /** `isReturnEligible`, with `now` the current time and `parseDate` the
      `new Date(text).getTime()` of the delivery date (None: NaN), both in
      milliseconds. */
  predicate IsReturnEligible(order: Option<Order>, now: int, parseDate: string -> Option<int>) {
    && order.Some? && order.value.status == "delivered" && Filled(order.value.actualDeliveryDate)
    && match parseDate(order.value.actualDeliveryDate.value)
       case None => false
       case Some(delivered) => (now - delivered) as real / DayMs as real <= ReturnWindowDays as real
  }

  /** Returnable exactly when the order was delivered, its delivery date
      parses, and at most 30 whole days' worth of milliseconds have passed. */
  lemma ReturnEligibleIff(order: Option<Order>, now: int, parseDate: string -> Option<int>)
    ensures IsReturnEligible(order, now, parseDate) <==>
      && order.Some? && order.value.status == "delivered" && Filled(order.value.actualDeliveryDate)
      && parseDate(order.value.actualDeliveryDate.value).Some?
      && now - parseDate(order.value.actualDeliveryDate.value).value <= ReturnWindowDays * DayMs
  {
    if order.Some? && order.value.status == "delivered" && Filled(order.value.actualDeliveryDate)
       && parseDate(order.value.actualDeliveryDate.value).Some? {
      var elapsed := now - parseDate(order.value.actualDeliveryDate.value).value;
      WithinDays(elapsed);
    }
  }

  lemma WithinDays(elapsed: int)
    ensures elapsed as real / DayMs as real <= ReturnWindowDays as real <==> elapsed <= ReturnWindowDays * DayMs
  {
    var x := elapsed as real / DayMs as real;
    assert x * DayMs as real == elapsed as real;
  }

  datatype ReturnAction = GoToReturn(path: string) | NotEligible

  /** `handleReturnOrder` */
  function HandleReturn(order: Option<Order>, now: int, parseDate: string -> Option<int>): (r: ReturnAction)
    ensures r.GoToReturn? <==> IsReturnEligible(order, now, parseDate)
    ensures r.GoToReturn? ==> r.path == "/account/orders/" + order.value.id + "/return"
  {
    if IsReturnEligible(order, now, parseDate) then GoToReturn("/account/orders/" + order.value.id + "/return")
    else NotEligible
  }

  const TrackingUnavailable := "Tracking information not available yet."

  /** The notice `handleTrackOrder` shows. */
  function TrackNotice(order: Order): (r: string)
    ensures Filled(order.trackingNumber) ==> r == "Tracking Number: " + order.trackingNumber.value
    ensures !Filled(order.trackingNumber) ==> r == TrackingUnavailable
  {
    if Filled(order.trackingNumber) then "Tracking Number: " + order.trackingNumber.value
    else TrackingUnavailable
  }

  /** The notice names the tracking number exactly when there is one. */
  lemma TrackNoticeIff(order: Order)
    ensures StartsWith(TrackNotice(order), "Tracking Number: ") <==> Filled(order.trackingNumber)
  {
    var p := "Tracking Number: ";
    if Filled(order.trackingNumber) {
      assert TrackNotice(order)[..|p|] == p;
    } else {
      assert TrackingUnavailable[9] != p[9];
    }
  }

  // ---------------------------------------------------------------------------
  // The payment-method label

  /** `replace(/([A-Z])/g, " $1")`: a space before every capital letter. */
  function SpaceCapitals(s: string): string {
    if s == [] then [] else (if IsUpper(s[0]) then [' ', s[0]] else [s[0]]) + SpaceCapitals(s[1..])
  }

  /** The label shown for `order.paymentMethod`. */
  function PaymentLabel(pay: string): (r: string)
    ensures |r| > 0 ==> !IsWhitespace(r[0]) && !IsWhitespace(r[|r| - 1])
  {
    TrimEnds(SpaceCapitals(pay));
    Trim(SpaceCapitals(pay))
  }

  function NotSpace(c: char): bool {
    c != ' '
  }

  /** Deleting the spaces of a string. */
  function Unspace(s: string): string {
    Filter(s, NotSpace)
  }

  /** Deleting the inserted spaces gives back a string that had none. */
  lemma {:induction false} UnspaceSpaceCapitals(s: string)
    requires forall i :: 0 <= i < |s| ==> s[i] != ' '
    ensures Unspace(SpaceCapitals(s)) == s
  {
    if s != [] {
      var head := if IsUpper(s[0]) then [' ', s[0]] else [s[0]];
      var rest := SpaceCapitals(s[1..]);
      assert SpaceCapitals(s) == head + rest;
      UnspaceSpaceCapitals(s[1..]);
      FilterConcat(head, rest, NotSpace);
      assert [s[0]][1..] == [];
      assert Unspace([s[0]]) == [s[0]];
      if IsUpper(s[0]) {
        assert head[1..] == [s[0]];
      }
      assert Unspace(head) == [s[0]];
      assert s == [s[0]] + s[1..];
    }
  }

  /** Every character `SpaceCapitals` produces is an inserted space or a
      character of the input. */
  lemma {:induction false} SpaceCapitalsChars(s: string)
    ensures forall i :: 0 <= i < |SpaceCapitals(s)| ==> SpaceCapitals(s)[i] == ' ' || SpaceCapitals(s)[i] in s
  {
    if s != [] {
      var head := if IsUpper(s[0]) then [' ', s[0]] else [s[0]];
      var rest := SpaceCapitals(s[1..]);
      SpaceCapitalsChars(s[1..]);
      var r := SpaceCapitals(s);
      forall i | 0 <= i < |r| ensures r[i] == ' ' || r[i] in s {
        if i >= |head| {
          assert r[i] == rest[i - |head|];
          if r[i] != ' ' {
            var j :| 0 <= j < |s[1..]| && s[1..][j] == r[i];
            assert s[j + 1] == r[i];
          }
        }
      }
    }
  }

  /** Spaces only: deleting them leaves nothing. */
  lemma {:induction false} UnspaceBlank(s: string)
    requires forall i :: 0 <= i < |s| ==> s[i] == ' '
    ensures Unspace(s) == []
  {
    if s != [] {
      UnspaceBlank(s[1..]);
    }
  }

  /** In a label built from a whitespace-free string, any whitespace is an
      inserted space. */
  lemma BlanksAreSpaces(pay: string, i: nat)
    requires NoWhitespace(pay) && i < |SpaceCapitals(pay)| && IsWhitespace(SpaceCapitals(pay)[i])
    ensures SpaceCapitals(pay)[i] == ' '
  {
    SpaceCapitalsChars(pay);
    var c := SpaceCapitals(pay)[i];
    assert forall j :: 0 <= j < |pay| ==> pay[j] != c;
  }

  /** A string of spaces only, for a stretch the trim removed. */
  lemma TrimmedAreSpaces(pay: string, lo: nat, hi: nat)
    requires NoWhitespace(pay) && lo <= hi <= |SpaceCapitals(pay)|
    requires forall i :: lo <= i < hi ==> IsWhitespace(SpaceCapitals(pay)[i])
    ensures Unspace(SpaceCapitals(pay)[lo..hi]) == []
  {
    var x := SpaceCapitals(pay);
    forall i | 0 <= i < hi - lo ensures x[lo..hi][i] == ' ' {
      BlanksAreSpaces(pay, lo + i);
    }
    UnspaceBlank(x[lo..hi]);
  }

  /** `"cashOnDelivery"` becomes `"cash On Delivery"`: for a method name
      without whitespace, deleting the spaces of the label recovers it. */
  lemma PaymentLabelRoundTrip(pay: string)
    requires NoWhitespace(pay)
    ensures Unspace(PaymentLabel(pay)) == pay
  {
    var x := SpaceCapitals(pay);
    assert forall i :: 0 <= i < |pay| ==> pay[i] != ' ' by {
      forall i | 0 <= i < |pay| ensures pay[i] != ' ' {
        assert !IsWhitespace(pay[i]);
      }
    }
    UnspaceSpaceCapitals(pay);
    var lo, hi := TrimBounds(x);
    TrimmedAreSpaces(pay, 0, lo);
    TrimmedAreSpaces(pay, hi, |x|);
    UnspaceInfix(x, lo, hi);
  }

  /** Deleting spaces from an infix whose surroundings are all spaces. */
  lemma UnspaceInfix(x: string, lo: nat, hi: nat)
    requires lo <= hi <= |x| && Unspace(x[0..lo]) == [] && Unspace(x[hi..|x|]) == []
    ensures Unspace(x[lo..hi]) == Unspace(x)
  {
    assert x == x[0..lo] + x[lo..hi] + x[hi..|x|];
    FilterConcat(x[0..lo] + x[lo..hi], x[hi..|x|], NotSpace);
    FilterConcat(x[0..lo], x[lo..hi], NotSpace);
  }

  // ---------------------------------------------------------------------------
  // The PDF invoice

  /** An item whose variant has a color or a size gets a second line. */
  predicate HasVariantLine(item: OrderItem) {
    item.variant.Some? && (Filled(item.variant.value.color) || Filled(item.variant.value.size))
  }

  function VariantLines(items: seq<OrderItem>): nat {
    if items == [] then 0 else VariantLines(items[..|items| - 1]) + (if HasVariantLine(items[|items| - 1]) then 1 else 0)
  }

  /** There are at most as many variant lines as items, and none when no item
      has a color or size. */
  lemma {:induction false} VariantLinesBound(items: seq<OrderItem>)
    ensures VariantLines(items) <= |items|
    ensures (forall i :: 0 <= i < |items| ==> !HasVariantLine(items[i])) ==> VariantLines(items) == 0
  {
    if items != [] {
      VariantLinesBound(items[..|items| - 1]);
    }
  }

  /** The `y` of the "Total" line of `downloadPDF`: items start at 140, each
      takes 10 and a variant line 10 more, then 10 of space, the discount
      line when there is a discount, and the total 40 below. */
  method PdfTotalLine(order: Order) returns (y: int)
    ensures y == 140 + 10 * (|order.items| + VariantLines(order.items)) + 10
                 + (if order.discount > 0.0 then 10 else 0) + 40
  {
    y := 140;
    var i := 0;
    while i < |order.items|
      invariant 0 <= i <= |order.items|
      invariant y == 140 + 10 * (i + VariantLines(order.items[..i]))
    {
      assert order.items[..i + 1][..i] == order.items[..i];
      if HasVariantLine(order.items[i]) {
        y := y + 10;
      }
      y := y + 10;
      i := i + 1;
    }
    assert order.items[..i] == order.items;
    y := y + 10;
    if order.discount > 0.0 {
      y := y + 10;
    }
    y := y + 40;
  }
}
