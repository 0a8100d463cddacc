/** The receipt scoring rules. Each rule is a function of the receipt; the two
    rules the program computes with a counting loop (retailer name, item
    descriptions) are also written as methods with that loop, proved equal to
    the function. Amounts are exact integers in cents. */
module Calculator {
  import opened Domain

  // ---------------------------------------------------------------------------
  // Characters and strings
  // ---------------------------------------------------------------------------

  /** unicode.IsLetter(c) || unicode.IsNumber(c), exact on Latin-1
      (U+0000..U+00FF); characters above Latin-1 are treated as neither. */
  predicate IsLetterOrNumber(c: char) {
    || ('A' <= c <= 'Z') || ('a' <= c <= 'z') || ('0' <= c <= '9')
    || c == '\U{AA}' || c == '\U{B5}' || c == '\U{BA}'
    || ('\U{C0}' <= c <= '\U{D6}') || ('\U{D8}' <= c <= '\U{F6}') || ('\U{F8}' <= c <= '\U{FF}')
    || c == '\U{B2}' || c == '\U{B3}' || c == '\U{B9}' || ('\U{BC}' <= c <= '\U{BE}')
  }

  /** unicode.IsSpace: the Latin-1 spaces and the White_Space code points above Latin-1. */
  predicate IsSpace(c: char) {
    || c == '\t' || c == '\n' || c == '\U{0B}' || c == '\U{0C}' || c == '\r' || c == ' '
    || c == '\U{85}' || c == '\U{A0}'
    || c == '\U{1680}' || ('\U{2000}' <= c <= '\U{200A}')
    || c == '\U{2028}' || c == '\U{2029}' || c == '\U{202F}' || c == '\U{205F}' || c == '\U{3000}'
  }

  /** The number of letters and digits in `s`. */
  function AlnumCount(s: string): (n: nat)
    ensures n <= |s|
  {
    if s == [] then 0
    else AlnumCount(s[..|s| - 1]) + (if IsLetterOrNumber(s[|s| - 1]) then 1 else 0)
  }

  /** Counting is additive over concatenation. */
  lemma {:induction false} AlnumCountAppend(a: string, b: string)
    ensures AlnumCount(a + b) == AlnumCount(a) + AlnumCount(b)
    decreases |b|
  {
    if b == [] {
      assert a + b == a;
    } else {
      var b' := b[..|b| - 1];
      assert (a + b)[..|a + b| - 1] == a + b';
      AlnumCountAppend(a, b');
    }
  }

  /** Every character counts exactly when the count is the length. */
  lemma {:induction false} AlnumCountIsLength(s: string)
    ensures AlnumCount(s) == |s| <==> forall i :: 0 <= i < |s| ==> IsLetterOrNumber(s[i])
  {
    if s != [] {
      var s' := s[..|s| - 1];
      AlnumCountIsLength(s');
      assert forall i :: 0 <= i < |s'| ==> s'[i] == s[i];
    }
  }

  /** No character counts exactly when the count is zero. */
  lemma {:induction false} AlnumCountIsZero(s: string)
    ensures AlnumCount(s) == 0 <==> forall i :: 0 <= i < |s| ==> !IsLetterOrNumber(s[i])
  {
    if s != [] {
      var s' := s[..|s| - 1];
      AlnumCountIsZero(s');
      assert forall i :: 0 <= i < |s'| ==> s'[i] == s[i];
    }
  }

  /** The bytes UTF-8 needs for one code point. */
  function Utf8Width(c: char): (w: nat)
    ensures 1 <= w <= 4
    ensures w == 1 <==> c as int < 0x80
  {
    if c as int < 0x80 then 1
    else if c as int < 0x800 then 2
    else if c as int < 0x1_0000 then 3
    else 4
  }

  /** Go's len() of a string: its length in UTF-8 bytes. */
  function Utf8Length(s: string): (n: nat)
    ensures |s| <= n <= 4 * |s|
  {
    if s == [] then 0 else Utf8Length(s[..|s| - 1]) + Utf8Width(s[|s| - 1])
  }

  /** On ASCII text the byte length is the character count. */
  lemma {:induction false} AsciiUtf8Length(s: string)
    requires forall i :: 0 <= i < |s| ==> s[i] as int < 0x80
    ensures Utf8Length(s) == |s|
  {
    if s != [] {
      AsciiUtf8Length(s[..|s| - 1]);
    }
  }

  /** `s` without its leading spaces. */
  function TrimLeft(s: string): string {
    if s != [] && IsSpace(s[0]) then TrimLeft(s[1..]) else s
  }

  /** TrimLeft removes a prefix of spaces and stops at the first non-space. */
  lemma {:induction false} TrimLeftRemovesLeadingSpaces(s: string)
    ensures var t := TrimLeft(s);
      && |t| <= |s| && t == s[|s| - |t|..]
      && (t == [] || !IsSpace(t[0]))
      && (forall k :: 0 <= k < |s| - |t| ==> IsSpace(s[k]))
  {
    if s != [] && IsSpace(s[0]) {
      TrimLeftRemovesLeadingSpaces(s[1..]);
    }
  }

  /** `s` without its trailing spaces. */
  function TrimRight(s: string): string {
    if s != [] && IsSpace(s[|s| - 1]) then TrimRight(s[..|s| - 1]) else s
  }

  /** TrimRight removes a suffix of spaces and stops at the last non-space. */
  lemma {:induction false} TrimRightRemovesTrailingSpaces(s: string)
    ensures var t := TrimRight(s);
      && |t| <= |s| && t == s[..|t|]
      && (t == [] || !IsSpace(t[|t| - 1]))
      && (forall k :: |t| <= k < |s| ==> IsSpace(s[k]))
  {
    if s != [] && IsSpace(s[|s| - 1]) {
      TrimRightRemovesTrailingSpaces(s[..|s| - 1]);
    }
  }

  /** strings.TrimSpace. */
  function TrimSpace(s: string): string {
    TrimRight(TrimLeft(s))
  }

  /** TrimSpace keeps the slice of `s` between its leading and trailing
      spaces, which starts and ends with a non-space unless it is empty. */
  lemma TrimSpaceIsSlice(s: string)
    ensures var t, i := TrimSpace(s), |s| - |TrimLeft(s)|;
      && 0 <= i && i + |t| <= |s| && t == s[i..i + |t|]
      && (forall k :: 0 <= k < i ==> IsSpace(s[k]))
      && (forall k :: i + |t| <= k < |s| ==> IsSpace(s[k]))
      && (t == [] || (!IsSpace(t[0]) && !IsSpace(t[|t| - 1])))
  {
    var t, l, i := TrimSpace(s), TrimLeft(s), |s| - |TrimLeft(s)|;
    TrimLeftRemovesLeadingSpaces(s);
    TrimRightRemovesTrailingSpaces(l);
    assert t == l[..|t|];
    forall k | i + |t| <= k < |s| ensures IsSpace(s[k]) {
      assert s[k] == l[k - i];
    }
  }

  /** Trimming undoes padding: spaces put around a text that neither starts
      nor ends with a space are exactly what TrimSpace removes. */
  lemma TrimSpaceOfPadded(pre: string, s: string, post: string)
    requires forall k :: 0 <= k < |pre| ==> IsSpace(pre[k])
    requires forall k :: 0 <= k < |post| ==> IsSpace(post[k])
    requires s != [] && !IsSpace(s[0]) && !IsSpace(s[|s| - 1])
    ensures TrimSpace(pre + s + post) == s
  {
    assert pre + s + post == pre + (s + post);
    TrimLeftOfPadded(pre, s + post);
    TrimRightOfPadded(s, post);
  }

  lemma {:induction false} TrimLeftOfPadded(pre: string, s: string)
    requires forall k :: 0 <= k < |pre| ==> IsSpace(pre[k])
    requires s == [] || !IsSpace(s[0])
    ensures TrimLeft(pre + s) == s
  {
    if pre == [] {
      assert pre + s == s;
    } else {
      assert (pre + s)[1..] == pre[1..] + s;
      TrimLeftOfPadded(pre[1..], s);
    }
  }

  lemma {:induction false} TrimRightOfPadded(s: string, post: string)
    requires forall k :: 0 <= k < |post| ==> IsSpace(post[k])
    requires s == [] || !IsSpace(s[|s| - 1])
    ensures TrimRight(s + post) == s
    decreases |post|
  {
    if post == [] {
      assert s + post == s;
    } else {
      assert (s + post)[..|s + post| - 1] == s + post[..|post| - 1];
      TrimRightOfPadded(s, post[..|post| - 1]);
    }
  }

  // ---------------------------------------------------------------------------
  // The seven rules
  // ---------------------------------------------------------------------------

  /** Rule 1, retailerNamePoints, as the loop the program runs. */
  method RetailerNamePoints(name: string) returns (points: int)
    ensures points == AlnumCount(name)
  {
    points := 0;
    for i := 0 to |name|
      invariant points == AlnumCount(name[..i])
    {
      assert name[..i + 1][..i] == name[..i];
      if IsLetterOrNumber(name[i]) {
        points := points + 1;
      }
    }
    assert name[..|name|] == name;
  }

  /** Rule 2, roundDollarPoints: 50 for a total with no cents. */
  function RoundDollarPoints(totalCents: int): (r: int)
    ensures r == 50 <==> totalCents % 100 == 0
    ensures r == 0 <==> totalCents % 100 != 0
  {
    if totalCents % 100 == 0 then 50 else 0
  }

  /** Rule 3, multipleOf25CentsPoints: 25 for a total that is a multiple of 0.25. */
  function MultipleOf25CentsPoints(totalCents: int): (r: int)
    ensures r == 25 <==> totalCents % 25 == 0
    ensures r == 0 <==> totalCents % 25 != 0
  {
    if totalCents % 25 == 0 then 25 else 0
  }

  /** Rule 4, itemsPoints: 5 for every complete pair of items. */
  function ItemsPoints(items: seq<Item>): (r: int)
    ensures r >= 0 && r % 5 == 0
    ensures 2 * (r / 5) <= |items| < 2 * (r / 5) + 2
  {
    (|items| / 2) * 5
  }

  /** Two more items earn exactly five more points. */
  lemma ItemsPointsPair(items: seq<Item>, a: Item, b: Item)
    ensures ItemsPoints(items + [a, b]) == ItemsPoints(items) + 5
  {
  }

  /** Go's integer division, which truncates toward zero. */
  function TruncDiv(a: int, b: int): (q: int)
    requires b > 0
    ensures a >= 0 ==> q * b <= a < q * b + b
    ensures a < 0 ==> q * b - b < a <= q * b
  {
    if a >= 0 then a / b else -((-a) / b)
  }

  /** The points one selected item earns: its price times 0.2. A whole result
      is taken as is; otherwise the program formats it, keeps the digits before
      the decimal point and adds one. With exact cents, price * 0.2 is
      cents / 500. */
  function PricePoints(cents: int): (r: int)
    ensures cents % 500 == 0 ==> r * 500 == cents
    ensures cents > 0 && cents % 500 != 0 ==> (r - 1) * 500 < cents < r * 500
    ensures cents < 0 && cents % 500 != 0 ==> (r - 2) * 500 < cents < (r - 1) * 500
  {
    if cents % 500 == 0 then cents / 500 else TruncDiv(cents, 500) + 1
  }

  /** For a non-negative price the points are price * 0.2 rounded up. */
  lemma PricePointsIsCeiling(cents: int)
    requires cents >= 0
    ensures PricePoints(cents) >= 0
    ensures (PricePoints(cents) - 1) * 500 < cents <= PricePoints(cents) * 500
  {
  }

  /** Whether an item's trimmed description is a multiple of 3 bytes long. */
  predicate Selected(item: Item) {
    Utf8Length(TrimSpace(item.shortDescription)) % 3 == 0
  }

  /** The points one item adds in rule 5. */
  function ItemPoints(item: Item): (r: int)
    ensures !Selected(item) ==> r == 0
    ensures Selected(item) ==> r == PricePoints(item.priceCents)
  {
    if Selected(item) then PricePoints(item.priceCents) else 0
  }

  /** Rule 5 as a function: the sum of ItemPoints over the items. */
  function DescriptionPoints(items: seq<Item>): int {
    if items == [] then 0
    else DescriptionPoints(items[..|items| - 1]) + ItemPoints(items[|items| - 1])
  }

  /** Rule 5 is additive over concatenation. */
  lemma {:induction false} DescriptionPointsAppend(a: seq<Item>, b: seq<Item>)
    ensures DescriptionPoints(a + b) == DescriptionPoints(a) + DescriptionPoints(b)
    decreases |b|
  {
    if b == [] {
      assert a + b == a;
    } else {
      var b' := b[..|b| - 1];
      assert (a + b)[..|a + b| - 1] == a + b';
      DescriptionPointsAppend(a, b');
    }
  }

  /** The items whose description is selected, in order: every selected item
      is kept, as often as it occurs, and no other item is. */
  function SelectedItems(items: seq<Item>): (sel: seq<Item>)
    ensures |sel| <= |items|
    ensures forall i :: 0 <= i < |sel| ==> Selected(sel[i])
    ensures forall x :: multiset(sel)[x] == if Selected(x) then multiset(items)[x] else 0
  {
    if items == [] then []
    else
      var init, last := items[..|items| - 1], items[|items| - 1];
      assert items == init + [last];
      SelectedItems(init) + (if Selected(last) then [last] else [])
  }

  /** The selection keeps the items' order: selecting from a concatenation
      concatenates the selections. */
  lemma {:induction false} SelectedItemsAppend(a: seq<Item>, b: seq<Item>)
    ensures SelectedItems(a + b) == SelectedItems(a) + SelectedItems(b)
  {
    if b == [] {
      assert a + b == a;
    } else {
      var b', last := b[..|b| - 1], b[|b| - 1];
      var tail := if Selected(last) then [last] else [];
      assert (a + b)[..|a + b| - 1] == a + b';
      assert (a + b)[|a + b| - 1] == last;
      assert SelectedItems(a + b) == SelectedItems(a + b') + tail;
      assert SelectedItems(b) == SelectedItems(b') + tail;
      SelectedItemsAppend(a, b');
      ConcatAssociates(SelectedItems(a), SelectedItems(b'), tail);
    }
  }

  lemma ConcatAssociates(x: seq<Item>, y: seq<Item>, z: seq<Item>)
    ensures x + y + z == x + (y + z)
  {
  }

  /** Only selected items score: dropping every other item changes nothing. */
  lemma {:induction false} OnlySelectedItemsScore(items: seq<Item>)
    ensures DescriptionPoints(items) == DescriptionPoints(SelectedItems(items))
  {
    if items != [] {
      var init, last := items[..|items| - 1], items[|items| - 1];
      var sel := SelectedItems(init);
      OnlySelectedItemsScore(init);
      assert DescriptionPoints(items) == DescriptionPoints(init) + ItemPoints(last);
      if Selected(last) {
        assert SelectedItems(items) == sel + [last];
        assert (sel + [last])[..|sel + [last]| - 1] == sel;
        assert DescriptionPoints(sel + [last]) == DescriptionPoints(sel) + ItemPoints(last);
      } else {
        assert SelectedItems(items) == sel + [];
        assert sel + [] == sel;
      }
    }
  }

  /** With no negative price, rule 5 never subtracts. */
  lemma {:induction false} DescriptionPointsNonNegative(items: seq<Item>)
    requires forall i :: 0 <= i < |items| ==> items[i].priceCents >= 0
    ensures DescriptionPoints(items) >= 0
  {
    if items != [] {
      DescriptionPointsNonNegative(items[..|items| - 1]);
      PricePointsIsCeiling(items[|items| - 1].priceCents);
    }
  }

  /** Rule 5, trimmedDescriptionPoints, as the loop the program runs. */
  method TrimmedDescriptionPoints(items: seq<Item>) returns (total: int)
    ensures total == DescriptionPoints(items)
  {
    total := 0;
    for i := 0 to |items|
      invariant total == DescriptionPoints(items[..i])
    {
      assert items[..i + 1][..i] == items[..i];
      var x := TrimSpace(items[i].shortDescription);
      var l := Utf8Length(x);
      if l % 3 == 0 {
        total := total + PricePoints(items[i].priceCents);
      }
    }
    assert items[..|items|] == items;
  }

  /** Rule 6, oddPurchaseDayPoints: 6 on an odd day of the month. */
  function OddPurchaseDayPoints(day: Day): (r: int)
    ensures r == 6 <==> day % 2 == 1
    ensures r == 0 <==> day % 2 == 0
  {
    if day % 2 == 0 then 0 else 6
  }

  /** Rule 7, timePurchasePoints: 10 when the hour is 14, 15 or 16. */
  function TimePurchasePoints(hour: Hour): (r: int)
    ensures r == 10 <==> 14 <= hour <= 16
    ensures r == 0 <==> hour < 14 || 16 < hour
  {
    if hour >= 14 && hour <= 16 then 10 else 0
  }

  // ---------------------------------------------------------------------------
  // Calculator.Points
  // ---------------------------------------------------------------------------

  /** The score of a receipt: a date error first, then a time error, otherwise
      the sum of the seven rules. */
  function Score(r: Receipt): (res: Result<int>)
    ensures r.purchaseDay.None? ==> res == Err(ErrDate)
    ensures r.purchaseDay.Some? && r.purchaseHour.None? ==> res == Err(ErrTime)
    ensures res.Ok? <==> r.purchaseDay.Some? && r.purchaseHour.Some?
  {
    if r.purchaseDay.None? then Err(ErrDate)
    else if r.purchaseHour.None? then Err(ErrTime)
    else Ok(AlnumCount(r.retailer)
            + RoundDollarPoints(r.totalCents)
            + MultipleOf25CentsPoints(r.totalCents)
            + ItemsPoints(r.items)
            + DescriptionPoints(r.items)
            + OddPurchaseDayPoints(r.purchaseDay.value)
            + TimePurchasePoints(r.purchaseHour.value))
  }

  /** Calculator.Points: parse errors first, then the seven rules added up. */
  method Points(r: Receipt) returns (res: Result<Domain.Points>)
    ensures r.purchaseDay.None? ==> res == Err(ErrDate)
    ensures r.purchaseDay.Some? && r.purchaseHour.None? ==> res == Err(ErrTime)
    ensures Score(r).Ok? ==> res == Ok(Domain.Points(Score(r).value))
  {
    if r.purchaseDay.None? {
      return Err(ErrDate);
    }
    if r.purchaseHour.None? {
      return Err(ErrTime);
    }
    var points := RetailerNamePoints(r.retailer);
    points := points + RoundDollarPoints(r.totalCents);
    points := points + MultipleOf25CentsPoints(r.totalCents);
    points := points + ItemsPoints(r.items);
    var descriptionPoints := TrimmedDescriptionPoints(r.items);
    points := points + descriptionPoints;
    points := points + OddPurchaseDayPoints(r.purchaseDay.value);
    points := points + TimePurchasePoints(r.purchaseHour.value);
    return Ok(Domain.Points(points));
  }

  /** Every rule but rule 5 is non-negative, so with no negative price the
      score is never negative; the retailer name adds at most its length. */
  lemma ScoreBounds(r: Receipt)
    requires forall i :: 0 <= i < |r.items| ==> r.items[i].priceCents >= 0
    requires Score(r).Ok?
    ensures 0 <= Score(r).value
    ensures Score(r).value <= |r.retailer| + 50 + 25 + ItemsPoints(r.items)
                              + DescriptionPoints(r.items) + 6 + 10
  {
    DescriptionPointsNonNegative(r.items);
  }

  // ---------------------------------------------------------------------------
  // The examples the program's tests check
  // ---------------------------------------------------------------------------

  const TargetItems: seq<Item> := [
    Item("Mountain Dew 12PK", 649),
    Item("Emils Cheese Pizza", 1225),
    Item("Knorr Creamy Chicken", 126),
    Item("Doritos Nacho Cheese", 335),
    Item("   Klarbrunn 12-PK 12 FL OZ  ", 1200)
  ]

  const CornerMarketItems: seq<Item> :=
    [Item("Gatorade", 225), Item("Gatorade", 1225), Item("Gatorade", 225), Item("Gatorade", 1225)]

  lemma TargetNameExample()
    ensures AlnumCount("Target") == 6
  {
    AlnumCountIsLength("Target");
  }

  lemma CornerMarketNameExample()
    ensures AlnumCount("M&M Corner Market") == 14
  {
    AlnumCountIsLength("M");
    AlnumCountIsLength("Corner");
    AlnumCountIsLength("Market");
    AlnumCountIsZero("&");
    AlnumCountIsZero(" ");
    AlnumCountAppend("M", "&");
    AlnumCountAppend("M&", "M");
    AlnumCountAppend("M&M", " ");
    AlnumCountAppend("M&M ", "Corner");
    AlnumCountAppend("M&M Corner", " ");
    AlnumCountAppend("M&M Corner ", "Market");
    assert "M" + "&" == "M&";
    assert "M&" + "M" == "M&M";
    assert "M&M" + " " == "M&M ";
    assert "M&M " + "Corner" == "M&M Corner";
    assert "M&M Corner" + " " == "M&M Corner ";
    assert "M&M Corner " + "Market" == "M&M Corner Market";
  }

  lemma RuleExamples()
    ensures RoundDollarPoints(900) == 50 && RoundDollarPoints(925) == 0
    ensures MultipleOf25CentsPoints(900) == 25 && MultipleOf25CentsPoints(910) == 0
    ensures ItemsPoints([]) == 0 && ItemsPoints(TargetItems) == 10
    ensures OddPurchaseDayPoints(1) == 6 && OddPurchaseDayPoints(20) == 0
    ensures TimePurchasePoints(14) == 10 && TimePurchasePoints(13) == 0
  {
  }

  /** The points of an item whose description has no padding and only ASCII. */
  lemma UnpaddedItemPoints(item: Item)
    requires var d := item.shortDescription;
      d != [] && !IsSpace(d[0]) && !IsSpace(d[|d| - 1])
      && forall i :: 0 <= i < |d| ==> d[i] as int < 0x80
    ensures ItemPoints(item) ==
      if |item.shortDescription| % 3 == 0 then PricePoints(item.priceCents) else 0
  {
    TrimSpaceOfPadded([], item.shortDescription, []);
    assert [] + item.shortDescription + [] == item.shortDescription;
    AsciiUtf8Length(item.shortDescription);
  }

  /** The padded description of the program's test case loses exactly its padding. */
  lemma KlarbrunnTrimmed()
    ensures TrimSpace("   Klarbrunn 12-PK 12 FL OZ  ") == "Klarbrunn 12-PK 12 FL OZ"
    ensures Utf8Length("Klarbrunn 12-PK 12 FL OZ") == 24
  {
    var d := "Klarbrunn 12-PK 12 FL OZ";
    assert "   Klarbrunn 12-PK 12 FL OZ  " == "   " + d + "  ";
    TrimSpaceOfPadded("   ", d, "  ");
    AsciiUtf8Length(d);
  }

  lemma MountainDewExample()
    ensures ItemPoints(Item("Mountain Dew 12PK", 649)) == 0
  {
    UnpaddedItemPoints(Item("Mountain Dew 12PK", 649));
  }

  lemma PizzaExample()
    ensures ItemPoints(Item("Emils Cheese Pizza", 1225)) == 3
  {
    UnpaddedItemPoints(Item("Emils Cheese Pizza", 1225));
  }

  lemma ChickenExample()
    ensures ItemPoints(Item("Knorr Creamy Chicken", 126)) == 0
  {
    UnpaddedItemPoints(Item("Knorr Creamy Chicken", 126));
  }

  lemma DoritosExample()
    ensures ItemPoints(Item("Doritos Nacho Cheese", 335)) == 0
  {
    UnpaddedItemPoints(Item("Doritos Nacho Cheese", 335));
  }

  lemma KlarbrunnExample()
    ensures ItemPoints(Item("   Klarbrunn 12-PK 12 FL OZ  ", 1200)) == 3
  {
    KlarbrunnTrimmed();
  }

  lemma GatoradeExample(price: int)
    ensures ItemPoints(Item("Gatorade", price)) == 0
  {
    UnpaddedItemPoints(Item("Gatorade", price));
  }

  /** Rule 5 on five items, item by item. */
  lemma DescriptionPointsOfFive(a: seq<Item>)
    requires |a| == 5
    ensures DescriptionPoints(a) ==
      ItemPoints(a[0]) + ItemPoints(a[1]) + ItemPoints(a[2]) + ItemPoints(a[3]) + ItemPoints(a[4])
  {
    assert a[..1][..0] == [];
    assert DescriptionPoints(a[..1]) == ItemPoints(a[0]);
    assert a[..2][..1] == a[..1];
    assert DescriptionPoints(a[..2]) == DescriptionPoints(a[..1]) + ItemPoints(a[1]);
    assert a[..3][..2] == a[..2];
    assert DescriptionPoints(a[..3]) == DescriptionPoints(a[..2]) + ItemPoints(a[2]);
    assert a[..4][..3] == a[..3];
    assert DescriptionPoints(a[..4]) == DescriptionPoints(a[..3]) + ItemPoints(a[3]);
    assert a[..4] == a[..|a| - 1];
  }

  lemma DescriptionExample()
    ensures DescriptionPoints(TargetItems) == 6
  {
    DescriptionPointsOfFive(TargetItems);
    MountainDewExample();
    PizzaExample();
    ChickenExample();
    DoritosExample();
    KlarbrunnExample();
  }

  lemma CornerMarketDescriptionExample()
    ensures DescriptionPoints(CornerMarketItems) == 0
  {
    var g := CornerMarketItems;
    GatoradeExample(225);
    GatoradeExample(1225);
    assert g[..1][..0] == [];
    assert DescriptionPoints(g[..1]) == 0;
    assert g[..2][..1] == g[..1];
    assert DescriptionPoints(g[..2]) == 0;
    assert g[..3][..2] == g[..2];
    assert DescriptionPoints(g[..3]) == 0;
    assert g[..3] == g[..|g| - 1];
  }

  /** The Target receipt's rules other than rule 5: 6 + 0 + 0 + 10 + 6 + 0. */
  lemma TargetScoreOfParts(r: Receipt)
    requires r.retailer == "Target" && |r.items| == 5 && r.totalCents == 3535
    requires r.purchaseDay == Some(1) && r.purchaseHour == Some(13)
    requires DescriptionPoints(r.items) == 6
    ensures Score(r) == Ok(28)
  {
    TargetNameExample();
  }

  /** "Target", 2022-01-01 13:01, five items, total 35.35: 28 points. */
  lemma TargetScoreExample(r: Receipt)
    requires r.retailer == "Target" && r.items == TargetItems && r.totalCents == 3535
    requires r.purchaseDay == Some(1) && r.purchaseHour == Some(13)
    ensures Score(r) == Ok(28)
  {
    DescriptionExample();
    TargetScoreOfParts(r);
  }

  /** The corner-market receipt's rules other than rule 5: 14 + 50 + 25 + 10 + 0 + 10. */
  lemma CornerMarketScoreOfParts(r: Receipt)
    requires r.retailer == "M&M Corner Market" && |r.items| == 4 && r.totalCents == 900
    requires r.purchaseDay == Some(20) && r.purchaseHour == Some(14)
    requires DescriptionPoints(r.items) == 0
    ensures Score(r) == Ok(109)
  {
    CornerMarketNameExample();
  }

  /** "M&M Corner Market", 2022-03-20 14:33, four Gatorades, total 9.00: 109 points. */
  lemma CornerMarketScoreExample(r: Receipt)
    requires r.retailer == "M&M Corner Market" && r.items == CornerMarketItems && r.totalCents == 900
    requires r.purchaseDay == Some(20) && r.purchaseHour == Some(14)
    ensures Score(r) == Ok(109)
  {
    CornerMarketDescriptionExample();
    CornerMarketScoreOfParts(r);
  }
}
