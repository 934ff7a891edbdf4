/**
 * The text receipt sent in the WhatsApp message, before URL encoding:
 * a greeting chosen by the hour, a header, one numbered line and one
 * separator per row in list order, the total and a fixed footer.
 * The date text and the total's two-decimal text are given, since they
 * come from the locale and from floating-point formatting.
 */
module Receipt {
  import opened Decimal
  import opened LineItems

  /** The greeting for an hour of the day, in three bands. */
  function Greeting(hour: int): (g: string)
    ensures g == "Good Morning" <==> hour < 12
    ensures g == "Good Afternoon" <==> 12 <= hour < 17
    ensures g == "Good Evening" <==> 17 <= hour
  {
    if hour < 12 then "Good Morning"
    else if hour < 17 then "Good Afternoon"
    else "Good Evening"
  }

  /** Every hour of a day falls in exactly one band, so the placeholder "Hello" never survives. */
  lemma GreetingIsOneOfThree(hour: int)
    requires 0 <= hour < 24
    ensures Greeting(hour) in ["Good Morning", "Good Afternoon", "Good Evening"]
    ensures Greeting(hour) != "Hello"
  {
  }

  /** Noon and 17:00 start the next band. */
  lemma GreetingBoundaries()
    ensures Greeting(11) == "Good Morning" && Greeting(12) == "Good Afternoon"
    ensures Greeting(16) == "Good Afternoon" && Greeting(17) == "Good Evening"
  {
  }

  const Separator: string := "-------------------------\n"

  const Footer: string := "Thank you for your purchase!\nVisit Again!\n\n- Yogesh Mundhe"

  /** How a price appears on the receipt: typed text as is, a catalog Number as its numeral. */
  function PriceText(p: Price): string {
    match p
    case Text(s) => s
    case Amount(n) => NatToString(n)
  }

  function Header(greeting: string, customerName: string, date: string): string {
    greeting + " " + customerName + ",\n\n" + "--- YOUR BILL SUMMARY ---\n" + "Date: " + date + "\n\n"
  }

  /** The numbered line of the row at 1-based position `pos`. */
  function ItemLine(pos: nat, item: Item): string {
    NatToString(pos) + ". " + item.name + ": ₹" + PriceText(item.price) + "\n"
  }

  /** The lines of `items`, the first of them numbered `start + 1`. */
  function Entries(items: seq<Item>, start: nat): string
    decreases |items|
  {
    if items == [] then ""
    else ItemLine(start + 1, items[0]) + Separator + Entries(items[1..], start + 1)
  }

  /** The whole receipt. */
  function Message(hour: int, customerName: string, date: string, items: seq<Item>, totalText: string): string {
    Header(Greeting(hour), customerName, date) + Entries(items, 0)
      + "Total: ₹" + totalText + "\n" + Separator + Footer
  }

  /** The lines of two lists one after the other: the second list's numbering continues the first's. */
  lemma {:induction false} EntriesAppend(a: seq<Item>, b: seq<Item>, start: nat)
    ensures Entries(a + b, start) == Entries(a, start) + Entries(b, start + |a|)
    decreases |a|
  {
    if a == [] {
      assert a + b == b;
    } else {
      assert (a + b)[1..] == a[1..] + b;
      EntriesAppend(a[1..], b, start + 1);
    }
  }

  /** The receipt lists the row at position k, numbered k + 1, after the rows before it and before the rows after it. */
  lemma {:induction false} EntriesAt(items: seq<Item>, k: nat)
    requires k < |items|
    ensures Entries(items, 0)
            == Entries(items[..k], 0) + ItemLine(k + 1, items[k]) + Separator + Entries(items[k + 1..], k + 1)
  {
    assert items == items[..k] + ([items[k]] + items[k + 1..]);
    EntriesAround(items[..k], items[k], items[k + 1..]);
  }

  /** The entries of pre, x, post: pre's lines, then x's, numbered |pre| + 1, then post's. */
  lemma {:induction false} EntriesAround(pre: seq<Item>, x: Item, post: seq<Item>)
    ensures Entries(pre + ([x] + post), 0)
            == Entries(pre, 0) + ItemLine(|pre| + 1, x) + Separator + Entries(post, |pre| + 1)
  {
    EntriesAppend(pre, [x] + post, 0);
    EntriesCons([x] + post, |pre|);
    assert ([x] + post)[1..] == post;
  }

  /** The first row's line leads the entries. */
  lemma EntriesCons(items: seq<Item>, start: nat)
    requires items != []
    ensures Entries(items, start) == ItemLine(start + 1, items[0]) + Separator + Entries(items[1..], start + 1)
  {
  }

  /** Adding one row to the end adds exactly its numbered line and a separator to the entries. */
  lemma {:induction false} EntriesSnoc(items: seq<Item>, i: nat)
    requires i < |items|
    ensures Entries(items[..i + 1], 0) == Entries(items[..i], 0) + ItemLine(i + 1, items[i]) + Separator
  {
    assert items[..i + 1] == items[..i] + [items[i]];
    EntriesAppend(items[..i], [items[i]], 0);
    assert [items[i]][1..] == [];
  }

  /** A catalog row's price is printed as its numeral: the first row "Item 3" reads "1. Item 3: ₹200". */
  lemma CatalogRowLine()
    ensures ItemLine(1, Item("Item 3", Amount(200))) == "1. Item 3: ₹200\n"
  {
    assert NatToString(2) == "2";
    assert NatToString(20) == "20";
    assert NatToString(200) == "200";
    assert NatToString(1) == "1";
  }

  /** EntriesSnoc behind a fixed prefix, as the receipt builder extends its text. */
  lemma PrefixedEntriesSnoc(h: string, items: seq<Item>, i: nat)
    requires i < |items|
    ensures h + Entries(items[..i + 1], 0) == h + Entries(items[..i], 0) + ItemLine(i + 1, items[i]) + Separator
  {
    EntriesSnoc(items, i);
  }

  /** The receipt of no rows has no item lines: the header, then the total and the footer. */
  lemma MessageWithoutItems(hour: int, customerName: string, date: string, totalText: string)
    ensures Message(hour, customerName, date, [], totalText)
            == Header(Greeting(hour), customerName, date) + "Total: ₹" + totalText + "\n" + Separator + Footer
  {
    assert Header(Greeting(hour), customerName, date) + Entries([], 0) == Header(Greeting(hour), customerName, date);
  }

  predicate IsPrefix(p: string, s: string) {
    |p| <= |s| && s[..|p|] == p
  }

  lemma PrefixExtends(p: string, s: string, t: string)
    requires IsPrefix(p, s)
    ensures IsPrefix(p, s + t)
  {
    assert (s + t)[..|p|] == s[..|p|];
  }

  /** The receipt opens with the greeting and the customer's name, and ends with the footer. */
  lemma {:induction false} MessageFrame(hour: int, customerName: string, date: string, items: seq<Item>, totalText: string)
    ensures var m := Message(hour, customerName, date, items, totalText);
            var opening := Greeting(hour) + " " + customerName + ",\n\n";
            IsPrefix(opening, m) && |Footer| <= |m| && m[|m| - |Footer|..] == Footer
  {
    var opening := Greeting(hour) + " " + customerName + ",\n\n";
    var h1 := opening + "--- YOUR BILL SUMMARY ---\n";
    var h2 := h1 + "Date: ";
    var h3 := h2 + date;
    var h := h3 + "\n\n";
    assert h == Header(Greeting(hour), customerName, date);
    assert IsPrefix(opening, opening);
    PrefixExtends(opening, opening, "--- YOUR BILL SUMMARY ---\n");
    PrefixExtends(opening, h1, "Date: ");
    PrefixExtends(opening, h2, date);
    PrefixExtends(opening, h3, "\n\n");
    var m1 := h + Entries(items, 0);
    var m2 := m1 + "Total: ₹";
    var m3 := m2 + totalText;
    var m4 := m3 + "\n";
    var m5 := m4 + Separator;
    PrefixExtends(opening, h, Entries(items, 0));
    PrefixExtends(opening, m1, "Total: ₹");
    PrefixExtends(opening, m2, totalText);
    PrefixExtends(opening, m3, "\n");
    PrefixExtends(opening, m4, Separator);
    PrefixExtends(opening, m5, Footer);
    var m := m5 + Footer;
    assert m == Message(hour, customerName, date, items, totalText);
    assert m[|m5|..] == Footer;
  }

  /**
   * generateWhatsAppMessage before its encoding step: the greeting chain
   * starting from "Hello", then the receipt appended piece by piece with
   * one loop turn per row.
   */
  method BuildMessage(hour: int, customerName: string, date: string, items: seq<Item>, totalText: string)
    returns (message: string)
    ensures message == Message(hour, customerName, date, items, totalText)
  {
    var greeting := "Hello";
    if hour < 12 {
      greeting := "Good Morning";
    } else if hour < 17 {
      greeting := "Good Afternoon";
    } else {
      greeting := "Good Evening";
    }
    message := greeting + " " + customerName + ",\n\n";
    message := message + "--- YOUR BILL SUMMARY ---\n";
    message := message + "Date: " + date + "\n\n";
    assert greeting == Greeting(hour);
    assert message == Header(Greeting(hour), customerName, date);
    assert items[..0] == [] && message + Entries([], 0) == message;
    var i := 0;
    while i < |items|
      invariant 0 <= i <= |items|
      invariant message == Header(Greeting(hour), customerName, date) + Entries(items[..i], 0)
    {
      PrefixedEntriesSnoc(Header(Greeting(hour), customerName, date), items, i);
      message := message + ItemLine(i + 1, items[i]);
      message := message + Separator;
      i := i + 1;
    }
    assert items[..i] == items;
    message := message + "Total: ₹" + totalText + "\n";
    message := message + Separator;
    message := message + "Thank you for your purchase!\nVisit Again!\n\n- Yogesh Mundhe";
  }
}
