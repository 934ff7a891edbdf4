/**
 * The bill total: the sum over the rows of each row's parsed price, where
 * a price that does not parse as a number adds nothing. `parse` stands for
 * JavaScript's parseFloat on text (None for NaN); a catalog Number parses
 * to itself.
 */
module Totals {
  import opened Wrappers
  import opened LineItems

  /** What parseFloat does with the empty text of a blank row: NaN. */
  predicate BlankIsNaN(parse: string -> Option<real>) {
    parse("") == None
  }

  /** What one price adds to the total. */
  function Contribution(p: Price, parse: string -> Option<real>): real {
    match p
    case Amount(n) => n as real
    case Text(s) => match parse(s) case Some(v) => v case None => 0.0
  }

  /** The `reduce` over the rows, starting from 0 and adding left to right. */
  function Total(items: seq<Item>, parse: string -> Option<real>): real {
    if items == [] then 0.0
    else Total(items[..|items| - 1], parse) + Contribution(items[|items| - 1].price, parse)
  }

  /** The total of two lists one after the other is the sum of their totals. */
  lemma {:induction false} TotalAppend(a: seq<Item>, b: seq<Item>, parse: string -> Option<real>)
    ensures Total(a + b, parse) == Total(a, parse) + Total(b, parse)
  {
    if b != [] {
      assert (a + b)[..|a + b| - 1] == a + b[..|b| - 1];
      TotalAppend(a, b[..|b| - 1], parse);
    } else {
      assert a + b == a;
    }
  }

  /** The total of one row is that row's contribution. */
  lemma {:induction false} TotalSingle(item: Item, parse: string -> Option<real>)
    ensures Total([item], parse) == Contribution(item.price, parse)
  {
    assert [item][..0] == [];
  }

  /** A blank row adds nothing when the empty text does not parse (parseFloat('') is NaN). */
  lemma {:induction false} AppendBlankKeepsTotal(items: seq<Item>, parse: string -> Option<real>)
    requires BlankIsNaN(parse)
    ensures Total(AppendBlank(items), parse) == Total(items, parse)
  {
    assert AppendBlank(items)[..|items|] == items;
  }

  /** The list the form starts with totals 0. */
  lemma {:induction false} InitialTotalIsZero(parse: string -> Option<real>)
    requires BlankIsNaN(parse)
    ensures Total(InitialItems, parse) == 0.0
  {
    TotalSingle(Blank, parse);
  }

  /** The total is the part before a row, plus that row, plus the part after it. */
  lemma {:induction false} TotalSplit(items: seq<Item>, index: int, parse: string -> Option<real>)
    requires 0 <= index < |items|
    ensures Total(items, parse) == Total(items[..index], parse) + Contribution(items[index].price, parse)
                                   + Total(items[index + 1..], parse)
  {
    var upto := items[..index + 1];
    assert items == upto + items[index + 1..];
    TotalAppend(upto, items[index + 1..], parse);
    assert upto[..|upto| - 1] == items[..index];
  }

  /** Removing a row in range takes exactly its contribution off the total. */
  lemma {:induction false} RemoveAtTotal(items: seq<Item>, index: int, parse: string -> Option<real>)
    requires 0 <= index < |items|
    ensures Total(RemoveAt(items, index), parse)
            == Total(items, parse) - Contribution(items[index].price, parse)
  {
    TotalSplit(items, index, parse);
    TotalAppend(items[..index], items[index + 1..], parse);
  }

  /** Changing one row changes the total by the difference of that row's contributions. */
  lemma {:induction false} ChangeItemTotal(items: seq<Item>, index: int, field: Field, value: string,
                                           catalog: seq<CatalogEntry>, parse: string -> Option<real>)
    requires 0 <= index < |items|
    ensures Total(ChangeItem(items, index, field, value, catalog), parse)
            == Total(items, parse) - Contribution(items[index].price, parse)
               + Contribution(ChangeRow(items[index], field, value, catalog).price, parse)
  {
    var r := ChangeItem(items, index, field, value, catalog);
    TotalSplit(items, index, parse);
    TotalSplit(r, index, parse);
    assert r[..index] == items[..index] && r[index + 1..] == items[index + 1..];
  }

  /** Selecting catalog entry k by name puts exactly its price into the total, whatever the parser. */
  lemma {:induction false} SelectCatalogEntryTotal(items: seq<Item>, index: int, k: nat, parse: string -> Option<real>)
    requires 0 <= index < |items| && k < |Catalog|
    ensures Total(ChangeItem(items, index, NameField, Catalog[k].name, Catalog), parse)
            == Total(items, parse) - Contribution(items[index].price, parse) + Catalog[k].price as real
  {
    CatalogNamesDistinct();
    ChangeNameAutoFills(items, index, Catalog[k].name, Catalog);
    ChangeItemTotal(items, index, NameField, Catalog[k].name, Catalog, parse);
  }

  /** Typed prices add what they parse to, and one that does not parse adds nothing. */
  lemma TypedPricesTotal(parse: string -> Option<real>)
    requires parse("100") == Some(100.0) && parse("abc") == None && parse("50.5") == Some(50.5)
    ensures Total([Item("", Text("100")), Item("", Text("abc")), Item("", Text("50.5"))], parse) == 150.5
  {
    var a, b, c := Item("", Text("100")), Item("", Text("abc")), Item("", Text("50.5"));
    assert [a, b, c] == [a, b] + [c];
    TotalAppend([a, b], [c], parse);
    TotalPair(a, b, parse);
    TotalSingle(c, parse);
  }

  /** The total of two rows. */
  lemma {:induction false} TotalPair(x: Item, y: Item, parse: string -> Option<real>)
    ensures Total([x, y], parse) == Contribution(x.price, parse) + Contribution(y.price, parse)
  {
    assert [x, y] == [x] + [y];
    TotalAppend([x], [y], parse);
    TotalSingle(x, parse);
    TotalSingle(y, parse);
  }
}
