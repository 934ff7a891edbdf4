/**
 * The bill's line items, the fixed catalog, and the three list operations
 * of the form: append a blank row, remove a row by position, and change
 * one field of a row (with catalog auto-fill of the price).
 */
module LineItems {
  import opened Wrappers

  /**
   * A price as the form holds it: text typed into the price input (or the
   * empty text of a blank row), or the Number copied from a catalog entry.
   */
  datatype Price = Text(text: string) | Amount(value: nat)

  datatype Item = Item(name: string, price: Price)

  datatype CatalogEntry = CatalogEntry(name: string, price: nat)

  /** The two inputs of a row, by their `name` attribute. */
  datatype Field = NameField | PriceField

  /** The row that starts the list and that "Add Item" appends. */
  const Blank: Item := Item("", Text(""))

  /** The list the form starts with. */
  const InitialItems: seq<Item> := [Blank]

  /** The fixed catalog offered by the item selector. */
  const Catalog: seq<CatalogEntry> := [
    CatalogEntry("Item 1", 100),
    CatalogEntry("Item 2", 150),
    CatalogEntry("Item 3", 200),
    CatalogEntry("Item 4", 250),
    CatalogEntry("Item 5", 300),
    CatalogEntry("Item 6", 350),
    CatalogEntry("Item 7", 400),
    CatalogEntry("Item 8", 450)
  ]

  /** The first catalog entry whose name equals `name`, if any. */
  function Find(catalog: seq<CatalogEntry>, name: string): (r: Option<CatalogEntry>)
    ensures r.None? <==> forall k :: 0 <= k < |catalog| ==> catalog[k].name != name
    ensures r.Some? ==> exists k :: 0 <= k < |catalog| && catalog[k] == r.value && catalog[k].name == name
                                    && forall j :: 0 <= j < k ==> catalog[j].name != name
  {
    if catalog == [] then None
    else if catalog[0].name == name then Some(catalog[0])
    else
      var r := Find(catalog[1..], name);
      assert r.Some? ==> exists k :: 1 <= k < |catalog| && catalog[k] == r.value && catalog[k].name == name
                                     && forall j :: 0 <= j < k ==> catalog[j].name != name by {
        if r.Some? {
          var k :| 0 <= k < |catalog| - 1 && catalog[1..][k] == r.value && catalog[1..][k].name == name
                   && forall j :: 0 <= j < k ==> catalog[1..][j].name != name;
          assert forall j :: 1 <= j < k + 1 ==> catalog[j].name != name by {
            forall j | 1 <= j < k + 1 ensures catalog[j].name != name {
              assert catalog[j] == catalog[1..][j - 1];
            }
          }
        }
      }
      r
  }

  /** The price a row gets when its name is set to `name`. */
  function AutoPrice(catalog: seq<CatalogEntry>, name: string): Price {
    match Find(catalog, name)
    case Some(e) => Amount(e.price)
    case None => Text("")
  }

  /** "Add Item": a blank row at the end. */
  function AppendBlank(items: seq<Item>): (r: seq<Item>)
    ensures |r| == |items| + 1
    ensures r[..|items|] == items && r[|items|] == Blank
  {
    items + [Blank]
  }

  /** Keep every row whose position, counted from `offset`, differs from `index`. */
  function KeepOthers(items: seq<Item>, index: int, offset: nat): (r: seq<Item>)
    ensures offset <= index < offset + |items| ==> r == items[..index - offset] + items[index - offset + 1..]
    ensures !(offset <= index < offset + |items|) ==> r == items
  {
    if items == [] then []
    else (if offset == index then [] else [items[0]]) + KeepOthers(items[1..], index, offset + 1)
  }

  /** Removing a row: filter the list by position, so any position may be given. */
  function RemoveAt(items: seq<Item>, index: int): (r: seq<Item>)
    ensures 0 <= index < |items| ==> r == items[..index] + items[index + 1..]
    ensures 0 <= index < |items| ==> |r| == |items| - 1
    ensures 0 <= index < |items| ==> forall j :: 0 <= j < index ==> r[j] == items[j]
    ensures 0 <= index < |items| ==> forall j :: index <= j < |r| ==> r[j] == items[j + 1]
    ensures !(0 <= index < |items|) ==> r == items
  {
    KeepOthers(items, index, 0)
  }

  /** The row after setting `field` to `value`. */
  function ChangeRow(item: Item, field: Field, value: string, catalog: seq<CatalogEntry>): Item {
    match field
    case NameField => Item(value, AutoPrice(catalog, value))
    case PriceField => item.(price := Text(value))
  }

  /** A change of one field of one row; every other row stays as it was. */
  function ChangeItem(items: seq<Item>, index: int, field: Field, value: string,
                      catalog: seq<CatalogEntry>): (r: seq<Item>)
    requires 0 <= index < |items|
    ensures |r| == |items|
    ensures forall j :: 0 <= j < |items| && j != index ==> r[j] == items[j]
    ensures r[index] == ChangeRow(items[index], field, value, catalog)
  {
    items[index := ChangeRow(items[index], field, value, catalog)]
  }

  /** Setting the price touches that row's price only. */
  lemma ChangePriceOnlyPrice(items: seq<Item>, index: int, value: string, catalog: seq<CatalogEntry>)
    requires 0 <= index < |items|
    ensures var r := ChangeItem(items, index, PriceField, value, catalog);
      |r| == |items| && r[index].name == items[index].name && r[index].price == Text(value)
      && forall j :: 0 <= j < |items| && j != index ==> r[j] == items[j]
  {
  }

  /**
   * Setting the name to the name of catalog entry k (and of no earlier one)
   * copies that entry's price; any other name clears the price.
   */
  lemma {:induction false} ChangeNameAutoFills(items: seq<Item>, index: int, value: string,
                                               catalog: seq<CatalogEntry>)
    requires 0 <= index < |items|
    ensures var r := ChangeItem(items, index, NameField, value, catalog);
      r[index].name == value
      && (forall k :: 0 <= k < |catalog| && catalog[k].name == value
            && (forall j :: 0 <= j < k ==> catalog[j].name != value)
            ==> r[index].price == Amount(catalog[k].price))
      && ((forall k :: 0 <= k < |catalog| ==> catalog[k].name != value) ==> r[index].price == Text(""))
  {
    var r := ChangeItem(items, index, NameField, value, catalog);
    forall k | 0 <= k < |catalog| && catalog[k].name == value
               && (forall j :: 0 <= j < k ==> catalog[j].name != value)
      ensures r[index].price == Amount(catalog[k].price)
    {
      var e := Find(catalog, value);
      var m :| 0 <= m < |catalog| && catalog[m] == e.value && catalog[m].name == value
               && forall j :: 0 <= j < m ==> catalog[j].name != value;
      assert m == k;
    }
  }

  /** The catalog names are pairwise distinct, so the first match is the only one. */
  lemma CatalogNamesDistinct()
    ensures forall i, j :: 0 <= i < j < |Catalog| ==> Catalog[i].name != Catalog[j].name
  {
  }

  /** The empty name (the selector's "Select Item" choice) is in no catalog entry. */
  lemma EmptyNameNotInCatalog()
    ensures Find(Catalog, "") == None
  {
  }
}
