/**
 * The billing form component as an object: the customer fields, the rows,
 * the derived total and the submitting flag, with one method per handler.
 * React's state scheduling is replaced by an explicit recomputation of the
 * total after every change to the rows.
 */
module BillForm {
  import opened Wrappers
  import opened LineItems
  import opened Totals
  import opened Receipt
  import opened Links

  /**
   * Library calls whose internals are not modelled: parseFloat on text
   * (None for NaN), Number.prototype.toFixed(2), and encodeURIComponent
   * (None where it throws a URIError).
   */
  datatype Runtime = Runtime(parseFloat: string -> Option<real>,
                             toFixed2: real -> string,
                             encodeUri: string -> Option<string>)

  /** How the logging POST ends: it resolves (its response is opaque), or it throws. */
  datatype FetchOutcome = Delivered | Threw

  /**
   * What one submit does outside the form: the record it posts (none when
   * the handler throws before the POST), the link it opens, the alert it shows.
   */
  datatype SubmitEffects = SubmitEffects(posted: Option<Payload>, link: Option<string>, alerted: bool)

  class Form {
    const rt: Runtime
    var customerName: string
    var whatsappNumber: string
    var items: seq<Item>
    var total: real
    var isSubmitting: bool
    /** Every value assigned to isSubmitting, in order. */
    ghost var submittingLog: seq<bool>

    /** The total is always the one derived from the rows, and a blank price parses as NaN. */
    ghost predicate Valid()
      reads this
    {
      BlankIsNaN(rt.parseFloat) && total == Total(items, rt.parseFloat)
    }

    /** The mounted form: empty fields, one blank row, not submitting, total computed once. */
    constructor (runtime: Runtime)
      requires BlankIsNaN(runtime.parseFloat)
      ensures Valid()
      ensures rt.parseFloat == runtime.parseFloat && rt.toFixed2 == runtime.toFixed2
              && rt.encodeUri == runtime.encodeUri
      ensures customerName == "" && whatsappNumber == "" && items == InitialItems
      ensures !isSubmitting && submittingLog == []
      ensures total == 0.0
    {
      rt := runtime;
      customerName, whatsappNumber := "", "";
      items := InitialItems;
      total := 0.0;
      isSubmitting := false;
      submittingLog := [];
      new;
      RecomputeTotal();
      InitialTotalIsZero(runtime.parseFloat);
    }

    /** The effect that runs after every change to the rows. */
    method RecomputeTotal()
      requires BlankIsNaN(rt.parseFloat)
      modifies this`total
      ensures Valid()
    {
      total := Total(items, rt.parseFloat);
    }

    method SetCustomerName(value: string)
      modifies this`customerName
      ensures customerName == value
    {
      customerName := value;
    }

    method SetWhatsappNumber(value: string)
      modifies this`whatsappNumber
      ensures whatsappNumber == value
    {
      whatsappNumber := value;
    }

    /** "Add Item": a blank row at the end; the total does not move. */
    method AddItem()
      requires Valid()
      modifies this`items, this`total
      ensures Valid() && items == AppendBlank(old(items))
      ensures total == old(total)
    {
      items := AppendBlank(items);
      RecomputeTotal();
      AppendBlankKeepsTotal(old(items), rt.parseFloat);
    }

    /** The remove button of row `index`; any other position changes nothing. */
    method RemoveItem(index: int)
      requires Valid()
      modifies this`items, this`total
      ensures Valid() && items == RemoveAt(old(items), index)
      ensures 0 <= index < |old(items)| ==>
                total == old(total) - Contribution(old(items)[index].price, rt.parseFloat)
      ensures !(0 <= index < |old(items)|) ==> items == old(items) && total == old(total)
    {
      items := RemoveAt(items, index);
      RecomputeTotal();
      if 0 <= index < |old(items)| {
        RemoveAtTotal(old(items), index, rt.parseFloat);
      }
    }

    /**
     * An edit of the name selector or the price input of row `index`:
     * copy the rows, assign the field in the copy, auto-fill the price
     * when the name changed, and store the copy.
     */
    method ChangeItem(index: int, field: Field, value: string)
      requires Valid()
      requires 0 <= index < |items|
      modifies this`items, this`total
      ensures Valid() && items == LineItems.ChangeItem(old(items), index, field, value, Catalog)
      ensures total == old(total) - Contribution(old(items)[index].price, rt.parseFloat)
                       + Contribution(items[index].price, rt.parseFloat)
    {
      var newItems := new Item[|items|](i requires 0 <= i < |items| reads this => items[i]);
      match field {
        case NameField => newItems[index] := newItems[index].(name := value);
        case PriceField => newItems[index] := newItems[index].(price := Text(value));
      }
      if field == NameField {
        match Find(Catalog, value) {
          case Some(entry) => newItems[index] := newItems[index].(price := Amount(entry.price));
          case None => newItems[index] := newItems[index].(price := Text(""));
        }
      }
      items := newItems[..];
      RecomputeTotal();
      ChangeItemTotal(old(items), index, field, value, Catalog, rt.parseFloat);
    }

    /** generateWhatsAppMessage: the receipt for the current fields, URL-encoded (None where encoding throws). */
    method GenerateMessage(hour: int, date: string) returns (encoded: Option<string>)
      ensures encoded == rt.encodeUri(Message(hour, customerName, date, items, rt.toFixed2(total)))
    {
      var message := BuildMessage(hour, customerName, date, items, rt.toFixed2(total));
      encoded := rt.encodeUri(message);
    }

    /**
     * handleSubmit: raise the flag, build the number and the message. If
     * encoding the message throws, the handler stops there, before its
     * try block: nothing is posted and the flag stays raised. Otherwise
     * build the link and the record, post the record, open the link only
     * if the post did not throw (alert otherwise), and lower the flag in
     * the finally block.
     */
    method Submit(hour: int, date: string, timestamp: string, outcome: FetchOutcome)
      returns (effects: SubmitEffects)
      modifies this`isSubmitting, this`submittingLog
      ensures var encoded := rt.encodeUri(Message(hour, customerName, date, items, rt.toFixed2(total)));
        encoded.None? ==>
          isSubmitting && submittingLog == old(submittingLog) + [true]
          && effects == SubmitEffects(None, None, false)
      ensures var encoded := rt.encodeUri(Message(hour, customerName, date, items, rt.toFixed2(total)));
        encoded.Some? ==>
          !isSubmitting && submittingLog == old(submittingLog) + [true, false]
          && effects.posted == Some(Payload(customerName, FormattedNumber(whatsappNumber), items, total, timestamp))
          && (effects.link.Some? <==> outcome == Delivered)
          && (effects.link.Some? ==> effects.link.value == Link(FormattedNumber(whatsappNumber), encoded.value))
          && (effects.alerted <==> outcome == Threw)
    {
      isSubmitting := true;
      submittingLog := submittingLog + [true];
      var formattedNumber := FormattedNumber(whatsappNumber);
      var message := GenerateMessage(hour, date);
      if message.None? {
        effects := SubmitEffects(None, None, false);
        return;
      }
      var whatsappLink := Link(formattedNumber, message.value);
      var data := Payload(customerName, formattedNumber, items, total, timestamp);
      var shown: Option<string> := None;
      var alerted := false;
      match outcome {
        case Delivered => shown := Some(whatsappLink);
        case Threw => alerted := true;
      }
      isSubmitting := false;
      submittingLog := submittingLog + [false];
      effects := SubmitEffects(Some(data), shown, alerted);
    }
  }
}
