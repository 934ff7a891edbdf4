/**
 * The recipient number and the WhatsApp deep link built on submit, and
 * the record posted to the logging endpoint.
 */
module Links {
  import opened Wrappers
  import opened LineItems

  /** The country code put in front of the number as typed. */
  const CountryCode: string := "91"

  const LinkBase: string := "https://wa.me/"

  const TextParam: string := "?text="

  /** The number as typed, with the country code in front; nothing is checked. */
  function FormattedNumber(raw: string): (r: string)
    ensures |r| == |raw| + 2 && r[..2] == CountryCode && r[2..] == raw
  {
    CountryCode + raw
  }

  /** Prefixing loses nothing: distinct inputs give distinct numbers. */
  lemma FormattedNumberInjective(a: string, b: string)
    requires FormattedNumber(a) == FormattedNumber(b)
    ensures a == b
  {
    assert a == FormattedNumber(a)[2..];
  }

  /** The deep link to `number` carrying the (already encoded) message. */
  function Link(number: string, message: string): string {
    LinkBase + number + TextParam + message
  }

  /**
   * The position where the address part of a URL ends: the first `?` (the
   * query) or `#` (the fragment).
   */
  function AddressEnd(s: string): (r: Option<nat>)
    ensures r.None? <==> '?' !in s && '#' !in s
    ensures r.Some? ==> r.value < |s| && (s[r.value] == '?' || s[r.value] == '#')
                        && '?' !in s[..r.value] && '#' !in s[..r.value]
  {
    if s == [] then None
    else if s[0] == '?' || s[0] == '#' then Some(0)
    else
      match AddressEnd(s[1..])
      case None => None
      case Some(k) =>
        assert s[..k + 1] == [s[0]] + s[1..][..k];
        Some(k + 1)
  }

  /**
   * Reads a deep link back into its number and its message text: the
   * number runs up to the end of the address, and the query that follows
   * must start with the text parameter.
   */
  function ParseLink(link: string): Option<(string, string)> {
    if |link| < |LinkBase| || link[..|LinkBase|] != LinkBase then None
    else
      var rest := link[|LinkBase|..];
      match AddressEnd(rest)
      case None => None
      case Some(k) =>
        var query := rest[k..];
        if |query| < |TextParam| || query[..|TextParam|] != TextParam then None
        else Some((rest[..k], query[|TextParam|..]))
  }

  /** A number without '?' or '#' and any message are recovered from the link built of them. */
  lemma {:induction false} ParseLinkOfLink(number: string, message: string)
    requires '?' !in number && '#' !in number
    ensures ParseLink(Link(number, message)) == Some((number, message))
  {
    var link := Link(number, message);
    assert link == LinkBase + (number + TextParam + message);
    var rest := number + TextParam + message;
    assert link[..|LinkBase|] == LinkBase && link[|LinkBase|..] == rest;
    AddressEndAfter(number, TextParam + message);
    assert rest == number + (TextParam + message);
    assert rest[..|number|] == number;
    assert rest[|number|..] == TextParam + message;
  }

  /** Every link that reads back was built by Link from what it reads back to. */
  lemma {:induction false} LinkOfParseLink(link: string, number: string, message: string)
    requires ParseLink(link) == Some((number, message))
    ensures '?' !in number && '#' !in number && link == Link(number, message)
  {
    assert |link| >= |LinkBase| && link[..|LinkBase|] == LinkBase;
    var rest := link[|LinkBase|..];
    assert AddressEnd(rest).Some?;
    var k := AddressEnd(rest).value;
    var query := rest[k..];
    assert number == rest[..k] && message == query[|TextParam|..];
    assert '?' !in number && '#' !in number;
    assert query == TextParam + message by {
      assert |query| >= |TextParam| && query[..|TextParam|] == TextParam;
      SplitAt(query, |TextParam|);
    }
    assert link == LinkBase + (number + (TextParam + message)) by {
      SplitAt(rest, k);
      SplitAt(link, |LinkBase|);
    }
    LinkRightNested(number, message);
  }

  /** Proof helper: Link regrouped to the right. */
  lemma LinkRightNested(number: string, message: string)
    ensures Link(number, message) == LinkBase + (number + (TextParam + message))
  {
  }

  /** Proof helper: a sequence is its two halves around k. */
  lemma SplitAt(s: string, k: nat)
    requires k <= |s|
    ensures s == s[..k] + s[k..]
  {
  }

  /** Proof helper: the address of a + b ends where b starts when a has no '?' or '#' and b starts with '?'. */
  lemma {:induction false} AddressEndAfter(a: string, b: string)
    requires '?' !in a && '#' !in a && |b| > 0 && b[0] == '?'
    ensures AddressEnd(a + b) == Some(|a|)
  {
    if a != [] {
      assert (a + b)[1..] == a[1..] + b;
      AddressEndAfter(a[1..], b);
    } else {
      assert a + b == b;
    }
  }

  /** The submitted link starts with the base, the country code, the number as typed and the text parameter. */
  lemma {:induction false} SubmitLinkStart(raw: string, message: string)
    ensures var p := LinkBase + CountryCode + raw + TextParam;
            var l := Link(FormattedNumber(raw), message);
            |p| <= |l| && l[..|p|] == p
  {
    var p := LinkBase + CountryCode + raw + TextParam;
    assert Link(FormattedNumber(raw), message) == p + message;
  }

  /** The number the submitted link addresses is the posted number; the message is carried intact. */
  lemma SubmitLinkReadsBack(raw: string, message: string)
    requires '?' !in raw && '#' !in raw
    ensures ParseLink(Link(FormattedNumber(raw), message)) == Some((FormattedNumber(raw), message))
  {
    assert '?' !in FormattedNumber(raw) && '#' !in FormattedNumber(raw) by {
      assert forall i :: 0 <= i < |FormattedNumber(raw)| ==>
        FormattedNumber(raw)[i] == (if i < 2 then CountryCode[i] else raw[i - 2]);
    }
    ParseLinkOfLink(FormattedNumber(raw), message);
  }

  /**
   * The number is not checked, so a '?' or '#' typed into it ends the
   * link's address early: the link reads back to the posted number exactly
   * when the typed number has neither.
   */
  lemma SubmitLinkReadsBackIff(raw: string, message: string)
    ensures ParseLink(Link(FormattedNumber(raw), message)) == Some((FormattedNumber(raw), message))
            <==> '?' !in raw && '#' !in raw
  {
    if '?' in raw || '#' in raw {
      var i :| 0 <= i < |raw| && (raw[i] == '?' || raw[i] == '#');
      assert FormattedNumber(raw)[i + 2] == raw[i];
      if ParseLink(Link(FormattedNumber(raw), message)) == Some((FormattedNumber(raw), message)) {
        LinkOfParseLink(Link(FormattedNumber(raw), message), FormattedNumber(raw), message);
        assert false;
      }
    } else {
      SubmitLinkReadsBack(raw, message);
    }
  }

  /** What is posted to the logging endpoint. */
  datatype Payload = Payload(customerName: string, whatsappNumber: string, items: seq<Item>,
                             total: real, timestamp: string)
}
