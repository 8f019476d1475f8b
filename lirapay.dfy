/**
 * The payment-gateway client's data shapes and its two pure helpers:
 * `formatCustomerData`, which turns the form's buyer into the gateway's
 * customer, and `getClientIP`, which picks the buyer's address from the
 * proxy headers. The gateway's REST calls themselves are not modelled: the
 * route that uses them receives the gateway's answer as an input.
 */
module LiraPay {
  import opened Wrappers
  import opened Text
  import opened Sequences

  /** The buyer as the checkout form collects it and the route receives it. */
  datatype CustomerInput = CustomerInput(name: string, email: string, phone: string, document: string)

  /** `LiraPayCustomer` (the optional `utm_content` and `utm_term` are never set). */
  datatype Customer = Customer(
    name: string, email: string, phone: string, documentType: string, document: string,
    utmSource: string, utmMedium: string, utmCampaign: string)

  /** One line of a transaction; prices are in cents. */
  datatype Item = Item(id: string, title: string, description: string, price: int, quantity: int, isPhysical: bool)

  /** `CreateTransactionRequest` (the optional `splits` are never set); amounts are in cents. */
  datatype TransactionRequest = TransactionRequest(
    externalId: string, totalAmount: int, paymentMethod: string, webhookUrl: string,
    items: seq<Item>, ip: string, customer: Customer)

  /**
   * The fields of `CreateTransactionResponse` that the storefront reads; the
   * status is the gateway's own string ("PENDING", "AUTHORIZED", ...), passed on as it is.
   */
  datatype CreatedTransaction = CreatedTransaction(
    id: string, externalId: string, status: string, totalValue: int, pixPayload: string)

  /** What `createTransaction` does: answer with the created transaction, or throw an `Error` with a message. */
  datatype GatewayReply = Returned(transaction: CreatedTransaction) | Threw(message: string)

  /** `formatCustomerData`. */
  function FormatCustomerData(c: CustomerInput): Customer
  {
    Customer(c.name, c.email, Digits(c.phone), "CPF", Digits(c.document), "site_rifa", "web", "rifa_2025")
  }

  /**
   * The gateway's customer keeps name and email as typed, and receives the
   * phone and the document as their digits only, in the order typed; the
   * document is always declared a CPF and the campaign tags are fixed.
   */
  lemma FormatCustomerDataSpec(c: CustomerInput)
    ensures var r := FormatCustomerData(c);
      && r.name == c.name && r.email == c.email
      && AllDigits(r.phone) && IsSubsequence(r.phone, c.phone)
      && AllDigits(r.document) && IsSubsequence(r.document, c.document)
      && r.documentType == "CPF"
      && r.utmSource == "site_rifa" && r.utmMedium == "web" && r.utmCampaign == "rifa_2025"
  {
    DigitsInOrder(c.phone);
    DigitsInOrder(c.document);
  }

  /** Only the formatting is removed: a separator inserted between digits makes no difference. */
  lemma FormatCustomerDataIgnoresSeparators(c: CustomerInput, sep: string, i: nat, j: nat)
    requires forall k :: 0 <= k < |sep| ==> !IsDigit(sep[k])
    requires i <= |c.phone| && j <= |c.document|
    ensures var punctuated := c.(phone := c.phone[..i] + sep + c.phone[i..],
                                 document := c.document[..j] + sep + c.document[j..]);
      FormatCustomerData(punctuated) == FormatCustomerData(c)
  {
    DigitsOfSeparators(sep);
    DigitsConcat(c.phone[..i] + sep, c.phone[i..]);
    DigitsConcat(c.phone[..i], sep);
    DigitsConcat(c.phone[..i], c.phone[i..]);
    assert c.phone[..i] + c.phone[i..] == c.phone;
    DigitsConcat(c.document[..j] + sep, c.document[j..]);
    DigitsConcat(c.document[..j], sep);
    DigitsConcat(c.document[..j], c.document[j..]);
    assert c.document[..j] + c.document[j..] == c.document;
  }

  /** A digits-only phone and document reach the gateway unchanged. */
  lemma FormatCustomerDataKeepsDigits(c: CustomerInput)
    requires AllDigits(c.phone) && AllDigits(c.document)
    ensures FormatCustomerData(c).phone == c.phone && FormatCustomerData(c).document == c.document
  {
    DigitsOfDigits(c.phone);
    DigitsOfDigits(c.document);
  }

  const LocalAddress: string := "127.0.0.1"

  /** `request.headers.get(name)`: header names are taken as already lower-cased. */
  function Header(headers: map<string, string>, name: string): Option<string>
  {
    if name in headers then Some(headers[name]) else None
  }

  /** `getClientIP`: the first `x-forwarded-for` entry, else `x-real-ip`, else the local address. */
  function GetClientIP(headers: map<string, string>): string
  {
    var forwarded := Header(headers, "x-forwarded-for");
    var realIP := Header(headers, "x-real-ip");
    if forwarded.Some? && forwarded.value != "" then Trim(BeforeComma(forwarded.value))
    else if realIP.Some? && realIP.value != "" then realIP.value
    else LocalAddress
  }

  /**
   * A non-empty `x-forwarded-for` decides: the address is a slice of its
   * first comma-separated entry, with no comma in it and no whitespace at either end.
   */
  lemma ClientIPFromForwarded(headers: map<string, string>)
    requires "x-forwarded-for" in headers && headers["x-forwarded-for"] != ""
    ensures var f := headers["x-forwarded-for"]; var ip := GetClientIP(headers);
      && ip == Trim(BeforeComma(f))
      && ',' !in ip
      && (exists i, j :: 0 <= i <= j <= |BeforeComma(f)| && ip == f[i..j])
      && (ip == [] || (!IsWhitespace(ip[0]) && !IsWhitespace(ip[|ip| - 1])))
  {
    var f := headers["x-forwarded-for"];
    assert GetClientIP(headers) == Trim(BeforeComma(f));
    FirstEntryTrimmed(f);
  }

  lemma FirstEntryTrimmed(f: string)
    ensures var ip := Trim(BeforeComma(f));
      && ',' !in ip
      && (exists i, j :: 0 <= i <= j <= |BeforeComma(f)| && ip == f[i..j])
      && (ip == [] || (!IsWhitespace(ip[0]) && !IsWhitespace(ip[|ip| - 1])))
  {
    FirstEntryIsSlice(f);
    TrimmedEnds(BeforeComma(f));
  }

  /** Trimming the first entry cuts a comma-free slice out of the header. */
  lemma FirstEntryIsSlice(f: string)
    ensures var ip := Trim(BeforeComma(f));
      && ',' !in ip
      && (exists i, j :: 0 <= i <= j <= |BeforeComma(f)| && ip == f[i..j])
  {
    var first := BeforeComma(f);
    TrimIsSlice(first);
    var i, j :| 0 <= i <= j <= |first| && Trim(first) == first[i..j];
    SliceOfPrefix(f, |first|, i, j);
    CommaFreeSlice(first, i, j);
  }

  lemma SliceOfPrefix(f: string, n: nat, i: nat, j: nat)
    requires i <= j <= n <= |f|
    ensures f[..n][i..j] == f[i..j]
  {
  }

  lemma CommaFreeSlice(s: string, i: nat, j: nat)
    requires ',' !in s && i <= j <= |s|
    ensures ',' !in s[i..j]
  {
    forall k | 0 <= k < j - i ensures s[i..j][k] != ',' {
      assert s[i..j][k] == s[i + k];
    }
  }

  /** A proxy that puts a clean address in front of the list has that address reported. */
  lemma ClientIPFirstEntry(headers: map<string, string>, address: string, rest: string)
    requires address != [] && ',' !in address
    requires !IsWhitespace(address[0]) && !IsWhitespace(address[|address| - 1])
    requires headers == map["x-forwarded-for" := address + "," + rest]
    ensures GetClientIP(headers) == address
  {
    BeforeCommaOf(address, rest);
    assert TrimStart(address) == address;
    assert TrimEnd(address) == address;
  }

  /** Without a usable `x-forwarded-for`, a non-empty `x-real-ip` is reported, else the local address. */
  lemma ClientIPFallbacks(headers: map<string, string>)
    requires "x-forwarded-for" !in headers || headers["x-forwarded-for"] == ""
    ensures "x-real-ip" in headers && headers["x-real-ip"] != "" ==> GetClientIP(headers) == headers["x-real-ip"]
    ensures !("x-real-ip" in headers && headers["x-real-ip"] != "") ==> GetClientIP(headers) == "127.0.0.1"
  {
  }
}
