/**
 * The order bill handed to the messaging link after a successful checkout:
 * a fixed multi-line template with the order's fields substituted.
 */
module Receipt {
  import opened Text
  import opened Ledger

  const Title: string := "\U{1F9FE} *ADS-ABN DIGITAL STORE \U{2014} Order Bill*"
  const Rule: string := "-----------------------------------"
  const NameLabel: string := "\U{1F464} Name: "
  const EmailLabel: string := "\U{1F4E7} Email: "
  const FfidLabel: string := "\U{1F3AE} FF ID / Username: "
  const OrderLabel: string := "\U{1F4E6} Order: "
  const PhoneLabel: string := "\U{1F4F1} Phone: "
  const AmountLabel: string := "\U{1F4B0} Amount: "
  const DateLabel: string := "\U{1F552} Date: "
  const Closing: string := "Thank you!"

  /** The lines of the bill, top to bottom; the amount is rendered by `formatAmount`. */
  function BillLines(o: Order, formatAmount: string -> string): (lines: seq<string>) {
    [ Title,
      Rule,
      NameLabel + o.customerName,
      EmailLabel + o.email,
      FfidLabel + o.ffid,
      OrderLabel + o.orderName,
      PhoneLabel + o.phone,
      AmountLabel + formatAmount(o.amount),
      DateLabel + o.date,
      Rule,
      Closing ]
  }

  /** The bill text: its lines joined by line feeds, so that it reads back as those lines. */
  function Bill(o: Order, formatAmount: string -> string): (text: string)
    ensures SingleLineFields(o, formatAmount) ==> Lines(text) == BillLines(o, formatAmount)
  {
    var lines := BillLines(o, formatAmount);
    if SingleLineFields(o, formatAmount) then BillLinesSingleLine(o, formatAmount); LinesOfJoin(lines); JoinLines(lines)
    else JoinLines(lines)
  }

  /** None of the substituted values breaks a line. */
  predicate SingleLineFields(o: Order, formatAmount: string -> string) {
    && '\n' !in o.customerName && '\n' !in o.email && '\n' !in o.ffid
    && '\n' !in o.orderName && '\n' !in o.phone && '\n' !in formatAmount(o.amount)
    && '\n' !in o.date
  }

  /** With single-line fields, no line of the bill holds a line feed. */
  lemma BillLinesSingleLine(o: Order, formatAmount: string -> string)
    requires SingleLineFields(o, formatAmount)
    ensures forall i :: 0 <= i < |BillLines(o, formatAmount)| ==> '\n' !in BillLines(o, formatAmount)[i]
  {
    var ls := BillLines(o, formatAmount);
    FixedLinesSingleLine();
    LabelsSingleLine();
    JoinedSingleLine(NameLabel, o.customerName);
    JoinedSingleLine(EmailLabel, o.email);
    JoinedSingleLine(FfidLabel, o.ffid);
    JoinedSingleLine(OrderLabel, o.orderName);
    JoinedSingleLine(PhoneLabel, o.phone);
    JoinedSingleLine(AmountLabel, formatAmount(o.amount));
    JoinedSingleLine(DateLabel, o.date);
  }

  /** The fixed lines of the template break no line. */
  lemma FixedLinesSingleLine()
    ensures '\n' !in Title && '\n' !in Rule && '\n' !in Closing
  {
    TitleSingleLine();
    RuleSingleLine();
  }

  lemma TitleSingleLine()
    ensures '\n' !in Title
  {
  }

  lemma RuleSingleLine()
    ensures '\n' !in Rule
  {
  }

  /** Nor do the labels in front of the fields. */
  lemma LabelsSingleLine()
    ensures '\n' !in NameLabel && '\n' !in EmailLabel && '\n' !in FfidLabel && '\n' !in OrderLabel
    ensures '\n' !in PhoneLabel && '\n' !in AmountLabel && '\n' !in DateLabel
  {
  }

  lemma JoinedSingleLine(prefix: string, x: string)
    requires '\n' !in prefix && '\n' !in x
    ensures '\n' !in prefix + x
  {
  }

  /**
   * Read line by line, the bill is the title, a rule, the customer name,
   * e-mail, FF ID, order name, phone, formatted amount and date, each behind
   * its label, a rule and the closing line.
   */
  lemma BillReadsBack(o: Order, formatAmount: string -> string)
    requires SingleLineFields(o, formatAmount)
    ensures Lines(Bill(o, formatAmount)) == BillLines(o, formatAmount)
    ensures |Lines(Bill(o, formatAmount))| == 11
  {
  }

  lemma LabelCancel(prefix: string, x: string, y: string)
    requires prefix + x == prefix + y
    ensures x == y
  {
    assert x == (prefix + x)[|prefix|..];
  }

  /** Two bills that read the same show the same order details. */
  lemma BillDeterminesFields(o1: Order, o2: Order, formatAmount: string -> string)
    requires SingleLineFields(o1, formatAmount) && SingleLineFields(o2, formatAmount)
    requires Bill(o1, formatAmount) == Bill(o2, formatAmount)
    ensures o1.customerName == o2.customerName && o1.email == o2.email && o1.ffid == o2.ffid
    ensures o1.orderName == o2.orderName && o1.phone == o2.phone && o1.date == o2.date
    ensures formatAmount(o1.amount) == formatAmount(o2.amount)
  {
    BillReadsBack(o1, formatAmount);
    BillReadsBack(o2, formatAmount);
    var l1, l2 := BillLines(o1, formatAmount), BillLines(o2, formatAmount);
    assert l1 == l2;
    LabelCancel(NameLabel, o1.customerName, o2.customerName);
    LabelCancel(EmailLabel, o1.email, o2.email);
    LabelCancel(FfidLabel, o1.ffid, o2.ffid);
    LabelCancel(OrderLabel, o1.orderName, o2.orderName);
    LabelCancel(PhoneLabel, o1.phone, o2.phone);
    LabelCancel(AmountLabel, formatAmount(o1.amount), formatAmount(o2.amount));
    LabelCancel(DateLabel, o1.date, o2.date);
  }

  /** The confirmation password typed at checkout never appears in the bill. */
  lemma BillOmitsPassword(o: Order, password: string, formatAmount: string -> string)
    ensures Bill(o.(password := password), formatAmount) == Bill(o, formatAmount)
  {
  }
}
