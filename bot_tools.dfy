/**
  The bot's local tools (`whatsapp-bot/tools.py`): the validating front of
  the ledger insert, the portfolio report, and the guard and number cleaning
  in front of the outbound WhatsApp call. Every failure becomes a text that
  starts with the error marker; nothing raises to the caller. Numbers inside
  the texts are rendered by a `NumberFormat` the caller supplies, because the
  model does not fix Python's float formatting.
 */
module BotTools {
  import opened Common
  import opened Text
  import opened Database
  import Config
  import Http

  /** Renderings of numbers the texts embed: `{x}` for a float, `{x:,.2f}`,
      `{x:.6f}`, and the stored `created_at` timestamp. */
  datatype NumberFormat = NumberFormat(
    plain: real -> string,
    money: real -> string,
    sixPlaces: real -> string,
    timestamp: nat -> string)

  const ErrorMarker: string := "\U{274C}"
  const SuccessMarker: string := "\U{2705}"
  const ReportMarker: string := "\U{1F4CA}"

  const TypeError: string := ErrorMarker + " Error: Transaction type must be either 'buy' or 'sell'"
  const QuantityError: string := ErrorMarker + " Error: Quantity must be greater than 0"
  const PriceError: string := ErrorMarker + " Error: Price must be greater than 0"

  function RegisterFailure(detail: string): string {
    ErrorMarker + " Error registering transaction: " + detail
  }

  function QueryFailure(detail: string): string {
    ErrorMarker + " Error querying portfolio: " + detail
  }

  lemma {:induction false} MarkedConcat(a: string, b: string, marker: string)
    requires StartsWith(a, marker)
    ensures StartsWith(a + b, marker)
  {
    assert (a + b)[..|marker|] == a[..|marker|];
  }

  lemma {:induction false} ErrorMarked(s: string)
    requires s != [] && s[0] == ErrorMarker[0]
    ensures StartsWith(s, ErrorMarker)
  {
    assert s[..1] == [s[0]];
  }

  lemma {:induction false} DifferentMarkers(a: string, b: string)
    requires a != [] && a[0] != ErrorMarker[0]
    ensures !StartsWith(a + b, ErrorMarker)
  {
    assert (a + b)[0] == a[0];
  }

  /* ---------------------------------------------------------------------- */
  /* register_transaction                                                    */
  /* ---------------------------------------------------------------------- */

  predicate IsSide(t: string) {
    t == "buy" || t == "sell"
  }

  /** The early returns, in order: the type (compared after lower-casing),
      then the quantity, then the price. `None` when all three pass. */
  function Validate(quantity: real, priceUsd: real, transactionType: string): (r: Option<string>)
    ensures r.None? <==> IsSide(Lower(transactionType)) && quantity > 0.0 && priceUsd > 0.0
    ensures !IsSide(Lower(transactionType)) ==> r == Some(TypeError)
    ensures IsSide(Lower(transactionType)) && quantity <= 0.0 ==> r == Some(QuantityError)
    ensures IsSide(Lower(transactionType)) && quantity > 0.0 && priceUsd <= 0.0 ==> r == Some(PriceError)
    ensures r.Some? ==> StartsWith(r.value, ErrorMarker)
  {
    ErrorMarked(TypeError);
    ErrorMarked(QuantityError);
    ErrorMarked(PriceError);
    if !IsSide(Lower(transactionType)) then Some(TypeError)
    else if quantity <= 0.0 then Some(QuantityError)
    else if priceUsd <= 0.0 then Some(PriceError)
    else None
  }

  /** The confirmation up to the id. */
  const ConfirmationHead: string := SuccessMarker + " Transaction registered successfully!\n\U{1F4DD} ID: "

  /** The confirmation: the id the ledger returned, the type as given but
      capitalised, the quantity, the symbol upper-cased, price and exchange.
      It is not marked as an error, and the id can be read back from it. */
  function Confirmation(id: nat, cryptoSymbol: string, quantity: real, priceUsd: real,
                        exchange: string, transactionType: string, fmt: NumberFormat): (r: string)
    ensures StartsWith(r, ConfirmationHead)
    ensures !StartsWith(r, ErrorMarker)
    ensures DigitsValue(LeadingDigits(r[|ConfirmationHead|..])) == id
  {
    var rest := "\n"
      + "\U{1FA99} " + Capitalize(transactionType) + ": " + fmt.plain(quantity) + " " + Upper(cryptoSymbol) + "\n"
      + "\U{1F4B0} Price: $" + fmt.money(priceUsd) + "\n"
      + "\U{1F3EA} Exchange: " + exchange;
    ReadBack(id, rest);
    DifferentMarkers(ConfirmationHead, Decimal(id) + rest);
    assert (ConfirmationHead + (Decimal(id) + rest))[|ConfirmationHead|..] == Decimal(id) + rest;
    ConfirmationHead + (Decimal(id) + rest)
  }

  /** `register_transaction`: a failed check answers with its message and
      leaves the ledger alone; a valid call stores exactly one row with the
      symbol and the type lower-cased and confirms with the id the store
      returned; a store failure is reported, not raised. The reply starts with
      the error marker exactly when nothing was stored. */
  method RegisterTransaction(ledger: Ledger, cryptoSymbol: string, quantity: real, priceUsd: real,
                             exchange: string, transactionType: string, now: nat, fmt: NumberFormat)
    returns (reply: string)
    requires ledger.Valid()
    modifies ledger
    ensures ledger.Valid()
    ensures ledger.tableExists == old(ledger.tableExists)
    ensures Validate(quantity, priceUsd, transactionType).Some? ==>
      && reply == Validate(quantity, priceUsd, transactionType).value
      && ledger.rows == old(ledger.rows) && ledger.nextId == old(ledger.nextId)
    ensures Validate(quantity, priceUsd, transactionType).None? && !old(ledger.tableExists) ==>
      && reply == RegisterFailure(ErrorMessage(NoSuchTable))
      && ledger.rows == old(ledger.rows) && ledger.nextId == old(ledger.nextId)
    ensures Validate(quantity, priceUsd, transactionType).None? && old(ledger.tableExists) ==>
      && ledger.rows == old(ledger.rows) + [Row(old(ledger.nextId), Lower(cryptoSymbol), quantity, priceUsd,
                                                exchange, Lower(transactionType), now)]
      && ledger.nextId == old(ledger.nextId) + 1
      && reply == Confirmation(old(ledger.nextId), cryptoSymbol, quantity, priceUsd, exchange, transactionType, fmt)
    ensures StartsWith(reply, ErrorMarker) <==> ledger.rows == old(ledger.rows)
  {
    var invalid := Validate(quantity, priceUsd, transactionType);
    if invalid.Some? {
      return invalid.value;
    }
    var tx := Transaction(Lower(cryptoSymbol), quantity, priceUsd, exchange, Lower(transactionType));
    LowerIdempotent(cryptoSymbol);
    var added := ledger.AddTransaction(tx, now);
    match added
    case Err(e) =>
      reply := RegisterFailure(ErrorMessage(e));
      MarkedConcat(ErrorMarker + " Error registering transaction: ", ErrorMessage(e), ErrorMarker);
    case Ok(id) =>
      reply := Confirmation(id, cryptoSymbol, quantity, priceUsd, exchange, transactionType, fmt);
      assert |ledger.rows| != |old(ledger.rows)|;
  }

  /* ---------------------------------------------------------------------- */
  /* query_portfolio                                                         */
  /* ---------------------------------------------------------------------- */

  const NoneInPortfolio: string := ReportMarker + " No transactions found in portfolio"

  function NoneFoundFor(symbol: string): string {
    ReportMarker + " No transactions found for " + Upper(symbol)
  }

  /** A non-empty symbol filters the listing; `None` and "" do not. */
  predicate Filtered(cryptoSymbol: Option<string>) {
    cryptoSymbol.Some? && cryptoSymbol.value != []
  }

  /** The symbol the tool passes to the store: lower-cased when filtering. */
  function QueryKey(cryptoSymbol: Option<string>): Option<string> {
    if Filtered(cryptoSymbol) then Some(Lower(cryptoSymbol.value)) else None
  }

  function Title(cryptoSymbol: Option<string>): string {
    if Filtered(cryptoSymbol) then ReportMarker + " Transaction history for " + Upper(cryptoSymbol.value) + ":\n\n"
    else ReportMarker + " Complete transaction history:\n\n"
  }

  /** `transactions[:10]`: the first ten, or all when there are fewer. */
  function FirstTen(txs: seq<Row>): (r: seq<Row>)
    ensures |r| == if |txs| < 10 then |txs| else 10
    ensures r == txs[..|r|]
  {
    if |txs| < 10 then txs else txs[..10]
  }

  const RemainderHead: string := "... and "

  /** The line counting the transactions beyond the first ten: present
      exactly when there are more than ten, and carrying `count - 10`. */
  function Remainder(count: nat): (r: string)
    ensures r == [] <==> count <= 10
    ensures count > 10 ==>
      && StartsWith(r, RemainderHead)
      && DigitsValue(LeadingDigits(r[|RemainderHead|..])) == count - 10
  {
    if count > 10 then
      var rest := " more transactions\n\n";
      ReadBack(count - 10, rest);
      assert (RemainderHead + (Decimal(count - 10) + rest))[|RemainderHead|..] == Decimal(count - 10) + rest;
      RemainderHead + (Decimal(count - 10) + rest)
    else ""
  }

  /** The entry for the `index`-th transaction of the listing: its number,
      then the transaction's details. */
  function Entry(index: nat, tx: Row, fmt: NumberFormat): string {
    Decimal(index) + EntryDetails(tx, fmt)
  }

  function EntryDetails(tx: Row, fmt: NumberFormat): string {
    ". " + Upper(tx.ttype) + ": " + fmt.plain(tx.quantity) + " " + Upper(tx.symbol) + "\n"
    + "   \U{1F4B0} Price: $" + fmt.money(tx.price) + "\n"
    + "   \U{1F3EA} Exchange: " + tx.exchange + "\n"
    + "   \U{1F4C5} Date: " + fmt.timestamp(tx.createdAt) + "\n\n"
  }

  /** An entry starts with its number, which can be read back from it. */
  lemma EntryNumbered(index: nat, tx: Row, fmt: NumberFormat)
    ensures DigitsValue(LeadingDigits(Entry(index, tx, fmt))) == index
  {
    ReadBack(index, EntryDetails(tx, fmt));
  }

  /** The entries of `txs`, numbered from `first` on, in list order. */
  function Entries(txs: seq<Row>, first: nat, fmt: NumberFormat): string {
    if txs == [] then [] else Entry(first, txs[0], fmt) + Entries(txs[1..], first + 1, fmt)
  }

  lemma {:induction false} EntriesAppend(txs: seq<Row>, tx: Row, first: nat, fmt: NumberFormat)
    ensures Entries(txs + [tx], first, fmt) == Entries(txs, first, fmt) + Entry(first + |txs|, tx, fmt)
    decreases |txs|
  {
    if txs == [] {
      assert [tx][1..] == [];
    } else {
      assert (txs + [tx])[1..] == txs[1..] + [tx];
      EntriesAppend(txs[1..], tx, first + 1, fmt);
    }
  }

  function HoldingLine(h: Holding, fmt: NumberFormat): string {
    "\U{2022} " + Upper(h.symbol) + ": " + fmt.sixPlaces(h.netQuantity) + " (avg: $" + fmt.money(h.avgPrice) + ")\n"
  }

  function HoldingLines(hs: seq<Holding>, fmt: NumberFormat): string {
    if hs == [] then [] else HoldingLine(hs[0], fmt) + HoldingLines(hs[1..], fmt)
  }

  lemma {:induction false} HoldingLinesAppend(hs: seq<Holding>, h: Holding, fmt: NumberFormat)
    ensures HoldingLines(hs + [h], fmt) == HoldingLines(hs, fmt) + HoldingLine(h, fmt)
    decreases |hs|
  {
    if hs == [] {
      assert [h][1..] == [];
    } else {
      assert (hs + [h])[1..] == hs[1..] + [h];
      HoldingLinesAppend(hs[1..], h, fmt);
    }
  }

  /** The holdings block, left out entirely when nothing is held. */
  function HoldingsSection(hs: seq<Holding>, fmt: NumberFormat): string {
    if hs == [] then [] else "\U{1F4BC} Current Holdings:\n" + HoldingLines(hs, fmt)
  }

  /** `query_portfolio`: an empty listing gets its "no transactions" message;
      otherwise the title, the first ten retrieved transactions in retrieved
      order, the count of the rest when there are more than ten, and the
      holdings of the whole portfolio, filtered query or not. A store failure
      is reported, not raised, and only a failure starts with the error marker. */
  method QueryPortfolio(ledger: Ledger, cryptoSymbol: Option<string>, fmt: NumberFormat) returns (report: string)
    ensures !ledger.tableExists ==> report == QueryFailure(ErrorMessage(NoSuchTable))
    ensures ledger.tableExists ==>
      var txs := ledger.GetTransactions(QueryKey(cryptoSymbol)).value;
      && (txs == [] && Filtered(cryptoSymbol) ==> report == NoneFoundFor(cryptoSymbol.value))
      && (txs == [] && !Filtered(cryptoSymbol) ==> report == NoneInPortfolio)
      && (txs != [] ==>
            report == Title(cryptoSymbol) + Entries(FirstTen(txs), 1, fmt) + Remainder(|txs|)
                      + HoldingsSection(Holdings(ledger.rows), fmt))
    ensures StartsWith(report, ErrorMarker) <==> !ledger.tableExists
  {
    var fetched := ledger.GetTransactions(QueryKey(cryptoSymbol));
    if fetched.Err? {
      report := QueryFailure(ErrorMessage(fetched.error));
      MarkedConcat(ErrorMarker + " Error querying portfolio: ", ErrorMessage(fetched.error), ErrorMarker);
      return;
    }
    var txs := fetched.value;
    if txs == [] {
      if Filtered(cryptoSymbol) {
        report := NoneFoundFor(cryptoSymbol.value);
        DifferentMarkers(ReportMarker + " No transactions found for ", Upper(cryptoSymbol.value));
      } else {
        report := NoneInPortfolio;
        DifferentMarkers(NoneInPortfolio, []);
        assert NoneInPortfolio + [] == NoneInPortfolio;
      }
      return;
    }
    report := History(ledger, cryptoSymbol, txs, fmt);
  }

  /** The report for a non-empty listing `txs`: title, entries, remainder
      and the holdings of the whole ledger, never marked as an error. */
  method History(ledger: Ledger, cryptoSymbol: Option<string>, txs: seq<Row>, fmt: NumberFormat)
    returns (report: string)
    requires ledger.tableExists
    ensures report == Title(cryptoSymbol) + Entries(FirstTen(txs), 1, fmt) + Remainder(|txs|)
                      + HoldingsSection(Holdings(ledger.rows), fmt)
    ensures !StartsWith(report, ErrorMarker)
  {
    var title := Title(cryptoSymbol);
    var listing := Listing(txs, fmt);
    var summary := ledger.GetPortfolioSummary();
    assert summary.Ok?;
    var holdings := HoldingsReport(summary.value.holdings, fmt);
    report := title + listing + holdings;
    assert listing + holdings == Entries(FirstTen(txs), 1, fmt) + Remainder(|txs|) + holdings;
    TitleUnmarked(cryptoSymbol, listing, holdings);
  }

  lemma {:induction false} TitleUnmarked(cryptoSymbol: Option<string>, a: string, b: string)
    ensures !StartsWith(Title(cryptoSymbol) + a + b, ErrorMarker)
  {
    assert Title(cryptoSymbol) + a + b == Title(cryptoSymbol) + (a + b);
    DifferentMarkers(Title(cryptoSymbol), a + b);
  }

  /** The first loop of the report: the first ten transactions, numbered
      from 1 in the order given, then the count of the rest. */
  method Listing(txs: seq<Row>, fmt: NumberFormat) returns (text: string)
    ensures text == Entries(FirstTen(txs), 1, fmt) + Remainder(|txs|)
  {
    text := RenderEntries(FirstTen(txs), fmt);
    if |txs| > 10 {
      text := text + (RemainderHead + (Decimal(|txs| - 10) + " more transactions\n\n"));
    }
  }

  /** One more transaction of the listing adds its entry at the end. */
  lemma EntriesStep(shown: seq<Row>, i: nat, fmt: NumberFormat)
    requires i < |shown|
    ensures Entries(shown[..i + 1], 1, fmt) == Entries(shown[..i], 1, fmt) + Entry(i + 1, shown[i], fmt)
  {
    EntriesAppend(shown[..i], shown[i], 1, fmt);
    assert shown[..i + 1] == shown[..i] + [shown[i]];
  }

  /** The entry loop: each transaction in the order given, numbered from 1. */
  method RenderEntries(shown: seq<Row>, fmt: NumberFormat) returns (text: string)
    ensures text == Entries(shown, 1, fmt)
  {
    text := [];
    for i := 0 to |shown|
      invariant text == Entries(shown[..i], 1, fmt)
    {
      EntriesStep(shown, i, fmt);
      text := text + Entry(i + 1, shown[i], fmt);
    }
    assert shown[..|shown|] == shown;
  }

  /** The second loop of the report: the holdings block, one line per holding
      in the order given, or nothing when there are none. */
  method HoldingsReport(hs: seq<Holding>, fmt: NumberFormat) returns (text: string)
    ensures text == HoldingsSection(hs, fmt)
  {
    text := [];
    if hs != [] {
      text := "\U{1F4BC} Current Holdings:\n";
      for i := 0 to |hs|
        invariant text == "\U{1F4BC} Current Holdings:\n" + HoldingLines(hs[..i], fmt)
      {
        HoldingLinesAppend(hs[..i], hs[i], fmt);
        assert hs[..i + 1] == hs[..i] + [hs[i]];
        text := text + HoldingLine(hs[i], fmt);
      }
      assert hs[..|hs|] == hs;
    }
  }

  /* ---------------------------------------------------------------------- */
  /* send_whatsapp_message: the guard and the recipient number               */
  /* ---------------------------------------------------------------------- */

  const UnauthorizedRecipient: string := ErrorMarker + " Error: This bot can only send messages to the authorized number."
  const Sent: string := SuccessMarker + " Message sent successfully"

  /** `phone_number.split('@')[0]`: the number without its `@s.whatsapp.net`
      suffix; the whole string when it has no `@`. */
  function CleanNumber(phoneNumber: string): (r: string)
    ensures StartsWith(phoneNumber, r)
    ensures '@' !in r
    ensures '@' !in phoneNumber ==> r == phoneNumber
    ensures '@' in phoneNumber ==> phoneNumber[|r|] == '@'
    ensures r == Split(phoneNumber, '@')[0]
  {
    BeforeFirstIsFirstPiece(phoneNumber, '@');
    assert |BeforeFirst(phoneNumber, '@')| == |phoneNumber| ==> BeforeFirst(phoneNumber, '@') == phoneNumber;
    BeforeFirst(phoneNumber, '@')
  }

  /** The POST the tool would issue to the Evolution API. */
  datatype OutboundMessage = OutboundMessage(url: string, apiKey: string, number: string, text: string)

  /** What a send did: the request it issued, if any, and the status text. */
  datatype Delivery = Delivery(request: Option<OutboundMessage>, status: string)

  /** `send_whatsapp_message`: a recipient that does not contain the allowed
      number is refused without a request; otherwise one message to the
      cleaned number is posted, and the outcome of the POST is reported. */
  function SendWhatsappMessage(settings: Config.Settings, phoneNumber: string, message: string,
                               response: Http.Outcome): (d: Delivery)
    ensures d.request.None? <==> !IsSubstring(settings.allowedWhatsappNumber, phoneNumber)
    ensures d.request.None? ==> d.status == UnauthorizedRecipient
    ensures d.request.Some? ==>
      && d.request.value.number == CleanNumber(phoneNumber)
      && d.request.value.text == message
      && d.request.value.apiKey == settings.evolutionApiKey
      && d.request.value.url == settings.evolutionApiUrl + "/message/sendText/" + settings.evolutionInstanceName
    ensures StartsWith(d.status, ErrorMarker) <==> !(d.request.Some? && response.Received?)
  {
    if !IsSubstring(settings.allowedWhatsappNumber, phoneNumber) then
      ErrorMarked(UnauthorizedRecipient);
      Delivery(None, UnauthorizedRecipient)
    else
      var request := OutboundMessage(
        settings.evolutionApiUrl + "/message/sendText/" + settings.evolutionInstanceName,
        settings.evolutionApiKey, CleanNumber(phoneNumber), message);
      var status :=
        match response
        case Received(_) => Sent
        case StatusError(_, text) => ErrorMarker + " Failed to send message. API Error: " + text
        case Timeout => ErrorMarker + " Failed to send message: Request timed out"
        case Failure(m) => ErrorMarker + " Failed to send message: " + m;
      assert status[0] == (if response.Received? then Sent[0] else ErrorMarker[0]);
      Delivery(Some(request), status)
  }
}
