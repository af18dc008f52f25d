/**
  The market-data tools of the MCP server (`mcp-server/tools.py`): input
  normalisation for the coin and currency lookups, the URLs requested, and
  the mapping of every HTTP outcome to the tool's result, which is the
  decoded data or an object `{"error": message}`. Each tool issues at most one
  GET; its outcome is an input here (`Http.Outcome`), and a `Call` records
  which URL, if any, the tool requested.
 */
module MarketData {
  import opened Common
  import opened Text
  import opened Json
  import Http

  /** What a tool returns: the data, or `{"error": message}`. */
  datatype ToolResult = Data(data: Json) | Error(message: string)

  /** A tool invocation: the URL it requested, if any, and its result. */
  datatype Call = Call(request: Option<string>, result: ToolResult)

  const NoCoinIds: string := "No valid coin IDs provided"
  const InvalidCurrency: string := "Invalid currency code. Please provide a 3-letter currency code."
  const TimedOut: string := "Request timed out"

  const PricesUrlPrefix: string := "https://api.coingecko.com/api/v3/simple/price?ids="
  const PricesUrlSuffix: string := "&vs_currencies=usd"
  const FearAndGreedUrl: string := "https://api.alternative.me/fng/?limit=1"
  const GlobalUrl: string := "https://api.coingecko.com/api/v3/global"
  const RatesUrlPrefix: string := "https://open.er-api.com/v6/latest/"

  const StatusHead: string := "API request failed with status "

  /** The message of an error status, which carries the status code. */
  function StatusFailure(code: nat): (r: string)
    ensures StartsWith(r, StatusHead)
    ensures DigitsValue(r[|StatusHead|..]) == code
  {
    DecimalValue(code);
    assert (StatusHead + Decimal(code))[|StatusHead|..] == Decimal(code);
    StatusHead + Decimal(code)
  }

  function Unexpected(message: string): string {
    "Unexpected error: " + message
  }

  /* ---------------------------------------------------------------------- */
  /* The outcome mapping shared by the four tools                            */
  /* ---------------------------------------------------------------------- */

  /** What a tool does with a success body before returning it. */
  datatype Decoding = AsIs | CheckedPrices | BtcDominance

  /** `AsIs` returns the body unchanged. `CheckedPrices` is the price tool's,
      which logs `len(data)` first, so a body without a length raises.
      `BtcDominance` is the dominance tool's lookup. */
  function Decode(decoding: Decoding, body: Json): Result<Json, string> {
    match decoding
    case AsIs => Ok(body)
    case CheckedPrices =>
      (match Len(body)
       case Ok(_) => Ok(body)
       case Err(m) => Err(m))
    case BtcDominance => DominanceOf(body)
  }

  /** How a tool finishes: a success response is decoded (a failure there is
      an unexpected error); an error status, a timeout and any other
      exception each become their fixed error message. */
  function Respond(outcome: Http.Outcome, decoding: Decoding): (r: ToolResult)
    ensures MapsFailures(outcome, r)
    ensures outcome.Received? ==>
      (r.Data? <==> Decode(decoding, outcome.body).Ok?)
      && (r.Data? ==> r.data == Decode(decoding, outcome.body).value)
      && (r.Error? ==> r.message == Unexpected(Decode(decoding, outcome.body).error))
  {
    match outcome
    case Received(body) =>
      (match Decode(decoding, body)
       case Ok(d) => Data(d)
       case Err(m) => Error(Unexpected(m)))
    case StatusError(code, _) => Error(StatusFailure(code))
    case Timeout => Error(TimedOut)
    case Failure(m) => Error(Unexpected(m))
  }

  /* ---------------------------------------------------------------------- */
  /* get_crypto_prices                                                       */
  /* ---------------------------------------------------------------------- */

  /** A non-empty string with no whitespace at either end. */
  predicate Stripped(x: string) {
    x != [] && !IsSpace(x[0]) && !IsSpace(x[|x| - 1])
  }

  /** `[c.strip() for c in pieces if c.strip()]`. */
  function Cleaned(pieces: seq<string>): (r: seq<string>)
    ensures |r| <= |pieces|
    ensures forall x :: x in r ==> Stripped(x)
    ensures (forall p :: p in pieces ==> ',' !in p) ==> forall x :: x in r ==> ',' !in x
  {
    if pieces == [] then []
    else
      var head := Strip(pieces[0]);
      var rest := Cleaned(pieces[1..]);
      assert forall p :: p in pieces[1..] ==> p in pieces;
      if head != [] then
        StripKeepsOut(pieces[0], ',');
        assert Stripped(head);
        assert forall x :: x in [head] + rest ==> x == head || x in rest;
        [head] + rest
      else rest
  }

  /** `Cleaned` works piece by piece and keeps the order: a piece contributes
      its stripped form when that is non-empty and nothing otherwise, and the
      result for a concatenation is the concatenation of the results. */
  lemma {:induction false} CleanedPiecewise(a: seq<string>, b: seq<string>, piece: string)
    ensures Cleaned(a + b) == Cleaned(a) + Cleaned(b)
    ensures Cleaned([piece]) == if Strip(piece) == [] then [] else [Strip(piece)]
    decreases |a|
  {
    assert [piece][1..] == [];
    if a == [] {
      assert a + b == b;
    } else {
      assert (a + b)[1..] == a[1..] + b;
      CleanedPiecewise(a[1..], b, piece);
    }
  }

  /** The coin list: the input split on `,`, each piece stripped, empty
      pieces dropped, order kept. */
  function ParseCoinIds(coinIds: string): (r: seq<string>)
    ensures forall i :: 0 <= i < |r| ==> Stripped(r[i]) && ',' !in r[i]
  {
    var parts := Split(coinIds, ',');
    assert forall p :: p in parts ==> ',' !in p;
    var r := Cleaned(parts);
    assert forall i :: 0 <= i < |r| ==> r[i] in r;
    r
  }

  function LowerAll(ids: seq<string>): (r: seq<string>)
    ensures |r| == |ids|
    ensures forall i :: 0 <= i < |ids| ==> r[i] == Lower(ids[i])
  {
    if ids == [] then [] else [Lower(ids[0])] + LowerAll(ids[1..])
  }

  /** `",".join([c.lower() for c in ids])`, which is all lower case. */
  function IdsString(ids: seq<string>): (r: string)
    ensures IsLowerCase(r)
  {
    Join(LowerAll(ids), ',')
  }

  function PricesUrl(ids: string): string {
    PricesUrlPrefix + ids + PricesUrlSuffix
  }

  /** The price tool: no request at all for an empty coin list, otherwise one
      request for the normalised list. */
  function GetCryptoPrices(coinIds: string, response: Http.Outcome): (c: Call)
    ensures ParseCoinIds(coinIds) == [] <==> c.request.None?
    ensures ParseCoinIds(coinIds) == [] ==> c.result == Error(NoCoinIds)
    ensures c.request.Some? ==> c.request.value == PricesUrl(IdsString(ParseCoinIds(coinIds)))
  {
    var ids := ParseCoinIds(coinIds);
    if ids == [] then Call(None, Error(NoCoinIds))
    else Call(Some(PricesUrl(IdsString(ids))), Respond(response, CheckedPrices))
  }

  /** The normalised id string splits back into the lower-cased coin list,
      so none of its components is empty. */
  lemma IdsStringSplits(coinIds: string)
    requires ParseCoinIds(coinIds) != []
    ensures Split(IdsString(ParseCoinIds(coinIds)), ',') == LowerAll(ParseCoinIds(coinIds))
    ensures forall p :: p in Split(IdsString(ParseCoinIds(coinIds)), ',') ==> p != []
  {
    var ids := ParseCoinIds(coinIds);
    var lowered := LowerAll(ids);
    forall i | 0 <= i < |lowered|
      ensures ',' !in lowered[i] && lowered[i] != []
    {
      LowerKeepsOut(ids[i], ',');
    }
    SplitJoin(lowered, ',');
  }

  /** The ids are stripped at line 23 and lowered at line 29; lowering
      first and cleaning afterwards gives the same list. */
  lemma {:induction false} LowerCleanedCommute(pieces: seq<string>)
    ensures LowerAll(Cleaned(pieces)) == Cleaned(LowerAll(pieces))
    decreases |pieces|
  {
    if pieces != [] {
      StripLower(pieces[0]);
      assert LowerAll(pieces)[0] == Lower(pieces[0]);
      assert LowerAll(pieces)[1..] == LowerAll(pieces[1..]);
      LowerCleanedCommute(pieces[1..]);
      var rest := Cleaned(pieces[1..]);
      var head := Strip(pieces[0]);
      assert LowerAll([head] + rest) == [Lower(head)] + LowerAll(rest);
    }
  }

  lemma {:induction false} CleanedFixed(ids: seq<string>)
    requires forall i :: 0 <= i < |ids| ==> Stripped(ids[i])
    ensures Cleaned(ids) == ids
    decreases |ids|
  {
    if ids != [] {
      StripFixed(ids[0]);
      CleanedFixed(ids[1..]);
    }
  }

  lemma {:induction false} LowerAllIdempotent(ids: seq<string>)
    ensures LowerAll(LowerAll(ids)) == LowerAll(ids)
  {
    forall i | 0 <= i < |ids| ensures LowerAll(LowerAll(ids))[i] == LowerAll(ids)[i] {
      LowerIdempotent(ids[i]);
    }
  }

  /** Parsing the normalised id string again gives the lower-cased list, so
      normalisation is idempotent. */
  lemma NormalisationIdempotent(coinIds: string)
    requires ParseCoinIds(coinIds) != []
    ensures ParseCoinIds(IdsString(ParseCoinIds(coinIds))) == LowerAll(ParseCoinIds(coinIds))
    ensures IdsString(ParseCoinIds(IdsString(ParseCoinIds(coinIds)))) == IdsString(ParseCoinIds(coinIds))
  {
    var ids := ParseCoinIds(coinIds);
    var lowered := LowerAll(ids);
    IdsStringSplits(coinIds);
    forall i | 0 <= i < |lowered|
      ensures Stripped(lowered[i])
    {
      assert lowered[i] == Lower(ids[i]);
    }
    CleanedFixed(lowered);
    LowerAllIdempotent(ids);
  }

  /* ---------------------------------------------------------------------- */
  /* get_fear_and_greed_index                                                */
  /* ---------------------------------------------------------------------- */

  /** The index tool always issues its one request and returns the outcome. */
  function GetFearAndGreedIndex(response: Http.Outcome): (c: Call)
    ensures c.request == Some(FearAndGreedUrl)
  {
    Call(Some(FearAndGreedUrl), Respond(response, AsIs))
  }

  /* ---------------------------------------------------------------------- */
  /* get_bitcoin_dominance                                                   */
  /* ---------------------------------------------------------------------- */

  /** `response.json().get('data', {}).get('market_cap_percentage', {}).get('btc', 0.0)`,
      wrapped as `{"bitcoin_dominance_percentage": btc}`. It raises exactly
      when the body, its `data` or their `market_cap_percentage` is not an
      object. */
  function DominanceOf(body: Json): (r: Result<Json, string>)
    ensures r.Err? <==>
      || !body.JObj?
      || ("data" in body.fields && !body.fields["data"].JObj?)
      || ("data" in body.fields && body.fields["data"].JObj?
          && "market_cap_percentage" in body.fields["data"].fields
          && !body.fields["data"].fields["market_cap_percentage"].JObj?)
    ensures r.Ok? ==> r.value.JObj? && r.value.fields.Keys == {"bitcoin_dominance_percentage"}
  {
    match Get(body, "data", JObj(map[]))
    case Err(m) => Err(m)
    case Ok(data) =>
      match Get(data, "market_cap_percentage", JObj(map[]))
      case Err(m) => Err(m)
      case Ok(percentages) =>
        match Get(percentages, "btc", JFloat(0.0))
        case Err(m) => Err(m)
        case Ok(btc) => Ok(Dominance(btc))
  }

  function GetBitcoinDominance(response: Http.Outcome): (c: Call)
    ensures c.request == Some(GlobalUrl)
  {
    Call(Some(GlobalUrl), Respond(response, BtcDominance))
  }

  function Dominance(btc: Json): Json {
    JObj(map["bitcoin_dominance_percentage" := btc])
  }

  /** A missing `data`, `market_cap_percentage` or `btc` gives 0.0; a present
      `btc` is reported as it is. */
  lemma DominanceDefaults(fields: map<string, Json>)
    ensures "data" !in fields ==>
      GetBitcoinDominance(Http.Received(JObj(fields))).result == Data(Dominance(JFloat(0.0)))
    ensures "data" in fields && fields["data"].JObj? && "market_cap_percentage" !in fields["data"].fields ==>
      GetBitcoinDominance(Http.Received(JObj(fields))).result == Data(Dominance(JFloat(0.0)))
    ensures "data" in fields && fields["data"].JObj? && "market_cap_percentage" in fields["data"].fields ==>
      var p := fields["data"].fields["market_cap_percentage"];
      p.JObj? ==>
        GetBitcoinDominance(Http.Received(JObj(fields))).result
          == Data(Dominance(if "btc" in p.fields then p.fields["btc"] else JFloat(0.0)))
  {
  }

  /* ---------------------------------------------------------------------- */
  /* get_fiat_exchange_rates                                                 */
  /* ---------------------------------------------------------------------- */

  /** `base_currency.upper().strip()`. */
  function NormalizeCurrency(base: string): (code: string)
    ensures code == Upper(Strip(base))
    ensures forall i :: 0 <= i < |code| ==> !IsAsciiLower(code[i])
  {
    StripUpper(base);
    Strip(Upper(base))
  }

  /** The rates tool: a code that is not exactly three characters long after
      normalisation (the empty code included) is refused without a request;
      otherwise the URL ends with exactly that code. */
  function GetFiatExchangeRates(base: string, response: Http.Outcome): (c: Call)
    ensures |NormalizeCurrency(base)| != 3 <==> c.request.None?
    ensures c.request.None? ==> c.result == Error(InvalidCurrency)
    ensures c.request.Some? ==>
      && c.request.value == RatesUrlPrefix + NormalizeCurrency(base)
      && c.request.value[|c.request.value| - 3..] == NormalizeCurrency(base)
  {
    var code := NormalizeCurrency(base);
    if code == [] || |code| != 3 then Call(None, Error(InvalidCurrency))
    else Call(Some(RatesUrlPrefix + code), Respond(response, AsIs))
  }

  /* ---------------------------------------------------------------------- */
  /* Outcome mapping, stated for every tool                                  */
  /* ---------------------------------------------------------------------- */

  /** The error half of the mapping, common to all tools: an error status, a
      timeout and any other exception each give their fixed message. */
  predicate MapsFailures(outcome: Http.Outcome, r: ToolResult) {
    && (outcome.StatusError? ==> r == Error(StatusFailure(outcome.code)))
    && (outcome.Timeout? ==> r == Error(TimedOut))
    && (outcome.Failure? ==> r == Error(Unexpected(outcome.message)))
  }

  /** The price tool, once it has issued its request, maps failures like the
      others, returns an object or list body unchanged, and reports a body
      without a length (a bare number, say) as an unexpected error, because
      it takes that length before returning. */
  lemma PricesOutcome(coinIds: string, outcome: Http.Outcome)
    requires GetCryptoPrices(coinIds, outcome).request.Some?
    ensures MapsFailures(outcome, GetCryptoPrices(coinIds, outcome).result)
    ensures outcome.Received? && (outcome.body.JObj? || outcome.body.JArr?) ==>
      GetCryptoPrices(coinIds, outcome).result == Data(outcome.body)
    ensures outcome.Received? && Len(outcome.body).Err? ==>
      GetCryptoPrices(coinIds, outcome).result == Error(Unexpected(Len(outcome.body).error))
  {
    assert GetCryptoPrices(coinIds, outcome).result == Respond(outcome, CheckedPrices);
    CheckedOutcome(outcome);
  }

  lemma CheckedOutcome(outcome: Http.Outcome)
    ensures MapsFailures(outcome, Respond(outcome, CheckedPrices))
    ensures outcome.Received? && (outcome.body.JObj? || outcome.body.JArr?) ==>
      Respond(outcome, CheckedPrices) == Data(outcome.body)
    ensures outcome.Received? && Len(outcome.body).Err? ==>
      Respond(outcome, CheckedPrices) == Error(Unexpected(Len(outcome.body).error))
  {
  }

  /** The index tool maps failures and returns a success body unchanged. */
  lemma IndexOutcome(outcome: Http.Outcome)
    ensures MapsFailures(outcome, GetFearAndGreedIndex(outcome).result)
    ensures outcome.Received? ==> GetFearAndGreedIndex(outcome).result == Data(outcome.body)
  {
  }

  /** The dominance tool maps failures the same way. */
  lemma DominanceOutcome(outcome: Http.Outcome)
    ensures MapsFailures(outcome, GetBitcoinDominance(outcome).result)
  {
  }

  /** The rates tool, once it has issued its request, maps failures and
      returns a success body unchanged. */
  lemma RatesOutcome(base: string, outcome: Http.Outcome)
    requires GetFiatExchangeRates(base, outcome).request.Some?
    ensures MapsFailures(outcome, GetFiatExchangeRates(base, outcome).result)
    ensures outcome.Received? ==> GetFiatExchangeRates(base, outcome).result == Data(outcome.body)
  {
  }
}
