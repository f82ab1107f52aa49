/**
 * The configuration wizard (`CoinMarketCapConfigFlow`) and the options editor
 * (`CoinMarketCapOptionsFlow`). Both keep a mutable set of selected symbols;
 * each step either shows a form, moves to another step, or finishes.
 * The reply to the single-symbol lookup request is an input of the step.
 */
module ConfigFlow {
  import opened Wrappers
  import opened Json
  import opened Text
  import opened Config

  /** The ten symbols always offered, with their display labels. */
  const TOP_CRYPTOCURRENCIES: map<string, string> := map[
    "BTC" := "Bitcoin", "ETH" := "Ethereum", "USDT" := "Tether", "BNB" := "Binance Coin",
    "ADA" := "Cardano", "XRP" := "XRP", "DOGE" := "Dogecoin", "USDC" := "USD Coin",
    "DOT" := "Polkadot", "UNI" := "Uniswap"]

  /** The form-level errors, shown as `errors["base"]`. */
  datatype FlowError =
    | NoCryptocurrencies      // "no_cryptocurrencies"
    | InvalidCryptocurrency   // "invalid_cryptocurrency"
    | CannotConnect           // "cannot_connect"
    | Unknown                 // "unknown"

  /** The submitted first form. */
  datatype UserInput = UserInput(apiKey: string)

  /**
   * The submitted selection form. A key the form left out is None, and reads
   * as an empty selection or as "no custom symbol" respectively.
   */
  datatype SelectInput = SelectInput(
    cryptocurrencies: Option<seq<string>>,
    currency: string,
    scanInterval: int,
    addCustom: Option<bool>)

  /** The submitted custom symbol, with the reply to the lookup request made for it. */
  datatype AddInput = AddInput(symbol: string, lookup: HttpReply)

  datatype FlowResult =
    | ShowForm(stepId: string, error: Option<FlowError>, choices: map<string, string>)
    | CreateEntry(title: string, data: EntryData)
    | CreateEmptyOptions   // `async_create_entry(title="", data={})`, which ends the options flow

  /** `user_input.get(CONF_CRYPTOCURRENCIES, [])` */
  function Submitted(input: SelectInput): seq<string> {
    match input.cryptocurrencies
    case Some(xs) => xs
    case None => []
  }

  /** `user_input.get("add_custom", False)` */
  predicate WantsCustom(input: SelectInput) {
    input.addCustom == Some(true)
  }

  /**
   * The multi-select choices: the ten built-in symbols with their labels, and
   * every selected symbol not among them, labelled by itself.
   */
  function OfferedChoices(selected: set<string>): (r: map<string, string>)
    ensures r.Keys == TOP_CRYPTOCURRENCIES.Keys + selected
    ensures forall k :: k in TOP_CRYPTOCURRENCIES ==> r[k] == TOP_CRYPTOCURRENCIES[k]
    ensures forall k :: k in selected && k !in TOP_CRYPTOCURRENCIES ==> r[k] == k
  {
    TOP_CRYPTOCURRENCIES + map k | k in selected && k !in TOP_CRYPTOCURRENCIES :: k
  }

  // ---------------------------------------------------------------------------
  // The two transitions of the selection set
  // ---------------------------------------------------------------------------

  datatype FlowKind = ConfigFlowKind | OptionsFlowKind

  /** Where a submitted selection form leads. */
  datatype Next = GoToAddCustom | Finish | NothingSelected

  /**
   * A submit of the selection form. With `add_custom` both flows add the
   * submitted symbols and go to the custom-symbol step. Otherwise the config
   * flow adds them while the options flow replaces the selection by them;
   * the flow finishes exactly when the resulting set is non-empty.
   */
  function SubmitSelection(kind: FlowKind, current: set<string>, input: SelectInput): (r: (set<string>, Next))
    ensures WantsCustom(input) ==> r == (current + SetOf(Submitted(input)), GoToAddCustom)
    ensures !WantsCustom(input) && kind == ConfigFlowKind ==> r.0 == current + SetOf(Submitted(input))
    ensures !WantsCustom(input) && kind == OptionsFlowKind ==> r.0 == SetOf(Submitted(input))
    ensures !WantsCustom(input) ==> r.1 == (if r.0 == {} then NothingSelected else Finish)
  {
    if WantsCustom(input) then
      (current + SetOf(Submitted(input)), GoToAddCustom)
    else
      var selection := if kind == ConfigFlowKind then current + SetOf(Submitted(input)) else SetOf(Submitted(input));
      (selection, if selection != {} then Finish else NothingSelected)
  }

  /**
   * The lookup check of a custom symbol: accepted only when the reply has
   * status 200 and the symbol is a key of its `data` object. A reply whose
   * body has no `data` object raises, which the step reports as `unknown`.
   */
  function CheckSymbol(symbol: string, reply: HttpReply): (r: Option<FlowError>)
    ensures r.None? <==> reply.Reply? && reply.status == 200 && Get(reply.body, "data").Success?
                         && Has(Get(reply.body, "data").value, symbol) == Success(true)
    ensures reply.Raised? ==> r == Some(Unknown)
    ensures reply.Reply? && reply.status != 200 ==> r == Some(CannotConnect)
    ensures reply.Reply? && reply.status == 200
            && (Get(reply.body, "data").Failure? || Has(Get(reply.body, "data").value, symbol).Failure?)
            ==> r == Some(Unknown)
    ensures r == Some(InvalidCryptocurrency) <==>
              reply.Reply? && reply.status == 200 && Get(reply.body, "data").Success?
              && Has(Get(reply.body, "data").value, symbol) == Success(false)
  {
    match reply
    case Raised => Some(Unknown)
    case Reply(status, body) =>
      if status != 200 then Some(CannotConnect)
      else
        match Get(body, "data")
        case Failure(_) => Some(Unknown)
        case Success(d) =>
          match Has(d, symbol)
          case Failure(_) => Some(Unknown)
          case Success(found) => if found then None else Some(InvalidCryptocurrency)
  }

  /**
   * A submit of the custom-symbol form: the symbol is upper-cased, and added
   * exactly when the lookup accepts it; otherwise the selection is unchanged.
   */
  function AddCustomSymbol(current: set<string>, input: AddInput): (r: (set<string>, Option<FlowError>))
    ensures r.1 == CheckSymbol(Upper(input.symbol), input.lookup)
    ensures r.1.None? ==> r.0 == current + {Upper(input.symbol)}
    ensures r.1.Some? ==> r.0 == current
  {
    var symbol := Upper(input.symbol);
    var error := CheckSymbol(symbol, input.lookup);
    (if error.None? then current + {symbol} else current, error)
  }

  /** One submit in a run of the wizard. */
  datatype Submit = SelectSubmit(select: SelectInput) | AddSubmit(add: AddInput)

  /** The selection after a run of submits (the wizard stops at the first finishing one). */
  function Run(kind: FlowKind, current: set<string>, submits: seq<Submit>): set<string>
    decreases |submits|
  {
    if submits == [] then current
    else
      match submits[0]
      case SelectSubmit(input) =>
        var (next, where) := SubmitSelection(kind, current, input);
        if where == Finish then next else Run(kind, next, submits[1..])
      case AddSubmit(input) => Run(kind, AddCustomSymbol(current, input).0, submits[1..])
  }

  /** In the config flow the selection never loses a symbol. */
  lemma {:induction false} ConfigFlowSelectionOnlyGrows(current: set<string>, submits: seq<Submit>)
    ensures current <= Run(ConfigFlowKind, current, submits)
    decreases |submits|
  {
    if submits != [] {
      match submits[0]
      case SelectSubmit(input) =>
        var (next, where) := SubmitSelection(ConfigFlowKind, current, input);
        if where != Finish {
          ConfigFlowSelectionOnlyGrows(next, submits[1..]);
        }
      case AddSubmit(input) =>
        ConfigFlowSelectionOnlyGrows(AddCustomSymbol(current, input).0, submits[1..]);
    }
  }

  predicate AllUpper(s: set<string>) {
    forall x :: x in s ==> IsUpper(x)
  }

  lemma TopSymbolsAreUpper()
    ensures AllUpper(TOP_CRYPTOCURRENCIES.Keys)
  {
    assert TOP_CRYPTOCURRENCIES.Keys == {"BTC", "ETH", "USDT", "BNB", "ADA", "XRP", "DOGE", "USDC", "DOT", "UNI"};
  }

  /** Every selection submit picks among the choices the form offered at that point. */
  predicate PicksOffered(kind: FlowKind, current: set<string>, submits: seq<Submit>)
    decreases |submits|
  {
    submits == [] ||
    match submits[0]
    case SelectSubmit(input) =>
      && SetOf(Submitted(input)) <= OfferedChoices(current).Keys
      && var (next, where) := SubmitSelection(kind, current, input);
         where == Finish || PicksOffered(kind, next, submits[1..])
    case AddSubmit(input) => PicksOffered(kind, AddCustomSymbol(current, input).0, submits[1..])
  }

  /**
   * Tracked symbols are upper-case: built-in choices are, custom symbols are
   * upper-cased before they are added, and the multi-select only accepts
   * offered choices.
   */
  lemma {:induction false} SelectionStaysUpperCase(kind: FlowKind, current: set<string>, submits: seq<Submit>)
    requires AllUpper(current)
    requires PicksOffered(kind, current, submits)
    ensures AllUpper(Run(kind, current, submits))
    decreases |submits|
  {
    if submits != [] {
      match submits[0]
      case SelectSubmit(input) =>
        TopSymbolsAreUpper();
        var (next, where) := SubmitSelection(kind, current, input);
        assert AllUpper(next);
        if where != Finish {
          SelectionStaysUpperCase(kind, next, submits[1..]);
        }
      case AddSubmit(input) =>
        UpperIsUpper(input.symbol);
        SelectionStaysUpperCase(kind, AddCustomSymbol(current, input).0, submits[1..]);
    }
  }

  // ---------------------------------------------------------------------------
  // The config flow
  // ---------------------------------------------------------------------------

  class CoinMarketCapConfigFlow {
    var apiKey: Option<string>
    var cryptocurrencies: set<string>

    constructor ()
      ensures apiKey == None && cryptocurrencies == {}
    {
      apiKey := None;
      cryptocurrencies := {};
    }

    /** `async_step_user`: store the API key and go on to the selection. */
    method StepUser(input: Option<UserInput>) returns (r: FlowResult)
      modifies this
      ensures cryptocurrencies == old(cryptocurrencies)
      ensures input.None? ==> apiKey == old(apiKey) && r == ShowForm("user", None, map[])
      ensures input.Some? ==> apiKey == Some(input.value.apiKey)
                              && r == ShowForm("select_cryptocurrencies", None, OfferedChoices(cryptocurrencies))
    {
      if input.None? {
        return ShowForm("user", None, map[]);
      }
      apiKey := Some(input.value.apiKey);
      r := StepSelectCryptocurrencies(None);
    }

    /** `async_step_select_cryptocurrencies` */
    method StepSelectCryptocurrencies(input: Option<SelectInput>) returns (r: FlowResult)
      modifies this
      decreases if input.Some? then 1 else 0
      ensures apiKey == old(apiKey)
      ensures input.None? ==> cryptocurrencies == old(cryptocurrencies)
                              && r == ShowForm("select_cryptocurrencies", None, OfferedChoices(cryptocurrencies))
      ensures input.Some? ==>
                var (selection, next) := SubmitSelection(ConfigFlowKind, old(cryptocurrencies), input.value);
                && cryptocurrencies == selection
                && (next == GoToAddCustom ==> r == ShowForm("add_cryptocurrency", None, map[]))
                && (next == NothingSelected ==>
                      r == ShowForm("select_cryptocurrencies", Some(NoCryptocurrencies), OfferedChoices(selection)))
                && (next == Finish ==>
                      && r.CreateEntry? && r.title == "CoinMarketCap"
                      && r.data == EntryData(apiKey, r.data.cryptocurrencies, input.value.currency, input.value.scanInterval, None)
                      && Distinct(r.data.cryptocurrencies) && SetOf(r.data.cryptocurrencies) == selection)
    {
      if input.Some? {
        var submitted := input.value;
        if WantsCustom(submitted) {
          cryptocurrencies := cryptocurrencies + SetOf(Submitted(submitted));
          r := StepAddCryptocurrency(None);
          return;
        }
        cryptocurrencies := cryptocurrencies + SetOf(Submitted(submitted));
        if cryptocurrencies != {} {
          var list := ListOfSet(cryptocurrencies);
          return CreateEntry("CoinMarketCap", EntryData(apiKey, list, submitted.currency, submitted.scanInterval, None));
        }
        return ShowForm("select_cryptocurrencies", Some(NoCryptocurrencies), OfferedChoices(cryptocurrencies));
      }
      r := ShowForm("select_cryptocurrencies", None, OfferedChoices(cryptocurrencies));
    }

    /** `async_step_add_cryptocurrency` */
    method StepAddCryptocurrency(input: Option<AddInput>) returns (r: FlowResult)
      modifies this
      decreases if input.Some? then 1 else 0
      ensures apiKey == old(apiKey)
      ensures input.None? ==> cryptocurrencies == old(cryptocurrencies) && r == ShowForm("add_cryptocurrency", None, map[])
      ensures input.Some? ==>
                var (selection, error) := AddCustomSymbol(old(cryptocurrencies), input.value);
                && cryptocurrencies == selection
                && r == if error.None? then ShowForm("select_cryptocurrencies", None, OfferedChoices(selection))
                        else ShowForm("add_cryptocurrency", error, map[])
    {
      if input.Some? {
        var symbol := Upper(input.value.symbol);
        var error := CheckSymbol(symbol, input.value.lookup);
        if error.None? {
          cryptocurrencies := cryptocurrencies + {symbol};
          r := StepSelectCryptocurrencies(None);
          return;
        }
        return ShowForm("add_cryptocurrency", error, map[]);
      }
      r := ShowForm("add_cryptocurrency", None, map[]);
    }
  }

  // ---------------------------------------------------------------------------
  // The options flow
  // ---------------------------------------------------------------------------

  class CoinMarketCapOptionsFlow {
    const configEntry: ConfigEntry
    var cryptocurrencies: set<string>

    /** The selection starts from the symbols stored in the entry. */
    constructor (configEntry: ConfigEntry)
      ensures this.configEntry == configEntry
      ensures cryptocurrencies == SetOf(configEntry.data.cryptocurrencies)
    {
      this.configEntry := configEntry;
      cryptocurrencies := SetOf(configEntry.data.cryptocurrencies);
    }

    /**
     * `async_step_init`. On the final submit the entry's data is written back
     * with only the symbol list replaced; the submitted currency and interval
     * are not used.
     */
    method StepInit(input: Option<SelectInput>) returns (r: FlowResult)
      modifies this, configEntry
      decreases if input.Some? then 1 else 0
      ensures input.None? ==> cryptocurrencies == old(cryptocurrencies) && configEntry.data == old(configEntry.data)
                              && r == ShowForm("init", None, OfferedChoices(cryptocurrencies))
      ensures input.Some? ==>
                var (selection, next) := SubmitSelection(OptionsFlowKind, old(cryptocurrencies), input.value);
                && cryptocurrencies == selection
                && (next != Finish ==> configEntry.data == old(configEntry.data))
                && (next == GoToAddCustom ==> r == ShowForm("add_cryptocurrency", None, map[]))
                && (next == NothingSelected ==> r == ShowForm("init", Some(NoCryptocurrencies), OfferedChoices(selection)))
                && (next == Finish ==>
                      && r == CreateEmptyOptions
                      && configEntry.data == old(configEntry.data).(cryptocurrencies := configEntry.data.cryptocurrencies)
                      && Distinct(configEntry.data.cryptocurrencies)
                      && SetOf(configEntry.data.cryptocurrencies) == selection)
    {
      if input.Some? {
        var submitted := input.value;
        if WantsCustom(submitted) {
          cryptocurrencies := cryptocurrencies + SetOf(Submitted(submitted));
          r := StepAddCryptocurrency(None);
          return;
        }
        cryptocurrencies := SetOf(Submitted(submitted));
        if cryptocurrencies != {} {
          var list := ListOfSet(cryptocurrencies);
          configEntry.data := configEntry.data.(cryptocurrencies := list);
          return CreateEmptyOptions;
        }
        return ShowForm("init", Some(NoCryptocurrencies), OfferedChoices(cryptocurrencies));
      }
      r := ShowForm("init", None, OfferedChoices(cryptocurrencies));
    }

    /** `async_step_add_cryptocurrency` of the options flow; success returns to `init`. */
    method StepAddCryptocurrency(input: Option<AddInput>) returns (r: FlowResult)
      modifies this, configEntry
      decreases if input.Some? then 1 else 0
      ensures configEntry.data == old(configEntry.data)
      ensures input.None? ==> cryptocurrencies == old(cryptocurrencies) && r == ShowForm("add_cryptocurrency", None, map[])
      ensures input.Some? ==>
                var (selection, error) := AddCustomSymbol(old(cryptocurrencies), input.value);
                && cryptocurrencies == selection
                && r == if error.None? then ShowForm("init", None, OfferedChoices(selection))
                        else ShowForm("add_cryptocurrency", error, map[])
    {
      if input.Some? {
        var symbol := Upper(input.value.symbol);
        var error := CheckSymbol(symbol, input.value.lookup);
        if error.None? {
          cryptocurrencies := cryptocurrencies + {symbol};
          r := StepInit(None);
          return;
        }
        return ShowForm("add_cryptocurrency", error, map[]);
      }
      r := ShowForm("add_cryptocurrency", None, map[]);
    }
  }
}
