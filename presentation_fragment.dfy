/**
 * PresentationFragment.kt: the fragment that holds the input form, saves it
 * into the instance-state bundle and restores it, caches tokens, and shows
 * either the form or the last transfer result. The Android views are reduced
 * to which of the two screens is built and the texts on it.
 */
module Presentation {
  import opened Wrappers
  import opened SdkTypes
  import opened FormState

  /** `getTextInputs`: one `put` per entry of the two default tables. */
  method GetTextInputs(bundle: Option<Bundle>) returns (inputs: map<string, string>)
    ensures inputs.Keys == Defaults().Keys
    ensures forall k :: k in inputs ==> inputs[k] == FieldValue(bundle, k, Defaults()[k])
    ensures inputs == TextInputs(bundle)
  {
    DefaultsLookup();
    inputs := map[];
    var pending := RequiredDefaults.Keys;
    while pending != {}
      invariant pending <= RequiredDefaults.Keys
      invariant inputs.Keys == RequiredDefaults.Keys - pending
      invariant forall k :: k in inputs ==> inputs[k] == FieldValue(bundle, k, Defaults()[k])
      decreases pending
    {
      var k :| k in pending;
      inputs := inputs[k := FieldValue(bundle, k, RequiredDefaults[k])];
      pending := pending - {k};
    }
    pending := OptionalDefaults.Keys;
    while pending != {}
      invariant pending <= OptionalDefaults.Keys
      invariant inputs.Keys == RequiredDefaults.Keys + (OptionalDefaults.Keys - pending)
      invariant forall k :: k in inputs ==> inputs[k] == FieldValue(bundle, k, Defaults()[k])
      decreases pending
    {
      var k :| k in pending;
      inputs := inputs[k := FieldValue(bundle, k, OptionalDefaults[k])];
      pending := pending - {k};
    }
  }

  /** `getPaymentMethods`: one `put` per enum constant, in declaration order. */
  method GetPaymentMethods(values: seq<PaymentMethod>, bundle: Option<Bundle>)
    returns (selected: map<PaymentMethod, bool>)
    ensures selected.Keys == set pm | pm in values
    ensures forall pm :: pm in selected ==>
      selected[pm] == (bundle.None? || pm in ResolveNames(values, StoredNames(bundle.value)))
    ensures selected == PaymentMethods(values, bundle)
  {
    var stored := match bundle
      case None => []
      case Some(b) => ResolveNames(values, StoredNames(b));
    selected := map[];
    for i := 0 to |values|
      invariant selected.Keys == set pm | pm in values[..i]
      invariant forall pm :: pm in selected ==> selected[pm] == (bundle.None? || pm in stored)
    {
      var isSelected := if bundle.None? then true else values[i] in stored;
      selected := selected[values[i] := isSelected];
      assert values[..i + 1] == values[..i] + [values[i]];
    }
    assert values[..|values|] == values;
  }

  /** The first part of `onSaveInstanceState`: one string entry per field. */
  method PutStrings(outState: Bundle, texts: map<string, string>) returns (saved: Bundle)
    ensures saved.Keys == outState.Keys + texts.Keys
    ensures forall k :: k in texts ==> saved[k] == StringValue(texts[k])
    ensures forall k :: k in outState && k !in texts ==> saved[k] == outState[k]
    ensures saved == outState + FieldEntries(texts)
  {
    saved := outState;
    var pending := texts.Keys;
    while pending != {}
      invariant pending <= texts.Keys
      invariant saved.Keys == outState.Keys + (texts.Keys - pending)
      invariant forall k :: k in saved ==>
        saved[k] == if k in texts.Keys - pending then StringValue(texts[k]) else outState[k]
      decreases pending
    {
      var k :| k in pending;
      saved := saved[k := StringValue(texts[k])];
      pending := pending - {k};
    }
  }

  /** `createTokensSummaryView`: the header, then one `type:value` line per token. */
  method BuildTokensSummary(tokens: seq<Token>) returns (text: string)
    ensures text == SummaryHeader(|tokens|) + TokenLines(tokens)
  {
    if |tokens| == 0 {
      text := "No cached tokens";
    } else {
      text := "Will use " + IntText.IntToString(|tokens|) + " tokens:\n";
    }
    ghost var header := text;
    assert header == SummaryHeader(|tokens|);
    for i := 0 to |tokens|
      invariant text == header + TokenLines(tokens[..i])
    {
      var line := tokens[i].tokenType + ":" + tokens[i].value + "\n";
      TokenLinesStep(tokens, i);
      text := text + line;
    }
    assert tokens[..|tokens|] == tokens;
  }

  /** Which set of views the fragment's layout holds. */
  datatype Screen =
    | NotShown
    | InputForm(tokensSummary: string)
    | ResultScreen(views: seq<ResultView>)

  /** The arguments of `Callbacks.startPayment`, as the "Start SDK" button passes them. */
  datatype StartPaymentArgs = StartPaymentArgs(
    stringParams: map<string, string>,
    paymentMethodsParams: seq<PaymentMethod>,
    useCardTokenization: bool,
    tokens: seq<Token>)

  class PresentationFragment {
    /** `PaymentMethod.values()`, in declaration order. */
    const paymentMethodValues: seq<PaymentMethod>
    var inputTexts: map<string, string>
    var inputPaymentMethods: map<PaymentMethod, bool>
    var tokens: seq<Token>
    var useCardTokenization: bool
    var result: Option<TransferResult>
    /** What the layout shows. */
    var screen: Screen

    /**
     * The state `onCreateView` sets up. Before it the lateinit fields are
     * unset, and Kotlin throws on any read of them, so every method that
     * reads them requires this.
     */
    ghost predicate Valid()
      reads this
    {
      && DistinctNames(paymentMethodValues)
      && inputTexts.Keys == Defaults().Keys
      && inputPaymentMethods.Keys == set pm | pm in paymentMethodValues
    }

    constructor (values: seq<PaymentMethod>)
      requires DistinctNames(values)
      ensures paymentMethodValues == values
      ensures inputTexts == map[] && inputPaymentMethods == map[] && tokens == []
      ensures !useCardTokenization && result == None && screen == NotShown
    {
      paymentMethodValues := values;
      inputTexts := map[];
      inputPaymentMethods := map[];
      tokens := [];
      useCardTokenization := false;
      result := None;
      screen := NotShown;
    }

    /** `cacheToken`: append `token` unless a cached token has the same value. */
    method CacheToken(token: Token)
      requires Valid()
      modifies this`tokens
      ensures Valid()
      ensures tokens == WithToken(old(tokens), token)
    {
      var i := 0;
      while i < |tokens| && tokens[i].value != token.value
        invariant 0 <= i <= |tokens|
        invariant forall j :: 0 <= j < i ==> tokens[j].value != token.value
      {
        i := i + 1;
      }
      if i == |tokens| {
        tokens := tokens + [token];
      }
    }

    /** `onCreateView`: restore from the saved bundle, or start from the defaults. */
    method OnCreateView(savedInstanceState: Option<Bundle>)
      requires DistinctNames(paymentMethodValues)
      modifies this
      ensures Valid()
      ensures inputTexts == TextInputs(savedInstanceState)
      ensures inputPaymentMethods == PaymentMethods(paymentMethodValues, savedInstanceState)
      ensures result == RestoredResult(savedInstanceState)
      ensures useCardTokenization == RestoredTokenization(savedInstanceState, old(useCardTokenization))
      ensures tokens == RestoredTokens(savedInstanceState)
      ensures screen == NotShown
    {
      inputTexts := GetTextInputs(savedInstanceState);
      inputPaymentMethods := GetPaymentMethods(paymentMethodValues, savedInstanceState);
      result := RestoredResult(savedInstanceState);
      useCardTokenization := RestoredTokenization(savedInstanceState, useCardTokenization);
      tokens := RestoredTokens(savedInstanceState);
      // a new, empty layout replaces whatever was shown
      screen := NotShown;
    }

    /** `onSaveInstanceState`: write the fields one by one, then the selection, tokens and flag. */
    method OnSaveInstanceState(outState: Bundle) returns (saved: Bundle)
      requires Valid()
      ensures forall k :: k in inputTexts ==> GetString(saved, k) == Some(inputTexts[k])
      ensures StoredNames(saved) == Names(SelectedMethods(paymentMethodValues, inputPaymentMethods))
      ensures GetTokenList(saved, TokensCacheKey) == Some(tokens)
      ensures GetBoolean(saved, CardTokenizationKey) == useCardTokenization
      ensures forall k :: k in outState && k !in inputTexts && !IsReservedKey(k) ==> k in saved && saved[k] == outState[k]
      ensures saved == Snapshot(outState, inputTexts, paymentMethodValues, inputPaymentMethods, tokens, useCardTokenization)
    {
      saved := PutStrings(outState, inputTexts);
      var names := Names(SelectedMethods(paymentMethodValues, inputPaymentMethods));
      saved := saved[PaymentMethodsKey := StringArrayValue(names)];
      saved := saved[TokensCacheKey := TokenListValue(tokens)];
      saved := saved[CardTokenizationKey := BoolValue(useCardTokenization)];
      SnapshotEntries(outState, inputTexts, paymentMethodValues, inputPaymentMethods, tokens, useCardTokenization);
    }

    /** `onResume`: the result views if there is a result, else the input form. */
    method OnResume()
      requires Valid()
      modifies this`screen
      ensures Valid()
      ensures screen.ResultScreen? <==> result.Some?
      ensures result.Some? ==> screen == ResultScreen(ResultViews(result.value))
      ensures result.None? ==> screen == InputForm(TokensSummary(tokens))
    {
      if result.Some? {
        screen := ResultScreen(ResultViews(result.value));
      } else {
        var summary := BuildTokensSummary(tokens);
        screen := InputForm(summary);
      }
    }

    /** `submitResult`: keep the result and show it. */
    method SubmitResult(r: TransferResult)
      requires Valid()
      modifies this`result, this`screen
      ensures Valid()
      ensures result == Some(r)
      ensures screen == ResultScreen(ResultViews(r))
    {
      result := Some(r);
      screen := ResultScreen(ResultViews(r));
    }

    /** The OK button of the result screen: forget the result and show the form again. */
    method AcknowledgeResult()
      requires Valid() && screen.ResultScreen?
      modifies this`result, this`screen
      ensures Valid()
      ensures result == None
      ensures screen == InputForm(TokensSummary(tokens))
    {
      result := None;
      var summary := BuildTokensSummary(tokens);
      screen := InputForm(summary);
    }

    /** An edit of a field the form shows. */
    method EditText(hint: string, text: string)
      requires Valid() && hint in inputTexts
      modifies this`inputTexts
      ensures Valid()
      ensures inputTexts == old(inputTexts)[hint := text]
    {
      inputTexts := inputTexts[hint := text];
    }

    /** A payment-method checkbox changing state. */
    method SetPaymentMethodChecked(paymentMethod: PaymentMethod, isChecked: bool)
      requires Valid() && paymentMethod in inputPaymentMethods
      modifies this`inputPaymentMethods
      ensures Valid()
      ensures inputPaymentMethods == old(inputPaymentMethods)[paymentMethod := isChecked]
    {
      inputPaymentMethods := inputPaymentMethods[paymentMethod := isChecked];
    }

    /** The "Tokenize payment card" toggle. */
    method SetCardTokenization(isChecked: bool)
      modifies this`useCardTokenization
      ensures useCardTokenization == isChecked
    {
      useCardTokenization := isChecked;
    }

    /** The "Start SDK" button: the form's fields and the selected methods in declaration order. */
    method StartSdk() returns (args: StartPaymentArgs)
      requires Valid() && screen.InputForm?
      ensures args.stringParams == inputTexts
      ensures forall pm :: pm in args.paymentMethodsParams <==> pm in paymentMethodValues && inputPaymentMethods[pm]
      ensures args.paymentMethodsParams == SelectedMethods(paymentMethodValues, inputPaymentMethods)
      ensures args.useCardTokenization == useCardTokenization && args.tokens == tokens
    {
      SelectedMethodsExactly(paymentMethodValues, inputPaymentMethods);
      args := StartPaymentArgs(inputTexts, SelectedMethods(paymentMethodValues, inputPaymentMethods),
                               useCardTokenization, tokens);
    }
  }

  /**
   * The fragment recreated after process death: the old one saves into a
   * fresh bundle and the new one restores from it. Fields, selection,
   * tokenization flag and token cache survive; the last result does not.
   */
  method Recreate(fragment: PresentationFragment) returns (restored: PresentationFragment)
    requires fragment.Valid()
    ensures fresh(restored) && restored.Valid()
    ensures restored.inputTexts == fragment.inputTexts
    ensures restored.inputPaymentMethods == fragment.inputPaymentMethods
    ensures restored.useCardTokenization == fragment.useCardTokenization
    ensures restored.tokens == fragment.tokens
    ensures restored.result == None
  {
    var saved := fragment.OnSaveInstanceState(map[]);
    restored := new PresentationFragment(fragment.paymentMethodValues);
    restored.OnCreateView(Some(saved));
    SnapshotRoundTrip(map[], fragment.inputTexts, fragment.paymentMethodValues, fragment.inputPaymentMethods,
                      fragment.tokens, fragment.useCardTokenization, false);
    SnapshotDropsResult(map[], fragment.inputTexts, fragment.paymentMethodValues, fragment.inputPaymentMethods,
                        fragment.tokens, fragment.useCardTokenization);
  }
}
