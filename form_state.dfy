/**
 * The state of the demo's input form (PresentationFragment.kt) as values:
 * the default tables, the saved-instance-state bundle and how the fragment
 * restores itself from it, the token cache and the texts the fragment shows.
 */
module FormState {
  import opened Wrappers
  import opened SdkTypes
  import IntText

  /** The required transaction parameters and their defaults. */
  const RequiredDefaults: map<string, string> := map[
    "terminalId" := "182",
    "transactionId" := "Order Id: nory709fa4",
    "transactionDescription" := "transaction description test",
    "amount" := "50.5",
    "currency" := "PLN"]

  /** The optional transaction parameters and their defaults. */
  const OptionalDefaults: map<string, string> := map[
    "merchantTransactionDescription" := "merchant transaction description",
    "client" := "Chuck Norris",
    "email" := "chuck@norris.com",
    "shopUrl" := "https://chucknorris.com"]

  /** Both tables together: the fields of the form. */
  function Defaults(): map<string, string> {
    RequiredDefaults + OptionalDefaults
  }

  /** The bundle keys under which the fragment keeps everything but the fields. */
  const CardTokenizationKey: string := "card_tokenization"
  const TransferResultKey: string := "result"
  const PaymentMethodsKey: string := "payment_methods"
  const TokensCacheKey: string := "tokens_cache"

  predicate IsReservedKey(k: string) {
    k == CardTokenizationKey || k == TransferResultKey || k == PaymentMethodsKey || k == TokensCacheKey
  }

  /** The nine field names, none of which is a reserved key. */
  lemma DefaultKeys()
    ensures Defaults().Keys == {
      "terminalId", "transactionId", "transactionDescription", "amount", "currency",
      "merchantTransactionDescription", "client", "email", "shopUrl"}
    ensures RequiredDefaults.Keys !! OptionalDefaults.Keys
    ensures forall k :: k in Defaults() ==> !IsReservedKey(k)
  {
  }

  /** The union reads each entry from the table that holds it. */
  lemma DefaultsLookup()
    ensures forall k :: k in RequiredDefaults ==> k !in OptionalDefaults && Defaults()[k] == RequiredDefaults[k]
    ensures forall k :: k in OptionalDefaults ==> Defaults()[k] == OptionalDefaults[k]
    ensures Defaults().Keys == RequiredDefaults.Keys + OptionalDefaults.Keys
  {
    DefaultKeys();
  }

  // ----- The saved-instance-state bundle -----

  /** What a bundle entry can hold, as far as the fragment is concerned. */
  datatype Value =
    | StringValue(s: string)
    | StringArrayValue(a: seq<string>)
    | BoolValue(b: bool)
    | TokenListValue(tokens: seq<Token>)
    | ResultValue(result: TransferResult)

  type Bundle = map<string, Value>

  /** `Bundle.getString`: null when the key is missing or holds something else. */
  function GetString(b: Bundle, key: string): Option<string> {
    if key in b && b[key].StringValue? then Some(b[key].s) else None
  }

  /** `Bundle.getStringArray`. */
  function GetStringArray(b: Bundle, key: string): Option<seq<string>> {
    if key in b && b[key].StringArrayValue? then Some(b[key].a) else None
  }

  /** `Bundle.getBoolean`: false when the key is missing or holds something else. */
  function GetBoolean(b: Bundle, key: string): bool {
    key in b && b[key].BoolValue? && b[key].b
  }

  /** The token list read back with `getSerializableArrayListCompat`. */
  function GetTokenList(b: Bundle, key: string): Option<seq<Token>> {
    if key in b && b[key].TokenListValue? then Some(b[key].tokens) else None
  }

  /** The transfer result read back with `getSerializableCompat`. */
  function GetResult(b: Bundle, key: string): Option<TransferResult> {
    if key in b && b[key].ResultValue? then Some(b[key].result) else None
  }

  // ----- Restoring the form (getTextInputs, getPaymentMethods, onCreateView) -----

  /** The value restored for one field: the bundle's string, else the default. */
  function FieldValue(bundle: Option<Bundle>, key: string, default: string): string {
    match bundle
    case None => default
    case Some(b) => GetString(b, key).GetOr(default)
  }

  /** The field map `getTextInputs` builds. */
  function TextInputs(bundle: Option<Bundle>): (inputs: map<string, string>)
    ensures inputs.Keys == Defaults().Keys
    ensures bundle.None? ==> forall k :: k in inputs ==> inputs[k] == Defaults()[k]
  {
    map k | k in Defaults() :: FieldValue(bundle, k, Defaults()[k])
  }

  /** The first enum constant with the given name. */
  function FindByName(values: seq<PaymentMethod>, name: string): (r: Option<PaymentMethod>)
    ensures r.Some? ==> r.value in values && r.value.name == name
  {
    if values == [] then None
    else if values[0].name == name then Some(values[0])
    else FindByName(values[1..], name)
  }

  /** The stored names mapped to enum constants, unknown names dropped (`mapNotNull`). */
  function ResolveNames(values: seq<PaymentMethod>, names: seq<string>): (methods: seq<PaymentMethod>)
    ensures |methods| <= |names|
    ensures forall pm :: pm in methods ==> pm in values && pm.name in names
  {
    if names == [] then []
    else
      match FindByName(values, names[0])
      case None => ResolveNames(values, names[1..])
      case Some(pm) => [pm] + ResolveNames(values, names[1..])
  }

  /** The names stored under the payment-methods key, none if the array is missing. */
  function StoredNames(b: Bundle): seq<string> {
    GetStringArray(b, PaymentMethodsKey).GetOr([])
  }

  /** The selection map `getPaymentMethods` builds. */
  function PaymentMethods(values: seq<PaymentMethod>, bundle: Option<Bundle>): (selected: map<PaymentMethod, bool>)
    ensures selected.Keys == set pm | pm in values
    ensures bundle.None? ==> forall pm :: pm in selected ==> selected[pm]
    ensures bundle.Some? && PaymentMethodsKey !in bundle.value ==> forall pm :: pm in selected ==> !selected[pm]
  {
    map pm | pm in values ::
      match bundle
      case None => true
      case Some(b) => pm in ResolveNames(values, StoredNames(b))
  }

  /** `onCreateView`: without a bundle the tokenization flag keeps its value. */
  function RestoredTokenization(bundle: Option<Bundle>, current: bool): (flag: bool)
    ensures bundle.None? ==> flag == current
    ensures bundle.Some? && CardTokenizationKey !in bundle.value ==> !flag
  {
    match bundle
    case None => current
    case Some(b) => GetBoolean(b, CardTokenizationKey)
  }

  /** `onCreateView`: the token cache, empty unless the bundle holds a list. */
  function RestoredTokens(bundle: Option<Bundle>): (tokens: seq<Token>)
    ensures bundle.None? ==> tokens == []
    ensures bundle.Some? && TokensCacheKey !in bundle.value ==> tokens == []
  {
    match bundle
    case None => []
    case Some(b) => GetTokenList(b, TokensCacheKey).GetOr([])
  }

  /** `onCreateView`: the last transfer result. */
  function RestoredResult(bundle: Option<Bundle>): (result: Option<TransferResult>)
    ensures bundle.None? ==> result.None?
    ensures bundle.Some? && TransferResultKey !in bundle.value ==> result.None?
  {
    match bundle
    case None => None
    case Some(b) => GetResult(b, TransferResultKey)
  }

  lemma {:induction false} FindByNameFinds(values: seq<PaymentMethod>, pm: PaymentMethod)
    requires DistinctNames(values) && pm in values
    ensures FindByName(values, pm.name) == Some(pm)
  {
    if values[0] != pm {
      assert values[1..][|values[1..]| - 1] == values[|values| - 1];
      assert pm in values[1..];
      var k :| 1 <= k < |values| && values[k] == pm;
      assert values[0].name != values[k].name;
      FindByNameFinds(values[1..], pm);
    }
  }

  lemma {:induction false} ResolveNamesMembers(values: seq<PaymentMethod>, names: seq<string>, pm: PaymentMethod)
    requires DistinctNames(values)
    ensures pm in ResolveNames(values, names) <==> pm in values && pm.name in names
  {
    if names != [] {
      ResolveNamesMembers(values, names[1..], pm);
      assert names == [names[0]] + names[1..];
      if pm in values && pm.name == names[0] {
        FindByNameFinds(values, pm);
      }
    }
  }

  /**
   * The restore rules: every field of the form has a value, the bundle's
   * string when there is one and the default otherwise; without a bundle
   * every payment method is selected, with one exactly those whose name is
   * stored (unknown names ignored, a missing array selecting none).
   */
  lemma RestoreRules(values: seq<PaymentMethod>, bundle: Option<Bundle>)
    requires DistinctNames(values)
    ensures TextInputs(bundle).Keys == Defaults().Keys
    ensures forall k :: k in Defaults() && bundle.Some? && GetString(bundle.value, k).Some? ==>
      TextInputs(bundle)[k] == GetString(bundle.value, k).value
    ensures forall k :: k in Defaults() && (bundle.None? || GetString(bundle.value, k).None?) ==>
      TextInputs(bundle)[k] == Defaults()[k]
    ensures bundle.None? ==> TextInputs(bundle) == Defaults()
    ensures PaymentMethods(values, bundle).Keys == set pm | pm in values
    ensures bundle.None? ==> forall pm :: pm in values ==> PaymentMethods(values, bundle)[pm]
    ensures bundle.Some? ==> forall pm :: pm in values ==>
      (PaymentMethods(values, bundle)[pm] <==> pm.name in StoredNames(bundle.value))
  {
    forall pm | pm in values && bundle.Some?
      ensures PaymentMethods(values, bundle)[pm] <==> pm.name in StoredNames(bundle.value)
    {
      ResolveNamesMembers(values, StoredNames(bundle.value), pm);
    }
  }

  // ----- Saving the form (onSaveInstanceState) -----

  /** The selected methods in the order of `values` (the `mapNotNull` over the selection map). */
  function SelectedMethods(values: seq<PaymentMethod>, selected: map<PaymentMethod, bool>): (methods: seq<PaymentMethod>)
    requires forall pm :: pm in values ==> pm in selected
    ensures |methods| <= |values|
    ensures forall pm :: pm in methods ==> pm in values && selected[pm]
  {
    if values == [] then []
    else (if selected[values[0]] then [values[0]] else []) + SelectedMethods(values[1..], selected)
  }

  function Names(methods: seq<PaymentMethod>): (names: seq<string>)
    ensures |names| == |methods|
    ensures forall i :: 0 <= i < |methods| ==> names[i] == methods[i].name
  {
    seq(|methods|, i requires 0 <= i < |methods| => methods[i].name)
  }

  /** The field strings as bundle entries. */
  function FieldEntries(texts: map<string, string>): Bundle {
    map k | k in texts :: StringValue(texts[k])
  }

  /** What `onSaveInstanceState` leaves in `outState`, in the order it writes. */
  function Snapshot(outState: Bundle, texts: map<string, string>, values: seq<PaymentMethod>,
                    selected: map<PaymentMethod, bool>, tokens: seq<Token>, useCardTokenization: bool): (saved: Bundle)
    requires forall pm :: pm in values ==> pm in selected
    ensures StoredNames(saved) == Names(SelectedMethods(values, selected))
    ensures GetTokenList(saved, TokensCacheKey) == Some(tokens)
    ensures GetBoolean(saved, CardTokenizationKey) == useCardTokenization
  {
    (outState + FieldEntries(texts))
      [PaymentMethodsKey := StringArrayValue(Names(SelectedMethods(values, selected)))]
      [TokensCacheKey := TokenListValue(tokens)]
      [CardTokenizationKey := BoolValue(useCardTokenization)]
  }

  lemma {:induction false} SelectedMethodsMembers(values: seq<PaymentMethod>, selected: map<PaymentMethod, bool>, pm: PaymentMethod)
    requires forall q :: q in values ==> q in selected
    ensures pm in SelectedMethods(values, selected) <==> pm in values && selected[pm]
  {
    if values != [] {
      SelectedMethodsMembers(values[1..], selected, pm);
      assert values == [values[0]] + values[1..];
    }
  }

  /**
   * The methods handed to `startPayment` keep the declaration order: the
   * selection of a concatenation is the concatenation of the selections.
   */
  lemma {:induction false} SelectedMethodsInOrder(a: seq<PaymentMethod>, b: seq<PaymentMethod>, selected: map<PaymentMethod, bool>)
    requires forall q :: q in a + b ==> q in selected
    ensures SelectedMethods(a + b, selected) == SelectedMethods(a, selected) + SelectedMethods(b, selected)
  {
    if a == [] {
      assert a + b == b;
    } else {
      assert (a + b)[0] == a[0];
      assert (a + b)[1..] == a[1..] + b;
      SelectedMethodsInOrder(a[1..], b, selected);
    }
  }

  /** Exactly the selected methods, each of them once. */
  lemma SelectedMethodsExactly(values: seq<PaymentMethod>, selected: map<PaymentMethod, bool>)
    requires forall q :: q in values ==> q in selected
    ensures forall pm :: pm in SelectedMethods(values, selected) <==> pm in values && selected[pm]
    ensures |SelectedMethods(values, selected)| <= |values|
  {
    forall pm {
      SelectedMethodsMembers(values, selected, pm);
    }
    SelectedMethodsLength(values, selected);
  }

  lemma {:induction false} SelectedMethodsLength(values: seq<PaymentMethod>, selected: map<PaymentMethod, bool>)
    requires forall q :: q in values ==> q in selected
    ensures |SelectedMethods(values, selected)| <= |values|
  {
    if values != [] {
      SelectedMethodsLength(values[1..], selected);
    }
  }

  /** A field of a well-formed form never lands on a reserved key. */
  lemma SnapshotFields(outState: Bundle, texts: map<string, string>, values: seq<PaymentMethod>,
                       selected: map<PaymentMethod, bool>, tokens: seq<Token>, flag: bool, k: string)
    requires texts.Keys == Defaults().Keys
    requires forall pm :: pm in values ==> pm in selected
    requires k in texts
    ensures GetString(Snapshot(outState, texts, values, selected, tokens, flag), k) == Some(texts[k])
  {
    DefaultKeys();
  }

  /** What each key of the snapshot holds. */
  lemma SnapshotEntries(outState: Bundle, texts: map<string, string>, values: seq<PaymentMethod>,
                        selected: map<PaymentMethod, bool>, tokens: seq<Token>, flag: bool)
    requires texts.Keys == Defaults().Keys
    requires forall pm :: pm in values ==> pm in selected
    ensures var snap := Snapshot(outState, texts, values, selected, tokens, flag);
      && (forall k :: k in texts ==> GetString(snap, k) == Some(texts[k]))
      && StoredNames(snap) == Names(SelectedMethods(values, selected))
      && GetTokenList(snap, TokensCacheKey) == Some(tokens)
      && GetBoolean(snap, CardTokenizationKey) == flag
      && (forall k :: k in outState && k !in texts && !IsReservedKey(k) ==> k in snap && snap[k] == outState[k])
  {
    forall k | k in texts ensures GetString(Snapshot(outState, texts, values, selected, tokens, flag), k) == Some(texts[k]) {
      SnapshotFields(outState, texts, values, selected, tokens, flag, k);
    }
  }

  /**
   * Round trip: restoring from what `onSaveInstanceState` wrote gives back
   * the same fields, selection, tokenization flag and token list, whatever
   * else the bundle held before.
   */
  lemma SnapshotRoundTrip(outState: Bundle, texts: map<string, string>, values: seq<PaymentMethod>,
                          selected: map<PaymentMethod, bool>, tokens: seq<Token>, flag: bool, current: bool)
    requires DistinctNames(values)
    requires texts.Keys == Defaults().Keys
    requires selected.Keys == set pm | pm in values
    ensures var saved := Some(Snapshot(outState, texts, values, selected, tokens, flag));
      && TextInputs(saved) == texts
      && PaymentMethods(values, saved) == selected
      && RestoredTokenization(saved, current) == flag
      && RestoredTokens(saved) == tokens
  {
    var snap := Snapshot(outState, texts, values, selected, tokens, flag);
    SnapshotEntries(outState, texts, values, selected, tokens, flag);
    assert TextInputs(Some(snap)) == texts;
    forall pm | pm in values
      ensures PaymentMethods(values, Some(snap))[pm] == selected[pm]
    {
      SelectionRoundTrip(values, selected, pm);
    }
  }

  /** A method is found again among the stored names of the selection iff it was selected. */
  lemma SelectionRoundTrip(values: seq<PaymentMethod>, selected: map<PaymentMethod, bool>, pm: PaymentMethod)
    requires DistinctNames(values)
    requires selected.Keys == set pm | pm in values
    requires pm in values
    ensures pm in ResolveNames(values, Names(SelectedMethods(values, selected))) <==> selected[pm]
  {
    var names := Names(SelectedMethods(values, selected));
    ResolveNamesMembers(values, names, pm);
    SelectedMethodsMembers(values, selected, pm);
    if pm.name in names {
      var i :| 0 <= i < |names| && names[i] == pm.name;
      var q := SelectedMethods(values, selected)[i];
      SelectedMethodsMembers(values, selected, q);
      var a :| 0 <= a < |values| && values[a] == q;
      var c :| 0 <= c < |values| && values[c] == pm;
      assert a == c;
    }
  }

  /**
   * The last transfer result is not part of the snapshot: restoring a
   * bundle that held no result gives no result, whatever the form held.
   */
  lemma SnapshotDropsResult(outState: Bundle, texts: map<string, string>, values: seq<PaymentMethod>,
                            selected: map<PaymentMethod, bool>, tokens: seq<Token>, flag: bool)
    requires texts.Keys == Defaults().Keys
    requires forall pm :: pm in values ==> pm in selected
    requires TransferResultKey !in outState
    ensures RestoredResult(Some(Snapshot(outState, texts, values, selected, tokens, flag))) == None
  {
    DefaultKeys();
  }

  // ----- The token cache (cacheToken) -----

  predicate HasTokenValue(tokens: seq<Token>, value: string) {
    exists i :: 0 <= i < |tokens| && tokens[i].value == value
  }

  /** No two cached tokens share a value. */
  predicate UniqueValues(tokens: seq<Token>) {
    forall i, j :: 0 <= i < j < |tokens| ==> tokens[i].value != tokens[j].value
  }

  /** `longer` starts with all of `shorter`, in the same order. */
  predicate Extends(longer: seq<Token>, shorter: seq<Token>) {
    |shorter| <= |longer| && longer[..|shorter|] == shorter
  }

  lemma ExtendsKeepsValues(longer: seq<Token>, shorter: seq<Token>, value: string)
    requires Extends(longer, shorter) && HasTokenValue(shorter, value)
    ensures HasTokenValue(longer, value)
  {
    var i :| 0 <= i < |shorter| && shorter[i].value == value;
    assert longer[i] == longer[..|shorter|][i];
  }

  lemma ExtendsTransitive(a: seq<Token>, b: seq<Token>, c: seq<Token>)
    requires Extends(a, b) && Extends(b, c)
    ensures Extends(a, c)
  {
    assert a[..|c|] == a[..|b|][..|c|];
  }

  /** The cache after `cacheToken(t)`: `t` is appended unless its value is already cached. */
  function WithToken(tokens: seq<Token>, t: Token): (r: seq<Token>)
    ensures HasTokenValue(r, t.value)
    ensures Extends(r, tokens) && |r| <= |tokens| + 1
    ensures HasTokenValue(tokens, t.value) <==> r == tokens
    ensures !HasTokenValue(tokens, t.value) ==> r == tokens + [t]
    ensures UniqueValues(tokens) ==> UniqueValues(r)
  {
    if HasTokenValue(tokens, t.value) then tokens
    else
      var r := tokens + [t];
      assert r[|tokens|].value == t.value;
      r
  }

  /** Caching a token whose value is cached changes nothing, whatever its other fields. */
  lemma WithTokenIdempotent(tokens: seq<Token>, t: Token, u: Token)
    requires u.value == t.value
    ensures WithToken(WithToken(tokens, t), u) == WithToken(tokens, t)
  {
  }

  /** The cache after `cacheToken` has been called with each of `incoming` in turn. */
  function CacheAll(tokens: seq<Token>, incoming: seq<Token>): seq<Token>
    decreases |incoming|
  {
    if incoming == [] then tokens else CacheAll(WithToken(tokens, incoming[0]), incoming[1..])
  }

  /**
   * Any sequence of `cacheToken` calls starting from a cache without repeated
   * values keeps the old entries in place, keeps the values unique, and
   * leaves every value it was given in the cache.
   */
  lemma {:induction false} CacheAllProperties(tokens: seq<Token>, incoming: seq<Token>)
    requires UniqueValues(tokens)
    ensures UniqueValues(CacheAll(tokens, incoming))
    ensures Extends(CacheAll(tokens, incoming), tokens)
    ensures forall i :: 0 <= i < |incoming| ==> HasTokenValue(CacheAll(tokens, incoming), incoming[i].value)
    decreases |incoming|
  {
    if incoming != [] {
      var next := WithToken(tokens, incoming[0]);
      var r := CacheAll(next, incoming[1..]);
      CacheAllProperties(next, incoming[1..]);
      ExtendsTransitive(r, next, tokens);
      ExtendsKeepsValues(r, next, incoming[0].value);
      forall i | 1 <= i < |incoming| ensures HasTokenValue(r, incoming[i].value) {
        assert incoming[i] == incoming[1..][i - 1];
      }
    }
  }

  // ----- Texts shown by the fragment -----

  /** The first line of the tokens summary. */
  function SummaryHeader(count: nat): string {
    if count == 0 then "No cached tokens" else "Will use " + IntText.IntToString(count) + " tokens:\n"
  }

  function TokenLine(t: Token): string {
    t.tokenType + ":" + t.value + "\n"
  }

  /** One `type:value` line per token, in cache order. */
  function TokenLines(tokens: seq<Token>): string {
    if tokens == [] then "" else TokenLine(tokens[0]) + TokenLines(tokens[1..])
  }

  /** The text of `createTokensSummaryView`. */
  function TokensSummary(tokens: seq<Token>): (text: string)
    ensures tokens == [] ==> text == "No cached tokens"
    ensures tokens != [] ==> |text| > 9 && text[..9] == "Will use "
    ensures |TokenLines(tokens)| <= |text| && text[|text| - |TokenLines(tokens)|..] == TokenLines(tokens)
  {
    SummaryHeader(|tokens|) + TokenLines(tokens)
  }

  lemma TokenLinesSingle(t: Token)
    ensures TokenLines([t]) == t.tokenType + ":" + t.value + "\n"
  {
    assert [t][1..] == [];
  }

  /** Appending the line of the next token extends the lines of a prefix. */
  lemma TokenLinesStep(tokens: seq<Token>, i: nat)
    requires i < |tokens|
    ensures TokenLines(tokens[..i + 1]) == TokenLines(tokens[..i]) + (tokens[i].tokenType + ":" + tokens[i].value + "\n")
  {
    TokenLinesAppend(tokens[..i], [tokens[i]]);
    TokenLinesSingle(tokens[i]);
    assert tokens[..i + 1] == tokens[..i] + [tokens[i]];
  }

  lemma {:induction false} TokenLinesAppend(a: seq<Token>, b: seq<Token>)
    ensures TokenLines(a + b) == TokenLines(a) + TokenLines(b)
  {
    if a == [] {
      assert a + b == b;
    } else {
      assert (a + b)[0] == a[0];
      assert (a + b)[1..] == a[1..] + b;
      TokenLinesAppend(a[1..], b);
    }
  }

  /**
   * The summary is "No cached tokens" exactly for the empty cache; otherwise
   * it starts with "Will use N tokens:" where N reads back as the cache size.
   */
  lemma TokensSummaryHeader(tokens: seq<Token>)
    requires |tokens| <= IntText.IntMax
    ensures TokensSummary(tokens) == "No cached tokens" <==> tokens == []
    ensures tokens != [] ==>
      exists n :: TokensSummary(tokens) == "Will use " + n + " tokens:\n" + TokenLines(tokens) && IntText.ToIntOrNull(n) == Some(|tokens|)
  {
    if tokens != [] {
      IntText.IntToStringRoundTrip(|tokens|);
      var n := IntText.IntToString(|tokens|);
      assert TokensSummary(tokens) == "Will use " + n + " tokens:\n" + TokenLines(tokens);
      assert TokensSummary(tokens)[0] == 'W';
    }
  }

  /** The "sdk error" text: the kind name, with ":code" only for a checkout error. */
  function SdkErrorText(e: SdkError): (text: string)
    ensures |SdkErrorKindName(e)| <= |text| && text[..|SdkErrorKindName(e)|] == SdkErrorKindName(e)
    ensures e.OtherSdkError? ==> text == e.kind
    ensures e.CheckoutError? ==> |text| > |SdkErrorKindName(e)| + 1 && text[|SdkErrorKindName(e)|] == ':'
  {
    match e
    case CheckoutError(code) => SdkErrorKindName(e) + ":" + IntText.IntToString(code)
    case OtherSdkError(_) => SdkErrorKindName(e)
  }

  /**
   * The error text is the kind name, followed for a checkout error (and
   * only then) by ':' and a code that reads back as the HTTP error code.
   */
  lemma SdkErrorTextParts(e: SdkError)
    requires e.CheckoutError? ==> IntText.InIntRange(e.httpErrorCode)
    ensures var text := SdkErrorText(e);
      var name := SdkErrorKindName(e);
      && |name| <= |text| && text[..|name|] == name
      && (e.OtherSdkError? ==> text == name)
      && (e.CheckoutError? ==>
            |text| > |name| + 1 && text[|name|] == ':' && IntText.ToIntOrNull(text[|name| + 1..]) == Some(e.httpErrorCode))
  {
    var text := SdkErrorText(e);
    if e.CheckoutError? {
      IntText.IntToStringRoundTrip(e.httpErrorCode);
      IntText.NatToStringDigits(if e.httpErrorCode < 0 then -e.httpErrorCode else e.httpErrorCode);
      assert text[|SdkErrorKindName(e)| + 1..] == IntText.IntToString(e.httpErrorCode);
    }
  }

  /** Kotlin's `toString()` of a nullable value. */
  function NullableText(o: Option<string>): string {
    o.GetOr("null")
  }

  function BoolText(b: bool): string {
    if b then "true" else "false"
  }

  /** One row of the result screen: a read-only field with its hint, or a header. */
  datatype ResultView = Field(hint: string, text: string) | Header(title: string)

  /** The rows `setupResultViews` builds, before the OK button. */
  function ResultViews(r: TransferResult): (views: seq<ResultView>)
    ensures |views| == 1 + (if r.transactionId.Some? then 1 else 0) + (if r.sdkError.Some? then 1 else 0)
      + (if r.token.Some? then 6 else 0)
    ensures views[0] == Field("Payment result", BoolText(r.isSuccess))
    ensures forall id :: Field("transactionId", id) in views <==> r.transactionId == Some(id)
    ensures forall text :: Field("sdk error", text) in views <==> r.sdkError.Some? && text == SdkErrorText(r.sdkError.value)
    ensures Header("RESPONSE TOKEN") in views <==> r.token.Some?
    ensures r.transactionId.Some? ==> views[1] == Field("transactionId", r.transactionId.value)
    ensures r.sdkError.Some? ==>
      views[1 + (if r.transactionId.Some? then 1 else 0)] == Field("sdk error", SdkErrorText(r.sdkError.value))
    ensures r.token.Some? ==>
              views[|views| - 6..] ==
                [Header("RESPONSE TOKEN"),
                 Field("type", r.token.value.tokenType),
                 Field("value", r.token.value.value),
                 Field("name", NullableText(r.token.value.name)),
                 Field("maskedPan", NullableText(r.token.value.maskedPan)),
                 Field("expireDate", NullableText(r.token.value.expireDate))]
  {
    var head := [Field("Payment result", BoolText(r.isSuccess))];
    var id := match r.transactionId
      case None => []
      case Some(id) => [Field("transactionId", id)];
    var error := match r.sdkError
      case None => []
      case Some(e) => [Field("sdk error", SdkErrorText(e))];
    var token := match r.token
      case None => []
      case Some(t) =>
        // createHeaderView shows its title upper-cased
        [Header("RESPONSE TOKEN"),
         Field("type", t.tokenType),
         Field("value", t.value),
         Field("name", NullableText(t.name)),
         Field("maskedPan", NullableText(t.maskedPan)),
         Field("expireDate", NullableText(t.expireDate))];
    assert forall v :: v in head + id + error + token <==> v in head || v in id || v in error || v in token;
    head + id + error + token
  }
}
