# SIBS payment SDK demo: form state and request translation in Dafny

The demo Android app lets a user fill in a transaction form, launches the SIBS
payment SDK with the resulting `TransactionParams`, and shows what comes back.
Two pieces of it are modelled here, with Android views and the SDK itself
abstracted away:

- **`PresentationFragment`** (`presentation_fragment.dfy`, `form_state.dfy`): the
  form state holder. It keeps a field-name to string map seeded from two default
  tables, a `PaymentMethod` to selected-flag map, a card-tokenization flag, a
  token cache de-duplicated by token `value` and the last `TransferResult`. It
  saves itself into the instance-state bundle (a `map<string, Value>`) and
  restores from one, and it builds the tokens summary and the result screen.
  The fragment is a class whose fields the callbacks update.
  `getTextInputs`, `getPaymentMethods`, the `putString` loop of
  `onSaveInstanceState` and `createTokensSummaryView` are loops with invariants.
  Each is proved against a specification function in `FormState`, and the
  lemmas about those functions carry the properties: the restore rules, the
  save/restore round trip, token-cache uniqueness and the selection order.
- **`SdkConsumerActivity`** (`sdk_consumer_activity.dfy`): the request
  translator and result dispatcher. It coerces the strings into typed request
  fields: the terminal id goes through `toIntOrNull` with 0 as the fallback, and
  missing strings become `""`. It builds the two demo addresses, launches the
  SDK unless building failed, and dispatches the activity result. Dispatch is a
  function that returns the list of effects the activity performs: toasts,
  submitting to the fragment, launching the SDK, starting a status check. The
  status-check outcome becomes a one-line message.
- `int_text.dfy` models Kotlin's `String.toIntOrNull()` and `Int.toString()`.
  `sdk_types.dfy` holds the SDK value types the app reads, and `wrappers.dfy`
  holds `Option`, the model of Kotlin's nullable types.

The SDK's builders (`AddressParams.Builder`, `TransactionParams.Builder`) and
result parsers (`TransactionActivity.parseResult`, `parseTransactionId`) are
opaque, so they are function-valued parameters. The `PaymentMethod` enum's
constants are also in the SDK, so the fragment gets `PaymentMethod.values()` as
a sequence whose names are pairwise distinct.

Three places where the code's own parts do not line up, modelled as written:

- `onSaveInstanceState` never writes the transfer result, although
  `onCreateView` reads it back under `"result"`. After the fragment is
  recreated, the result is gone (`Presentation.Recreate`,
  `FormState.SnapshotDropsResult`).
- `Callbacks.startPayment` has four parameters, but the activity implements a
  two-parameter `startPayment`. So the tokenization flag and the cached tokens
  never reach `createTransactionParams`, and no tokenization sub-request is
  built.
- Neither PresentationFragment.kt nor SdkConsumerActivity.kt calls
  `cacheToken`. No token from a result enters the cache: `OnActivityResult`
  emits no such effect.

## Model

| member | source | states |
|---|---|---|
| `IntText.ToIntOrNull` | app/src/main/java/com/sibs/sdkexample/SdkConsumerActivity.kt:80 | `toIntOrNull` gives a value iff the text is an optional sign followed by at least one digit and the number it writes fits in a 32-bit `Int`. The value is that number |
| `IntText.ToIntOrNullOverflow` | app/src/main/java/com/sibs/sdkexample/SdkConsumerActivity.kt:80 | digits whose number does not fit in an `Int` give none, never a wrapped value |
| `IntText.ToIntOrNullNotNumeric` | app/src/main/java/com/sibs/sdkexample/SdkConsumerActivity.kt:80 | a text with no digit, or with a non-digit after the optional sign, gives none |
| `IntText.IntToStringRoundTrip` | app/src/main/java/com/sibs/sdkexample/SdkConsumerActivity.kt:80 | every `Int` written with `toString` reads back as itself through `toIntOrNull` |
| `IntText.IntToString` | app/src/main/java/com/sibs/sdkexample/SdkConsumerActivity.kt:70 | `Int.toString` as used by the string templates: non-empty, with a leading '-' iff the number is negative; `IntToStringRoundTrip` shows it reads back |
| `FormState.DefaultKeys` | app/src/main/java/com/sibs/sdkexample/PresentationFragment.kt:18-30 | the form has exactly the 5 required and 4 optional field names, the two tables do not overlap, and no field name is one of the four reserved bundle keys |
| `FormState.FindByName` | app/src/main/java/com/sibs/sdkexample/PresentationFragment.kt:317 | a constant found by name is in `values()` and carries that name |
| `FormState.ResolveNames` | app/src/main/java/com/sibs/sdkexample/PresentationFragment.kt:315-318 | the resolved stored names are enum constants whose names were stored, at most one per stored name; `ResolveNamesMembers` gives the converse |
| `FormState.ResolveNamesMembers` | app/src/main/java/com/sibs/sdkexample/PresentationFragment.kt:315-318 | a method is among the resolved stored names iff it is an enum constant whose name was stored; unknown names are dropped |
| `FormState.TextInputs` | app/src/main/java/com/sibs/sdkexample/PresentationFragment.kt:305-312 | the restored field map has exactly the default keys, and without a bundle each field has its default; `RestoreRules` gives the bundle case |
| `FormState.PaymentMethods` | app/src/main/java/com/sibs/sdkexample/PresentationFragment.kt:314-327 | every enum constant is mapped: all selected without a bundle, none selected when the bundle has no stored array; `RestoreRules` gives the name rule |
| `FormState.RestoredTokenization` | app/src/main/java/com/sibs/sdkexample/PresentationFragment.kt:65-66 | without a bundle the flag keeps its current value; a bundle without the flag gives false |
| `FormState.RestoredTokens` | app/src/main/java/com/sibs/sdkexample/PresentationFragment.kt:67-70 | without a bundle, or without a stored list, the token cache starts empty |
| `FormState.RestoredResult` | app/src/main/java/com/sibs/sdkexample/PresentationFragment.kt:64 | without a bundle, or without a stored result, there is no result |
| `FormState.RestoreRules` | app/src/main/java/com/sibs/sdkexample/PresentationFragment.kt:305-327 | restored fields have exactly the default keys, each with the bundle's string if present and the default otherwise; no bundle gives the default tables. Without a bundle every method is selected; with one, a method is selected iff its name is in the stored array, and a missing array selects none |
| `FormState.SelectedMethodsExactly` | app/src/main/java/com/sibs/sdkexample/PresentationFragment.kt:165 | the methods passed to `startPayment` are exactly the selected enum constants |
| `FormState.SelectedMethods` | app/src/main/java/com/sibs/sdkexample/PresentationFragment.kt:165 | the selected methods are enum constants whose flag is set, at most as many as there are constants; `SelectedMethodsExactly` and `SelectedMethodsInOrder` give the converse and the order |
| `FormState.SelectedMethodsInOrder` | app/src/main/java/com/sibs/sdkexample/PresentationFragment.kt:319-325 | selection distributes over concatenation of `values()`, so selected methods keep declaration order |
| `FormState.SnapshotEntries` | app/src/main/java/com/sibs/sdkexample/PresentationFragment.kt:89-97 | after saving, every field is a string entry under its own name, the selected names are stored in declaration order, the token list and flag are stored, and other non-reserved entries of the bundle are kept |
| `FormState.Snapshot` | app/src/main/java/com/sibs/sdkexample/PresentationFragment.kt:89-97 | the saved bundle stores the selected names in declaration order, the token list and the tokenization flag under their keys; `SnapshotEntries` and `SnapshotRoundTrip` give the fields and the round trip |
| `FormState.SnapshotRoundTrip` | app/src/main/java/com/sibs/sdkexample/PresentationFragment.kt:62-97 | restoring what was saved gives back the same field map, selection map, tokenization flag and token list, whatever the bundle held before |
| `FormState.SelectionRoundTrip` | app/src/main/java/com/sibs/sdkexample/PresentationFragment.kt:92-94 | a payment method is found again among the names the save stored iff it was selected, provided method names are distinct |
| `FormState.SnapshotDropsResult` | app/src/main/java/com/sibs/sdkexample/PresentationFragment.kt:64 | saving does not store the transfer result, so restoring from a bundle without one gives no result |
| `FormState.WithToken` | app/src/main/java/com/sibs/sdkexample/PresentationFragment.kt:50-54 | after caching, the token's value is present. Old entries stay in place and in order; if the value was not cached the token itself is appended, otherwise the list is unchanged; unique values stay unique |
| `FormState.WithTokenIdempotent` | app/src/main/java/com/sibs/sdkexample/PresentationFragment.kt:50-54 | caching a token whose value is already cached changes nothing, even if its type, name or expiry differ |
| `FormState.CacheAllProperties` | app/src/main/java/com/sibs/sdkexample/PresentationFragment.kt:50-54 | after any sequence of `cacheToken` calls, values are unique, earlier entries are kept in order, and every given value is cached |
| `FormState.TokenLinesAppend` | app/src/main/java/com/sibs/sdkexample/PresentationFragment.kt:179-184 | the `type:value` lines of two token lists, concatenated, are the lines of the concatenated list |
| `FormState.TokensSummary` | app/src/main/java/com/sibs/sdkexample/PresentationFragment.kt:172-187 | the summary is "No cached tokens" for an empty cache, starts with "Will use " otherwise, and ends with the token lines; `TokensSummaryHeader` shows the count reads back |
| `FormState.TokensSummaryHeader` | app/src/main/java/com/sibs/sdkexample/PresentationFragment.kt:172-187 | the summary is "No cached tokens" iff the cache is empty. Otherwise it is "Will use N tokens:\n", where N reads back as the cache size, followed by one `type:value` line per token |
| `FormState.SdkErrorTextParts` | app/src/main/java/com/sibs/sdkexample/PresentationFragment.kt:200-206 | the sdk-error text starts with the error's kind name. Only for `CheckoutError` is it followed by ':' and a code that reads back as `httpErrorCode` |
| `FormState.SdkErrorText` | app/src/main/java/com/sibs/sdkexample/PresentationFragment.kt:200-206 | the error text starts with the kind name, is the kind name alone for kinds other than `CheckoutError`, and has ':' right after the name for a `CheckoutError`; `SdkErrorTextParts` shows the code reads back |
| `FormState.ResultViews` | app/src/main/java/com/sibs/sdkexample/PresentationFragment.kt:189-214 | the result screen starts with the payment result. Next comes the transactionId row iff the result has an id, then the sdk-error row (with `SdkErrorText`) iff it has an error. It ends with the "RESPONSE TOKEN" header and the type, value, name, maskedPan and expireDate rows iff it has a token. The last three go through `NullableText`, which shows an absent value as "null" |
| `Presentation.GetTextInputs` | app/src/main/java/com/sibs/sdkexample/PresentationFragment.kt:305-312 | the loops over both default tables yield exactly the default keys, each with the bundle's string or the default |
| `Presentation.GetPaymentMethods` | app/src/main/java/com/sibs/sdkexample/PresentationFragment.kt:314-327 | the loop over `values()` maps every constant: to true without a bundle, otherwise to whether it is among the resolved stored names |
| `Presentation.PutStrings` | app/src/main/java/com/sibs/sdkexample/PresentationFragment.kt:91 | writing the fields one by one adds a string entry for each field and keeps every other entry of the bundle |
| `Presentation.BuildTokensSummary` | app/src/main/java/com/sibs/sdkexample/PresentationFragment.kt:172-187 | the string built by the `forEach` append loop is the header followed by the token lines in cache order |
| `Presentation.PresentationFragment.constructor` | app/src/main/java/com/sibs/sdkexample/PresentationFragment.kt:43-48 | a new fragment has tokenization off, no result and nothing shown; the lateinit fields are not yet set up |
| `Presentation.PresentationFragment.CacheToken` | app/src/main/java/com/sibs/sdkexample/PresentationFragment.kt:50-54 | once `onCreateView` has set the lateinit `tokens` (`Valid()`), the scan-then-append updates the cache to `WithToken` of the old cache |
| `Presentation.PresentationFragment.OnCreateView` | app/src/main/java/com/sibs/sdkexample/PresentationFragment.kt:57-87 | restoring sets the fields, selection, result and token list from the bundle (or the defaults). Without a bundle the tokenization flag keeps its old value; with one it is the bundle's boolean, false if missing. The new empty layout shows nothing |
| `Presentation.PresentationFragment.OnSaveInstanceState` | app/src/main/java/com/sibs/sdkexample/PresentationFragment.kt:89-97 | the saved bundle holds every field's string, the selected names, the token list and the flag, keeps unrelated entries, and equals `Snapshot` of the state |
| `Presentation.PresentationFragment.OnResume` | app/src/main/java/com/sibs/sdkexample/PresentationFragment.kt:99-102 | once `onCreateView` has run (`Valid()`), the result screen is shown iff there is a result; otherwise the input form is shown with the tokens summary |
| `Presentation.PresentationFragment.SubmitResult` | app/src/main/java/com/sibs/sdkexample/PresentationFragment.kt:104-107 | once `onCreateView` has set the lateinit layout (`Valid()`), the result is kept and its views are shown |
| `Presentation.PresentationFragment.AcknowledgeResult` | app/src/main/java/com/sibs/sdkexample/PresentationFragment.kt:215-218 | on the result screen of a created fragment, the OK button clears the result and shows the input form again |
| `Presentation.PresentationFragment.EditText` | app/src/main/java/com/sibs/sdkexample/PresentationFragment.kt:117-127 | an edit overwrites only the edited field, so the field keys stay the default keys |
| `Presentation.PresentationFragment.SetPaymentMethodChecked` | app/src/main/java/com/sibs/sdkexample/PresentationFragment.kt:133-143 | a checkbox change overwrites only that method's flag |
| `Presentation.PresentationFragment.SetCardTokenization` | app/src/main/java/com/sibs/sdkexample/PresentationFragment.kt:145-147 | the toggle sets the tokenization flag |
| `Presentation.PresentationFragment.StartSdk` | app/src/main/java/com/sibs/sdkexample/PresentationFragment.kt:162-169 | "Start SDK" passes the field map, exactly the selected methods in declaration order, the flag and the tokens |
| `Presentation.Recreate` | app/src/main/java/com/sibs/sdkexample/PresentationFragment.kt:57-97 | a fragment restored from another's saved state has the same fields, selection, flag and token cache, and no result |
| `SdkConsumer.TerminalId` | app/src/main/java/com/sibs/sdkexample/SdkConsumerActivity.kt:80 | the terminal id is `toIntOrNull` of the entry. It is 0 when the entry is absent, non-numeric or out of `Int` range, and always fits in an `Int` |
| `SdkConsumer.TerminalIdRoundTrip` | app/src/main/java/com/sibs/sdkexample/SdkConsumerActivity.kt:80 | a terminal id entry that is the text of an `Int` reaches the request as that `Int` |
| `SdkConsumer.TerminalIdNotNumeric` | app/src/main/java/com/sibs/sdkexample/SdkConsumerActivity.kt:80 | an absent entry, "abc", and any entry with a non-digit after its optional sign give terminal id 0 |
| `SdkConsumer.TerminalIdOutOfRange` | app/src/main/java/com/sibs/sdkexample/SdkConsumerActivity.kt:80 | an entry whose digits do not fit in an `Int` gives terminal id 0 |
| `SdkConsumer.ErrorToastText` | app/src/main/java/com/sibs/sdkexample/SdkConsumerActivity.kt:126-127 | an error toast is the message, ": [", the cause's message ("null" when it has none) and "]", and each part can be cut back out |
| `SdkConsumer.Draft` | app/src/main/java/com/sibs/sdkexample/SdkConsumerActivity.kt:80-119 | the builder gets the terminal id from `TerminalId`, each of the seven string fields from its entry ("" when absent), and the given payment methods. The shipping address is present iff its `build()` did not throw, and it is then the Wall Street address with street2 "shipping". The same holds for billing with street2 "billing" |
| `SdkConsumer.AddressesDifferInStreet2` | app/src/main/java/com/sibs/sdkexample/SdkConsumerActivity.kt:91-102 | the shipping and billing addresses share street1, city, zip and country and differ only in street2 |
| `SdkConsumer.CreateTransactionParams` | app/src/main/java/com/sibs/sdkexample/SdkConsumerActivity.kt:76-124 | parameters come back iff the SDK's `build()` accepts the draft, and they are the draft. The toasts are, in order: the "Shipping address params" error toast iff that address threw, the "Billing address params" one iff that address threw, and the "Couldn't build the transaction params" one iff no parameters came back. Each toast carries the thrown cause |
| `SdkConsumer.StartPayment` | app/src/main/java/com/sibs/sdkexample/SdkConsumerActivity.kt:19-28 | the effects are exactly the toasts of `CreateTransactionParams`, in order, followed by the SDK launch iff the parameters could be built, and with those parameters. A failed build returns early with only those toasts |
| `SdkConsumer.LaunchOrReturn` | app/src/main/java/com/sibs/sdkexample/SdkConsumerActivity.kt:24-27 | given what `createTransactionParams` produced, the effects are its toasts, then a launch with the parameters iff there are any. The `?: return` leaves the toasts alone |
| `SdkConsumer.OnActivityResult` | app/src/main/java/com/sibs/sdkexample/SdkConsumerActivity.kt:31-55 | On RESULT_OK with a parsed result, that result is submitted to a shown fragment, and a status check runs iff the result is unsuccessful and has a transaction id. On RESULT_CANCELED a check runs iff an id parses from the data. Other codes do nothing. Only the first effect is a toast, so nothing more is shown when no result or id parses. A submit comes before any check and happens at most once. At most one check runs, and the SDK is never relaunched |
| `SdkConsumer.StatusMessage` | app/src/main/java/com/sibs/sdkexample/SdkConsumerActivity.kt:68-72 | `Checked` gives "status: " followed by the status, `Error` starts with "Error:", `SDKNotConfigured` gives its kind name; `StatusMessageParts` shows the code reads back |
| `SdkConsumer.StatusMessageParts` | app/src/main/java/com/sibs/sdkexample/SdkConsumerActivity.kt:68-72 | `Checked` gives "status: " plus the status, `Error` gives "Error:" plus a code that reads back as `httpErrorCode`, and `SDKNotConfigured` gives its kind name |
| `SdkConsumer.StatusMessageInjective` | app/src/main/java/com/sibs/sdkexample/SdkConsumerActivity.kt:65-74 | different status-check responses give different messages |

## Left out

- Android views and layout (`create*View`, `LinearLayout`, `NestedScrollView`, `SwitchCompat`, `Toast` display, `requireContext`). A screen is reduced to which view set is shown and its texts, and a toast to its text.
- The SDK's builder validation, `TransactionActivity.parseResult`, `parseTransactionId` and the launch intent: they are opaque and are passed in as functions.
- `amount` through `toDoubleOrNull`: floating-point parsing is not modelled. The request keeps the entry's text (`ParsedAmount`) or `ZeroAmount` for 0.0.
- `performOptionalTransactionStatusCheck`'s coroutine and `SibsPaymentStatusService.check`: asynchronous network calls. A check is an effect, and only the response-to-message mapping is modelled.
- `Tools.kt`: Bundle compatibility shims, the `TextWatcher` adapter and `dpAsPx`, which reads display metrics. The shims' effect is folded into the `Bundle` getters.
- The constants of `PaymentMethod`: they belong to the SDK, so the fragment is given `values()` as a sequence.
- Kotlin's ordered `LinkedHashMap` iteration: maps here are unordered. The order of selected names is rebuilt from `values()` in declaration order, the order in which the map was filled.
- What `super.onSaveInstanceState` writes: it is whatever the incoming bundle already holds.
- `IntText.ToIntOrNull`: accepts only ASCII digits. On the JVM, `toIntOrNull` also accepts other Unicode decimal digits.
- The `requireActivity() as? Callbacks` cast and `supportFragmentManager.fragments.firstOrNull() as? PresentationFragment`: the first becomes the arguments `StartSdk` returns, the second the `fragmentShown` flag.
- Null elements in a stored string array, and a bundle entry of the wrong element type under the tokens key: only the shapes the fragment writes are modelled.
- Calls before `onCreateView`: Kotlin throws `UninitializedPropertyAccessException` on the unset lateinit `tokens` and `linearLayout`. `CacheToken`, `OnResume`, `SubmitResult` and `AcknowledgeResult` require `Valid()`, which only `OnCreateView` establishes. The throw itself is not modelled. Nor is the fact that `submitResult` has already stored the result when it throws.
