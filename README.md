# Saleor storefront core, modelled in Dafny

This project models the small pieces of sequential logic in a Saleor-based shop (a Django storefront with a GraphQL API). The pieces are:

- **Plugins** (`base_plugin.dfy`, `payment_views.dfy`, `extension_checks.dfy`):
  - a plugin's stored configuration items are merged by name, in place;
  - the `active` flag is set only when the form sends it;
  - a plugin's configuration record is fetched with get-or-create;
  - every hook of the base plugin answers `NotImplemented`, so a chain of plugins passes the previous value through;
  - the dashboard lists the plugins whose own class defines `process_payment`;
  - a start-up check verifies that the extension manager path and the plugin paths can be imported, collecting errors in order.
- **Payments** (`payment_interface.dfy`, `stripe_gateway.dfy`, `payment_ledger.dfy`, `payment_mutations.dfy`):
  - the gateway records `GatewayResponse`, `AddressData` and `PaymentData`;
  - the Stripe gateway's response construction for `authorize`, `capture`, `confirm`, `refund`, `void`, `process_payment`, `list_client_sources` and `get_client_token`. The provider's answer is a parameter;
  - the payment ledger that the capture, refund and void mutations drive: charge status, captured amount, active flag and an append-only list of transactions;
  - the validation done by `checkoutPaymentCreate`;
  - how a `PaymentError` becomes a validation error.
- **String classifiers and parsers** (`attributes.dfy`, `shipping_types.dfy`, `delivery.dfy`):
  - the colour / gradient / URL / string classification of attribute values, including the colour regular expression;
  - the `"amount unit"` weight scalar;
  - the CamelCase-to-snake_case name of a delivery method.
- **Pricing and form rules** (`delivery.dfy`, `legacy_delivery.dfy`, `cart_forms.dfy`, `product_forms.dfy`):
  - delivery totals, and which handler accepts a delivery group;
  - the cumulative stock check of the add-to-cart form and its `save`;
  - the "at least one filled form" rule of the product inline formsets;
  - the variant choices and variant lookup of the generic product form.

Code that updates state in place is modelled as classes with `modifies` clauses:

- `PluginConfiguration`;
- `ConfigurationTable`;
- the error list `ErrorLog`;
- the ledger's `Payment`;
- the shopping `Cart`.

Each of these is proved against a specification function. Loops become `while` loops with invariants:

- the nested configuration merge;
- `check_plugins`;
- the formset `clean`.

Everything else is datatypes, functions and lemmas. `Common` holds `Option`, `Result` and substring occurrence. Money and quantities are exact decimals, modelled as `real`.

## Model

| member | source | states |
|---|---|---|
| Common.ContainsAt | saleor/graphql/product/types/attributes.py:30-32 | Python's substring test `sub in s` holds exactly when `sub` occurs at some index of `s` |
| BasePlugin.LastMatch | saleor/extensions/base_plugin.py:128-131 | Reference definition: the found entry is one of the updates and carries the name; `None` means no update carries the name |
| BasePlugin.ApplyUpdatesIsLastMatch | saleor/extensions/base_plugin.py:128-131 | Running the inner loop over the updates in order leaves the value of the last entry naming the item (`None` when that entry has no "value"), and the item itself when none names it |
| BasePlugin.Merged | saleor/extensions/base_plugin.py:125-131 | The configuration after the update: each item with the update applied in order (a definition; `MergedShape` and `UpdateConfigItems` state and use its meaning) |
| BasePlugin.MergedShape | saleor/extensions/base_plugin.py:125-131 | The merge keeps the length, order, names and other keys of the stored items; only values change, each to the last matching update's value |
| BasePlugin.MergedIgnoresUnmatched | saleor/extensions/base_plugin.py:127-131 | Update entries that name no stored item change nothing; nothing is appended |
| BasePlugin.MergedIdempotent | saleor/extensions/base_plugin.py:128-131 | Applying the same update twice equals applying it once |
| BasePlugin.UpdateConfigItems | saleor/extensions/base_plugin.py:125-131 | The in-place nested loops leave exactly the merged configuration, and modify nothing but the configuration field |
| BasePlugin.SavePluginConfiguration | saleor/extensions/base_plugin.py:133-144 | The configuration is merged only when a non-empty "configuration" is sent, `active` changes only when the "active" key is present, and the same record is returned |
| BasePlugin.ConfigurationTable.DefaultConfiguration | saleor/extensions/base_plugin.py:146-149 | `_get_default_configuration` gives no defaults (`None`); `GetPluginConfiguration` reads it, so a new record takes the field defaults |
| BasePlugin.ConfigurationTable.CreatedFields | saleor/extensions/base_plugin.py:153-155 | A record created by get-or-create takes the given defaults when there are some, and the model's field defaults when they are `None` |
| BasePlugin.ConfigurationTable.GetPluginConfiguration | saleor/extensions/base_plugin.py:151-157 | Returns the stored record for the plugin name untouched, or creates, stores and returns a new record with that name and, since `DefaultConfiguration` is `None`, the field defaults |
| BasePlugin.GetPluginConfigurationTwice | saleor/extensions/base_plugin.py:151-157 | Two get-or-create calls for one name return the same record, and that record is stored in the table |
| BasePlugin.BaseHook | saleor/extensions/base_plugin.py:30-123 | Every base hook answers `NotImplemented`, never a computed value, whatever the previous value |
| BasePlugin.BaseChainKeepsDefault | saleor/extensions/base_plugin.py:17-23 | A chain of plugins each of which answers every value as the base hook does returns the manager's default value unchanged |
| BasePlugin.Str | saleor/extensions/base_plugin.py:27-28 | `str(plugin)` is the plugin's `PLUGIN_NAME` |
| PaymentViews.PaymentPluginNames | saleor/dashboard/payment/views.py:21-25 | The listed names are never more than the candidate plugins |
| PaymentViews.PaymentPluginNamesExact | saleor/dashboard/payment/views.py:21-25 | A name is listed iff some candidate plugin with that `PLUGIN_NAME` defines `process_payment` in its own class |
| PaymentViews.PaymentPluginNamesAppend | saleor/dashboard/payment/views.py:21-25 | The filter preserves order: the names for a concatenation of plugin lists are the concatenated names |
| PaymentViews.Candidates | saleor/dashboard/payment/views.py:18-20 | With `active_only` the candidates are the active plugins, otherwise all plugins |
| PaymentViews.ListPaymentsPlugins | saleor/dashboard/payment/views.py:15-25 | The result is the payment-plugin names of the chosen candidates, and is no longer than them |
| PaymentViews.IndexGateways | saleor/dashboard/payment/views.py:30-32 | The index view lists the payment plugins among all plugins (`active_only` false) |
| ExtensionChecks.ImportModule | saleor/core/extensions/checks.py:27-29 | Importing succeeds exactly for a known, non-empty, non-relative path; an empty or relative path raises instead of reporting "not found" |
| ExtensionChecks.LastDot | saleor/core/extensions/checks.py:26 | The index found holds a '.' and no '.' follows it; -1 when there is none |
| ExtensionChecks.RPartitionSplitsAtLastDot | saleor/core/extensions/checks.py:26 | The split is at the last '.': module path + "." + name gives the path back and the name holds no '.'; without a '.', the module path is empty |
| ExtensionChecks.CheckPath | saleor/core/extensions/checks.py:27-39 | A dotted path adds at most one error; the import raising is exactly when the exception escapes, with no error; an unknown module gives exactly the "doesn't exist" message for the module path; an imported module without the name gives exactly the "doesn't exists in specific path" message; no error exactly when the module imports and binds the name |
| ExtensionChecks.ManagerCheck | saleor/core/extensions/checks.py:21-24 | A missing or empty manager setting gives exactly the one "Settings should contain EXTENSION_MANAGER env" error and no further check |
| ExtensionChecks.PluginCheck | saleor/core/extensions/checks.py:44-46 | An empty plugin path gives exactly one "Wrong plugin_path" error; no path gives more than one |
| ExtensionChecks.PluginsCheck | saleor/core/extensions/checks.py:42-60 | The plugin checks in order, stopping at a raised import (a definition; the two lemmas below and `CheckPlugins` state its meaning) |
| ExtensionChecks.PluginsCheckOneErrorPerPath | saleor/core/extensions/checks.py:43-60 | Each plugin path adds at most one error, and without an exception the errors are the per-path errors in plugin order |
| ExtensionChecks.PluginsCheckStopsAtRaise | saleor/core/extensions/checks.py:48-50 | Once an import raises, the later paths add nothing |
| ExtensionChecks.ErrorLog.Append | saleor/core/extensions/checks.py:23 | Appending keeps every existing error and adds the new one at the end |
| ExtensionChecks.AppendPathErrors | saleor/core/extensions/checks.py:47-60 | The in-place check of one path appends exactly that path's errors to the caller's list |
| ExtensionChecks.CheckManager | saleor/core/extensions/checks.py:21-39 | `check_manager` appends exactly the manager check's errors to the caller's list |
| ExtensionChecks.CheckPlugins | saleor/core/extensions/checks.py:42-60 | The loop with `continue` appends exactly the plugin checks' errors, in order, and stops at an exception |
| ExtensionChecks.CheckExtensionsSpec | saleor/core/extensions/checks.py:9-18 | Manager errors first, then plugin errors only when plugins are configured; an exception escapes (a definition; `CheckExtensions` is proved against it) |
| ExtensionChecks.CheckExtensions | saleor/core/extensions/checks.py:9-18 | Manager errors come first and plugins are checked only when there are some. A missing manager puts its error first. There are at most 1 + (number of plugins) errors |
| PaymentInterface.NewGatewayResponse | saleor/payment/interface.py:6-18 | A response built from the required fields has no raw response (the default at line 18), and the two fields of the later record at their defaults: no action required, no customer id |
| StripeGateway.ErrorResponse | saleor/payment/gateways/stripe_new/__init__.py:65-76 | On a provider error the response fails, echoes the request's token, amount and currency, and carries the provider's user message |
| StripeGateway.GetClientToken | saleor/payment/gateways/stripe_new/__init__.py:22-26 | This gateway issues no client token |
| StripeGateway.ReusedCustomerId | saleor/payment/gateways/stripe_new/__init__.py:37 | Corrected: the request's customer id is reused exactly when the request asks to reuse its source |
| StripeGateway.CustomerIdAsWritten | saleor/payment/gateways/stripe_new/__init__.py:37 | As written, the class attribute is read, so no customer id is ever reused |
| StripeGateway.CustomerIdAsWrittenDropsStoredCustomer | saleor/payment/gateways/stripe_new/__init__.py:37 | With reuse requested and a stored customer id, the as-written id differs from the request's |
| StripeGateway.IntentCreateRequest | saleor/payment/gateways/stripe_new/__init__.py:36-49 | Corrected customer-id rule (`ReusedCustomerId`; the as-written rule is `CustomerIdAsWritten`): capture_method is "automatic" iff auto-capture, else "manual"; setup_future_usage is "off_session" iff customers are stored, else "on_session"; confirmation is manual and immediate |
| StripeGateway.AuthorizeKind | saleor/payment/gateways/stripe_new/__init__.py:32 | The kind is CAPTURE iff auto-capture is on, AUTH otherwise |
| StripeGateway.Authorize | saleor/payment/gateways/stripe_new/__init__.py:29-77 | Corrected customer-id rule (`ReusedCustomerId`; the as-written rule is `CustomerIdAsWritten`): Uses the same kind on the success and error paths. Succeeds iff the intent status is succeeded, requires_capture or requires_action and no needed customer creation failed. Action is required iff the status is requires_action. A customer is created only when customers are stored and none is reused. Errors echo the request |
| StripeGateway.ProcessPayment | saleor/payment/gateways/stripe_new/__init__.py:222-225 | Corrected customer-id rule (`ReusedCustomerId`; the as-written rule is `CustomerIdAsWritten`): `process_payment` gives exactly the response of `authorize` |
| StripeGateway.CaptureIntent | saleor/payment/gateways/stripe_new/__init__.py:80-110 | Always kind CAPTURE. Succeeds iff the capture status is succeeded or requires_action. On error, action is required only when the intent was retrieved with status requires_action. Errors echo the request |
| StripeGateway.ConfirmTestsAgreeOnIntentStatuses | saleor/payment/gateways/stripe_new/__init__.py:119 | On the seven statuses the provider reports for an intent, the as-written substring test and the intended equality agree |
| StripeGateway.ConfirmAsWrittenAcceptsPartialStatus | saleor/payment/gateways/stripe_new/__init__.py:119 | The status "succeed" passes the as-written test but is not "succeeded" |
| StripeGateway.ConfirmAsWritten | saleor/payment/gateways/stripe_new/__init__.py:113-139 | As written: kind CAPTURE, never action required, success by the substring test, a confirmed intent's id, amount and currency reported, its raw response the `capture` function object; errors echo the request |
| StripeGateway.ConfirmAsWrittenStoresFunction | saleor/payment/gateways/stripe_new/__init__.py:126 | A confirmed intent's raw response is a function object as written, a provider object in the corrected version |
| StripeGateway.Confirm | saleor/payment/gateways/stripe_new/__init__.py:113-139 | Corrected: kind CAPTURE, never action required, succeeds iff the confirmed status is "succeeded", and reports the intent's id, amount and currency with the intent as raw response; errors echo the request |
| StripeGateway.RefundIntent | saleor/payment/gateways/stripe_new/__init__.py:142-170 | Kind REFUND, success iff the refund status is "succeeded", and the reported amount is the requested one; errors echo the request |
| StripeGateway.VoidIntent | saleor/payment/gateways/stripe_new/__init__.py:173-199 | Kind VOID, the same success test, and the reported amount is the intent's; errors echo the request |
| StripeGateway.RefundAndVoidAgreeOnSuccess | saleor/payment/gateways/stripe_new/__init__.py:142-199 | For the same provider answer refund and void agree on success and differ in kind |
| StripeGateway.ListClientSources | saleor/payment/gateways/stripe_new/__init__.py:202-219 | One source per card, in order, with the card's id, expiry and last four digits, gateway "stripe" and no name on card |
| PaymentLedger.NewLedger | tests/api/test_payment.py:106-116 | A new payment is not charged, active, has no transactions and its total is the requested amount |
| PaymentLedger.CaptureStep | saleor/graphql/payment/mutations.py:111-121 | A permitted capture (the default amount is what is left to capture) records the gateway call, and on success adds to the captured amount, charged exactly when all is captured; otherwise it is refused unchanged (a definition; the step lemmas state its properties) |
| PaymentLedger.RefundStep | saleor/graphql/payment/mutations.py:133-143 | A permitted refund (the default amount is everything captured) records the gateway call, and on success lowers the captured amount, fully refunded exactly when nothing is left; otherwise it is refused unchanged (a definition; the step lemmas state its properties) |
| PaymentLedger.VoidStep | saleor/graphql/payment/mutations.py:159-168 | A void before any capture records the gateway call and on success deactivates the payment; otherwise it is refused unchanged (a definition; the step lemmas state its properties) |
| PaymentLedger.StepRecordsOneTransaction | tests/api/test_payment.py:157-252 | An operation the domain checks refuse raises its domain error and changes nothing, and the state is unchanged exactly then. A permitted operation appends exactly one transaction of its kind, successful iff the gateway succeeded, so a failed gateway capture or refund still records one unsuccessful transaction; a failed gateway call changes nothing else and raises the gateway's message |
| PaymentLedger.StepKeepsValid | saleor/graphql/payment/mutations.py:116-168 | Capture, refund and void keep status and captured amount consistent (captured between 0 and the total, matching the status) |
| PaymentLedger.StepKeepsHistory | saleor/graphql/payment/mutations.py:116-168 | Every operation keeps the captured amount equal to successful captures minus successful refunds, with captures within the total |
| PaymentLedger.CaptureKeepsHistory | saleor/graphql/payment/mutations.py:111-121 | A capture, successful or not, keeps the ledger consistent, the captured amount equal to successful captures minus successful refunds, captures within the total, and no successful refund while the status is still not charged, partially charged or charged |
| PaymentLedger.RefundKeepsHistory | saleor/graphql/payment/mutations.py:133-143 | A refund, successful or not, keeps the ledger consistent, the captured amount equal to successful captures minus successful refunds, captures within the total, and no successful refund while the status is still not charged, partially charged or charged |
| PaymentLedger.VoidKeepsHistory | saleor/graphql/payment/mutations.py:159-168 | A void, successful or not, keeps the ledger consistent, the captured amount equal to successful captures minus successful refunds, captures within the total, and no successful refund while the status is still not charged, partially charged or charged |
| PaymentLedger.RunKeepsCapturesAndRefundsBounded | saleor/graphql/payment/mutations.py:116-168 | From a new payment, after any operations and gateway answers, successful refunds never exceed successful captures, which never exceed the total |
| PaymentLedger.FullCaptureCharges | tests/api/test_payment.py:135-154 | A full capture of a new payment charges it with exactly one successful capture transaction |
| PaymentLedger.FailedCaptureKeepsStatus | tests/api/test_payment.py:157-182 | A failed capture reports the error, stays not charged, and records one unsuccessful capture |
| PaymentLedger.ChargedLedger | tests/api/test_payment.py:201-206 | The refund tests' starting state is consistent, charged and fully captured |
| PaymentLedger.FullRefundRefunds | tests/api/test_payment.py:201-222 | A full refund of a charged payment leaves it fully refunded with one successful refund transaction |
| PaymentLedger.FailedRefundKeepsStatus | tests/api/test_payment.py:225-252 | A failed refund reports the error, stays charged, and records one unsuccessful refund |
| PaymentLedger.VoidDeactivates | tests/api/test_payment.py:26-41 | Voiding a new payment deactivates it with exactly one void transaction |
| PaymentLedger.VoidOnlyBeforeCapture | saleor/graphql/payment/mutations.py:164-168 | A payment that is inactive or no longer not-charged cannot be voided; the attempt changes nothing |
| PaymentLedger.Payment.constructor | tests/api/test_payment.py:106-116 | A new payment record holds the state of a new ledger |
| PaymentLedger.Payment.GatewayCapture | saleor/graphql/payment/mutations.py:117 | The record's new state and the raised error are those of the capture step on its old state |
| PaymentLedger.Payment.GatewayRefund | saleor/graphql/payment/mutations.py:139 | The record's new state and the raised error are those of the refund step on its old state |
| PaymentLedger.Payment.GatewayVoid | saleor/graphql/payment/mutations.py:165 | The record's new state and the raised error are those of the void step on its old state |
| PaymentMutations.ResolveBillingAddress | saleor/graphql/payment/mutations.py:62-64 | An address in the input overrides the checkout's; the result is missing only when both are |
| PaymentMutations.RequestedAmount | saleor/graphql/payment/mutations.py:73 | The amount is the input's, or the checkout total when none is given |
| PaymentMutations.CheckoutPaymentCreate | saleor/graphql/payment/mutations.py:57-93 | Fails on `billing_address` when no address resolves, then on `amount` below the checkout total. Otherwise the payment gets the amount as total, the default currency, the input's gateway and token, and the checkout's email and resolved address |
| PaymentMutations.NoPartialPayments | saleor/graphql/payment/mutations.py:73-78 | With an address resolved, the mutation fails exactly when an amount below the checkout total is given |
| PaymentMutations.ConvertPaymentError | saleor/graphql/payment/mutations.py:116-120 | A raised payment error becomes a form-wide validation error with its message; otherwise the payment is returned |
| PaymentMutations.CreatePayment | saleor/graphql/payment/mutations.py:83-92 | The created record is not charged, active, with no transactions, and keeps the gateway, token, currency and email |
| PaymentMutations.PaymentCapture | saleor/graphql/payment/mutations.py:110-120 | The payment takes the capture step's state, and the result is the converted error or the payment |
| PaymentMutations.PaymentRefund | saleor/graphql/payment/mutations.py:132-142 | The payment takes the refund step's state, and the result is the converted error or the payment |
| PaymentMutations.PaymentVoid | saleor/graphql/payment/mutations.py:158-168 | The payment takes the void step's state, and the result is the converted error or the payment |
| PaymentMutations.CreateThenCaptureInFull | tests/api/test_payment.py:135-154 | Creating a payment and capturing its total returns the payment, charged, with one successful capture transaction |
| Attributes.IsColor | saleor/graphql/product/types/attributes.py:23-24 | The colour pattern: three-digit or 4/6/8-digit hex, or rgb(a)/hsl(a) with 2 or 3 groups and a closing argument, anchored at the end or before one final newline (a definition; its cases are proved in `HexColorDigitCounts`, `TrailingNewlineStillColor` and `FunctionalColorFromParts`) |
| Attributes.ResolveAttributeValueType | saleor/graphql/product/types/attributes.py:27-34 | Every string gets exactly one type, by priority. COLOR iff it matches the colour pattern. GRADIENT iff not a colour and it contains "gradient(". URL iff neither and it contains "://". STRING otherwise |
| Attributes.ResolveType | saleor/graphql/product/types/attributes.py:80-81 | An attribute value's type is the classification of its value field |
| Attributes.HexColorDigitCounts | saleor/graphql/product/types/attributes.py:23 | '#' followed by hex digits is a colour exactly for 3, 4, 6 or 8 digits |
| Attributes.TrailingNewlineStillColor | saleor/graphql/product/types/attributes.py:23 | The pattern's final `$` accepts one trailing newline after a colour |
| Attributes.GroupFromParts | saleor/graphql/product/types/attributes.py:23 | Any optional '-', digit run, optional '%' and run of commas or blanks is an argument group |
| Attributes.TailFromParts | saleor/graphql/product/types/attributes.py:23 | Optional blanks, a run of digits and dots, an optional '%' and ')' are the closing argument |
| Attributes.ArgsFromTwoGroups | saleor/graphql/product/types/attributes.py:23 | Two groups and a closing argument form valid arguments |
| Attributes.ArgsFromThreeGroups | saleor/graphql/product/types/attributes.py:23 | Three groups and a closing argument form valid arguments |
| Attributes.PrefixedArgs | saleor/graphql/product/types/attributes.py:23 | rgb(, rgba(, hsl( or hsla( followed by well-formed arguments matches the colour pattern |
| Attributes.FunctionalColorFromParts | saleor/graphql/product/types/attributes.py:23 | rgb(, rgba(, hsl( or hsla( followed by two or three groups and a closing argument is a colour |
| Attributes.GradientBeforeUrl | saleor/graphql/product/types/attributes.py:30-33 | A string with both "gradient(" and "://" that is not a colour is a gradient |
| Attributes.LinearGradientWithUrl | saleor/graphql/product/types/attributes.py:23-33 | "linear-gradient(url://x)", which also holds "://", is not a colour and resolves to a gradient, not a URL |
| ShippingTypes.SplitOnSpace | saleor/graphql/shipping/types.py:42 | `str.split(' ')` always yields at least one piece; the split lemmas below state its meaning |
| ShippingTypes.SplitOnSpaceCount | saleor/graphql/shipping/types.py:42 | `split(' ')` yields exactly one more piece than the string has spaces |
| ShippingTypes.SplitOnSpacePiecesHaveNoSpace | saleor/graphql/shipping/types.py:42 | No piece produced by `split(' ')` contains a space |
| ShippingTypes.SplitOnSpaceJoin | saleor/graphql/shipping/types.py:42 | Joining the pieces of `split(' ')` with single spaces gives the original string back |
| ShippingTypes.ParseValue | saleor/graphql/shipping/types.py:37-43 | Parsing succeeds iff the value has exactly one space. The amount is the text before it and the unit the text after it. Otherwise unpacking raises `ValueError` |
| ShippingTypes.ParseValueRoundTrip | saleor/graphql/shipping/types.py:42-43 | Parsing "amount unit" gives back the amount and the unit when neither holds a space |
| ShippingTypes.Serialize | saleor/graphql/shipping/types.py:45-49 | A weight serialises to its text, anything else to `None` |
| ShippingTypes.ParseLiteral | saleor/graphql/shipping/types.py:51-53 | The literal node is returned unchanged |
| ShippingTypes.EnumName | saleor/graphql/shipping/types.py:65-67 | The enumeration has exactly PRICE_BASED and WEIGHT_BASED, one per method type |
| Delivery.Items | saleor/delivery/__init__.py:18-19 | Iterating a delivery iterates its group's lines |
| Delivery.GetDeliveryTotal | saleor/delivery/__init__.py:21-52 | The base delivery costs zero; dummy shipping costs (sum of quantities) × (sum of product weights) |
| Delivery.GetTotalWithDelivery | saleor/delivery/__init__.py:24-25 | The total with delivery is the group total plus the delivery total, i.e. the group total for a free delivery |
| Delivery.SumsAppend | saleor/delivery/__init__.py:49-50 | Both sums distribute over concatenated lines |
| Delivery.DummyCostOneLine | saleor/delivery/__init__.py:48-52 | For one line the dummy cost equals weight × quantity |
| Delivery.DummyCostIsNotPerLine | saleor/delivery/__init__.py:48-52 | The dummy cost is a product of sums, not a sum of products: two unit lines cost 4, not 2 |
| Delivery.LowerChar | saleor/delivery/__init__.py:34 | A capital letter becomes the small letter at the same offset from 'a'; every other character is kept; no uppercase letter is left |
| Delivery.Lower | saleor/delivery/__init__.py:34 | `lower()` keeps the length and lowers each character |
| Delivery.StripLeading | saleor/delivery/__init__.py:34 | Drops a prefix made only of '_'; what is left does not start with '_' |
| Delivery.StripTrailing | saleor/delivery/__init__.py:34 | Drops a suffix made only of '_'; what is left does not end with '_' |
| Delivery.StripUnderscores | saleor/delivery/__init__.py:34 | `strip('_')` yields a piece of its input with no '_' at either end, and everything dropped before and after it is '_' |
| Delivery.InsertUnderscoresOnlyAdds | saleor/delivery/__init__.py:33 | The substitution only inserts underscores: removing all underscores gives the same as for the input |
| Delivery.InsertUnderscoresKeepsLetters | saleor/delivery/__init__.py:33 | The whole class name keeps its characters through the substitution, apart from inserted underscores |
| Delivery.StripLowerShape | saleor/delivery/__init__.py:34 | After `lower().strip('_')` no uppercase letter is left |
| Delivery.SnakeCase | saleor/delivery/__init__.py:33-34 | The class name with '_' inserted before word starts, lowered, and stripped of '_' at both ends (a definition; `SnakeCaseShape` proves its shape) |
| Delivery.Name | saleor/delivery/__init__.py:27-34 | The `name` property: the snake_case form of the method's class name (a definition; `DummyShippingName` evaluates it) |
| Delivery.SnakeCaseShape | saleor/delivery/__init__.py:27-34 | A delivery name holds no uppercase letter and neither starts nor ends with '_' |
| Delivery.InsertUnderscoresDummyShipping | saleor/delivery/__init__.py:33 | The substitution turns "DummyShipping" into "_Dummy_Shipping" |
| Delivery.LowerDummyShipping | saleor/delivery/__init__.py:34 | Lowering "_Dummy_Shipping" gives "_dummy_shipping" |
| Delivery.StripDummyShipping | saleor/delivery/__init__.py:34 | Stripping '_' from "_dummy_shipping" gives "dummy_shipping" |
| Delivery.DummyShippingName | saleor/delivery/__init__.py:27-34 | The name of dummy shipping is "dummy_shipping" |
| Delivery.GetDeliveryMethodsForGroup | saleor/delivery/__init__.py:67-71 | Yields exactly one method for the group: dummy shipping iff the group is shipped, digital delivery otherwise; a missing keyword raises `KeyError` |
| LegacyDelivery.CanHandleItem | delivery/__init__.py:14-46 | The base handler accepts any item; dummy shipping iff the product is physical; digital delivery iff it is digital |
| LegacyDelivery.CanHandle | delivery/__init__.py:18-20 | `can_handle`: every item of the group is accepted by `can_handle_item` (a definition; `CanHandleAll` states it with an index quantifier) |
| LegacyDelivery.CanHandleAll | delivery/__init__.py:18-20 | A group is handled iff every item is handled; an empty group is always handled |
| LegacyDelivery.BaseHandlesEverything | delivery/__init__.py:14-20 | The base handler accepts every group |
| LegacyDelivery.Lines | delivery/__init__.py:37-38 | Each item contributes its product's weight and its quantity, in order |
| LegacyDelivery.GetPricePerItem | delivery/__init__.py:22-39 | The base price is zero; dummy shipping's is (sum of weights) × (sum of quantities) |
| LegacyDelivery.PriceSumsGrow | delivery/__init__.py:37-38 | Adding items of non-negative weight and quantity never lowers either sum |
| LegacyDelivery.FilterHandlers | delivery/__init__.py:49-51 | Keeps exactly the candidates that can handle the group, never more than there are |
| LegacyDelivery.FilterHandlersAppend | delivery/__init__.py:49-51 | Filtering keeps the candidates' order: filtering a concatenation is the concatenation of the filtered parts |
| LegacyDelivery.GetDeliveryMethods | delivery/__init__.py:49-51 | Only dummy shipping and digital delivery are considered, each kept iff it can handle the group: exactly [dummy shipping, digital delivery], [dummy shipping], [digital delivery] or [], by which of the two accept, in that order |
| LegacyDelivery.PhysicalGroupShipped | delivery/__init__.py:49-51 | A non-empty group of only physical, non-digital items gets dummy shipping alone |
| CartForms.InitialQuantityIsValid | cart/forms.py:14-16 | The initial quantity 1 passes the field's own bounds (min 0, 4 decimals, 10 digits) |
| CartForms.CheckQuantity | cart/forms.py:27-29 | The stock check refuses exactly a quantity above a stocked product's availability |
| CartForms.CheckedQuantity | cart/forms.py:29 | The checked quantity is the line's quantity plus the requested one, or the requested one alone without a line |
| CartForms.CleanQuantity | cart/forms.py:23-33 | Fails exactly when the cumulative quantity exceeds the stock; on success returns the requested quantity, not the sum |
| CartForms.Cart.GetLine | cart/forms.py:25 | Under the assumed behaviour of the cart's `get_line` (see "## Left out"): the cart line exists exactly when the product is in the cart, with its stored quantity |
| CartForms.Cart.AddLine | cart/forms.py:35-37 | Under the assumed behaviour of the cart's `add_line` (see "## Left out"): adds the quantity to the product's line, creating it when missing; no other line changes |
| CartForms.ValidateForm | cart/forms.py:14-33 | The form is valid iff the field's bounds hold for the quantity's value and the cumulative stock check passes; a bounds failure precedes the stock check |
| CartForms.SubmitAddToCart | cart/forms.py:35-37 | A valid submission adds the quantity to the line; an invalid one leaves the cart unchanged |
| CartForms.StockTenScenario | saleor/cart/tests.py:80-97 | The tests target a later form, saleor/cart/forms.py, which is not part of this model (their keyword call would not fit the constructor at cart/forms.py:18); under the modelled form, with stock 10: 5 then 5 are accepted and the line holds 10; 15 on an empty cart is refused and the cart stays empty |
| ProductForms.ErrorNoItems | saleor/product/forms.py:22-35 | The variant and image formsets each report their own message |
| ProductForms.CountFilled | saleor/product/forms.py:25-29 | The count of filled forms never exceeds the number of forms |
| ProductForms.CountFilledZero | saleor/product/forms.py:25-31 | No form is counted exactly when every form is blank |
| ProductForms.Clean | saleor/product/forms.py:25-31 | The counting loop raises the formset's message iff the count is below 1, i.e. iff every form is blank |
| ProductForms.GetFormClassForProduct | saleor/product/forms.py:38-41 | A generic product or an instance of a subclass of it (`isinstance`) gets the generic product form; any other product raises `NotImplementedError` |
| ProductForms.NameChoices | saleor/product/forms.py:13-15 | One (sku, name) choice per variant, in variant order |
| ProductForms.NameChoicesCoverVariants | saleor/product/forms.py:13-15 | Every variant is offered and every choice comes from a variant |
| ProductForms.NamedVariants | saleor/product/forms.py:19 | Exactly the variants with the given name are matched |
| ProductForms.GetByName | saleor/product/forms.py:19 | The lookup finds a variant iff exactly one has the name, and raises `DoesNotExist` iff none has it |
| ProductForms.GetVariantAsWritten | saleor/product/forms.py:17-19 | As written, a successful lookup still yields `None`; the lookup's exceptions and a missing "name" key propagate |
| ProductForms.GetVariantAsWrittenLosesVariant | saleor/product/forms.py:17-19 | With one variant whose SKU and name are both "red" (so the form's choice field accepts "red"), the lookup finds it but the method as written returns `None` |
| ProductForms.GetVariant | saleor/product/forms.py:17-19 | Corrected: on success it returns the looked-up variant, which is in the product and carries the name |
| ProductForms.ChoiceValueIsSkuNotName | saleor/product/forms.py:13-19 | The `name` field posts the SKU of the chosen (sku, name) pair, but `get_variant` looks it up as a name: for a variant with SKU "r1" named "red", the accepted choice "r1" ends in `DoesNotExist`, as written and corrected |

## Left out

- The Stripe SDK calls (`PaymentIntent.create`, `retrieve`, `capture`, `confirm`, `Customer.create`, `PaymentMethod.list`) are not modelled. Their results are the outcome parameters of each operation.
- The remaining Stripe client code is not part of this model:
  - the global API key set in `_get_client`;
  - the amount and currency converters of the gateway's `utils` module;
  - `create_form`.
- An intent with no charges is not modelled: `refund` and `void` would raise `IndexError` on `charges.data[0]`. Their outcomes always carry a charge's refund.
- The orchestrator behind the payment mutations (`gateway_capture`, `gateway_refund`, `gateway_void`) is not part of this model. The model assumes these domain checks, with messages of its own:
  - capture only while active and not fully charged, up to the uncaptured amount;
  - refund only up to the captured amount;
  - void only before any capture.
- The tests fix only the transaction counts, kinds, success flags and statuses.
- The test at tests/api/test_payment.py:44-67 is not modelled. It reads an undefined variable and the wrong response key.
- The gateway records follow the later version of saleor/payment/interface.py that the Stripe gateway is written against, not the version at lines 6-49. That version is not part of this model; its extra fields and defaults are assumed:
  - `GatewayResponse` also has `action_required` (default false) and `customer_id` (default `None`);
  - `PaymentData` also has `customer_id` (default `None`) and `reuse_source` (default false).
- The payment tests at tests/api/test_payment.py:154 and :181 name a capture's transaction kind `Transactions.CHARGE`, the name in their version; the model's kind `Capture` stands for it.
- Row locking and concurrent payment updates are left out, because they are concurrency.
- PaymentMutations.RequestedAmount: the source defaults the amount to a taxed-money object and compares it against a number. The model takes the checkout's gross amount as the default.
- Address validation (`validate_address`) is not modelled. An address in the input is taken as already valid.
- The GraphQL node lookup, permissions, the client IP and the user-agent extra data are not modelled. The client IP is a parameter.
- ORM persistence (`save()`, querysets) is left out; the records are in-memory objects.
  - `get_or_create` is a map from plugin names to records.
  - The model's field defaults are constructor parameters.
- The extension manager's `get_active_plugins` is not part of this model. Its answer is a field of the manager value.
- ExtensionChecks.ImportModule: importing is a table from module paths to modules, and `getattr` truthiness is the set of names bound to truthy objects. The module's `str` is a field.
- Regular-expression classes `\d` and `\s` are taken as ASCII, and `lower()` lowers only ASCII letters. The Unicode-aware behaviour of the source is not captured.
- ShippingTypes.ParseValue: the unit is not validated and the amount is not converted into a measurement `Weight` (an unknown unit raises there). The result is the pair handed to the `Weight` constructor.
- ShippingTypes.Serialize: `str(weight)` is the parameter `show`.
- Prices (`Price`, `TaxedMoney`) are `real` amounts in one currency. Currency mismatches are not modelled.
- The satchless stock check raises an `InvalidQuantityException`. It is modelled as refusing any quantity above a stocked product's availability, with its own message.
- LegacyDelivery.FilterHandlers: satchless `filter_handlers` is taken to keep, in order, the candidates whose `can_handle` accepts the group.
- Delivery.GetDeliveryMethodsForGroup: the generator is evaluated eagerly. A missing keyword argument is reported as an error result.
- The DecimalField's own error messages are reduced to one `InvalidField` error, and `cleaned_data` is taken as present.
- CartForms.ValidateForm: the digit limits (4 decimal places, 10 digits) are checked on the quantity's value, not on the posted text. Django counts the digits of the posted `Decimal`, trailing zeros and exponent included, so a text such as "5.00000" is refused by the field but accepted by the model.
- CartForms.Cart.AddLine: the cart's own `get_line` and `add_line` are not part of this model; cart/forms.py:25 and :35-37 only call them. `get_line` is assumed to return the product's line or nothing. `add_line` is assumed to add the quantity to that line, creating the line when missing, and to change no other line. A zero quantity, which `min_value=0` lets through, then creates a zero line.
- ProductForms.GetVariant: corrects only the missing `return`. It keeps the lookup by name of the posted value, which is a SKU (`ChoiceValueIsSkuNotName`). Which of the two the source intends is not evident, so neither is changed.
- The `__unicode__` display strings of the delivery classes are not modelled.
- Django and GraphQL schema declarations are not modelled.

## Findings

| source | as written | input that shows it | evidently intended | confidence | as-written member | corrected member |
|---|---|---|---|---|---|---|
| saleor/payment/gateways/stripe_new/__init__.py:37 | `authorize` reads `customer_id` from the `PaymentData` class, not from the request. The record shown at saleor/payment/interface.py:36-49 declares no such field (reading it would raise `AttributeError`); under the later record the gateway is written against, the class default is `None` | a request with `reuse_source` set and `customer_id = "cus_1"`: no customer is sent to the provider | the request's own `customer_id` is reused when `reuse_source` is set | not executed | StripeGateway.CustomerIdAsWritten | StripeGateway.ReusedCustomerId |
| saleor/payment/gateways/stripe_new/__init__.py:119 | `status in ("succeeded")` tests for a substring of "succeeded", because the parentheses make no tuple | the status "succeed" (or "") counts as success | success iff the status equals "succeeded" | not executed | StripeGateway.ConfirmAsWrittenAcceptsPartialStatus | StripeGateway.Confirm |
| saleor/payment/gateways/stripe_new/__init__.py:126 | `raw_response=capture` stores the module's `capture` function, not the provider's intent | any successful confirmation | the raw response is the confirmed intent | not executed | StripeGateway.ConfirmAsWritten | StripeGateway.Confirm |
| saleor/product/forms.py:17-19 | `get_variant` performs the lookup but returns nothing | one variant with SKU "red" and name "red" (a choice the form accepts) and `cleaned_data = {"name": "red"}`: the result is `None` | the looked-up variant is returned | not executed | ProductForms.GetVariantAsWrittenLosesVariant | ProductForms.GetVariant |
