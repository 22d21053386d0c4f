# h9.js in Dafny

A model of the pure logic of `h9.js`, the Node.js client for the Hostnine
reseller API. The client sends every call through one gateway,
`helpers.request`. The gateway adds the module name and the API key to the
caller's parameters. It cleans up the `result` message and coerces the
`success` flag of a 200 reply. Then it sorts the reply into one outcome. A
transport error is a `request` error. A status other than 200, or a `null`
body, is a `response` error. The two kinds of sentinel message give a `module`
or an `apikey` error. Everything else is delivered. Around the gateway sit
small helpers: `prepareFilter` encodes account filters as `%key:value` terms,
`stripNumberKeys` drops the row-index keys of a result, `parseBoolean`,
`isNumeric` (that is, `parseInt` succeeds), and `clone`. The endpoint wrappers
build each module's parameters. Wherever an identifier may be a number or a
name, they route it to an `_id` key or to the plain key.

Modules, one file each:

- `Optional` (optional.dfy): `Option`, where `None` stands for JavaScript's `undefined`.
- `Text` (text.dfy): ECMAScript white space, `trim`, ASCII `toLowerCase`, and digits.
- `JsNumber` (js_number.dfy): the `parseInt` prefix rule and `isNumeric`.
- `Normalize` (normalize.dfy): tag stripping, space collapsing, normalisation of the result message, and `parseBoolean`.
- `Objects` (objects.dfy): plain objects as ordered lists of distinct-named properties. It defines lookup, assignment, `delete` and filtering.
- `Helpers` (helpers.dfy): `prepareFilter` with a reader for its output, `stripNumberKeys` and `clone`.
- `Messages` (messages.dfy): the three sentinel messages.
- `Gateway` (gateway.dfy): the outgoing parameters, the pass over the body, and the classification of a reply.
- `Endpoints` (endpoints.dfy): the parameters each wrapper sends, including identifier routing.

An object is a sequence of name/value pairs in enumeration order. Assignment
to an existing name keeps its place, and assignment to a new name appends it.
Parameter values are strings. A value counts as truthy when it is present and
non-empty.

`prepareFilter` walks the input object (h9.js:77) and tests each key against
the allow-list, so the terms come in the caller's order, not the order of the
allow-list.

## Model

| member | source | states |
|---|---|---|
| Normalize.StripTags | h9.js:35 | after every tag match is replaced by a space, no `<` is left and the text is no longer |
| Normalize.StripTagsPlain | h9.js:35 | text with no `<` passes through tag stripping unchanged |
| Normalize.StripTagsElement | h9.js:35 | a closed element `<m>` becomes exactly one space, and the text before it is kept |
| Normalize.StripTagsUnclosed | h9.js:35 | an unclosed `<` swallows the rest of the message and leaves one space |
| Normalize.CollapseSpaces | h9.js:35 | afterwards no two U+0020 spaces are adjacent; non-space characters are unchanged and in order; the first and last characters are kept |
| Normalize.CollapseSpacesNoDouble | h9.js:35 | text without a double space is left alone |
| Normalize.CollapseSpacesRunLength | h9.js:35 | only the length of a space run is lost: a double space collapses as a single one does |
| Normalize.CollapseSpacesRun | h9.js:35 | a space run of any length collapses as a single space does |
| Text.Trim | h9.js:35 | the result has no white space at either end, and it is the input with only white space removed at the two ends |
| Text.TrimTrimmed | h9.js:35 | trimming text that has no white space at its ends changes nothing |
| Normalize.NormalizeResult | h9.js:34-36 | a normalised message has no `<`, no double space and no white space at either end |
| Normalize.NormalizeResultFixpoint | h9.js:34-36 | normalising a message that is already in normal form returns it unchanged |
| Normalize.NormalizeResultIdempotent | h9.js:34-36 | normalising twice gives the same as normalising once |
| Normalize.NormalizeResultExample | h9.js:34-36 | `"<b>OK</b>   done"` normalises to `"OK done"` |
| Normalize.NormalizeTaggedWords | h9.js:34-36 | two words with markup before and between them, and any run of spaces, normalise to the words joined by one space |
| Normalize.NormalizeWrapped | h9.js:34-36 | a normal-form message wrapped in an opening and a closing tag normalises back to the message |
| Normalize.JoinNormalized | h9.js:34-36 | two normal-form texts joined by one space are in normal form |
| Text.ToLower | h9.js:94 | lower-casing keeps the length, leaves no ASCII capital, moves each capital to its small letter and keeps every other character |
| Text.ToLowerIdempotent | h9.js:94 | lower-casing twice is lower-casing once |
| Normalize.ParseBoolean | h9.js:93-103 | the coercion is true exactly when the text is non-empty and its lower-case form is not `"false"` |
| Normalize.ParseBooleanCaseInsensitive | h9.js:94 | texts with the same lower-case form coerce alike |
| Normalize.ParseBooleanExamples | h9.js:93-103 | `"TRUE"`, `"0"` and `"yes"` are true; `"False"` and `""` are false |
| JsNumber.ParseInt | h9.js:105 | `parseInt` gives a number exactly when the text starts with white space, an optional sign, and then a digit of the radix that any `0x`/`0X` prefix selects |
| JsNumber.IsNumeric | h9.js:104-106 | `isNumeric` holds exactly when the text has that prefix: white space, an optional sign, then a digit of the selected radix |
| JsNumber.SignedIffDigit | h9.js:105 | after the white space, `parseInt` gives a number exactly when a digit follows the optional sign |
| JsNumber.MagnitudeIffDigit | h9.js:105 | after the sign, a number is read exactly when a hexadecimal digit follows a `0x` prefix, or a decimal digit comes first |
| JsNumber.ParseIntReadsDigits | h9.js:105 | white space, a sign, a radix prefix, digits and non-digit trailing text parse to the signed value of the digits |
| JsNumber.ParseIntDecimal | h9.js:104-106 | the decimal text of every natural number parses back to that number and is numeric |
| JsNumber.DecimalString | h9.js:104-106 | the decimal text of a number is a non-empty digit string whose value is the number |
| JsNumber.TrailingTextIgnored | h9.js:105 | `"42abc"` parses to 42 |
| JsNumber.DigitLedNameIsNumeric | h9.js:105 | the host name `"4chan.org"` parses to 4 |
| JsNumber.SignAndWhitespaceAccepted | h9.js:105 | `" -7"` parses to -7 |
| JsNumber.HexPrefixAccepted | h9.js:105 | `"0x1F"` parses to 31 |
| JsNumber.NoLeadingDigitNotNumeric | h9.js:104-106 | text that starts with something other than white space, a sign or a digit is not numeric; the empty text is not numeric |
| JsNumber.NoDigitAfterPrefixNotNumeric | h9.js:104-106 | a lone sign, and a hex prefix with no hex digit after it (`"0x"`, `"0xZ"`), are not numeric |
| Objects.Get | h9.js:79 | lookup finds a value exactly when the name is present, and the value it finds belongs to that name |
| Objects.GetAt | h9.js:79 | in an object with distinct names, lookup of each name finds that property's value |
| Objects.Set | h9.js:19-20 | after assignment the name holds the new value, every other name is unchanged, and a new name is appended at the end |
| Objects.SetKeepsPlace | h9.js:19-20 | assigning to a name that is present keeps the names and their order |
| Objects.SetDistinct | h9.js:19-20 | assignment never makes a name appear twice |
| Objects.Filter | h9.js:86-90 | filtering keeps exactly the properties whose names pass the test, with their values, and keeps names distinct |
| Objects.FilterIdempotent | h9.js:86-90 | filtering twice by the same test is filtering once |
| Objects.FilterKeepsAll | h9.js:86-90 | a test that passes every name keeps the whole object |
| Objects.Delete | h9.js:110-111 | after `delete` the name is absent and every other name keeps its value |
| Objects.DeleteAbsent | h9.js:110-111 | deleting an absent name changes nothing |
| Helpers.Term | h9.js:79 | a term is `%`, the key, `:`, then the value, with nothing else |
| Helpers.PrepareFilter | h9.js:75-83 | the filter string is empty exactly when no input key is allowed, and otherwise it starts with `%` |
| Helpers.PrepareFilterIsJoin | h9.js:75-83 | the filter string is the terms of exactly the allowed input properties, in input order |
| Helpers.PrepareFilterAppend | h9.js:77-81 | the filter string of two objects in sequence is the two filter strings concatenated |
| Helpers.PrepareFilterAgree | h9.js:78 | two allow-lists that agree on the input's keys give the same string |
| Helpers.PrepareFilterNoList | h9.js:78 | no allow-list behaves like a list of all the input's keys |
| Helpers.DecodeJoin | h9.js:79 | the terms of properties whose keys have no `%` or `:`, and whose values have no `%`, read back as the same properties |
| Helpers.PrepareFilterRoundTrip | h9.js:75-83 | reading the filter string back gives exactly the allowed properties, in order, with their values |
| Helpers.StripNumberKeys | h9.js:84-92 | the output has exactly the input's names that are not numeric, with unchanged values, in input order |
| Helpers.StripNumberKeysIdempotent | h9.js:84-92 | stripping numeric keys twice is stripping them once |
| Helpers.StripNumberKeysIndices | h9.js:84-92 | row indices such as `"0"` or `"17"` are dropped, and a name that starts with a letter keeps its value |
| Helpers.Clone | h9.js:108-113 | the copy has no `success` and no `result`, and every other name keeps its value |
| Helpers.CloneWithoutStatus | h9.js:108-113 | a response without `success` and `result` is copied unchanged |
| Helpers.CloneIdempotent | h9.js:108-113 | cloning a clone changes nothing |
| Messages.SentinelSpelling | h9.js:42-51 | each sentinel message is its words joined by single spaces |
| Gateway.Outgoing | h9.js:19-20 | the sent parameters carry the module name and the API key, overriding any caller values, and every other parameter is the caller's; when the caller gave neither, the two are appended after the caller's parameters |
| Gateway.NormalizeBody | h9.js:34-39 | a present `result` is replaced by its normalised form, and a non-empty `success` by its coercion; an empty or missing one is left alone; other fields pass through |
| Gateway.Classify | h9.js:25-71 | every reply gets exactly one outcome. A transport error gives `request` with its cause. A status other than 200, or a null body, gives `response` with that code and body. The normalised module sentinel gives `module`, either key sentinel gives `apikey`, and everything else is delivered with the normalised body |
| Gateway.ErrorType | h9.js:25-71 | only a delivered reply has no error type |
| Gateway.ErrorMessage | h9.js:25-71 | response, module and API-key errors carry a message of their own; the other outcomes do not |
| Gateway.SentinelsNormalized | h9.js:41-51 | each sentinel is already in normal form, so a plain sentinel reply can match |
| Gateway.WrappedSentinel | h9.js:34-58 | a sentinel wrapped in markup is still classified as a `module` or an `apikey` error |
| Gateway.ParagraphMissingKey | h9.js:34-58 | `<p>No Reseller Central API Key provided.</p>` is classified as an `apikey` error |
| Gateway.PlainSentinel | h9.js:41-58 | an unwrapped sentinel is classified as a `module` or an `apikey` error |
| Endpoints.RouteKey | h9.js:267-271 | the id key is chosen exactly when the identifier has a numeric prefix, and the name key otherwise |
| Endpoints.Route | h9.js:267-271 | a numeric identifier goes under the id key and any other under the name key; nothing else changes |
| Endpoints.RouteAppends | h9.js:267-271 | routing into parameters without either key adds exactly one of them, the id key exactly when the identifier is numeric |
| Endpoints.RoutePack | h9.js:253-260 | a truthy `pack` moves to `pack_id` if numeric and to `package` otherwise, and `pack` is removed; a missing or empty `pack` changes nothing; other parameters are kept |
| Endpoints.DomainRouting | h9.js:267-271 | a decimal id goes to `domain_id`, a name that starts with a letter goes to `domain`, and a digit-led name such as `4chan.org` goes to `domain_id` |
| Endpoints.DigitLedNumeric | h9.js:105 | decimal digits followed by text that does not continue them, and is not an `x`, are numeric |
| Endpoints.ViewMyAccountSent | h9.js:122-123 | `viewMyAccount` sends exactly `module=viewMyAccount` and the API key |
| Endpoints.GetMessagesSent | h9.js:138-143 | with only a callback, `getMessages` sends exactly the module and the key; given parameters without those two names, it sends them followed by the module and the key; every other parameter is the caller's |
| Endpoints.ViewMessageSent | h9.js:157-159 | `viewMessage` sends exactly `message_id`, then the module, then the key |
| Endpoints.GetNewsPosts | h9.js:174-181 | `getNewsPosts` sends `limit` exactly when one is given, and nothing else |
| Endpoints.ViewNewsPostSent | h9.js:196-198 | `viewNewsPost` sends exactly `news_id`, then the module, then the key |
| Endpoints.GetAccounts | h9.js:217-225 | `getAccounts` sends one `filters` parameter built from the allowed filters when filters are given, and nothing otherwise |
| Endpoints.GetAccountsFilterTerms | h9.js:223 | the `filters` parameter reads back as exactly the caller's `search`, `status` and `pack_id` filters, in the caller's order |
| Endpoints.CreateAccount | h9.js:252-262 | `createAccount` sends the caller's parameters after the package step |
| Endpoints.ViewAccount | h9.js:265-272 | `viewAccount` sends the domain alone, under the key routing chooses |
| Endpoints.ModifyAccount | h9.js:289-304 | `modifyAccount` routes the domain into the caller's parameters and then applies the package step; the domain is always present |
| Endpoints.ChangeAccountPassword | h9.js:307-315 | `changeAccountPassword` sends the password, then the routed domain |
| Endpoints.ChangeAccountPackageAsWritten | h9.js:318-331 | as written, `changeAccountPackage` always sends the package as `package`, after the routed domain |
| Endpoints.ChangeAccountPackageNumericId | h9.js:325-329 | as written, a numeric package id such as `"42"` is sent as `package` |
| Endpoints.ChangeAccountPackage | h9.js:318-331 | with the test on `pack`, the package is routed like the domain: `pack_id` if numeric, `package` otherwise |
| Endpoints.ChangeAccountPackageRoutes | h9.js:325-329 | with the test on `pack`, a decimal id goes to `pack_id` and a letter-led name to `package` |
| Endpoints.SuspendAccount | h9.js:334-342 | `suspendAccount` sends the reason, then the routed domain |
| Endpoints.UnsuspendAccount | h9.js:345-353 | `unsuspendAccount` sends the routed domain alone |
| Endpoints.TerminateAccount | h9.js:356-364 | `terminateAccount` sends the routed domain alone |
| Endpoints.ListingSent | h9.js:372-443 | `getLocations`, `getNetworkStatus`, `getPackages` and `getMigrations` each send exactly their module name and the key |
| Endpoints.AddMigration | h9.js:446-459 | `addMigration` sends the routed domain, then the routed location |
| Endpoints.FixPermissions | h9.js:468-476 | `fixPermissions` sends the routed domain alone |
| Endpoints.CheckFirewallBan | h9.js:479-487 | `checkFirewallBan` sends the address, then the routed domain |
| Endpoints.RemoveFirewallBan | h9.js:490-498 | `removeFirewallBan` sends the address, then the routed domain |

## Left out

- The HTTP exchange through the `request` library (h9.js:21-24) and the JSON decoding of the body. They are network I/O in foreign code. A reply is an input to `Gateway.Classify`.
- `querystring.stringify` (h9.js:22) is library code that is not shown. The outgoing parameters are modelled as an object, not as a URL.
- Callbacks, and the argument shifting when the data argument is left out (h9.js:15-18, 139-142, 176-180, 219-224). These are asynchronous control flow. `Option` arguments stand for "given" and "not given".
- The result objects the wrappers assemble from a delivered body (for example h9.js:127-132, 229-245, 276-283). This is record assembly around `stripNumberKeys` and `clone`, which are modelled.
- The deep copy that `JSON.parse(JSON.stringify(...))` makes in `clone` (h9.js:109). Values are immutable here, so only the removal of the two keys is modelled.
- The mutation of the caller's own parameter object by `request`, `createAccount` and `modifyAccount`. The model returns new objects.
- JavaScript's enumeration order, which lists integer-like names first. Objects are explicit ordered sequences of distinct names.
- Helpers.StripNumberKeys: requires distinct names, as every JavaScript object has them.
- Non-string `success` and `result` values, for which `toLowerCase` or `replace` would throw. Both are modelled as strings.
- Parameter values other than strings, such as the number `0`, which is falsy. Values are strings, and truthy means present and non-empty.
- Text.ToLower: lowers ASCII letters only. The coercion compares the lowered text with `"true"` and `"false"`. No character outside ASCII lowers to a single ASCII letter of those words, so the outcome is the same.
- The numeric value of `parseInt` is an unbounded integer. Only whether it is `NaN` matters to `isNumeric`, so floating-point rounding of long digit strings plays no part.
- The transport's `err` value (h9.js:26-29) is modelled as an opaque string cause.

## Findings

| source | as written | input that shows it | evidently intended | confidence | as-written member | corrected member |
|---|---|---|---|---|---|---|
| h9.js:325-329 | `changeAccountPackage` tests `isNumeric(data.pack)`, but `data` never has a `pack`, so the test reads `undefined` and is always false | `changeAccountPackage("example.com", "42", cb)` sends `package=42`, not `pack_id=42` | test `isNumeric(pack)`, as `createAccount` and `modifyAccount` do with their `pack` | high, not executed | Endpoints.ChangeAccountPackageNumericId | Endpoints.ChangeAccountPackageRoutes |
