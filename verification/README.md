# TikHub tool bridge: a Dafny model of its data-shaping core

The plugin discovers the tools a remote TikHub service offers, filters them
by configuration, and registers each survivor with the host runtime under a
`tikhub_` name whose handler forwards the call and reshapes the answer. This
project models the pure part of that pipeline in `src/index.ts` and proves
what it promises:

- `category.dfy`: the classifier `getCategory`. It uses the ordered table of
  platform keys and falls back to the text before the first `_`.
- `catalog.dfy`: `filterTools`. A category allow-list runs first, then a
  count cap.
- `tally.dfy`: the per-category count of the tools being registered. It
  comes in two forms: the count as the code evidently means it, and the
  count as written, which reads a plain object (see Findings).
- `jsvalue.dfy`, `invoke.dfy`: parsed bodies as abstract JavaScript values,
  and the handler's post-processing. An envelope is unwrapped, another body
  passes through, and a failure becomes data.
- `plugin.dfy`: configuration defaults, the `/tools` array check, the
  registration naming, and the whole start-up as one function. That
  function goes from the configuration and the catalog response to the
  registrations.
- `text.dfy`, `seqs.dfy`, `wrappers.dfy`: `startsWith` and `indexOf` on
  `seq<char>`; generic facts about prefixes, subsequences and filtering; and
  the `Option` and `Result` types.

Strings are `seq<char>`. JavaScript numbers are modelled as `int`. Network
responses and errors are parameters: `Result<Value, string>` values whose
`Failure` carries the message of the error the request raised. The
allow-list `enabledCategories` is an ordered array, and an envelope is
reported as `success: true` whatever its `code`.

## Model

| member | source | states |
|---|---|---|
| Text.IndexOf | src/index.ts:82 | `indexOf("_")` is -1 exactly when there is no `_`; otherwise it is an index holding `_` with no `_` before it |
| Category.GetCategory | src/index.ts:76-84 | the category is always a prefix of the name, and it is non-empty for a non-empty name |
| Category.KnownPrefixWins | src/index.ts:77-80 | a name is classified by table key `i` if and only if `i` is the earliest key that is a prefix of the name |
| Category.KeysPrefixFree | src/index.ts:55-68 | no key of the label table is a prefix of another key |
| Category.AnyKnownPrefixWins | src/index.ts:55-80 | with this table, any key that prefixes a name is that name's category |
| Category.FallbackSplitsAtFirstSeparator | src/index.ts:82-83 | if no key matches and the first `_` is at position `i > 0`, the category is `name[..i]`, which holds no `_` |
| Category.FallbackWholeName | src/index.ts:82-83 | if no key matches and the name has no `_` or starts with one, the category is the whole name |
| Category.CategoryShapes | src/index.ts:76-84 | every category is either the earliest matching key, or the text before the first `_`, or the whole name |
| Category.Classify | src/index.ts:76-84 | the early-return loop over the table, followed by the `_` split, computes the classifier |
| Catalog.KeepSelected | src/index.ts:164-171 | the category stage keeps exactly the tools in the catalog whose category equals an entry or whose name starts with one |
| Catalog.KeepSelectedCounts | src/index.ts:165-170 | each tool occurs in the category stage as often as in the catalog if it passes, and never if it fails |
| Catalog.KeepSelectedIsSubsequence | src/index.ts:165-170 | the category stage never reorders the catalog |
| Catalog.Cap | src/index.ts:173-176 | the capped list is a prefix of its input, no longer than a positive cap |
| Catalog.FilterTools | src/index.ts:156-179 | the result is an in-order subsequence of the catalog; with a non-empty allow-list every kept tool passes it; a positive cap bounds the length |
| Catalog.FilterIdentity | src/index.ts:161-178 | an empty allow-list with `maxTools <= 0` returns the catalog unchanged |
| Catalog.FilterUncapped | src/index.ts:164-174 | without a positive cap, the result keeps every passing tool exactly as often as the catalog lists it, and keeps no other tool |
| Catalog.FilterCapped | src/index.ts:173-176 | with a positive cap, the result is the first `maxTools` tools of the uncapped result when that result is longer, and the whole of it otherwise |
| Catalog.FilterExample | src/index.ts:156-179 | for the catalog xiaohongshu_search, tiktok_user, unknown_x with the allow-list `["tiktok"]` and a cap of 10, only tiktok_user is kept |
| Tally.Bump | src/index.ts:217 | one increment adds 1 to the count of its key, adds the key if it is absent, keeps keys unique, and raises the total by 1 |
| Tally.TallyKeysCorrect | src/index.ts:214-218 | the tally has one entry per distinct key, each entry holds the key's number of occurrences, and the counts sum to the number of keys |
| Tally.CountCategoriesCorrect | src/index.ts:213-218 | `categoryCount` has one entry per category of the registered tools, each holding how many tools have that category; the counts sum to the number of tools |
| Tally.AgreesAwayFromPrototype | src/index.ts:214-218 | when no key is inherited by plain objects, the tally as written equals the intended tally |
| Tally.TallyAgreesForOrdinaryNames | src/index.ts:214-218 | the same agreement, stated for a catalog of tools |
| Tally.InheritedKeyMiscounted | src/index.ts:214-218 | a lone key naming an Object.prototype method is stored as text ending in "1", not as the count 1 |
| Tally.ConstructorMiscounted | src/index.ts:214-218 | a tool named "constructor" is tallied as "function Object() { [native code] }1", where the intended count is 1 |
| Invoke.CallBody | src/index.ts:143-149 | the posted body holds exactly `tool_name` and `arguments` |
| Invoke.Interpret | src/index.ts:241-260 | a thrown error becomes `Failed` with its message; a truthy `result` yields its `code`, `data` and `message`; a `null` body fails on the read; every other body passes through unchanged |
| Invoke.Payload | src/index.ts:246-259 | an envelope payload has exactly `success`, `code`, `message` and `data`; a failure payload has exactly `success` and `error`; a raw body is returned as is |
| Invoke.PayloadRoundTrip | src/index.ts:246-259 | reading an envelope or failure payload back gives the outcome it was built from |
| Invoke.Handle | src/index.ts:241-261 | the handler maps an envelope to a payload with exactly `success: true`, `code`, `message` and `data`, copied from `result`; a thrown error, or a `null` or `undefined` body, to a payload with exactly `success: false` and `error`, holding the message; and any other body to itself |
| Invoke.HandleExample | src/index.ts:246-253 | `{result: {code: 200, data, message: "ok"}}` becomes `{success: true, code: 200, message: "ok", data}` |
| Plugin.WithDefaults | src/index.ts:184-189 | a missing `maxTools` becomes 100, a missing allow-list becomes empty, a missing base URL becomes the default, and the token is empty exactly when it is missing or empty |
| Plugin.FetchToolList | src/index.ts:127-131 | the catalog body succeeds exactly when it is an array, yields its elements, and otherwise fails with the malformed-catalog error |
| Plugin.Register | src/index.ts:229-234 | the registered name is `"tikhub_"` + the tool name, the description is `"[TikHub] "` + the tool description, and the handler targets the un-prefixed remote name |
| Plugin.RegisteredNamesInjective | src/index.ts:233 | distinct remote names give distinct registered names |
| Plugin.RegisterAll | src/index.ts:228-234 | there is one registration per tool, in the same order |
| Plugin.NameOf | src/index.ts:76-79 | a catalog element's name is readable exactly when the element is an object whose `name` is a string; reading `null.name` or calling `startsWith` on a non-string throws |
| Plugin.ToolOf | src/index.ts:229-234 | an element reads as a tool exactly when its name is readable; the tool carries that name and the `String()` text of the element's `description` |
| Plugin.DecodeAll | src/index.ts:164-171 | a list reads as tools exactly when every element's name is readable, and then element by element |
| Plugin.LoadPlugin | src/index.ts:183-263 | start-up aborts exactly when the token is missing, the catalog request fails, the body is not an array, or an element whose name is read has no string name: every element when an allow-list is set, only those within the cap otherwise |
| Plugin.UnreadableNameRejects | src/index.ts:164-166 | with an allow-list, one element without a string name (for instance `null`) anywhere in the catalog rejects the start-up |
| Plugin.UnreadablePastCapIgnored | src/index.ts:173-216 | without an allow-list, a `null` element past the cap is never read and start-up succeeds; within the cap it rejects the start-up |
| Plugin.DecodeCap | src/index.ts:173-176 | reading the capped list gives the cap of the read list |
| Plugin.NoTokenNoTools | src/index.ts:191-194 | a missing or empty token registers nothing |
| Plugin.BadCatalogNoTools | src/index.ts:200-207 | a failed or malformed catalog registers nothing, and keeps the error message |
| Plugin.RegistrationsFollowFilter | src/index.ts:211-234 | with a token and an array catalog whose elements all have string names, the registrations are exactly the filtered tools in order, each named `"tikhub_"` + its name; the tally sums to the number of registrations |
| Plugin.RunHandler | src/index.ts:241-260 | a registered handler sends the remote name; it turns a failed call into a failure payload with the error message, and an envelope into an envelope payload |

## Left out

- The HTTP client (`tikhubRequest`, src/index.ts:89-118) is I/O and is not modelled: URL concatenation, headers, `fetch`, the `response.ok` check and JSON parsing. Its outcome enters the model as a `Result` parameter.
- The `data as TikHubTool[]` cast checks nothing at run time. An element's `description` is turned into text only when the registration is built; the model reads it together with the name.
- JsValue.Display: objects print as "[object Object]". An object in the catalog whose own `toString` or `valueOf` would change that text is not covered.
- Logging is left out, together with the formatted category summary and the Chinese labels of `CATEGORY_LABELS`. The labels are used only in that log line.
- The order in which the summary enumerates the tally is left out. JavaScript lists integer-like keys first; the model keeps first-appearance order.
- The parameter schema of every registration is a constant and is left out. The base URL's default is modelled by `Plugin.WithDefaults`; its only use is in the HTTP client.
- The asynchronous structure is left out. So is the host's `registerAgentTool` callback: registrations are a returned list.
- JavaScript numbers are modelled as integers. A fractional or NaN `maxTools`, and NaN or -0 under truthiness, are not covered.
- Plugin.WithDefaults: a `null` configuration field is not covered; a missing field is `None`. Destructuring defaults apply only to `undefined`, so a `null` `maxTools` would switch the cap off (`null > 0` is false), a `null` allow-list would raise a TypeError on `.length`, and a `null` base URL would reach the HTTP client as "null". A `null` token aborts like a missing one.
- `err instanceof Error ? err.message : String(err)` is not modelled: a failure carries its message text directly.
- JsValue.Get: holds only for keys that name no built-in property of strings, arrays, numbers or booleans. The handler reads only such keys: `result`, `code`, `message` and `data`.
- Plugin.RunHandler: states only the failure and envelope cases. Invoke.Handle states the full mapping.
- Tally.TallyAsWritten: the texts of inherited methods follow the V8 engine's rendering of native functions.

## Findings

| source | as written | input that shows it | evidently intended | confidence | as-written member | corrected member |
|---|---|---|---|---|---|---|
| src/index.ts:214-218 | `categoryCount[cat] = (categoryCount[cat] \|\| 0) + 1` on a plain `{}`, so the read sees members inherited from Object.prototype | a catalog tool named `constructor` (its category is the whole name): the read finds the `Object` function, and `+ 1` stores the string "function Object() { [native code] }1" | the count 1 | not executed; high | Tally.ConstructorMiscounted | Tally.CountCategoriesCorrect |

The tally feeds only the start-up log line, so registration is not
affected. The same happens for every Object.prototype method name (see
Tally.InheritedKeyMiscounted). A category `__proto__` is dropped from the
tally entirely, because the accessor ignores a string. The rest of the
model uses the corrected tally, `Tally.CountCategories`.
