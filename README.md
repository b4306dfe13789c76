# Formula recognition backend: a verified model of its decision logic

The desktop formula-recognition assistant has a Rust backend, `src-tauri/src/commands.rs`. It exposes the commands the UI calls:
- `recognize`: send an image to SimpleTex or to a SiliconFlow vision model.
- `get_available_models`: build the model picker.
- `get_settings`, `save_settings`, `get_sf_balance`: the settings page.

Almost every step inside these commands is a small decision taken between network calls. This project models those decisions in Dafny and proves what they promise:
- which chat models count as vision models or as OCR-only, and how they are named and which modes they are offered for;
- how a provider-qualified model id (`simpletex:…`, `siliconflow:…`) is built and split, where an unqualified id falls back to, which `rec_mode` SimpleTex gets, the `data:` image URL, the prompt, and the base64 payload;
- the daily per-model usage counter, a `(date, model → count)` record that a read treats as zero on another day and that an increment resets when the day changes;
- the voucher model list typed on the settings page, and which settings `save_settings` stores and which errors it reports;
- the two-pass formula check: the whitespace-normalised comparison and the `verified` / `corrected` / `original_text` fields;
- the SimpleTex error-type chain and its messages, and the SiliconFlow error message;
- the lists `get_available_models` and `get_settings` return.

Every network reply, the stored values and "today" are parameters. The store file and the usage file are not read or written. The usage file is held in memory by the class `Usage.UsageLog`.

Modules, one per file:
- `Wrappers`: `Option` and `Result`.
- `Text`: the Rust string operations used, over ASCII.
- `SimpleTex`: the model table, the error messages, the payload.
- `Catalogue`: the SiliconFlow vision-model catalogue.
- `Routing`: qualified ids and the request plan of `recognize`.
- `Usage`: the daily counter.
- `Settings`: voucher parsing and `save_settings`.
- `Recognition`: the normalisation, the verification decision and the whole `recognize`.
- `Listing`: `get_available_models`, `get_settings`, `get_sf_balance`.

## Model

| member | source | states |
|---|---|---|
| Text.ToUpper | src-tauri/src/commands.rs:123 | every character is upper-cased (ASCII), length kept |
| Text.ToLower | src-tauri/src/commands.rs:793 | every character is lower-cased (ASCII), length kept |
| Text.FirstIndex | src-tauri/src/commands.rs:699-700 | `find(':')`: `None` exactly when the character is absent, else the index of its first occurrence |
| Text.AfterLast | src-tauri/src/commands.rs:128-130 | `split(c).last()`: a suffix holding no `c`, preceded by a `c` unless it is the whole string |
| Text.Trim | src-tauri/src/commands.rs:445 | the result neither starts nor ends with whitespace and holds only characters of the input |
| Text.TrimStartDropsSpace | src-tauri/src/commands.rs:445 | what `trim_start` removes is leading whitespace |
| Text.TrimEndDropsSpace | src-tauri/src/commands.rs:445 | what `trim_end` removes is trailing whitespace |
| Text.TrimIsInnerSlice | src-tauri/src/commands.rs:445 | `trim` keeps the slice of the input between a whitespace prefix and a whitespace suffix, unchanged |
| Text.TrimIdempotent | src-tauri/src/commands.rs:445 | trimming twice is trimming once |
| Text.Lines | src-tauri/src/commands.rs:444 | `lines()`: the empty text has no lines, and no line holds a `\n` |
| Text.StripCR | src-tauri/src/commands.rs:444 | a line loses one final `\r` if it has one, and nothing else |
| Text.LinesOfBreak | src-tauri/src/commands.rs:444 | the text up to the first `\n`, without a final `\r`, is the first line, and the rest after the `\n` is split the same way |
| Text.LinesOfFinalBreak | src-tauri/src/commands.rs:444 | a final `\n` ends the last line and starts no empty one |
| Text.LinesOfLastLine | src-tauri/src/commands.rs:444 | a non-empty text without `\n` is one line, kept whole |
| Text.Words | src-tauri/src/commands.rs:846-847 | `split_whitespace()`: every piece is a non-empty run without whitespace |
| Text.WordsOfJoin | src-tauri/src/commands.rs:846-847 | splitting a space-joined list of words gives the same list back |
| Text.WordsSkipSpace | src-tauri/src/commands.rs:846-847 | leading whitespace adds no word and changes none |
| Text.WordsOfSpace | src-tauri/src/commands.rs:846-847 | a text of whitespace only has no words |
| Text.WordsAroundSpace | src-tauri/src/commands.rs:846-847 | a non-empty run of whitespace separates: the words of `a + w + b` are the words of `a` followed by those of `b` |
| Text.Filter | src-tauri/src/commands.rs:249-250 | `filter`: every element kept satisfies the test, and no more elements than given |
| Text.FilterInOrder | src-tauri/src/commands.rs:249-250 | the kept elements are a subsequence of the input, so the order is kept |
| Text.FilterCounted | src-tauri/src/commands.rs:249-250 | an element passing the test is kept as often as it occurs; one failing it is never kept |
| Text.FilterMembers | src-tauri/src/commands.rs:249-250 | an element is kept exactly when it occurs and passes the test |
| Text.NatToString | src-tauri/src/commands.rs:616 | `{}` of a number: non-empty, all decimal digits, no leading zero |
| Text.DecimalRoundTrip | src-tauri/src/commands.rs:616 | reading the formatted digits back gives the number |
| Text.NatToStringInjective | src-tauri/src/commands.rs:787 | different numbers format differently |
| SimpleTex.ErrorType | src-tauri/src/commands.rs:334-337 | the first present of `res.errType`, `err_info.err_type`, `errType`, else `"unknown"` |
| SimpleTex.FailureMessage | src-tauri/src/commands.rs:338-344 | `req_unauthorized` and `resource_no_valid` get their messages; any other type is the failure prefix followed by the type |
| SimpleTex.FailureMessageInjective | src-tauri/src/commands.rs:338-344 | different error types give different messages |
| SimpleTex.ResponseOutcome | src-tauri/src/commands.rs:333-345 | an answer succeeds, with its text, exactly when its `status` is true; otherwise it fails with the message of the chained error type |
| SimpleTex.Base64Payload | src-tauri/src/commands.rs:309 | the text after the last comma: holds no comma, ends the input, is the input when it has no comma |
| SimpleTex.FindModel | src-tauri/src/commands.rs:727-728 | `find` over the table: `None` iff no row has the id, else the first row that has it |
| SimpleTex.ModelName | src-tauri/src/commands.rs:727-730 | the table name of the id, or the id itself when it is not in the table |
| Catalogue.IsVisionModel | src-tauri/src/commands.rs:122-133 | the vision filter: one of the upper-cased patterns `VL`, `OCR`, `PADDLEOCR`, `OMNI`, `CAPTIONER`, or `vl2`, or `Kimi-K2.5`, or a last segment holding `GLM-` and ending in `V` |
| Catalogue.IsOcrOnlyModel | src-tauri/src/commands.rs:135-138 | OCR-only: the upper-cased id holds `PADDLEOCR`, `DEEPSEEK-OCR` or `CAPTIONER` |
| Catalogue.OcrOnlyIsVision | src-tauri/src/commands.rs:122-138 | every OCR-only model passes the vision filter |
| Catalogue.TrimEndMatches | src-tauri/src/commands.rs:144-145 | `trim_end_matches`: the result no longer ends with the pattern |
| Catalogue.TrimEndMatchesSplit | src-tauri/src/commands.rs:144-145 | what was removed is a run of whole copies of the pattern |
| Catalogue.NameOfSegmentUnique | src-tauri/src/commands.rs:140-151 | a path segment has exactly one display name under the characterisation used for `ModelIdToName` |
| Catalogue.ModelIdToName | src-tauri/src/commands.rs:140-151 | a `Pro/` id: the name of the last segment of the rest, with every trailing `-Instruct` removed, then ` (Pro)`; any other id: the name of its last segment |
| Catalogue.PlainNameShape | src-tauri/src/commands.rs:140-151 | a non-`Pro/` name holds no `/` and does not end in `-Instruct` |
| Catalogue.SfModes | src-tauri/src/commands.rs:268 | `ocr` always; `formula` exactly when the model is not OCR-only; no other mode; one mode for an OCR-only model, two otherwise |
| Catalogue.PricingLabel | src-tauri/src/commands.rs:257-263 | the unknown-price label exactly for an unlisted model, the free label exactly for a free one, else `入¥<input>/出¥<output>` |
| Catalogue.EntryOf | src-tauri/src/commands.rs:251-272 | the entry has the id, its derived name and modes, the price label, and is free exactly when the price is free |
| Catalogue.VisionCatalogue | src-tauri/src/commands.rs:249-273 | no more entries than ids, each of a vision model |
| Catalogue.CatalogueIsVisionIds | src-tauri/src/commands.rs:249-273 | the entry ids are exactly the vision ids filtered from the list, each entry built from its id |
| Catalogue.CatalogueInOrder | src-tauri/src/commands.rs:249-273 | the entries follow the order of the listed ids |
| Catalogue.CatalogueCounted | src-tauri/src/commands.rs:249-273 | each vision model id has as many entries as it occurs in the list; no other id has any |
| Catalogue.CatalogueHasEntry | src-tauri/src/commands.rs:249-273 | a listed vision model id has its entry in the catalogue |
| Catalogue.CatalogueEntriesFromIds | src-tauri/src/commands.rs:249-273 | every entry is the one built for one of the listed ids |
| Catalogue.CatalogueComplete | src-tauri/src/commands.rs:249-273 | every listed vision model has its entry |
| Routing.Qualify | src-tauri/src/commands.rs:609 | the provider, a `:`, then the id, each readable back at its place |
| Routing.SplitQualified | src-tauri/src/commands.rs:699-701 | `None` iff the id has no `:`; else a provider without `:` that, re-qualified with the rest, gives the id back |
| Routing.SplitQualifyRoundTrip | src-tauri/src/commands.rs:699-701 | `p:id` splits into exactly `(p, id)` when `p` has no `:`, even if `id` has one |
| Routing.Route | src-tauri/src/commands.rs:699-710 | a qualified id routes by its split; an unqualified one goes to `(simpletex, latex_ocr)` iff a token is stored and the mode is `formula`, else to `(siliconflow, "")` |
| Routing.RecMode | src-tauri/src/commands.rs:718-722 | sent only to `simpletex_ocr`; `formula` exactly in formula mode, else `document` |
| Routing.ImageUrl | src-tauri/src/commands.rs:754-758 | always starts with `data:`; a data URL is kept, anything else is wrapped as PNG base64 |
| Routing.ImageUrlIdempotent | src-tauri/src/commands.rs:754-758 | shaping twice is shaping once |
| Routing.PayloadOfWrappedImage | src-tauri/src/commands.rs:754-758 | the payload read back from a wrapped image is the bare base64 that was wrapped |
| Routing.GetPrompt | src-tauri/src/commands.rs:111-118 | the OCR prompt iff `ocr`, the document prompt iff `document`, the formula prompt for every other mode |
| Routing.PlanRecognition | src-tauri/src/commands.rs:711-760 | a SimpleTex call only with a token, with the matching `rec_mode`; a SiliconFlow call only with a key and a model, with a data URL and the mode's prompt |
| Routing.PlanForSimpleTexModel | src-tauri/src/commands.rs:712-722 | `simpletex:id` is a SimpleTex call with `id`, or the missing-token error |
| Routing.PlanForOtherProvider | src-tauri/src/commands.rs:741-760 | any other provider is a SiliconFlow call, or the missing-key or missing-model error |
| Routing.PlanForUnqualifiedId | src-tauri/src/commands.rs:703-749 | an unqualified id succeeds iff a token is stored and the mode is `formula`; otherwise a missing-key or no-model error |
| Usage.UsageToday | src-tauri/src/commands.rs:191-196 | zero on another day or for an uncounted model, else the stored count |
| Usage.Increment | src-tauri/src/commands.rs:198-209 | the date becomes today and the model's count today goes up by one; other models' counts today are unchanged; a stale counter restarts with just this call |
| Usage.StaleCounterReadsZero | src-tauri/src/commands.rs:194 | on a day other than the stored one, every model reads zero |
| Usage.RepeatedIncrement | src-tauri/src/commands.rs:198-209 | `n` calls on one day add exactly `n` |
| Usage.UsageLog.constructor | src-tauri/src/commands.rs:188 | a missing usage file loads as an empty counter |
| Usage.UsageLog.CountToday | src-tauri/src/commands.rs:191-196 | reads the log as `UsageToday` specifies |
| Usage.UsageLog.Record | src-tauri/src/commands.rs:198-209 | the log becomes `Increment` of what it was |
| Usage.UsageByModel | src-tauri/src/commands.rs:377-380 | one entry per SimpleTex model, holding its usage today |
| Settings.KeepVoucherEntries | src-tauri/src/commands.rs:445-447 | no more entries than lines, each trimmed, non-empty and holding a `/` |
| Settings.ParseVoucherList | src-tauri/src/commands.rs:443-447 | the same, for the lines of the text |
| Settings.VoucherEntriesInOrder | src-tauri/src/commands.rs:444-447 | the entries are a subsequence of the trimmed lines, so line order is kept |
| Settings.VoucherEntriesComplete | src-tauri/src/commands.rs:444-447 | every line that trims to a non-empty text with a `/` is kept |
| Settings.VoucherEntriesFromLines | src-tauri/src/commands.rs:444-447 | every entry is a trimmed line that holds a `/` |
| Settings.VoucherEntriesCounted | src-tauri/src/commands.rs:444-447 | each non-empty text with a `/` is kept exactly as many times as it occurs among the trimmed lines; nothing else is kept |
| Settings.CredentialWrite | src-tauri/src/commands.rs:419-439 | only a given non-empty credential is written: itself when valid, the empty string when rejected |
| Settings.CredentialToTest | src-tauri/src/commands.rs:493-500 | the typed-in credential when non-empty, else the stored one; with neither the test fails with its not-given message (the same rule at lines 561-566 for the key) |
| Settings.SaveSettings | src-tauri/src/commands.rs:408-456 | a given credential is stored if valid and cleared if not; the model and the parsed voucher list are stored when given; one error per rejected credential, in order; `ok` iff no error |
| Settings.EffectiveSimpleTexModel | src-tauri/src/commands.rs:373-374 | the stored model, or `latex_ocr` when none is stored |
| Recognition.Normalize | src-tauri/src/commands.rs:846-847 | the normal form has the same words as the text |
| Recognition.NormalizeIdempotent | src-tauri/src/commands.rs:846-847 | normalising twice is normalising once |
| Recognition.SameNormalFormIffSameWords | src-tauri/src/commands.rs:846-848 | two texts normalise alike exactly when they have the same word list |
| Recognition.VerificationDecision | src-tauri/src/commands.rs:846-856 | `verified` iff same words; `corrected` is its negation; a corrected answer is the check's text and keeps the first as `original_text`, otherwise the first text is kept |
| Recognition.RespacingIsNoCorrection | src-tauri/src/commands.rs:846-856 | a check with the same words is verified, not corrected, and the first text is kept |
| Recognition.RespacedCheckIsVerified | src-tauri/src/commands.rs:846-856 | a check that differs from the first answer only in one run of whitespace confirms it unchanged |
| Recognition.VerifyPrompt | src-tauri/src/commands.rs:818-821 | the fixed instruction followed by the first recognition |
| Recognition.SiliconFlowResponse | src-tauri/src/commands.rs:804-871 | an empty answer is unverified and empty; a formula answer with a non-empty check goes through the decision; otherwise the trimmed answer, unverified in formula mode and unmarked elsewhere |
| Recognition.ResponseTextTrimmed | src-tauri/src/commands.rs:804-855 | the returned text never starts or ends with whitespace |
| Recognition.VerificationOnlyForFormulas | src-tauri/src/commands.rs:817-871 | only formula answers are corrected; `verified` is absent iff a non-empty answer outside formula mode; `verified: true` means the check had the same words |
| Recognition.CorrectionKeepsOriginal | src-tauri/src/commands.rs:849-856 | `original_text` is present iff corrected, and is then the first answer, whose words differ from the returned text |
| Recognition.SaysImageTooSmall | src-tauri/src/commands.rs:793 | the lower-cased message holds `height`, `width` and `must be larger` |
| Recognition.ImageTooSmallIgnoresCase | src-tauri/src/commands.rs:793 | the small-image test gives the same answer for the message upper-cased or lower-cased |
| Recognition.SfErrorMessage | src-tauri/src/commands.rs:787-799 | the service's message, replaced by the small-image message when it names height, width and "must be larger"; the HTTP status when there is no message |
| Recognition.StatusOfSilentFailure | src-tauri/src/commands.rs:787 | without a message the status can be read back from the error |
| Recognition.SimpleTexModelLabel | src-tauri/src/commands.rs:726-734 | `SimpleTex (<name>)` with the table name of the model, or with the id when it is not in the table |
| Recognition.Recognize | src-tauri/src/commands.rs:693-871 | a planning error is returned as is; a SimpleTex answer succeeds through its `status` and error-type chain, and only a success is counted, once, in the usage log and labelled with the model name; a failed SiliconFlow answer gives the SiliconFlow error message; every SiliconFlow outcome leaves the log unchanged |
| Listing.FetchBalance | src-tauri/src/commands.rs:213-226 | a balance only with a key and a reply; the charge defaults to "0"; the total is `totalBalance`, else `balance`, else "0" |
| Listing.SfVisionModels | src-tauri/src/commands.rs:228-274 | empty without a key or without a model list; else exactly the catalogue of the listed ids |
| Listing.SfVisionModelsComplete | src-tauri/src/commands.rs:249-273 | with a key and a model list, every listed vision model is offered |
| Listing.SfVisionModelsFromCatalogue | src-tauri/src/commands.rs:249-273 | every model offered is a vision model, built as the catalogue entry of a listed id |
| Listing.SimpleTexModes | src-tauri/src/commands.rs:603-607 | a model offers its own mode; the `document` model offers all three modes |
| Listing.QuotaLabel | src-tauri/src/commands.rs:616 | `每日免费 `, the decimal digits of the quota, then ` 次` |
| Listing.QuotaLabelRoundTrip | src-tauri/src/commands.rs:616 | the free quota can be read back from the `每日免费 N 次` label |
| Listing.SimpleTexEntry | src-tauri/src/commands.rs:603-621 | the entry of a table row: its name, the SimpleTex provider, exactly the modes `SimpleTexModes` gives for its own mode, the validity flag, its quota, today's usage and the quota label; no SiliconFlow field |
| Listing.SiliconFlowEntry | src-tauri/src/commands.rs:630-643 | the entry of a catalogue model: its name, modes, price label and free flag, the SiliconFlow provider, the validity flag, whether it is a voucher model, and the balance (both parts or neither); no SimpleTex field |
| Listing.SimpleTexEntryRoutes | src-tauri/src/commands.rs:609 | a listed SimpleTex entry routes to SimpleTex with its own model id and plans that call |
| Listing.SiliconFlowEntryRoutes | src-tauri/src/commands.rs:631 | a listed SiliconFlow entry routes to SiliconFlow with its own model id and plans that call |
| Listing.SimpleTexList | src-tauri/src/commands.rs:602-622 | one entry per table row, in table order, with today's usage |
| Listing.SiliconFlowList | src-tauri/src/commands.rs:628-644 | one entry per catalogue model, in catalogue order |
| Listing.ListedIdsRoute | src-tauri/src/commands.rs:609-631 | every listed id routes back to its provider and to the model it was built from |
| Listing.ListSimpleTex | src-tauri/src/commands.rs:602-622 | the push loop builds exactly `SimpleTexList` from the usage log |
| Listing.ListSiliconFlow | src-tauri/src/commands.rs:628-644 | the push loop builds exactly `SiliconFlowList` |
| Listing.GetAvailableModels | src-tauri/src/commands.rs:592-662 | the SimpleTex list followed by the SiliconFlow list of the fetched models, and the balance as total and charge |
| Listing.GetSettings | src-tauri/src/commands.rs:370-405 | key and token flags, effective model, model table, usage per model, balance, voucher list |
| Listing.GetSfBalance | src-tauri/src/commands.rs:665-685 | charge and total together, only with a key and a reply |

## Left out

- Network requests: the SimpleTex upload, both SiliconFlow chat requests, `user/info`, the model list and the pricing page. Their outcomes are parameters.
  - `validate_simpletex_token` and `validate_siliconflow_key` become the booleans of `Settings.SaveSettings`.
  - `test_simpletex` and `test_siliconflow`: only the choice of the credential to test, and the error when there is none, is modelled (`Settings.CredentialToTest`). The test request itself and the report built from its reply are network I/O.
- Store and file I/O: `get_store_string`, `get_store_vec`, `store.set`, the usage file path, and reading and writing the usage file. The store's values are parameters; `Usage.UsageLog` is the usage file held in memory.
- The clock: `Local::now()` is the `today` parameter.
- Floating point:
  - The numeric prices and the `max(0.0)` clamps become the `Catalogue.Price` datatype: the comparisons with `0.0` decide the constructor, and a paid price carries its two prices already printed.
- Listing.GetAvailableModels: does not compute the voucher balance `total - charge`, a float difference printed with four decimals.
- Listing.GetSfBalance: does not compute the voucher balance either, for the same reason.
- Listing.SfVisionModels: does not sort the catalogue. The source sorts free models first, then by input price, with a float comparison. The model keeps the order of the model list.
- The HTML scraping of the pricing page, base64 decoding, multipart forms and `serde_json` traversal are library behaviour.
  - The JSON lookups that decide an outcome become `Option` parameters: the three error-type fields, the two message fields and the `user/info` fields.
  - Extracting the recognised text from a SimpleTex reply (`info`, `markdown`, `latex`) is JSON traversal. The text is a parameter.
  - The errors raised before a reply's fields are read (base64 decoding, a failed request, an HTTP error status, a body that is not JSON) are the `Err` messages of the reply parameters of `Recognition.Recognize`.
- Unicode: `to_uppercase`, `to_lowercase`, `trim`, `lines` and `split_whitespace` are modelled over ASCII.
- Integer width: counts are unbounded. The `u32` overflow of `*count += 1` and the `as u32` truncation of stored counts are not modelled.
- Concurrency: two `recognize` calls running at once can lose an increment. `increment_model_usage` reads, updates and rewrites `usage.json` with no lock. `Usage.UsageLog.Record` is one atomic step.
- `open_external_url` is an OS call.
- `src-tauri/src/lib.rs`, the Tauri setup and store defaults, is framework plumbing and not part of this model.
- The frontend is not part of this model. This includes the math-notation transpiler and the markdown-math renderer.
