# YouTube live-chat amount annotator, modelled in Dafny

The content script of this browser extension watches the live-chat frame of a YouTube
stream. When a paid message (Super Chat) or a paid sticker (Super Sticker) appears, it
reads the amount the viewer paid, such as `CA$ 5.50`. It converts the amount into
renminbi with a table of exchange rates. Then it appends the result to the amount's text,
once: `CA$ 5.50` becomes `CA$ 5.50（约¥` followed by the converted figure and `）`. A
second file, `exchangeRate.js`, holds the rate table. Storage events replace that table
wholesale.

The model covers:

- `handleRate`: the amount grammar
  `^([A-Za-z]+)\s*[^\w\s]?\s*([\d,]+(?:\.\d{1,2})?)$`, the clean-up of the numeral and the
  three answers: `''`, the failure text `转换汇率失败`, or `¥` and the converted figure
  (`amount.dfy`);
- the lookup `exchangeRate` and the rate cache with its two storage callbacks
  (`exchange_rate.dfy`). Amounts are exact hundredths, rates exact reals, and
  `toFixed(2)` is rounding to the nearest hundredth, the larger on a tie (`decimal.dfy`);
- the three extract functions: the path each follows to the amount element, and the
  append-once rule on that element's text (`annotation.dfy`);
- the tag dispatch of the three mutation-observer callbacks, and the passes over messages
  already present (`dispatch.dfy`);
- the decision chain of `observeSuperChats`: what it registers with the browser (a retry
  timer, a `load` listener, the observers) and what it writes (`locator.dfy`). The
  enabled flag and the two listeners that set it are modelled too.

The DOM is a class `Node` (`dom.dfy`). Its structure is fixed, and `textContent` is the only
field the script writes. `querySelector` and `querySelectorAll` are the first match and all
matches among a node's descendants, in document order. `textContent` is modelled as the
node's own text. The script only reads and writes it on the leaf elements that show an amount.
Setting it replaces an element's children by a text node. The observers ignore text nodes,
since they only look at element nodes.

Points of the JavaScript semantics that the model makes explicit:

- `[^\w\s]` consumes one UTF-16 code unit. A character outside the Basic Multilingual Plane
  is two code units, so it is never the symbol (`Amount.IsSymbol`).
- The regular expression takes the letters and the first spaces greedily. It then tries the
  symbol before going without it. So `US.50` reads the point as the symbol: fifty units,
  not half a unit (`Amount.ParseAmountPointAsSymbol`).
- A numeral may consist of commas only. Deleting them leaves `''`, which `parseFloat` reads
  as NaN, so `handleRate` answers `''`. A numeral may also begin with a comma: `US$,.50` is
  half a dollar.
- `ratesCache` can become `undefined` when a storage change removes the stored rates.
  The lookup then throws a TypeError, which the extract function's `try` catches: it returns
  `null` and writes nothing (`Wrappers.Completion`, `Annotation.AnnotateText`).
- The currency code is made of upper-case ASCII letters only, so it never names a
  property every object inherits (those contain lower-case letters or underscores). The
  lookup therefore finds a rate only when the table has the code.
- A negative rate is not falsy. It yields a figure with a minus sign
  (`ExchangeRate.ConvertedFigure`).

## Model

| member | source | states |
|---|---|---|
| Text.Trim | content.js:305 | `trim` leaves neither leading nor trailing whitespace |
| Text.TrimStartCuts | content.js:305 | the leading cut is a run of whitespace, and what remains starts with non-whitespace |
| Text.TrimEndCuts | content.js:305 | the trailing cut is a run of whitespace, and what remains ends with non-whitespace |
| Text.TrimCutsSpaces | content.js:305 | the trimmed text is a slice of the original with only whitespace on either side |
| Text.TrimOfUnpadded | content.js:305 | a text that neither starts nor ends with whitespace is its own trim |
| Text.TrimIdempotent | content.js:305 | trimming twice is trimming once |
| Text.ContainsJoin | content.js:208 | a text built around the marker contains the marker |
| Text.ToUpper | content.js:312 | `toUpperCase` keeps the length, upper-cases `a`–`z` and keeps every other character |
| Text.RemoveCommas | content.js:318 | `replace(/,/g, '')` leaves no comma and keeps every other character (set of characters both ways) |
| Text.RemoveCommasAppend | content.js:318 | deleting commas distributes over concatenation |
| Text.RemoveCommasWithoutCommas | content.js:318 | a text without commas is unchanged |
| Text.RemoveCommasOfDigits | content.js:318 | a run of digits and commas becomes digits only |
| Decimal.NatToDecimal | exchangeRate.js:27 | the integer part `toFixed` writes is digits only, with no leading zero |
| Decimal.NatToDecimalValue | exchangeRate.js:27 | the digits written for `n` read back as `n` |
| Decimal.RoundHundredths | exchangeRate.js:27 | the hundredths `toFixed(2)` picks are within half a hundredth of `100·x`, the larger on a tie |
| Decimal.ParseHundredths | content.js:321 | `parseFloat` on a cleaned numeral is NaN exactly for the empty string |
| Decimal.FixedPoint | exchangeRate.js:27 | the figure has exactly two fractional digits and reads back as the same hundredths |
| Decimal.ToFixed2ReadsBack | exchangeRate.js:27 | `toFixed(2)` writes a minus sign exactly for a negative value, then a figure that reads back within half a hundredth of the value |
| ExchangeRate.Convert | exchangeRate.js:20-29 | the lookup throws exactly when the cache is undefined, gives `null` exactly when the code is missing or its rate is 0, and otherwise gives the figure; it only reads the cache |
| ExchangeRate.ConvertedFigure | exchangeRate.js:27 | a figure for a positive rate reads back as the hundredths nearest to amount / rate; a negative rate gives a negative figure |
| ExchangeRate.ConvertExamples | exchangeRate.js:20-29 | 70 at 7 gives `10.00`, 10 at 7 gives `1.43`, an unknown code or a zero rate gives `null` |
| ExchangeRate.RateCache.constructor | exchangeRate.js:1 | the cache starts as the default rates |
| ExchangeRate.RateCache.OnStorageLoaded | exchangeRate.js:4-9 | stored rates replace the cache only when there are some |
| ExchangeRate.RateCache.OnStorageChanged | exchangeRate.js:12-17 | only a change to `rates` in the `local` area replaces the cache, whole, with the new value (possibly undefined) |
| Amount.MatchAmountShape | content.js:302 | group 1 is a non-empty run of letters and group 2 a numeral |
| Amount.ScannerSeams | content.js:302 | the scanner's result is a match of the whole expression with explicit seams, and the groups are its slices |
| Amount.MatchAmountSound | content.js:302 | whatever the scanner captures is a match of the expression, with the same groups |
| Amount.MatchWithSymbol | content.js:302 | a match that uses the symbol slot is exactly the one the scanner reports |
| Amount.MatchWithoutSymbol | content.js:302 | a match without the symbol is the one the scanner reports, up to a leading comma taken as the symbol |
| Amount.MatchAmountComplete | content.js:302 | every match leads the scanner to the same letters and the same numeral, up to that comma |
| Amount.MatchAmountDecides | content.js:302-305 | the scanner succeeds exactly on the texts the expression matches |
| Amount.CleanNumeral | content.js:318 | the numeral without its commas is a plain decimal: the integer digits, then the fraction as written |
| Amount.NumeralNaN | content.js:318-323 | the numeral reads as NaN exactly when it is made of commas only |
| Amount.LeadingCommaIgnored | content.js:318 | a comma in front of a numeral does not change its value |
| Amount.ParseAmountShape | content.js:312-326 | an accepted amount is positive and its code is a non-empty run of upper-case letters |
| Amount.ParseAmountOfMatch | content.js:305-326 | any match fixes the outcome: code = group 1 upper-cased; NaN or 0 is rejected, otherwise the value of the numeral without commas |
| Amount.PartsMatch | content.js:302 | letters, spaces, at most one symbol, spaces and a numeral, concatenated, form a match |
| Amount.ParseAmountOfParts | content.js:302-326 | the grammar read as a concatenation of its five parts gives the upper-cased letters and the numeral's value, or rejects a zero or NaN value |
| Amount.ParseAmountOfTight | content.js:302-326 | the same for an amount written without spaces |
| Amount.NumeralFive | content.js:318-321 | `5` is 500 hundredths |
| Amount.NumeralFifty | content.js:318-321 | `50` is 5000 hundredths |
| Amount.NumeralWithCents | content.js:318-321 | `5.50` is 550 hundredths |
| Amount.NumeralOfCommas | content.js:318-321 | `,,` is a numeral that reads as NaN |
| Amount.NumeralCommaPoint | content.js:318-321 | `,.50` is a numeral worth 50 hundredths |
| Amount.ParseAmountLowerCase | content.js:312 | `us$5` is 5 units of `US` |
| Amount.ParseAmountWithCents | content.js:302-321 | `CA$ 5.50` is 5.50 units of `CA` |
| Amount.ParseAmountWithoutLetters | content.js:302 | `€20` does not match |
| Amount.ParseAmountOnlyCommas | content.js:318-326 | `US$,,` is rejected as not positive |
| Amount.ParseAmountPointAsSymbol | content.js:302 | `US.50` is fifty units of `US`: the point is taken as the symbol |
| Amount.ParseAmountCommaPoint | content.js:318-321 | `US$,.50` is half a unit of `US` |
| Amount.ParseArgumentOfTrimmed | content.js:297-305 | trimming the text before the call changes nothing, blank texts included, so the trim an extract function applies first (content.js:205) is absorbed by `handleRate`'s |
| Amount.HandleRateOutcomes | content.js:296-334 | `''` exactly when the argument does not parse to a positive amount; a throw exactly when it does and the cache is undefined; the failure text exactly when the lookup gives `null`; otherwise `¥` followed by the lookup's figure |
| Amount.HandleRateRejects | content.js:297-309 | `''` for a non-string, for the empty string and for every text whose trim the expression does not match |
| Dom.FirstMatchIsFirst | content.js:187-199 | `querySelector` gives the first descendant in document order that matches, and `null` exactly when none does |
| Dom.AllMatchesFilters | content.js:274-288 | `querySelectorAll` keeps exactly the matching descendants |
| Annotation.AnnotatedCarriesMarker | content.js:212 | an annotated text carries the marker `（约` |
| Annotation.AnnotateIdempotent | content.js:208-214 | annotating twice leaves the same text as annotating once |
| Annotation.TrimOfAnnotation | content.js:205-212 | an annotation is its own trim, so a second pass returns it whole |
| Annotation.AnnotateChangesText | content.js:208-214 | the text changes exactly when it has no marker and `handleRate` answers something non-empty; it then becomes trimmed text + `（约` + answer + `）` |
| Annotation.AnnotateReturnsTrimmed | content.js:205-216 | an extract returns the trimmed original text, and when it returns `null` it wrote nothing |
| Annotation.AnnotateReturnsNull | content.js:186-220 | it returns `null` exactly when the conversion threw: no marker, a positive amount, an undefined cache |
| Annotation.UnknownCurrencyAnnotated | content.js:209-212 | an amount in a currency the table lacks is annotated with the failure text |
| Annotation.AnnotateElement | content.js:205-216 | the amount element's new text and the return value are those of the append-once rule on its old text |
| Annotation.ExtractSuperChatAmount | content.js:185-221 | `null` and no write when `#card`, `#purchase-amount` or `yt-formatted-string` is missing; otherwise the append-once rule on that element |
| Annotation.ExtractSuperStickerAmount | content.js:224-248 | `null` and no write without `#purchase-amount-chip`; otherwise the append-once rule on it |
| Annotation.ExtractMembershipInfo | content.js:251-264 | the trimmed `#header-subtext` text, or `null`; it writes nothing |
| Dispatch.Classify | content.js:84-172 | each callback's tag test: only element nodes, exact upper-case tag names; the list observer takes three kinds, the dialog-content observer two, the dialog observer only dialogs |
| Dispatch.DialogContentNarrowsItemList | content.js:167-172 | the dialog-content observer is the list observer without the membership case |
| Dispatch.WritesAreWritten | content.js:82-102 | an element written by a run of extract calls is the amount element of one of them |
| Dispatch.WrittenInWrites | content.js:82-102 | the amount element of each call is in the run's frame |
| Dispatch.ClassifiedJobs | content.js:83-100 | a callback makes one extract call per added node, in order, of the kind its tag calls for |
| Dispatch.UniformJobs | content.js:276-292 | a `forEach` pass makes one call per selected node, in order |
| Dispatch.Extract | content.js:84-99 | one extract call writes at most its amount element, and leaves it as the append-once rule says |
| Dispatch.ExtractEach | content.js:83-101 | after a run of extract calls every element written is annotated exactly once, however many calls reach it, and is left as its own fixed point |
| Dispatch.OnlyPaidTagsWritten | content.js:84-99 | only element nodes with one of the two paid tags lead to a write |
| Dispatch.DialogContentWritesAsItemList | content.js:164-176 | the dialog-content callback writes exactly the elements the list callback would write for the same nodes |
| Dispatch.MembershipWritesNothing | content.js:288-292 | the membership pass writes nothing |
| Dispatch.OnAddedNodes | content.js:81-103 | the list or dialog-content callback over all mutation records annotates every element it writes exactly once |
| Dispatch.ExtractPaid | content.js:274-285 | the paid-message pass then the sticker pass annotate every element they reach once |
| Dispatch.ProcessExistingSuperChats | content.js:267-293 | nothing without a container; otherwise the messages already present are annotated once |
| Dispatch.ProcessDialogSuperChats | content.js:149-160 | the paid messages and stickers in a dialog are annotated once |
| Locator.LocateWhenDisabled | content.js:28-31 | it retries after 1000 ms exactly when the conversion is switched off |
| Locator.LocateWaitsForLoad | content.js:45-49 | it waits for `load` exactly when the frame exists but has no document, and on that frame |
| Locator.LocateRetriesWhenMissing | content.js:34-76 | it retries after 5000 ms exactly when the frame, the app, the list renderer or `#items` is missing |
| Locator.LocateAttaches | content.js:34-76 | it attaches exactly when everything is found, to the frame's document and its `#items` |
| Locator.LocateDelays | content.js:26-116 | the only delays ever scheduled are 1000 and 5000 ms |
| Locator.DialogWatchesEach | content.js:141-145 | one content observer per dialog, on its subtree, in list order |
| Locator.DialogsAdded | content.js:123-129 | the dialog callback reacts only to `TP-YT-PAPER-DIALOG` elements among the added nodes |
| Locator.DialogsAddedComplete | content.js:123-129 | no added `TP-YT-PAPER-DIALOG` element is dropped |
| Locator.DialogsAddedAppend | content.js:123-129 | the dialogs of two runs of added nodes are those of the first, then those of the second, so their order is kept |
| Locator.DialogsAddedSingle | content.js:124 | one added node is handled exactly when it is a `TP-YT-PAPER-DIALOG` element |
| Locator.Controller.constructor | content.js:2 | the conversion starts switched on, with nothing registered |
| Locator.Controller.OnMessage | content.js:5-10 | only a `toggleConversion` request sets the flag; nothing else changes |
| Locator.Controller.OnStoredFlag | content.js:13-16 | the flag is on unless the stored value is `false` |
| Locator.Controller.WatchDialog | content.js:143-144 | one dialog's messages are annotated once, then its content observer is attached |
| Locator.Controller.WatchDialogs | content.js:141-145 | each dialog in turn: its messages are annotated once, and one content observer per dialog is attached, in order |
| Locator.Controller.ObserveDialogs | content.js:119-146 | without a body the call throws and changes nothing; otherwise the body observer, then the existing dialogs |
| Locator.Controller.AttachObservers | content.js:106-115 | the `#items` observer (no subtree), the messages already present, then the dialogs; a throw is reported |
| Locator.Controller.ObserveSuperChats | content.js:26-116 | the decision is carried out: one timer, one `load` listener, or the observers, and nothing else; every element written is annotated once |
| Locator.Controller.OnDialogMutations | content.js:121-132 | every dialog added, record by record, is handled like an open one |

## Left out

- The calls into the browser: `chrome.storage`, `chrome.runtime.onMessage`, `setTimeout`,
  `addEventListener` and `MutationObserver`. What they hand the script (stored values,
  messages, mutation records) are parameters. What the script registers with them is
  recorded in `Locator.Controller`: the delays of the timers, the frames with a `load`
  listener, and the observers with their options. The asynchronous delivery of timers,
  events and mutation records is not modelled: each callback is a method run when called.
- The start of the script on `DOMContentLoaded` or at once (content.js:18-23): it is one
  call of `ObserveSuperChats`.
- `console` logging, the popup (`popup.js`) and the background page (`background.js`,
  which fetches and stores the rates).
- The contents of `DEFAULT_RATES` (`defaultRate.js`): `defaultRate.js` is not part of this
  model, and the defaults are a parameter of `ExchangeRate.RateCache.constructor`.
- Floating point. `parseFloat`, the division and `toFixed(2)` are modelled over exact
  rationals. A double can round a tie such as 1.005 the other way. A rate that is NaN,
  or any other falsy value besides 0, cannot be expressed.
- Decimal.ToFixed2ReadsBack: does not cover the exponential notation `toFixed` switches to
  from 10^21 on, because such amounts are outside what the chat shows.
- Amount.IsSymbol: a lone surrogate code unit cannot be written as a Dafny character, so
  such a unit taken as the symbol is not modelled.
- Locator.Controller.OnMessage: `request.enabled` is taken to be a boolean. Any other value
  would be stored as it is and tested for truthiness.
- Locator.Controller.OnStoredFlag: a stored value that is not a boolean is modelled as
  absent. Both count as on, as `!== false` has it.
- The `contentWindow.document` fallback (content.js:52): it is never reached, since the
  document was checked just before.
- The page changing the chat's structure while the script runs: nodes and their
  descendants are fixed, and only `textContent` changes.
- The shape of the document tree: each node's list of descendants is given on its own, and
  nothing ties it to the lists of those descendants, so the model does not promise, for
  instance, that the element an extract function writes lies inside the message.
- The value `extractMembershipInfo` returns is modelled but used by no caller, as in the
  source.
