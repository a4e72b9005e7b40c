# Halal checker: verified model of the verdict engine and the scan controller

This project models the deterministic core of a halal ingredient checker:

- **The classification service** (`POST /check-ingredients`). It picks the input, image before text.
  It picks the OCR readers for the requested region and lower-cases the scanned text. It scans the
  haram table and then the mushbooh table for case-insensitive substring hits. It then returns one
  verdict: Haram (red `#FF4D4D`), else Mushbooh (orange `#FFA500`), else Halal (`#4CAF50`).
- **The scan screen's controller.** It has three entry intents: camera capture, gallery pick and
  manual text. It builds the request body, keeps a history of past scans in device storage (newest
  first, at most 20 items), and sets the flags that drive the result modal.
- **The result modal's mapping.** This covers the icon for a status, the upper-cased title, and the
  "No ingredients found." fallback for an empty reason.

Files:

- `wrappers.dfy`: the `Option` type.
- `text.dfy`: string operations. These are case mapping, Python's substring test and `join`, and
  JavaScript's `trim`.
- `backend.dfy`: module `Backend`, which is `check_ingredients` and `load_dataset`.
- `result_modal.dfy`: module `ResultModal`.
- `scanner.dfy`: module `Scanner`, with the class `ScanController`.

The matching loops are methods with loop invariants: `ScanTable` for the outer loop and
`FirstMatchingName` for the inner loop with its `break`. The reader accumulation (`RunReaders`) is
a method too, written as the source writes it: five conditional appends, with no loop. Each of
them is proved equal to a specification function (`Found`, `FirstHit`, `ReadAll`). The verdict properties are lemmas about `Classify`, and the top-level method
`CheckIngredients` is proved to compute `Expected`.

The controller is a class. `isProcessing`, `modalVisible`, `scanResult`, `selectedRegion`,
`manualText` and the stored history are its fields. A ghost field `requests` records every body
posted to the service, so "no backend call" can be stated. The handlers take as parameters what the
platform returned:

- whether a camera is attached,
- the capture or pick outcome,
- the fetch outcome,
- whether the storage read and write succeed,
- the id and date stamps.

Behaviour of the code worth noting:

- A stored history that does not parse is not treated as an empty history. `JSON.parse` throws
  inside `saveToHistory`, the error is swallowed, nothing is written, and the new item is lost
  (`Scanner.SaveOutcome`, `Scanner.SaveFailureAbsorbed`).
- The HTTP status of the reply is never checked. A non-2xx reply whose body is JSON is saved and
  shown like a success (`Scanner.Decoded`).
- Only the camera handler checks `isProcessing`. The gallery handler relies on its button's
  `disabled` property, and the manual search handler has no guard at all.

## Model

| member | source | states |
|---|---|---|
| Backend.LoadDataset | halal-checker-backend/app.py:40-45 | A missing ingredients file yields two empty tables; otherwise the parsed file is used |
| Backend.RegionOf | halal-checker-backend/app.py:55 | The region defaults to "ALL" when the request carries none |
| Backend.SelectInput | halal-checker-backend/app.py:53-114 | A non-empty image wins over any text; otherwise a non-empty text; with neither there is no input (absent fields read as "") |
| Backend.ReaderSelection | halal-checker-backend/app.py:83-100 | The Latin reader always runs, first; each language reader runs iff the region is its code or "ALL"; no reader runs twice |
| Backend.RegionExtremes | halal-checker-backend/app.py:86-100 | "ALL" runs all five readers in source order; a region that is no language code runs only the Latin reader |
| Backend.ReadersFor | halal-checker-backend/app.py:83-100 | At least one and at most five readers run, and the first is always the Latin reader |
| Backend.RunReaders | halal-checker-backend/app.py:78-100 | The accumulated texts are the selected readers' outputs concatenated in reader order, so every string any selected reader returns is kept |
| Backend.ImageText | halal-checker-backend/app.py:104 | Every combined string, lower-cased, occurs in the scanned text |
| Backend.ListingMembers | halal-checker-backend/app.py:103 | A list of the distinct read strings in any order holds exactly the strings that were read |
| Backend.FirstHit | halal-checker-backend/app.py:126-130 | The name found hits the text and is one of the item's names; nothing is found iff no name hits |
| Backend.FirstHitIsFirst | halal-checker-backend/app.py:126-130 | The reported name is the earliest hitting one: every name before it misses (the loop breaks at the first hit) |
| Backend.FirstMatchingName | halal-checker-backend/app.py:126-130 | The inner loop with its break returns exactly the first hitting name |
| Backend.EntryText | halal-checker-backend/app.py:128 | A found entry is non-empty and starts with the bullet character |
| Backend.ScanTable | halal-checker-backend/app.py:119-140 | The outer loop fails iff some item has no names (the `names[0]` lookup raises); otherwise it returns the table's deduplicated found list |
| Backend.HitsLength | halal-checker-backend/app.py:123-130 | Each dataset item contributes at most one entry |
| Backend.HitsMembership | halal-checker-backend/app.py:123-130 | An entry is in the hit list iff some item of the table produced it |
| Backend.MatchHits | halal-checker-backend/app.py:126-127 | An item produces an entry iff one of its names occurs in the text |
| Backend.HitsNonEmpty | halal-checker-backend/app.py:123-130 | The hit list is non-empty iff some item matches |
| Backend.AddNew | halal-checker-backend/app.py:129 | The "not already present" append keeps the list as a prefix, adds at most one entry, and afterwards holds exactly the old entries and the new one |
| Backend.Dedup | halal-checker-backend/app.py:129 | Deduplication never lengthens a list and introduces no entry that was not in it |
| Backend.DedupFacts | halal-checker-backend/app.py:129 | The "not already present" check leaves no duplicates, keeps exactly the same entries and never grows the list |
| Backend.DedupOfDistinct | halal-checker-backend/app.py:129 | Distinct entries are kept as they are, in dataset order |
| Backend.FoundEntries | halal-checker-backend/app.py:123-140 | A found list has no duplicates and at most one entry per item, holds exactly the entries of matching items, and is the hits in dataset order when those are distinct |
| Backend.Decide | halal-checker-backend/app.py:143-160 | The status is Haram iff the haram list is non-empty, Mushbooh iff only the mushbooh list is, and the fixed Halal response iff both are empty; it is never Error |
| Backend.Classify | halal-checker-backend/app.py:119-164 | The catch-all error is returned iff some table item has no names; every status is Haram, Mushbooh, Halal or Error |
| Backend.HaramVerdict | halal-checker-backend/app.py:143-148 | The status is "Haram" iff some haram item matches, whatever mushbooh items match; then the colour is #FF4D4D and the reason is the haram entries joined by a blank line |
| Backend.MushboohVerdict | halal-checker-backend/app.py:149-154 | The status is "Mushbooh" iff no haram item matches and some mushbooh item does; then the colour is #FFA500 and the reason is the mushbooh entries joined by a blank line |
| Backend.HalalVerdict | halal-checker-backend/app.py:156-160 | The status is "Halal" iff nothing matches, and the response is then exactly Halal, "Safe to consume. No haram ingredients found.", #4CAF50 |
| Backend.UnnamedIngredientFails | halal-checker-backend/app.py:162-164 | A table item with an empty names list makes every scan return the catch-all "Failed to process request." error |
| Backend.ReasonNonEmpty | halal-checker-backend/app.py:143-160 | Every verdict's reason is non-empty |
| Backend.MissingDatasetIsHalal | halal-checker-backend/app.py:44-45 | With the ingredients file missing, every scanned text is judged Halal |
| Backend.CaseInsensitiveHit | halal-checker-backend/app.py:127 | A dataset name occurring anywhere in the text, in any capitalisation, hits once the text is lower-cased |
| Backend.TypedHaramNameIsHaram | halal-checker-backend/app.py:109 | A manual text containing a haram name in any capitalisation is judged Haram |
| Backend.ReadHaramNameIsHaram | halal-checker-backend/app.py:103-104 | If any selected reader reads a string containing a haram name, the image is judged Haram, whatever order the deduplicated strings are joined in |
| Backend.ImageHaramNameIsHaram | halal-checker-backend/app.py:78-148 | With an image that decodes, a string read by any selected reader that contains a haram name, in any case, makes the whole response Haram |
| Backend.UnreadImageScansNothing | halal-checker-backend/app.py:103-104 | An image from which no reader reads anything is classified as the empty text |
| Backend.Expected | halal-checker-backend/app.py:50-164 | Every response has a non-empty reason and one of the statuses Haram, Mushbooh, Halal or Error |
| Backend.CheckIngredients | halal-checker-backend/app.py:50-164 | No image and no text: "No image or text sent", grey. An image that fails to decode: the catch-all error. An image otherwise: the verdict for some list of the distinct read strings, in any order, joined by spaces and lower-cased. A text: its lower-cased form is classified |
| Backend.ImagePrecedence | halal-checker-backend/app.py:61-108 | With a non-empty image, the text field has no influence on the response |
| Text.Trim | halal-checker-app/components/Scanner.tsx:87 | The trimmed text is a piece of the original that neither starts nor ends with whitespace |
| Text.TrimEmptyIffBlank | halal-checker-app/components/Scanner.tsx:87 | `!text.trim()` holds exactly when every character is whitespace |
| ResultModal.Icon | halal-checker-app/components/ResultModal.tsx:16-21 | Halal, Haram and Mushbooh map to checkmark-circle, alert-circle and help-circle, each iff; every other status maps to search |
| ResultModal.DisplayReason | halal-checker-app/components/ResultModal.tsx:48 | The shown reason is never empty: a non-empty reason is shown unchanged, an empty one as "No ingredients found." |
| ResultModal.Title | halal-checker-app/components/ResultModal.tsx:42 | The title is as long as the status and has no lower-case letter |
| ResultModal.TitleIsStatusUpperCased | halal-checker-app/components/ResultModal.tsx:42 | The title has the status's length, equals it up to case, has no lower-case letter, and upper-casing it again changes nothing |
| Scanner.BuildBody | halal-checker-app/components/Scanner.tsx:98-100 | The payload is carried unchanged; an image body carries the region, a text body carries nothing else |
| Scanner.ImageBodyReceived | halal-checker-app/components/Scanner.tsx:98-99 | An image body is exactly {image, region}; the service reads back that region, and the image as input unless it is empty |
| Scanner.TextBodyReceived | halal-checker-app/components/Scanner.tsx:98-100 | A text body is exactly {text} whatever region is passed; the service sees no region (so "ALL") and the text as input unless it is empty |
| Scanner.ManualSearchIsScannedAsText | halal-checker-app/components/Scanner.tsx:87-89 | A manual search that passes the blank guard is always scanned as text by the service |
| Scanner.InitialRegionRunsLatinOnly | halal-checker-app/components/Scanner.tsx:25 | The initial region GENERAL runs only the Latin reader on the service |
| Scanner.Decoded | halal-checker-app/components/Scanner.tsx:102-108 | A thrown fetch yields no data; otherwise the data is whatever `response.json()` parsed, whatever the HTTP status |
| Scanner.SourceLabel | halal-checker-app/components/Scanner.tsx:116 | The label is "Camera Scan" iff the payload is an image and "Manual Search" iff it is a text |
| Scanner.NewHistoryItem | halal-checker-app/components/Scanner.tsx:110-117 | The item holds the reply's status, reason and colour unchanged, the stamp's id and date, and "Camera Scan" iff the payload was an image |
| Scanner.Prepend | halal-checker-app/components/Scanner.tsx:134 | The new list has min(old length + 1, 20) items, starts with the new item and continues with the old list's prefix in order |
| Scanner.ParseHistory | halal-checker-app/components/Scanner.tsx:132-133 | Missing stored history reads as the empty list; reading fails exactly on an unparsable value |
| Scanner.SaveOutcome | halal-checker-app/components/Scanner.tsx:130-139 | Storage ends either unchanged or holding the prepended and truncated list |
| Scanner.SavedHistoryBounded | halal-checker-app/components/Scanner.tsx:134-135 | After a successful save the stored list has 1 to 20 items, the new item first, then the older items in their order |
| Scanner.SaveFailureAbsorbed | halal-checker-app/components/Scanner.tsx:136-138 | A failed read, an unparsable value or a failed write leaves storage unchanged and raises nothing |
| Scanner.SaveAllKeepsNewest | halal-checker-app/components/Scanner.tsx:134 | After successive saves the history is exactly the 20 most recent items, newest first, followed by what is left of the old list |
| Scanner.TwentyOneSaves | halal-checker-app/components/Scanner.tsx:134 | 21 saves from an empty history leave 20 items: the 21st first, the 2nd last |
| Scanner.ServiceReasonsShownAsSent | halal-checker-app/components/ResultModal.tsx:48 | A reason produced by the service is never replaced by the fallback text |
| Scanner.ScanController.constructor | halal-checker-app/components/Scanner.tsx:20-32 | Initially not processing, modal hidden, result "Ready" with an empty reason, region GENERAL, empty manual text, nothing posted |
| Scanner.ScanController.SaveToHistory | halal-checker-app/components/Scanner.tsx:130-139 | Storage becomes the outcome of read, prepend-and-truncate and write, with every failure absorbed |
| Scanner.ScanController.CheckBackend | halal-checker-app/components/Scanner.tsx:93-128 | Exactly one body is posted and isProcessing ends false. On decoded data: the item is saved, the result published and the modal shown. On failure: history, result and modal are unchanged |
| Scanner.ScanController.TakePictureAndAnalyze | halal-checker-app/components/Scanner.tsx:47-60 | With no camera or while processing, nothing changes. A failed capture only resets isProcessing. Otherwise the photo is submitted as an image with the selected region |
| Scanner.ScanController.PickImage | halal-checker-app/components/Scanner.tsx:63-83 | A cancelled pick or one with empty image data changes nothing. A failure only resets isProcessing. An image is submitted with the selected region |
| Scanner.ScanController.HandleManualSearch | halal-checker-app/components/Scanner.tsx:86-90 | Blank text changes nothing and posts nothing; other text is posted unmodified as a text body with region "ALL" |
| Scanner.ScanController.Dismiss | halal-checker-app/components/Scanner.tsx:221 | Closing, by the button or by the platform's close request alike, only sets modalVisible to false; result and history are untouched |
| Scanner.ScanController.SelectRegion | halal-checker-app/components/Scanner.tsx:155 | Selecting a chip sets the region used by the next camera or gallery submission |
| Scanner.ScanController.SetManualText | halal-checker-app/components/Scanner.tsx:180 | Typing replaces the manual text |

## Left out

- EasyOCR reader construction and `readtext`: a foreign ML library. Each reader is the parameter `ocr(reader, image)`.
- The order of `list(set(found_texts))`: the parameter `arrange`. `CheckIngredients` requires it to list the distinct strings it is given, each once (`IsSetListing`), and leaves only their order open. `Expected` and `ImagePrecedence` hold for any `arrange`.
- Base64 decoding, PIL image opening and the resize: foreign code with float arithmetic. The parameter `decodes` says whether they succeed; a failure yields the catch-all error.
- Unicode case mapping: `str.lower`, `str.capitalize` and `toUpperCase` are modelled on ASCII letters only.
- JSON typing on the service side is not modelled. This covers a body that is not JSON, request fields that are not strings, dataset items without a `names` or `reason` key, and a malformed ingredients file raised at start-up. A table item with an empty `names` list is modelled.
- A reply whose JSON lacks `status`, `reason` or `color` is not modelled: a decoded reply always has all three strings.
- Flask routing, CORS, `app.run`, `print`, `console.error` and the `Alert` dialogs: I/O with no effect on state.
- `fetch`, AsyncStorage, the camera, the image picker and permission handling: their outcomes are parameters.
- `cameraRef.current` is the parameter `cameraReady`: the controller does not model which tab is shown.
- `Date.now()` and `toLocaleString()`: the supplied `Stamp`.
- Async interleaving: each handler is one atomic method, so a state with `isProcessing` set before a handler runs is not produced by the model's own handlers.
- JSX layout, styles, icons and the REGIONS labels: presentation. The mode tabs and the history screen (listing, search, clear) are not part of this model.
