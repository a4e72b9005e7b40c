/**
 * The verdict engine of the classification service (POST /check-ingredients):
 * choose the input (image before text), choose the OCR readers for the
 * requested region, lower-case the scanned text, scan the haram and mushbooh
 * tables for case-insensitive substring hits, and collapse the hits into one
 * verdict with priority Haram, then Mushbooh, then Halal.
 *
 * The OCR readers, base64 decoding and image opening are foreign code: they
 * are parameters of the model (`decodes`, `ocr`), and so is the order in which
 * `list(set(...))` arranges the recognised strings (`arrange`).
 */
module Backend {
  import opened Wrappers
  import opened Text

  /** One entry of an ingredient table: its names (the first is the English one) and why it is flagged. */
  datatype Ingredient = Ingredient(names: seq<string>, reason: string)

  /** The contents of ingredients.json. */
  datatype Dataset = Dataset(haram: seq<Ingredient>, mushbooh: seq<Ingredient>)

  /** The JSON request body; a field the client did not send is None. */
  datatype Request = Request(image: Option<string>, text: Option<string>, region: Option<string>)

  /** The JSON response body. */
  datatype Response = Response(status: string, reason: string, color: string)

  /** The five OCR readers loaded at start-up. */
  datatype Reader = Latin | Japanese | Korean | Thai | Chinese

  /** Which input the request is scanned from. */
  datatype Input = ImageInput(image: string) | TextInput(text: string) | NoInput

  const HaramColor := "#FF4D4D"
  const MushboohColor := "#FFA500"
  const HalalColor := "#4CAF50"
  const Separator := "\n\n"

  const HalalResponse := Response("Halal", "Safe to consume. No haram ingredients found.", HalalColor)
  const NoInputResponse := Response("Error", "No image or text sent", "grey")
  /** What the catch-all exception handler returns. */
  const FailureResponse := Response("Error", "Failed to process request.", "grey")

  /** `load_dataset`: the parsed file, or two empty tables when the file does not exist. */
  function LoadDataset(file: Option<Dataset>): (d: Dataset)
    ensures file.None? ==> d.haram == [] && d.mushbooh == []
    ensures file.Some? ==> d == file.value
  {
    match file
    case Some(parsed) => parsed
    case None => Dataset([], [])
  }

  /** `data.get(key, default)` for a string field. */
  function FieldOr(field: Option<string>, default: string): string {
    field.GetOr(default)
  }

  /** The region the readers are chosen by: "ALL" when the request has none. */
  function RegionOf(req: Request): (region: string)
    ensures req.region.None? ==> region == "ALL"
    ensures req.region.Some? ==> region == req.region.value
  {
    FieldOr(req.region, "ALL")
  }

  /** Input selection: a non-empty image wins over a non-empty text; neither is no input. */
  function SelectInput(req: Request): (input: Input)
    ensures input.ImageInput? <==> FieldOr(req.image, "") != ""
    ensures input.ImageInput? ==> input.image == req.image.value
    ensures input.TextInput? <==> FieldOr(req.image, "") == "" && FieldOr(req.text, "") != ""
    ensures input.TextInput? ==> input.text == req.text.value
    ensures input.NoInput? <==> FieldOr(req.image, "") == "" && FieldOr(req.text, "") == ""
  {
    var image := FieldOr(req.image, "");
    var text := FieldOr(req.text, "");
    if image != "" then ImageInput(image)
    else if text != "" then TextInput(text)
    else NoInput
  }

  /** A language reader runs when the region is its own code or "ALL". */
  predicate RegionWants(region: string, code: string) {
    region == code || region == "ALL"
  }

  /** The readers run for a region, in the order the source runs them. */
  function ReadersFor(region: string): (readers: seq<Reader>)
    ensures 1 <= |readers| <= 5 && readers[0] == Latin
  {
    [Latin]
    + (if RegionWants(region, "JAPAN") then [Japanese] else [])
    + (if RegionWants(region, "KOREA") then [Korean] else [])
    + (if RegionWants(region, "THAI") then [Thai] else [])
    + (if RegionWants(region, "CHINA") then [Chinese] else [])
  }

  /** The Latin reader always runs first; each language reader runs iff the region asks for it; none runs twice. */
  lemma ReaderSelection(region: string)
    ensures var readers := ReadersFor(region);
      |readers| >= 1 && readers[0] == Latin
      && (Japanese in readers <==> region == "JAPAN" || region == "ALL")
      && (Korean in readers <==> region == "KOREA" || region == "ALL")
      && (Thai in readers <==> region == "THAI" || region == "ALL")
      && (Chinese in readers <==> region == "CHINA" || region == "ALL")
      && (forall i, j :: 0 <= i < j < |readers| ==> readers[i] != readers[j])
  {
  }

  /** "ALL" runs all five readers; any region that is not a language code runs the Latin reader alone. */
  lemma RegionExtremes(region: string)
    ensures ReadersFor("ALL") == [Latin, Japanese, Korean, Thai, Chinese]
    ensures region !in {"ALL", "JAPAN", "KOREA", "THAI", "CHINA"} ==> ReadersFor(region) == [Latin]
  {
  }

  /** What the given readers recognise in the image, concatenated in reader order. */
  function ReadAll(readers: seq<Reader>, image: string, ocr: (Reader, string) -> seq<string>): seq<string>
  {
    if readers == [] then [] else ocr(readers[0], image) + ReadAll(readers[1..], image, ocr)
  }

  lemma {:induction false} ReadAllKeeps(readers: seq<Reader>, image: string, ocr: (Reader, string) -> seq<string>, r: Reader, t: string)
    requires r in readers && t in ocr(r, image)
    ensures t in ReadAll(readers, image, ocr)
  {
    if readers[0] != r {
      ReadAllKeeps(readers[1..], image, ocr, r, t);
    }
  }

  /** The `found_texts +=` accumulation over the selected readers. */
  method RunReaders(region: string, image: string, ocr: (Reader, string) -> seq<string>) returns (found: seq<string>)
    ensures found == ReadAll(ReadersFor(region), image, ocr)
    ensures forall r, t :: r in ReadersFor(region) && t in ocr(r, image) ==> t in found
  {
    ghost var ran: seq<Reader> := [];
    found := [];
    ReadAllSnoc(ran, Latin, image, ocr);
    found := found + ocr(Latin, image);
    ran := ran + [Latin];
    if RegionWants(region, "JAPAN") {
      ReadAllSnoc(ran, Japanese, image, ocr);
      found := found + ocr(Japanese, image);
      ran := ran + [Japanese];
    }
    if RegionWants(region, "KOREA") {
      ReadAllSnoc(ran, Korean, image, ocr);
      found := found + ocr(Korean, image);
      ran := ran + [Korean];
    }
    if RegionWants(region, "THAI") {
      ReadAllSnoc(ran, Thai, image, ocr);
      found := found + ocr(Thai, image);
      ran := ran + [Thai];
    }
    if RegionWants(region, "CHINA") {
      ReadAllSnoc(ran, Chinese, image, ocr);
      found := found + ocr(Chinese, image);
      ran := ran + [Chinese];
    }
    assert ran == ReadersFor(region);
    forall r, t | r in ReadersFor(region) && t in ocr(r, image) ensures t in found {
      ReadAllKeeps(ReadersFor(region), image, ocr, r, t);
    }
  }

  lemma {:induction false} ReadAllSnoc(readers: seq<Reader>, r: Reader, image: string, ocr: (Reader, string) -> seq<string>)
    ensures ReadAll(readers + [r], image, ocr) == ReadAll(readers, image, ocr) + ocr(r, image)
  {
    if readers == [] {
      assert ([] + [r])[1..] == [];
    } else {
      assert (readers + [r])[1..] == readers[1..] + [r];
      ReadAllSnoc(readers[1..], r, image, ocr);
    }
  }

  /** The text scanned for an image: the arranged strings joined by spaces, lower-cased; each string occurs in it. */
  function ImageText(combined: seq<string>): (scanned: string)
    ensures forall t :: t in combined ==> IsSubstring(Lower(t), scanned)
  {
    JoinedPartsOccur(combined);
    Lower(Join(combined, " "))
  }

  lemma JoinedPartsOccur(combined: seq<string>)
    ensures forall t :: t in combined ==> IsSubstring(Lower(t), Lower(Join(combined, " ")))
  {
    forall t | t in combined ensures IsSubstring(Lower(t), Lower(Join(combined, " "))) {
      PartOfJoin(combined, " ", t);
      SubstringOfLower(t, Join(combined, " "));
    }
  }

  /** `texts` could be `list(set(found))`: the distinct strings of `found`, each once, in any order. */
  ghost predicate IsListingOf(texts: seq<string>, found: seq<string>) {
    multiset(texts) == multiset(Dedup(found))
  }

  /** What `list(set(xs))` guarantees of every list: only the order is left open. */
  ghost predicate IsSetListing(arrange: seq<string> -> seq<string>) {
    forall s :: IsListingOf(arrange(s), s)
  }

  /** A listing holds exactly the strings of the list it lists. */
  lemma ListingMembers(texts: seq<string>, found: seq<string>)
    requires IsListingOf(texts, found)
    ensures forall x :: x in texts <==> x in found
  {
    DedupFacts(found);
    forall x ensures x in texts <==> x in found {
      assert x in texts <==> x in multiset(texts);
      assert x in Dedup(found) <==> x in multiset(Dedup(found));
    }
  }

  // ---------------------------------------------------------------------
  // Matching one table
  // ---------------------------------------------------------------------

  /** `name.lower() in scanned_text`. */
  predicate NameHits(name: string, scanned: string) {
    IsSubstring(Lower(name), scanned)
  }

  /** The ingredient has some name that occurs in the scanned text. */
  predicate Matches(ing: Ingredient, scanned: string) {
    exists n :: n in ing.names && NameHits(n, scanned)
  }

  /** The first name of the list that occurs in the scanned text: where the inner loop breaks. */
  function FirstHit(names: seq<string>, scanned: string): (hit: Option<string>)
    ensures hit.Some? ==> hit.value in names && NameHits(hit.value, scanned)
    ensures hit.None? <==> forall n :: n in names ==> !NameHits(n, scanned)
  {
    if names == [] then None
    else if NameHits(names[0], scanned) then Some(names[0])
    else
      assert forall n :: n in names[1..] ==> n in names;
      FirstHit(names[1..], scanned)
  }

  /** The name reported is the earliest hitting one: every name before it misses. */
  lemma {:induction false} FirstHitIsFirst(names: seq<string>, scanned: string)
    requires FirstHit(names, scanned).Some?
    ensures exists i :: 0 <= i < |names| && names[i] == FirstHit(names, scanned).value
                        && forall j :: 0 <= j < i ==> !NameHits(names[j], scanned)
  {
    if !NameHits(names[0], scanned) {
      FirstHitIsFirst(names[1..], scanned);
      var i :| 0 <= i < |names[1..]| && names[1..][i] == FirstHit(names, scanned).value
               && forall j :: 0 <= j < i ==> !NameHits(names[1..][j], scanned);
      assert names[i + 1] == FirstHit(names, scanned).value;
      forall j | 0 <= j < i + 1 ensures !NameHits(names[j], scanned) {
        if j > 0 { assert names[j] == names[1..][j - 1]; }
      }
    } else {
      assert names[0] == FirstHit(names, scanned).value;
    }
  }

  /** Every ingredient of the table has at least one name, so `item['names'][0]` does not raise. */
  predicate AllNamed(items: seq<Ingredient>) {
    forall i :: 0 <= i < |items| ==> |items[i].names| > 0
  }

  /** The entry reported for a hit: `• {English name} (found: '{name}')` and the reason on the next line. */
  function EntryText(englishName: string, name: string, reason: string): (e: string)
    ensures |e| > 0 && e[0] == '\U{2022}'
  {
    "\U{2022} " + englishName + " (found: '" + name + "')\n   Why: " + reason
  }

  function Entry(ing: Ingredient, name: string): string
    requires |ing.names| > 0
  {
    EntryText(Capitalize(ing.names[0]), name, ing.reason)
  }

  /** The entry an ingredient contributes, if any of its names hits. */
  function Hit(ing: Ingredient, scanned: string): Option<string>
    requires |ing.names| > 0
  {
    match FirstHit(ing.names, scanned)
    case Some(name) => Some(Entry(ing, name))
    case None => None
  }

  function HitList(ing: Ingredient, scanned: string): seq<string>
    requires |ing.names| > 0
  {
    var hit := Hit(ing, scanned);
    if hit.Some? then [hit.value] else []
  }

  /** The entries of the table's hits, one per matching ingredient, in table order. */
  function Hits(items: seq<Ingredient>, scanned: string): seq<string>
    requires AllNamed(items)
    decreases |items|
  {
    if items == [] then []
    else Hits(items[..|items| - 1], scanned) + HitList(items[|items| - 1], scanned)
  }

  /** `if x not in acc: acc.append(x)`. */
  function AddNew(acc: seq<string>, x: string): (r: seq<string>)
    ensures forall y :: y in r <==> y in acc || y == x
    ensures |acc| <= |r| <= |acc| + 1 && r[..|acc|] == acc
  {
    if x in acc then acc else acc + [x]
  }

  /** The elements of `s` in order of first occurrence. */
  function Dedup(s: seq<string>): (r: seq<string>)
    ensures |r| <= |s|
    ensures forall x :: x in r ==> x in s
    decreases |s|
  {
    if s == [] then [] else AddNew(Dedup(s[..|s| - 1]), s[|s| - 1])
  }

  predicate NoDups(s: seq<string>) {
    forall i, j :: 0 <= i < j < |s| ==> s[i] != s[j]
  }

  /** Dedup keeps exactly the elements of its input, each once. */
  lemma {:induction false} DedupFacts(s: seq<string>)
    ensures NoDups(Dedup(s))
    ensures forall x :: x in Dedup(s) <==> x in s
    ensures |Dedup(s)| <= |s|
  {
    if s != [] {
      var init := s[..|s| - 1];
      DedupFacts(init);
      assert s == init + [s[|s| - 1]];
    }
  }

  /** A list without duplicates is left as it is. */
  lemma {:induction false} DedupOfDistinct(s: seq<string>)
    requires NoDups(s)
    ensures Dedup(s) == s
  {
    if s != [] {
      var init := s[..|s| - 1];
      assert NoDups(init);
      DedupOfDistinct(init);
      assert s[|s| - 1] !in init;
      assert s == init + [s[|s| - 1]];
    }
  }

  lemma {:induction false} DedupEmpty(s: seq<string>)
    ensures Dedup(s) == [] <==> s == []
  {
    if s != [] {
      DedupFacts(s);
      assert s[0] in s;
    }
  }

  /** Extending the table by one ingredient appends that ingredient's entry, if any. */
  lemma HitsStep(items: seq<Ingredient>, i: nat, scanned: string)
    requires i < |items| && AllNamed(items[..i + 1])
    ensures AllNamed(items[..i])
    ensures Hits(items[..i + 1], scanned) == Hits(items[..i], scanned) + HitList(items[i], scanned)
  {
    assert items[..i + 1][..i] == items[..i];
    assert forall k :: 0 <= k < i ==> items[..i][k] == items[..i + 1][k];
  }

  lemma DedupSnoc(s: seq<string>, x: string)
    ensures Dedup(s + [x]) == AddNew(Dedup(s), x)
  {
    assert (s + [x])[..|s|] == s;
  }

  /** At most one entry per ingredient. */
  lemma {:induction false} HitsLength(items: seq<Ingredient>, scanned: string)
    requires AllNamed(items)
    ensures |Hits(items, scanned)| <= |items|
  {
    if items != [] {
      HitsStep(items, |items| - 1, scanned);
      assert items[..|items|] == items;
      HitsLength(items[..|items| - 1], scanned);
    }
  }

  /** The table's entries are exactly the entries of its matching ingredients. */
  lemma {:induction false} HitsMembership(items: seq<Ingredient>, scanned: string, e: string)
    requires AllNamed(items)
    ensures e in Hits(items, scanned) <==> exists i :: 0 <= i < |items| && Hit(items[i], scanned) == Some(e)
  {
    if items != [] {
      var n := |items| - 1;
      var init := items[..n];
      HitsStep(items, n, scanned);
      assert items[..n + 1] == items;
      HitsMembership(init, scanned, e);
      var tail := HitList(items[n], scanned);
      assert Hits(items, scanned) == Hits(init, scanned) + tail;
      if e in Hits(items, scanned) {
        if e in Hits(init, scanned) {
          var i :| 0 <= i < n && Hit(init[i], scanned) == Some(e);
          assert init[i] == items[i];
        } else {
          assert e in tail;
          assert Hit(items[n], scanned) == Some(e);
        }
      }
      if exists i :: 0 <= i < |items| && Hit(items[i], scanned) == Some(e) {
        var i :| 0 <= i < |items| && Hit(items[i], scanned) == Some(e);
        if i < n {
          assert init[i] == items[i];
        } else {
          assert i == n;
          var hit := Hit(items[n], scanned);
          assert hit == Some(e);
          assert tail == [hit.value];
        }
      }
    }
  }

  /** A matching ingredient always contributes an entry. */
  lemma MatchHits(ing: Ingredient, scanned: string)
    requires |ing.names| > 0
    ensures Hit(ing, scanned).Some? <==> Matches(ing, scanned)
  {
    if Matches(ing, scanned) {
      var n :| n in ing.names && NameHits(n, scanned);
    }
  }

  /** The table yields an entry exactly when some ingredient matches. */
  lemma HitsNonEmpty(items: seq<Ingredient>, scanned: string)
    requires AllNamed(items)
    ensures Hits(items, scanned) != [] <==> exists i :: 0 <= i < |items| && Matches(items[i], scanned)
  {
    if Hits(items, scanned) != [] {
      var e := Hits(items, scanned)[0];
      HitsMembership(items, scanned, e);
      var i :| 0 <= i < |items| && Hit(items[i], scanned) == Some(e);
      MatchHits(items[i], scanned);
    }
    if exists i :: 0 <= i < |items| && Matches(items[i], scanned) {
      var i :| 0 <= i < |items| && Matches(items[i], scanned);
      MatchHits(items[i], scanned);
      HitsMembership(items, scanned, Hit(items[i], scanned).value);
    }
  }

  /** One turn of the outer loop: the found list of a longer prefix. */
  lemma ScanStep(items: seq<Ingredient>, i: nat, scanned: string, acc: seq<string>)
    requires i < |items| && AllNamed(items[..i]) && |items[i].names| > 0
    requires acc == Dedup(Hits(items[..i], scanned))
    ensures AllNamed(items[..i + 1])
    ensures Dedup(Hits(items[..i + 1], scanned)) ==
              (var hit := Hit(items[i], scanned); if hit.Some? then AddNew(acc, hit.value) else acc)
  {
    assert forall k :: 0 <= k < i + 1 ==> items[..i + 1][k] == items[k];
    HitsStep(items, i, scanned);
    var hit := Hit(items[i], scanned);
    if hit.Some? {
      DedupSnoc(Hits(items[..i], scanned), hit.value);
    } else {
      assert Hits(items[..i], scanned) + [] == Hits(items[..i], scanned);
    }
  }

  /** The inner loop: the first name of the ingredient whose lower-cased form occurs in the text. */
  method FirstMatchingName(names: seq<string>, scanned: string) returns (hit: Option<string>)
    ensures hit == FirstHit(names, scanned)
  {
    var j := 0;
    while j < |names|
      invariant 0 <= j <= |names|
      invariant FirstHit(names[j..], scanned) == FirstHit(names, scanned)
    {
      if IsSubstring(Lower(names[j]), scanned) {
        return Some(names[j]);
      }
      assert names[j..][1..] == names[j + 1..];
      j := j + 1;
    }
    return None;
  }

  /**
   * The outer loop over one table: None when an ingredient without names
   * makes `item['names'][0]` raise, otherwise the found list.
   */
  method ScanTable(items: seq<Ingredient>, scanned: string) returns (found: Option<seq<string>>)
    ensures found.None? <==> !AllNamed(items)
    ensures found.Some? ==> found.value == Dedup(Hits(items, scanned))
  {
    var acc: seq<string> := [];
    var i := 0;
    while i < |items|
      invariant 0 <= i <= |items|
      invariant AllNamed(items[..i])
      invariant acc == Dedup(Hits(items[..i], scanned))
    {
      var item := items[i];
      if |item.names| == 0 {
        assert !AllNamed(items) by { assert |items[i].names| == 0; }
        return None;
      }
      ghost var before := acc;
      var englishName := Capitalize(item.names[0]);
      var hit := FirstMatchingName(item.names, scanned);
      if hit.Some? {
        var formatted := EntryText(englishName, hit.value, item.reason);
        if formatted !in acc {
          acc := acc + [formatted];
        }
      }
      ScanStep(items, i, scanned, before);
      i := i + 1;
    }
    assert items[..i] == items;
    return Some(acc);
  }

  // ---------------------------------------------------------------------
  // The verdict
  // ---------------------------------------------------------------------

  /** The found lists collapsed into one response. */
  function Decide(haram: seq<string>, mushbooh: seq<string>): (r: Response)
    ensures r.status == "Haram" <==> haram != []
    ensures r.status == "Mushbooh" <==> haram == [] && mushbooh != []
    ensures r == HalalResponse <==> haram == [] && mushbooh == []
    ensures r.status != "Error"
  {
    if haram != [] then Response("Haram", Join(haram, Separator), HaramColor)
    else if mushbooh != [] then Response("Mushbooh", Join(mushbooh, Separator), MushboohColor)
    else HalalResponse
  }

  /** The table's found list, as the scanning loop builds it. */
  function Found(items: seq<Ingredient>, scanned: string): seq<string>
    requires AllNamed(items)
  {
    Dedup(Hits(items, scanned))
  }

  /** Some ingredient of the table matches the text. */
  predicate Flagged(items: seq<Ingredient>, scanned: string) {
    exists i :: 0 <= i < |items| && Matches(items[i], scanned)
  }

  /** The response for an already lower-cased text, after the input has been chosen. */
  function Classify(data: Dataset, scanned: string): (r: Response)
    ensures r == FailureResponse <==> !AllNamed(data.haram) || !AllNamed(data.mushbooh)
    ensures r.status in {"Haram", "Mushbooh", "Halal", "Error"}
  {
    if !AllNamed(data.haram) || !AllNamed(data.mushbooh) then FailureResponse
    else Decide(Found(data.haram, scanned), Found(data.mushbooh, scanned))
  }

  lemma FoundEmptyIff(items: seq<Ingredient>, scanned: string)
    requires AllNamed(items)
    ensures Found(items, scanned) != [] <==> Flagged(items, scanned)
  {
    HitsNonEmpty(items, scanned);
    DedupEmpty(Hits(items, scanned));
  }

  /** Haram wins: the status is Haram, in red, exactly when some haram ingredient matches, whatever else matches. */
  lemma HaramVerdict(data: Dataset, scanned: string)
    requires AllNamed(data.haram) && AllNamed(data.mushbooh)
    ensures var r := Classify(data, scanned);
      (r.status == "Haram" <==> Flagged(data.haram, scanned))
      && (r.status == "Haram" ==> r.color == HaramColor && r.reason == Join(Found(data.haram, scanned), Separator))
  {
    FoundEmptyIff(data.haram, scanned);
  }

  /** Mushbooh, in orange, exactly when no haram ingredient matches and some mushbooh ingredient does. */
  lemma MushboohVerdict(data: Dataset, scanned: string)
    requires AllNamed(data.haram) && AllNamed(data.mushbooh)
    ensures var r := Classify(data, scanned);
      (r.status == "Mushbooh" <==> !Flagged(data.haram, scanned) && Flagged(data.mushbooh, scanned))
      && (r.status == "Mushbooh" ==> r.color == MushboohColor && r.reason == Join(Found(data.mushbooh, scanned), Separator))
  {
    FoundEmptyIff(data.haram, scanned);
    FoundEmptyIff(data.mushbooh, scanned);
  }

  /** When nothing matches the response is exactly the Halal one, and only then is the status Halal. */
  lemma HalalVerdict(data: Dataset, scanned: string)
    requires AllNamed(data.haram) && AllNamed(data.mushbooh)
    ensures var r := Classify(data, scanned);
      (r.status == "Halal" <==> !Flagged(data.haram, scanned) && !Flagged(data.mushbooh, scanned))
      && (r.status == "Halal" ==> r == HalalResponse)
  {
    FoundEmptyIff(data.haram, scanned);
    FoundEmptyIff(data.mushbooh, scanned);
  }

  /** An ingredient without names makes every scan fail, whatever the text. */
  lemma UnnamedIngredientFails(data: Dataset, scanned: string, i: nat)
    requires (i < |data.haram| && data.haram[i].names == []) || (i < |data.mushbooh| && data.mushbooh[i].names == [])
    ensures Classify(data, scanned) == FailureResponse
  {
  }

  /**
   * The found list of a table has no duplicates, at most one entry per
   * ingredient, and holds exactly the entries of the matching ingredients;
   * when those entries are pairwise distinct it is them in table order.
   */
  lemma FoundEntries(items: seq<Ingredient>, scanned: string)
    requires AllNamed(items)
    ensures var found := Found(items, scanned);
      NoDups(found) && |found| <= |items|
      && (forall e :: e in found <==> exists i :: 0 <= i < |items| && Hit(items[i], scanned) == Some(e))
      && (NoDups(Hits(items, scanned)) ==> found == Hits(items, scanned))
  {
    HitsLength(items, scanned);
    forall e ensures e in Hits(items, scanned) <==> exists i :: 0 <= i < |items| && Hit(items[i], scanned) == Some(e) {
      HitsMembership(items, scanned, e);
    }
    DedupFacts(Hits(items, scanned));
    if NoDups(Hits(items, scanned)) {
      DedupOfDistinct(Hits(items, scanned));
    }
  }

  /** Every response reason is non-empty. */
  lemma ReasonNonEmpty(data: Dataset, scanned: string)
    ensures Classify(data, scanned).reason != ""
  {
    if AllNamed(data.haram) && AllNamed(data.mushbooh) {
      var h := Found(data.haram, scanned);
      var m := Found(data.mushbooh, scanned);
      if h != [] {
        FoundEntryShape(data.haram, scanned);
        assert h[0] in h;
        JoinNonEmpty(h, Separator);
      } else if m != [] {
        FoundEntryShape(data.mushbooh, scanned);
        assert m[0] in m;
        JoinNonEmpty(m, Separator);
      }
    }
  }

  lemma FoundEntryShape(items: seq<Ingredient>, scanned: string)
    requires AllNamed(items)
    ensures forall e :: e in Found(items, scanned) ==> e != ""
  {
    FoundEntries(items, scanned);
    forall e | e in Found(items, scanned) ensures e != "" {
      var i :| 0 <= i < |items| && Hit(items[i], scanned) == Some(e);
    }
  }

  /** A missing ingredients.json yields empty tables, and empty tables judge every text Halal. */
  lemma MissingDatasetIsHalal(scanned: string)
    ensures Classify(LoadDataset(None), scanned) == HalalResponse
  {
    assert Hits([], scanned) == [];
  }

  /**
   * Matching ignores case: a dataset name occurring in the text with any
   * capitalisation, at any position, is a hit once the text is lower-cased.
   */
  lemma CaseInsensitiveHit(name: string, text: string, k: nat)
    requires k + |name| <= |text| && Lower(text[k..k + |name|]) == Lower(name)
    ensures NameHits(name, Lower(text))
  {
    LowerSlice(text, k, k + |name|);
    assert OccursAt(Lower(name), Lower(text), k);
  }

  /** A haram name typed in any capitalisation makes a text request Haram. */
  lemma TypedHaramNameIsHaram(data: Dataset, text: string, i: nat, name: string, k: nat)
    requires AllNamed(data.haram) && AllNamed(data.mushbooh)
    requires i < |data.haram| && name in data.haram[i].names
    requires k + |name| <= |text| && Lower(text[k..k + |name|]) == Lower(name)
    ensures Classify(data, Lower(text)).status == "Haram"
  {
    CaseInsensitiveHit(name, text, k);
    assert Matches(data.haram[i], Lower(text));
    HaramVerdict(data, Lower(text));
  }

  /**
   * Strings recognised by any selected reader all reach the scanned text: when
   * one of them contains a name of a haram ingredient (in any case) the image
   * is judged Haram, whatever order the arrangement puts the strings in.
   */
  lemma ReadHaramNameIsHaram(data: Dataset, region: string, image: string, ocr: (Reader, string) -> seq<string>,
                             combined: seq<string>, r: Reader, t: string, i: nat, name: string)
    requires AllNamed(data.haram) && AllNamed(data.mushbooh)
    requires forall x :: x in ReadAll(ReadersFor(region), image, ocr) ==> x in combined
    requires r in ReadersFor(region) && t in ocr(r, image)
    requires i < |data.haram| && name in data.haram[i].names && IsSubstring(Lower(name), Lower(t))
    ensures Classify(data, ImageText(combined)).status == "Haram"
  {
    ReadAllKeeps(ReadersFor(region), image, ocr, r, t);
    SubstringTransitive(Lower(name), Lower(t), ImageText(combined));
    assert Matches(data.haram[i], ImageText(combined));
    HaramVerdict(data, ImageText(combined));
  }

  /** The response `check_ingredients` gives, as a function of the request and the foreign code's answers. */
  function Expected(req: Request, data: Dataset, decodes: string -> bool,
                    ocr: (Reader, string) -> seq<string>, arrange: seq<string> -> seq<string>): (r: Response)
    ensures r.status in {"Haram", "Mushbooh", "Halal", "Error"}
    ensures r.reason != ""
  {
    match SelectInput(req)
    case NoInput => NoInputResponse
    case TextInput(t) =>
      ReasonNonEmpty(data, Lower(t));
      Classify(data, Lower(t))
    case ImageInput(img) =>
      if !decodes(img) then FailureResponse
      else
        var scanned := ImageText(arrange(ReadAll(ReadersFor(RegionOf(req)), img, ocr)));
        ReasonNonEmpty(data, scanned);
        Classify(data, scanned)
  }

  /**
   * `check_ingredients`. `decodes(image)` says whether base64 decoding and
   * opening the image succeed, `ocr(reader, image)` is what `readtext` returns,
   * and `arrange` is the order `list(set(...))` produces.
   */
  method CheckIngredients(req: Request, data: Dataset, decodes: string -> bool,
                          ocr: (Reader, string) -> seq<string>, arrange: seq<string> -> seq<string>)
    returns (r: Response)
    requires IsSetListing(arrange)
    ensures r == Expected(req, data, decodes, ocr, arrange)
    ensures FieldOr(req.image, "") == "" && FieldOr(req.text, "") == "" ==> r == NoInputResponse
    ensures FieldOr(req.image, "") == "" && FieldOr(req.text, "") != "" ==> r == Classify(data, Lower(req.text.value))
    ensures FieldOr(req.image, "") != "" && !decodes(req.image.value) ==> r == FailureResponse
    ensures FieldOr(req.image, "") != "" && decodes(req.image.value) ==>
      exists texts :: IsListingOf(texts, ReadAll(ReadersFor(RegionOf(req)), req.image.value, ocr))
                      && r == Classify(data, ImageText(texts))
  {
    var image := FieldOr(req.image, "");
    var manualText := FieldOr(req.text, "");
    var region := RegionOf(req);
    var scanned: string;
    if image != "" {
      if !decodes(image) {
        return FailureResponse;
      }
      var foundTexts := RunReaders(region, image, ocr);
      scanned := ImageText(arrange(foundTexts));
      assert IsListingOf(arrange(foundTexts), foundTexts);
    } else if manualText != "" {
      scanned := Lower(manualText);
    } else {
      return NoInputResponse;
    }
    var foundHaram := ScanTable(data.haram, scanned);
    if foundHaram.None? {
      return FailureResponse;
    }
    var foundMushbooh := ScanTable(data.mushbooh, scanned);
    if foundMushbooh.None? {
      return FailureResponse;
    }
    r := Decide(foundHaram.value, foundMushbooh.value);
  }

  /** With both an image and a text, the text is never looked at. */
  lemma ImagePrecedence(req: Request, data: Dataset, decodes: string -> bool,
                        ocr: (Reader, string) -> seq<string>, arrange: seq<string> -> seq<string>, otherText: Option<string>)
    requires FieldOr(req.image, "") != ""
    ensures Expected(req, data, decodes, ocr, arrange) == Expected(req.(text := otherText), data, decodes, ocr, arrange)
  {
  }

  /**
   * A string recognised by any selected reader that contains the name of a
   * haram ingredient, in any case, makes the image Haram, whatever order
   * `list(set(...))` gives the recognised strings.
   */
  lemma ImageHaramNameIsHaram(req: Request, data: Dataset, decodes: string -> bool,
                              ocr: (Reader, string) -> seq<string>, arrange: seq<string> -> seq<string>,
                              r: Reader, t: string, i: nat, name: string)
    requires IsSetListing(arrange)
    requires AllNamed(data.haram) && AllNamed(data.mushbooh)
    requires FieldOr(req.image, "") != "" && decodes(req.image.value)
    requires r in ReadersFor(RegionOf(req)) && t in ocr(r, req.image.value)
    requires i < |data.haram| && name in data.haram[i].names && IsSubstring(Lower(name), Lower(t))
    ensures Expected(req, data, decodes, ocr, arrange).status == "Haram"
  {
    var found := ReadAll(ReadersFor(RegionOf(req)), req.image.value, ocr);
    assert IsListingOf(arrange(found), found);
    ListingMembers(arrange(found), found);
    ReadHaramNameIsHaram(data, RegionOf(req), req.image.value, ocr, arrange(found), r, t, i, name);
  }

  /** An image in which no reader recognises anything is scanned as the empty text. */
  lemma UnreadImageScansNothing(req: Request, data: Dataset, decodes: string -> bool,
                                ocr: (Reader, string) -> seq<string>, arrange: seq<string> -> seq<string>)
    requires IsSetListing(arrange)
    requires FieldOr(req.image, "") != "" && decodes(req.image.value)
    requires ReadAll(ReadersFor(RegionOf(req)), req.image.value, ocr) == []
    ensures Expected(req, data, decodes, ocr, arrange) == Classify(data, "")
  {
    var nothing: seq<string> := [];
    assert IsListingOf(arrange(nothing), nothing);
    assert |multiset(arrange(nothing))| == 0;
    assert ImageText(arrange(nothing)) == "";
  }
}
