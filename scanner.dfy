/**
 * The scan screen's controller: three entry intents (camera capture, gallery
 * pick, manual text) that each may submit one request to the classification
 * service, the bounded scan history kept in device storage, and the flags
 * that drive the result modal.
 *
 * Each handler is one atomic method. What the platform supplies (the camera,
 * the image picker, fetch, AsyncStorage, the clock) arrives as parameters
 * that say how the call went.
 */
module Scanner {
  import opened Wrappers
  import opened Text
  import Backend
  import ResultModal

  /** `type: 'image' | 'text'` of a backend call. */
  datatype PayloadKind = ImageKind | TextKind

  /** The JSON body posted to /check-ingredients. */
  datatype RequestBody = ImageBody(image: string, region: string) | TextBody(text: string)

  /** One entry of the stored scan history. */
  datatype HistoryItem = HistoryItem(id: string, status: string, reason: string, color: string,
                                     date: string, sourceType: string)

  /**
   * What the 'scan_history' key holds: nothing (null or the empty string),
   * something that is not a JSON list, or a list of items.
   */
  datatype Stored = Absent | Unparsable | Saved(items: seq<HistoryItem>)

  /** Whether AsyncStorage.getItem and AsyncStorage.setItem succeed. */
  datatype StorageIo = StorageIo(readOk: bool, writeOk: bool)

  /** How fetch and response.json() went: a thrown network error, or a reply whose body may not be JSON. */
  datatype FetchOutcome = NetworkError | Replied(httpOk: bool, body: Option<Backend.Response>)

  /** `Date.now().toString()` and `new Date().toLocaleString()` at the time of the call. */
  datatype Stamp = Stamp(id: string, date: string)

  /** takePictureAsync: throws, or yields the photo's base64 text. */
  datatype Capture = CaptureFailed | Captured(base64: string)

  /** launchImageLibraryAsync: throws (or yields no asset), is cancelled, or yields an asset's base64 text. */
  datatype Pick = PickFailed | Cancelled | Selected(base64: string)

  /** The two ways the result modal asks to be closed: its button and the platform's back request. */
  datatype CloseTrigger = ScanAgainButton | SystemBack

  const HistoryLimit := 20
  const InitialRegion := "GENERAL"
  const ManualRegion := "ALL"
  const ReadyResult := Backend.Response("Ready", "", "#4CAF50")

  /** The request body: an image carries the region, a text carries nothing else. */
  function BuildBody(payload: string, kind: PayloadKind, region: string): (body: RequestBody)
    ensures body.ImageBody? <==> kind == ImageKind
    ensures body.ImageBody? ==> body.image == payload && body.region == region
    ensures body.TextBody? ==> body.text == payload
  {
    match kind
    case ImageKind => ImageBody(payload, region)
    case TextKind => TextBody(payload)
  }

  /** The request the service decodes from a body: fields the body lacks are absent. */
  function ToRequest(body: RequestBody): Backend.Request {
    match body
    case ImageBody(image, region) => Backend.Request(Some(image), None, Some(region))
    case TextBody(text) => Backend.Request(None, Some(text), None)
  }

  /** An image body reaches the service with exactly its image and region; an empty image is no input. */
  lemma ImageBodyReceived(payload: string, region: string)
    ensures var req := ToRequest(BuildBody(payload, ImageKind, region));
      req == Backend.Request(Some(payload), None, Some(region))
      && Backend.RegionOf(req) == region
      && Backend.SelectInput(req) == (if payload != "" then Backend.ImageInput(payload) else Backend.NoInput)
  {
  }

  /** A text body carries no region, whatever region the caller passed, so the service scans it as "ALL". */
  lemma TextBodyReceived(payload: string, region: string, otherRegion: string)
    ensures BuildBody(payload, TextKind, region) == BuildBody(payload, TextKind, otherRegion) == TextBody(payload)
    ensures var req := ToRequest(BuildBody(payload, TextKind, region));
      req.region.None? && req.image.None? && Backend.RegionOf(req) == "ALL"
      && Backend.SelectInput(req) == (if payload != "" then Backend.TextInput(payload) else Backend.NoInput)
  {
  }

  /** A manual search that passes the blank guard is always scanned as text by the service. */
  lemma ManualSearchIsScannedAsText(text: string)
    requires Trim(text) != ""
    ensures Backend.SelectInput(ToRequest(BuildBody(text, TextKind, ManualRegion))) == Backend.TextInput(text)
  {
    TrimEmptyIffBlank(text);
    assert text != "";
  }

  /** The region the camera starts with runs the Latin reader alone. */
  lemma InitialRegionRunsLatinOnly()
    ensures Backend.ReadersFor(InitialRegion) == [Backend.Latin]
  {
    Backend.RegionExtremes(InitialRegion);
  }

  /** The parsed JSON of a reply, when fetch and response.json() both succeed; the HTTP status is not looked at. */
  function Decoded(outcome: FetchOutcome): (data: Option<Backend.Response>)
    ensures outcome.NetworkError? ==> data.None?
    ensures outcome.Replied? ==> data == outcome.body
  {
    match outcome
    case NetworkError => None
    case Replied(_, body) => body
  }

  /** The label stored with a history item. */
  function SourceLabel(kind: PayloadKind): (name: string)
    ensures name == "Camera Scan" <==> kind == ImageKind
    ensures name == "Manual Search" <==> kind == TextKind
  {
    match kind
    case ImageKind => "Camera Scan"
    case TextKind => "Manual Search"
  }

  /** The history item built from a reply: the reply's three fields, the time stamp and the source label. */
  function NewHistoryItem(reply: Backend.Response, kind: PayloadKind, stamp: Stamp): (item: HistoryItem)
    ensures Backend.Response(item.status, item.reason, item.color) == reply
    ensures item.id == stamp.id && item.date == stamp.date
    ensures item.sourceType == "Camera Scan" <==> kind == ImageKind
  {
    HistoryItem(stamp.id, reply.status, reply.reason, reply.color, stamp.date, SourceLabel(kind))
  }

  /** `[newItem, ...history].slice(0, 20)`. */
  function Prepend(item: HistoryItem, history: seq<HistoryItem>): (updated: seq<HistoryItem>)
    ensures |updated| == Min(|history| + 1, HistoryLimit)
    ensures updated[0] == item
    ensures updated[1..] == history[..|updated| - 1]
  {
    ([item] + history)[..Min(|history| + 1, HistoryLimit)]
  }

  /** The stored list as `existingHistory ? JSON.parse(existingHistory) : []` reads it; None when that throws. */
  function ParseHistory(stored: Stored): (history: Option<seq<HistoryItem>>)
    ensures stored.Absent? ==> history == Some([])
    ensures stored.Unparsable? <==> history.None?
  {
    match stored
    case Absent => Some([])
    case Unparsable => None
    case Saved(items) => Some(items)
  }

  /**
   * What `saveToHistory` leaves in storage: the updated list when the read,
   * the parse and the write all succeed, and the old contents otherwise.
   */
  function SaveOutcome(stored: Stored, item: HistoryItem, io: StorageIo): (after: Stored)
    ensures after == stored || (ParseHistory(stored).Some? && after == Saved(Prepend(item, ParseHistory(stored).value)))
  {
    if !io.readOk then stored
    else match ParseHistory(stored)
      case None => stored
      case Some(history) => if io.writeOk then Saved(Prepend(item, history)) else stored
  }

  /** After a successful save the list is bounded, starts with the new item and keeps the older items in order. */
  lemma SavedHistoryBounded(stored: Stored, item: HistoryItem, io: StorageIo)
    requires io.readOk && io.writeOk && !stored.Unparsable?
    ensures var after := SaveOutcome(stored, item, io);
      after.Saved? && 1 <= |after.items| <= HistoryLimit && after.items[0] == item
      && (stored.Absent? ==> after.items == [item])
      && (stored.Saved? ==> after.items[1..] == stored.items[..|after.items| - 1])
  {
  }

  /** Any failed storage step, or an unparsable stored value, leaves storage as it was. */
  lemma SaveFailureAbsorbed(stored: Stored, item: HistoryItem, io: StorageIo)
    requires !io.readOk || !io.writeOk || stored.Unparsable?
    ensures SaveOutcome(stored, item, io) == stored
  {
  }

  function Reversed(s: seq<HistoryItem>): (r: seq<HistoryItem>)
    ensures |r| == |s|
  {
    if s == [] then [] else Reversed(s[1..]) + [s[0]]
  }

  lemma {:induction false} ReversedAt(s: seq<HistoryItem>, k: nat)
    requires k < |s|
    ensures Reversed(s)[k] == s[|s| - 1 - k]
  {
    if k < |s| - 1 {
      ReversedAt(s[1..], k);
    }
  }

  /** The history after saving `items` one after another, oldest first. */
  function SaveAll(history: seq<HistoryItem>, items: seq<HistoryItem>): seq<HistoryItem>
    decreases |items|
  {
    if items == [] then history else SaveAll(Prepend(items[0], history), items[1..])
  }

  lemma TakeOfTake(a: seq<HistoryItem>, b: seq<HistoryItem>)
    ensures var m := Min(|b|, HistoryLimit);
      (a + b[..m])[..Min(|a| + m, HistoryLimit)] == (a + b)[..Min(|a| + |b|, HistoryLimit)]
  {
    var m := Min(|b|, HistoryLimit);
    var left := (a + b[..m])[..Min(|a| + m, HistoryLimit)];
    var right := (a + b)[..Min(|a| + |b|, HistoryLimit)];
    assert |left| == |right|;
    forall k | 0 <= k < |left| ensures left[k] == right[k] {
      if k >= |a| {
        assert left[k] == b[..m][k - |a|];
      }
    }
  }

  /** Successive saves keep exactly the 20 most recent items, newest first. */
  lemma {:induction false} SaveAllKeepsNewest(history: seq<HistoryItem>, items: seq<HistoryItem>)
    requires items != [] || |history| <= HistoryLimit
    decreases |items|
    ensures SaveAll(history, items) == (Reversed(items) + history)[..Min(|items| + |history|, HistoryLimit)]
  {
    if items == [] {
      assert Reversed(items) + history == history;
    } else {
      var x, rest := items[0], items[1..];
      var h := Prepend(x, history);
      SaveAllKeepsNewest(h, rest);
      assert h == ([x] + history)[..Min(|history| + 1, HistoryLimit)];
      TakeOfTake(Reversed(rest), [x] + history);
      assert Reversed(items) + history == Reversed(rest) + ([x] + history);
    }
  }

  /** Twenty-one successive saves from an empty history keep the last twenty: the 21st first and the 2nd last. */
  lemma TwentyOneSaves(items: seq<HistoryItem>)
    requires |items| == 21
    ensures var h := SaveAll([], items);
      |h| == 20 && h[0] == items[20] && h[19] == items[1]
  {
    SaveAllKeepsNewest([], items);
    ReversedAt(items, 0);
    ReversedAt(items, 19);
  }

  /** Every response the service produces is shown with its own reason, never the fallback text. */
  lemma ServiceReasonsShownAsSent(data: Backend.Dataset, scanned: string)
    ensures var r := Backend.Classify(data, scanned);
      ResultModal.DisplayReason(r.reason) == r.reason
    ensures ResultModal.DisplayReason(Backend.NoInputResponse.reason) == Backend.NoInputResponse.reason
  {
    Backend.ReasonNonEmpty(data, scanned);
  }

  /** The controller behind the scan screen. */
  class ScanController {
    var isProcessing: bool
    var modalVisible: bool
    var scanResult: Backend.Response
    var selectedRegion: string
    var manualText: string
    /** The 'scan_history' key of device storage. */
    var storage: Stored
    /** Every request body posted to the service so far, oldest first. */
    ghost var requests: seq<RequestBody>

    constructor (stored: Stored)
      ensures !isProcessing && !modalVisible && scanResult == ReadyResult
      ensures selectedRegion == InitialRegion && manualText == ""
      ensures storage == stored && requests == []
    {
      isProcessing := false;
      modalVisible := false;
      scanResult := ReadyResult;
      selectedRegion := InitialRegion;
      manualText := "";
      storage := stored;
      requests := [];
    }

    /** A handler that bailed out after its capture failed: only the processing flag is reset. */
    twostate predicate OnlyProcessingCleared()
      reads this
    {
      !isProcessing
      && modalVisible == old(modalVisible) && scanResult == old(scanResult)
      && selectedRegion == old(selectedRegion) && manualText == old(manualText)
      && storage == old(storage) && requests == old(requests)
    }

    /**
     * One backend call has been made with `body`: it is recorded, the
     * processing flag is down, and on a decoded reply the item is saved, the
     * result published and the modal shown; on a failure history, result and
     * modal are as they were.
     */
    twostate predicate Submitted(body: RequestBody, kind: PayloadKind, net: FetchOutcome, io: StorageIo, stamp: Stamp)
      reads this
    {
      requests == old(requests) + [body]
      && !isProcessing
      && selectedRegion == old(selectedRegion) && manualText == old(manualText)
      && match Decoded(net)
         case None =>
           storage == old(storage) && modalVisible == old(modalVisible) && scanResult == old(scanResult)
         case Some(reply) =>
           storage == SaveOutcome(old(storage), NewHistoryItem(reply, kind, stamp), io)
           && modalVisible && scanResult == reply
    }

    /** `saveToHistory`: read, prepend and truncate, write; every failure is swallowed. */
    method SaveToHistory(item: HistoryItem, io: StorageIo)
      modifies this`storage
      ensures storage == SaveOutcome(old(storage), item, io)
    {
      if !io.readOk {
        return;
      }
      var history := ParseHistory(storage);
      if history.None? {
        return;
      }
      var updatedHistory := Prepend(item, history.value);
      if !io.writeOk {
        return;
      }
      storage := Saved(updatedHistory);
    }

    /** `checkBackend`: post the body, save and show a decoded reply, and always reset the processing flag. */
    method CheckBackend(payload: string, kind: PayloadKind, region: string, net: FetchOutcome, io: StorageIo, stamp: Stamp)
      modifies this
      ensures Submitted(BuildBody(payload, kind, region), kind, net, io, stamp)
    {
      var body := BuildBody(payload, kind, region);
      requests := requests + [body];
      var data := Decoded(net);
      if data.Some? {
        var newHistoryItem := NewHistoryItem(data.value, kind, stamp);
        SaveToHistory(newHistoryItem, io);
        scanResult := data.value;
        modalVisible := true;
      }
      isProcessing := false;
    }

    /** `takePictureAndAnalyze`: ignored without a camera or while processing; otherwise capture and submit. */
    method TakePictureAndAnalyze(cameraReady: bool, capture: Capture, net: FetchOutcome, io: StorageIo, stamp: Stamp)
      modifies this
      ensures !cameraReady || old(isProcessing) ==> unchanged(this)
      ensures cameraReady && !old(isProcessing) && capture.CaptureFailed? ==> OnlyProcessingCleared()
      ensures cameraReady && !old(isProcessing) && capture.Captured? ==>
                Submitted(ImageBody(capture.base64, old(selectedRegion)), ImageKind, net, io, stamp)
    {
      if !cameraReady || isProcessing {
        return;
      }
      isProcessing := true;
      match capture
      case CaptureFailed =>
        isProcessing := false;
      case Captured(photo) =>
        CheckBackend(photo, ImageKind, selectedRegion, net, io, stamp);
    }

    /** `pickImage`: a cancelled pick or one without image data changes nothing; a failure only resets the flag. */
    method PickImage(pick: Pick, net: FetchOutcome, io: StorageIo, stamp: Stamp)
      modifies this
      ensures pick.PickFailed? ==> OnlyProcessingCleared()
      ensures pick.Cancelled? || pick == Selected("") ==> unchanged(this)
      ensures pick.Selected? && pick.base64 != "" ==>
                Submitted(ImageBody(pick.base64, old(selectedRegion)), ImageKind, net, io, stamp)
    {
      match pick
      case PickFailed =>
        isProcessing := false;
      case Cancelled =>
      case Selected(base64) =>
        if base64 != "" {
          isProcessing := true;
          CheckBackend(base64, ImageKind, selectedRegion, net, io, stamp);
        }
    }

    /** `handleManualSearch`: blank text changes nothing; otherwise the text is submitted unmodified with region "ALL". */
    method HandleManualSearch(net: FetchOutcome, io: StorageIo, stamp: Stamp)
      modifies this
      ensures Trim(old(manualText)) == "" ==> unchanged(this)
      ensures Trim(old(manualText)) != "" ==>
                Submitted(BuildBody(old(manualText), TextKind, ManualRegion), TextKind, net, io, stamp)
    {
      if Trim(manualText) == "" {
        return;
      }
      isProcessing := true;
      CheckBackend(manualText, TextKind, ManualRegion, net, io, stamp);
    }

    /** `onClose`, reached from the modal's button and from the platform's close request alike: only hides the modal. */
    method Dismiss(via: CloseTrigger)
      modifies this`modalVisible
      ensures !modalVisible
    {
      modalVisible := false;
    }

    /** A region chip was pressed. */
    method SelectRegion(region: string)
      modifies this`selectedRegion
      ensures selectedRegion == region
    {
      selectedRegion := region;
    }

    /** The manual text field changed. */
    method SetManualText(text: string)
      modifies this`manualText
      ensures manualText == text
    {
      manualText := text;
    }
  }
}
