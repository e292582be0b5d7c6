/**
 * The upload drawer: when a click outside closes it, which dropped or picked file starts an
 * upload, and which of the header close button, the Done button, the tracker and the drop zone
 * are shown for a processing record.
 */
module UploadDrawer {
  import opened Wrappers
  import opened Strings
  import opened FeedTypes
  import opened App

  const IMAGE_MIME_PREFIX: string := "image/"

  /** A file the browser hands over; only its MIME type matters here. */
  datatype FileInfo = FileInfo(name: string, mimeType: string)

  /**
   * A mouse-down outside the drawer closes it only when the drawer is mounted and open, the
   * target lies outside it and nothing is processing.
   */
  function ClickOutsideCloses(mounted: bool, targetInside: bool, isOpen: bool, isProcessing: bool): (closes: bool)
    ensures closes ==> isOpen && !isProcessing && !targetInside
    ensures mounted && isOpen && !isProcessing && !targetInside ==> closes
  {
    mounted && !targetInside && isOpen && !isProcessing
  }

  /** A drop: ignored while processing; otherwise the first file, if it is an image. */
  function DropAccepts(isProcessing: bool, files: seq<FileInfo>): (upload: Option<FileInfo>)
    ensures isProcessing ==> upload.None?
    ensures upload.Some? ==> |files| > 0 && upload.value == files[0] && StartsWith(files[0].mimeType, IMAGE_MIME_PREFIX)
    ensures !isProcessing && |files| > 0 && StartsWith(files[0].mimeType, IMAGE_MIME_PREFIX) ==> upload.Some?
  {
    if isProcessing then None
    else if |files| > 0 && StartsWith(files[0].mimeType, IMAGE_MIME_PREFIX) then Some(files[0])
    else None
  }

  /** A pick in the file dialog: the first file, whatever its type. */
  function SelectAccepts(files: seq<FileInfo>): (upload: Option<FileInfo>)
    ensures upload.Some? <==> |files| > 0
    ensures upload.Some? ==> upload.value == files[0]
  {
    if |files| > 0 then Some(files[0]) else None
  }

  /** The header close button is shown only when nothing is processing. */
  predicate ShowsCloseButton(p: ProcessingState)
  {
    !p.isProcessing
  }

  /** The Done button is shown at step 5 with a verdict recorded. */
  predicate ShowsDoneButton(p: ProcessingState)
  {
    p.step == 5 && Truthy(p.finalStatus)
  }

  /** The tracker replaces the drop zone while processing. */
  predicate ShowsTracker(p: ProcessingState)
  {
    p.isProcessing
  }

  /** Some control of the open drawer calls `onClose` for this record. */
  predicate CanDismiss(p: ProcessingState)
  {
    ShowsCloseButton(p) || ShowsDoneButton(p) || ClickOutsideCloses(true, false, true, p.isProcessing)
  }

  /** A drop that starts an upload would also start it from the file dialog; the dialog checks no type. */
  lemma DropStricterThanSelect(isProcessing: bool, files: seq<FileInfo>)
    ensures DropAccepts(isProcessing, files).Some? ==> DropAccepts(isProcessing, files) == SelectAccepts(files)
    ensures SelectAccepts([FileInfo("notes.txt", "text/plain")]).Some?
    ensures DropAccepts(false, [FileInfo("notes.txt", "text/plain")]).None?
  {
    assert "text/plain"[0] != IMAGE_MIME_PREFIX[5];
  }

  /** While processing without a verdict no control closes the drawer. */
  lemma StuckWithoutVerdict(p: ProcessingState)
    requires p.isProcessing && !Truthy(p.finalStatus)
    ensures !CanDismiss(p)
    ensures ShowsTracker(p) && !ShowsCloseButton(p) && !ShowsDoneButton(p)
  {
  }

  /**
   * Step timers move only the step and a poll that times out leaves the record as it was, so an
   * upload still processing with no verdict stays impossible to dismiss whatever timers fire.
   */
  lemma {:induction false} StuckThroughStepTimers(p: ProcessingState, targets: seq<int>)
    requires p.isProcessing && !Truthy(p.finalStatus)
    ensures !CanDismiss(StepTimers(p, targets))
    decreases |targets|
  {
    if targets != [] {
      StuckThroughStepTimers(StepTimer(p, targets[0]), targets[1..]);
    }
  }

  /** Dismissing is possible exactly when idle or when a verdict is shown at step 5. */
  lemma DismissIff(p: ProcessingState)
    ensures CanDismiss(p) <==> !p.isProcessing || (p.step == 5 && Truthy(p.finalStatus))
  {
  }

  /** The drag highlight of the drop zone. */
  class Drawer {
    var isDragging: bool

    constructor ()
      ensures !isDragging
    {
      isDragging := false;
    }

    method DragOver()
      modifies this
      ensures isDragging
    {
      isDragging := true;
    }

    method DragLeave()
      modifies this
      ensures !isDragging
    {
      isDragging := false;
    }

    /** A drop ends the highlight and yields the file to upload, if any. */
    method Drop(isProcessing: bool, files: seq<FileInfo>) returns (upload: Option<FileInfo>)
      modifies this
      ensures !isDragging
      ensures upload == DropAccepts(isProcessing, files)
    {
      isDragging := false;
      if isProcessing {
        return None;
      }
      if |files| > 0 && StartsWith(files[0].mimeType, IMAGE_MIME_PREFIX) {
        return Some(files[0]);
      }
      return None;
    }
  }
}
