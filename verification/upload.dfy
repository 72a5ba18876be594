/**
 * The screenshot drop zone (`DragDropUpload`): file validation, the
 * enter/leave counter that keeps the highlight steady while the cursor moves
 * over child elements, the upload status, and the reset.
 *
 * Whether `onFileUpload` throws and the data URL the file reader produces are
 * inputs; event objects are reduced to the counts the handlers look at.
 */
module Upload {
  import opened Wrappers
  import opened Text

  /** The parts of a browser `File` the component reads. */
  datatype FileInfo = FileInfo(name: string, mimeType: string, size: nat)

  datatype UploadStatus = Idle | Success | Failed

  const NotAnImage := "Please select an image file (PNG, JPG, JPEG)"
  const AnalyzeFailed := "Failed to analyze image. Please try again."

  /** `File size must be less than ${maxSize}MB`. */
  function TooLarge(maxSize: nat): string {
    "File size must be less than " + NatToString(maxSize) + "MB"
  }

  /** The limit in bytes: `maxSize * 1024 * 1024`. */
  function MaxBytes(maxSize: nat): nat {
    maxSize * 1024 * 1024
  }

  /** `validateFile`: the type is checked before the size; `None` means the file is accepted. */
  function ValidateFile(file: FileInfo, maxSize: nat): (r: Option<string>)
    ensures r.None? <==> StartsWith(file.mimeType, "image/") && file.size <= MaxBytes(maxSize)
    ensures !StartsWith(file.mimeType, "image/") ==> r == Some(NotAnImage)
    ensures StartsWith(file.mimeType, "image/") && file.size > MaxBytes(maxSize) ==> r == Some(TooLarge(maxSize))
  {
    if !StartsWith(file.mimeType, "image/") then Some(NotAnImage)
    else if file.size > MaxBytes(maxSize) then Some(TooLarge(maxSize))
    else None
  }

  /** The limit is inclusive: an image of exactly `maxSize` megabytes is accepted, one byte more is not. */
  lemma ExactLimitAccepted(name: string, mimeType: string, maxSize: nat)
    requires StartsWith(mimeType, "image/")
    ensures ValidateFile(FileInfo(name, mimeType, MaxBytes(maxSize)), maxSize).None?
    ensures ValidateFile(FileInfo(name, mimeType, MaxBytes(maxSize) + 1), maxSize) == Some(TooLarge(maxSize))
  {
  }

  /** A non-image is reported as such whatever its size. */
  lemma TypeCheckedFirst(file: FileInfo, maxSize: nat)
    requires !StartsWith(file.mimeType, "image/")
    ensures ValidateFile(file, maxSize) == Some(NotAnImage)
    ensures ValidateFile(file.(size := file.size + MaxBytes(maxSize) + 1), maxSize) == Some(NotAnImage)
  {
  }

  /** The size message names the limit. */
  lemma TooLargeNamesLimit(maxSize: nat)
    ensures Contains(TooLarge(maxSize), NatToString(maxSize))
  {
    ContainsSelf(NatToString(maxSize));
    ContainsInConcat("File size must be less than ", NatToString(maxSize), "MB", NatToString(maxSize));
  }

  // ---------------------------------------------------------------------------
  // The drag counter
  // ---------------------------------------------------------------------------

  /** The drag events, reduced to what the handlers read. */
  datatype DragEvent = Enter(items: nat) | Leave | Drop

  /** `dragCounter.current` and `isDragOver`. */
  datatype DragState = DragState(counter: int, over: bool)

  /** One handler's effect on the counter and the highlight. */
  function Step(s: DragState, e: DragEvent): (r: DragState)
    ensures e.Enter? ==> r.counter == s.counter + 1 && r.over == (s.over || e.items > 0)
    ensures e.Leave? ==> r.counter == s.counter - 1 && r.over == (s.over && s.counter - 1 != 0)
    ensures e.Drop? ==> r == DragState(0, false)
  {
    match e
    case Enter(items) => DragState(s.counter + 1, if items > 0 then true else s.over)
    case Leave => DragState(s.counter - 1, if s.counter - 1 == 0 then false else s.over)
    case Drop => DragState(0, false)
  }

  /** The events applied in order. */
  function Run(s: DragState, events: seq<DragEvent>): DragState
    decreases |events|
  {
    if events == [] then s else Run(Step(s, events[0]), events[1..])
  }

  lemma {:induction false} RunAppend(s: DragState, a: seq<DragEvent>, b: seq<DragEvent>)
    ensures Run(s, a + b) == Run(Run(s, a), b)
    decreases |a|
  {
    if a != [] {
      assert (a + b)[0] == a[0];
      assert (a + b)[1..] == a[1..] + b;
      RunAppend(Step(s, a[0]), a[1..], b);
    } else {
      assert a + b == b;
    }
  }

  function Enters(d: nat, items: nat): seq<DragEvent> {
    seq(d, _ => Enter(items))
  }

  function Leaves(k: nat): seq<DragEvent> {
    seq(k, _ => Leave)
  }

  /** `d` enters carrying items raise the counter by `d` and switch the highlight on. */
  lemma {:induction false} RunEnters(s: DragState, d: nat, items: nat)
    requires items > 0 && d > 0
    ensures Run(s, Enters(d, items)) == DragState(s.counter + d, true)
    decreases d
  {
    if d > 1 {
      assert Enters(d, items) == [Enter(items)] + Enters(d - 1, items);
      RunAppend(s, [Enter(items)], Enters(d - 1, items));
      RunEnters(Step(s, Enter(items)), d - 1, items);
    } else {
      assert Enters(d, items)[1..] == [];
    }
  }

  /** Leaves that keep the counter above 0 leave the highlight alone. */
  lemma {:induction false} RunLeavesAbove(s: DragState, k: nat)
    requires s.counter > k
    ensures Run(s, Leaves(k)) == DragState(s.counter - k, s.over)
    decreases k
  {
    if k > 0 {
      assert Leaves(k) == [Leave] + Leaves(k - 1);
      RunAppend(s, [Leave], Leaves(k - 1));
      RunLeavesAbove(Step(s, Leave), k - 1);
    }
  }

  /**
   * Entering `d` nested elements and leaving `k` of them keeps the zone
   * highlighted while `k < d`; leaving all `d` returns the counter to 0 and
   * clears the highlight.
   */
  lemma NestedDrag(d: nat, k: nat, items: nat)
    requires items > 0 && 0 < d && k <= d
    ensures var r := Run(DragState(0, false), Enters(d, items) + Leaves(k));
            r.counter == d - k && r.over == (k < d)
  {
    var s0 := DragState(0, false);
    RunAppend(s0, Enters(d, items), Leaves(k));
    RunEnters(s0, d, items);
    var s1 := DragState(d, true);
    if k < d {
      RunLeavesAbove(s1, k);
    } else {
      assert Leaves(k) == Leaves(k - 1) + [Leave];
      RunAppend(s1, Leaves(k - 1), [Leave]);
      RunLeavesAbove(s1, k - 1);
    }
  }

  // ---------------------------------------------------------------------------
  // The component
  // ---------------------------------------------------------------------------

  class DragDropUpload {
    const maxSize: nat
    var isDragOver: bool
    var isUploading: bool
    var uploadStatus: UploadStatus
    var preview: Option<string>
    var fileName: string
    var error: string
    var dragCounter: int
    /** The value of the hidden file input. */
    var inputValue: string

    constructor (maxSize: nat)
      ensures this.maxSize == maxSize
      ensures !isDragOver && !isUploading && uploadStatus == Idle && preview.None?
      ensures fileName == "" && error == "" && dragCounter == 0 && inputValue == ""
    {
      this.maxSize := maxSize;
      isDragOver := false;
      isUploading := false;
      uploadStatus := Idle;
      preview := None;
      fileName := "";
      error := "";
      dragCounter := 0;
      inputValue := "";
    }

    function DragOf(): DragState
      reads this
    {
      DragState(dragCounter, isDragOver)
    }

    /**
     * `handleFile`. An invalid file shows its validation message with status
     * `error` and is not uploaded. A valid file is named, previewed and
     * uploaded; afterwards the upload is over and the status is `success`
     * exactly when `onFileUpload` did not throw. `uploaded` tells whether
     * `onFileUpload` was called.
     */
    method HandleFile(file: FileInfo, dataUrl: string, uploadThrows: bool) returns (uploaded: bool)
      modifies this
      ensures uploaded <==> ValidateFile(file, maxSize).None?
      ensures !uploaded ==>
                && error == ValidateFile(file, maxSize).value && uploadStatus == Failed
                && fileName == old(fileName) && preview == old(preview) && isUploading == old(isUploading)
      ensures uploaded ==>
                && !isUploading && fileName == file.name && preview == Some(dataUrl)
                && (uploadStatus == Success <==> !uploadThrows)
                && uploadStatus != Idle
                && error == (if uploadThrows then AnalyzeFailed else "")
      ensures DragOf() == old(DragOf()) && inputValue == old(inputValue)
    {
      var validationError := ValidateFile(file, maxSize);
      if validationError.Some? {
        error := validationError.value;
        uploadStatus := Failed;
        return false;
      }
      error := "";
      fileName := file.name;
      isUploading := true;
      uploadStatus := Idle;
      preview := Some(dataUrl);
      uploaded := true;
      if uploadThrows {
        uploadStatus := Failed;
        error := AnalyzeFailed;
      } else {
        uploadStatus := Success;
      }
      isUploading := false;
    }

    /** `handleDragEnter`. */
    method DragEnter(itemCount: nat)
      modifies this
      ensures DragOf() == Step(old(DragOf()), Enter(itemCount))
      ensures isUploading == old(isUploading) && uploadStatus == old(uploadStatus) && preview == old(preview)
      ensures fileName == old(fileName) && error == old(error) && inputValue == old(inputValue)
    {
      dragCounter := dragCounter + 1;
      if itemCount > 0 {
        isDragOver := true;
      }
    }

    /** `handleDragLeave`. */
    method DragLeave()
      modifies this
      ensures DragOf() == Step(old(DragOf()), Leave)
      ensures isUploading == old(isUploading) && uploadStatus == old(uploadStatus) && preview == old(preview)
      ensures fileName == old(fileName) && error == old(error) && inputValue == old(inputValue)
    {
      dragCounter := dragCounter - 1;
      if dragCounter == 0 {
        isDragOver := false;
      }
    }

    /**
     * `handleDrop`: resets the counter and the highlight, then handles the
     * first dropped file only. The result is the file handed to `handleFile`.
     */
    method HandleDrop(files: seq<FileInfo>, dataUrl: string, uploadThrows: bool) returns (handled: Option<FileInfo>)
      modifies this
      ensures DragOf() == Step(old(DragOf()), Drop)
      ensures handled == (if |files| > 0 then Some(files[0]) else None)
      ensures files == [] ==>
                && isUploading == old(isUploading) && uploadStatus == old(uploadStatus) && preview == old(preview)
                && fileName == old(fileName) && error == old(error)
      ensures files != [] && ValidateFile(files[0], maxSize).None? ==>
                && !isUploading && fileName == files[0].name && preview == Some(dataUrl)
                && uploadStatus == (if uploadThrows then Failed else Success)
                && error == (if uploadThrows then AnalyzeFailed else "")
      ensures files != [] && ValidateFile(files[0], maxSize).Some? ==>
                && uploadStatus == Failed && error == ValidateFile(files[0], maxSize).value
                && fileName == old(fileName) && preview == old(preview) && isUploading == old(isUploading)
      ensures inputValue == old(inputValue)
    {
      isDragOver := false;
      dragCounter := 0;
      handled := None;
      if |files| > 0 {
        var file := files[0];
        var _ := HandleFile(file, dataUrl, uploadThrows);
        handled := Some(file);
      }
    }

    /** `handleFileInput`: the first file chosen in the dialog, if any, goes to `handleFile`; the drag state is untouched. */
    method HandleFileInput(files: seq<FileInfo>, dataUrl: string, uploadThrows: bool) returns (handled: Option<FileInfo>)
      modifies this
      ensures handled == (if |files| > 0 then Some(files[0]) else None)
      ensures files == [] ==>
                && isUploading == old(isUploading) && uploadStatus == old(uploadStatus) && preview == old(preview)
                && fileName == old(fileName) && error == old(error)
      ensures files != [] && ValidateFile(files[0], maxSize).None? ==>
                && !isUploading && fileName == files[0].name && preview == Some(dataUrl)
                && uploadStatus == (if uploadThrows then Failed else Success)
                && error == (if uploadThrows then AnalyzeFailed else "")
      ensures files != [] && ValidateFile(files[0], maxSize).Some? ==>
                && uploadStatus == Failed && error == ValidateFile(files[0], maxSize).value
                && fileName == old(fileName) && preview == old(preview) && isUploading == old(isUploading)
      ensures DragOf() == old(DragOf()) && inputValue == old(inputValue)
    {
      handled := None;
      if |files| > 0 {
        var _ := HandleFile(files[0], dataUrl, uploadThrows);
        handled := Some(files[0]);
      }
    }

    /** `clearUpload`: back to idle, with no preview, name or error, and an empty file input. */
    method ClearUpload()
      modifies this
      ensures uploadStatus == Idle && preview.None? && fileName == "" && error == "" && inputValue == ""
      ensures DragOf() == old(DragOf()) && isUploading == old(isUploading)
    {
      preview := None;
      fileName := "";
      uploadStatus := Idle;
      error := "";
      inputValue := "";
    }
  }
}
