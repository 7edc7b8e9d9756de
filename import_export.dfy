/** The CSV upload of src/pages/ImportExport.tsx. `handleFileChange` starts an upload
    and installs two timers; each timer callback is a step of its own: `Tick` is one
    run of the 150 ms progress interval, `Complete` the 3000 ms completion, and
    `FinishUpload` the nested 500 ms timeout. */
module ImportExport {
  import opened Base

  datatype UploadResults = UploadResults(success: bool, itemsProcessed: nat, itemsAdded: nat,
                                         itemsUpdated: nat, errors: nat, warnings: seq<string>)

  /** The results the completion timer records. */
  const MockResults := UploadResults(true, 48, 36, 12, 2, [
    "Item MED-456 already exists with different attributes",
    "Item TOOL-789 has missing weight information"])

  const InvalidFormat := Toast("Invalid file format", "Please upload a CSV file", true)
  const Uploaded := Toast("Upload successful", "Your CSV file has been processed", false)
  const UploadFailed := Toast("Upload failed", "There was a problem processing your file", true)

  /** The functional update of one interval run: unchanged from 95 on, otherwise 5 more. */
  function ProgressStep(prev: int): (next: int)
    ensures prev >= 95 ==> next == prev
    ensures prev < 95 ==> next == prev + 5
  {
    if prev >= 95 then prev else prev + 5
  }

  /** The values the progress bar can hold: a multiple of 5 up to 95, or 100. */
  predicate ReachableProgress(p: int) {
    (0 <= p <= 95 && p % 5 == 0) || p == 100
  }

  /** A step keeps the progress among the reachable values. */
  lemma StepKeepsReachable(p: int)
    requires ReachableProgress(p)
    ensures ReachableProgress(ProgressStep(p))
  {
  }

  /** The progress after `k` interval runs from `p`. */
  function Ticks(p: int, k: nat): int {
    if k == 0 then p else ProgressStep(Ticks(p, k - 1))
  }

  /** From 0, the progress after `k` runs is `5k`, capped at 95. */
  lemma {:induction false} TicksFromZero(k: nat)
    ensures Ticks(0, k) == if 5 * k < 95 then 5 * k else 95
  {
    if k > 0 {
      TicksFromZero(k - 1);
    }
  }

  /** However many runs, the progress from 0 stays in {0, 5, ..., 95}. */
  lemma TicksStayBelowComplete(k: nat)
    ensures 0 <= Ticks(0, k) <= 95 && Ticks(0, k) % 5 == 0
  {
    TicksFromZero(k);
  }

  /** The line under the progress bar. */
  function StatusText(progress: int): (s: string)
    ensures s == "Processing complete!" <==> progress >= 100
    ensures progress < 100 ==> s == "Validating and importing data..."
  {
    if progress < 100 then "Validating and importing data..." else "Processing complete!"
  }

  class ImportPage {
    var isUploading: bool
    var uploadProgress: int
    var uploadResults: Option<UploadResults>
    /** Whether the progress interval is installed and not yet cleared. */
    var intervalActive: bool

    /** The page's invariant: the progress is one of the reachable values. */
    predicate Valid()
      reads this
    {
      ReachableProgress(uploadProgress)
    }

    constructor ()
      ensures !isUploading && uploadProgress == 0 && uploadResults.None? && !intervalActive
      ensures Valid()
    {
      isUploading, uploadProgress, uploadResults, intervalActive := false, 0, None, false;
    }

    /** `handleFileChange` up to the installation of the timers: no file leaves everything
        as it was, a name without `.csv` only toasts, otherwise the upload starts at 0. */
    method HandleFileChange(fileName: Option<string>) returns (toast: Option<Toast>)
      requires Valid()
      modifies this
      ensures Valid()
      ensures uploadResults == old(uploadResults)
      ensures fileName.None? ==>
        (toast.None? && isUploading == old(isUploading) &&
         uploadProgress == old(uploadProgress) && intervalActive == old(intervalActive))
      ensures fileName.Some? && !EndsWith(fileName.value, ".csv") ==>
        (toast == Some(InvalidFormat) && isUploading == old(isUploading) &&
         uploadProgress == old(uploadProgress) && intervalActive == old(intervalActive))
      ensures fileName.Some? && EndsWith(fileName.value, ".csv") ==>
        (toast.None? && isUploading && uploadProgress == 0 && intervalActive)
    {
      if fileName.None? {
        return None;
      }
      if !EndsWith(fileName.value, ".csv") {
        return Some(InvalidFormat);
      }
      isUploading := true;
      uploadProgress := 0;
      intervalActive := true;
      toast := None;
    }

    /** One run of the progress interval; at 95 or more it clears itself. */
    method Tick()
      requires Valid() && intervalActive
      modifies this
      ensures Valid()
      ensures uploadProgress == ProgressStep(old(uploadProgress))
      ensures intervalActive <==> old(uploadProgress) < 95
      ensures isUploading == old(isUploading) && uploadResults == old(uploadResults)
    {
      if uploadProgress >= 95 {
        intervalActive := false;
      } else {
        uploadProgress := uploadProgress + 5;
      }
    }

    /** The completion timer: the interval is cleared, the progress set to 100 and the
        results recorded; `isUploading` stays set until `FinishUpload`. */
    method Complete() returns (toast: Toast)
      requires Valid()
      modifies this
      ensures Valid()
      ensures !intervalActive && uploadProgress == 100 && uploadResults == Some(MockResults)
      ensures isUploading == old(isUploading)
      ensures toast == Uploaded
    {
      intervalActive := false;
      uploadProgress := 100;
      uploadResults := Some(MockResults);
      toast := Uploaded;
    }

    /** The nested 500 ms timeout. */
    method FinishUpload()
      requires Valid()
      modifies this
      ensures Valid()
      ensures !isUploading
      ensures uploadProgress == old(uploadProgress) && uploadResults == old(uploadResults)
      ensures intervalActive == old(intervalActive)
    {
      isUploading := false;
    }

    /** The `catch` block: interval cleared, progress back to 0, upload over. */
    method Fail() returns (toast: Toast)
      requires Valid()
      modifies this
      ensures Valid()
      ensures !intervalActive && uploadProgress == 0 && !isUploading
      ensures uploadResults == old(uploadResults)
      ensures toast == UploadFailed
    {
      intervalActive := false;
      uploadProgress := 0;
      isUploading := false;
      toast := UploadFailed;
    }
  }
}
