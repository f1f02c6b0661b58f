/**
 * The simulated upload page (src/app/upload/page.tsx): four pieces of state,
 * the file-type check, the start of an upload, one tick of the progress
 * interval, the processing timer, the reset and the status line.
 */
module SimulatedUpload {
  import opened Wrappers
  import opened Text
  import opened Files

  datatype UploadStatus = Idle | Uploading | Processing | Completed | Error

  const SelectAudioAlert := "Please select an audio file"

  /** `file.type.startsWith('audio/')`. */
  predicate IsAudio(f: File)
  {
    StartsWith(f.mimeType, "audio/")
  }

  /** Progress values the page can show: 0 to 100 in steps of ten. */
  predicate ProgressInRange(p: int)
  {
    0 <= p <= 100 && p % 10 == 0
  }

  /** The value the progress updater returns for `prev`. */
  function NextProgress(prev: int): (next: int)
    ensures ProgressInRange(prev) ==> ProgressInRange(next) && prev <= next
    ensures ProgressInRange(prev) ==> (next == 100 <==> prev >= 90)
  {
    if prev >= 100 then 100 else prev + 10
  }

  /** The progress after `n` interval ticks from the 0 an upload starts at. */
  function ProgressAfter(n: nat): int
  {
    if n == 0 then 0 else NextProgress(ProgressAfter(n - 1))
  }

  /** Ten ticks reach 100 and it then stays there; every value on the way is a legal one. */
  lemma {:induction false} ProgressAfterTicks(n: nat)
    ensures ProgressAfter(n) == if n <= 10 then 10 * n else 100
    ensures ProgressInRange(ProgressAfter(n))
  {
    if n > 0 {
      ProgressAfterTicks(n - 1);
    }
  }

  /** `getStatusMessage`. */
  function StatusMessage(s: UploadStatus): string
  {
    match s
    case Uploading => "Uploading your audio file..."
    case Processing => "Processing audio with AI..."
    case Completed => "Upload completed successfully!"
    case Error => "Upload failed. Please try again."
    case Idle => "Ready to upload"
  }

  /** Each status has its own message, and `idle` reads "Ready to upload". */
  lemma StatusMessageIdentifiesStatus(a: UploadStatus, b: UploadStatus)
    ensures StatusMessage(Idle) == "Ready to upload"
    ensures StatusMessage(a) == StatusMessage(b) ==> a == b
  {
  }

  class UploadPage {
    var selectedFile: Option<File>
    var isUploading: bool
    var uploadProgress: int
    var uploadStatus: UploadStatus

    ghost predicate Valid()
      reads this
    {
      ProgressInRange(uploadProgress)
    }

    constructor ()
      ensures Valid()
      ensures selectedFile == None && !isUploading && uploadProgress == 0 && uploadStatus == Idle
    {
      selectedFile := None;
      isUploading := false;
      uploadProgress := 0;
      uploadStatus := Idle;
    }

    /** `handleFileSelect`: only an audio file replaces the selection; anything else alerts. */
    method HandleFileSelect(file: Option<File>) returns (alert: Option<string>)
      requires Valid()
      modifies this
      ensures Valid()
      ensures alert.None? <==> file.Some? && IsAudio(file.value)
      ensures alert.Some? ==> alert.value == SelectAudioAlert
      ensures selectedFile == if alert.None? then file else old(selectedFile)
      ensures isUploading == old(isUploading) && uploadProgress == old(uploadProgress) && uploadStatus == old(uploadStatus)
    {
      if file.Some? && IsAudio(file.value) {
        selectedFile := file;
        alert := None;
      } else {
        alert := Some(SelectAudioAlert);
      }
    }

    /**
     * `handleUpload` up to the start of its timers: without a file it only
     * alerts; otherwise the upload starts from zero.
     */
    method HandleUpload() returns (alert: Option<string>)
      requires Valid()
      modifies this
      ensures Valid()
      ensures alert.Some? <==> old(selectedFile).None?
      ensures alert.Some? ==> alert.value == SelectAudioAlert && unchanged(this)
      ensures alert.None? ==> isUploading && uploadStatus == Uploading && uploadProgress == 0
      ensures selectedFile == old(selectedFile)
    {
      if selectedFile.None? {
        alert := Some(SelectAudioAlert);
        return;
      }
      alert := None;
      isUploading := true;
      uploadStatus := Uploading;
      uploadProgress := 0;
    }

    /**
     * One run of the interval callback: the updater advances the progress,
     * and once it finds 100 it ends the upload as completed.
     */
    method ProgressTick()
      requires Valid()
      modifies this
      ensures Valid()
      ensures uploadProgress == NextProgress(old(uploadProgress))
      ensures old(uploadProgress) >= 100 ==> !isUploading && uploadStatus == Completed
      ensures old(uploadProgress) < 100 ==> isUploading == old(isUploading) && uploadStatus == old(uploadStatus)
      ensures selectedFile == old(selectedFile)
    {
      if uploadProgress >= 100 {
        isUploading := false;
        uploadStatus := Completed;
        uploadProgress := 100;
      } else {
        uploadProgress := uploadProgress + 10;
      }
    }

    /** The processing timer: it only relabels the status. */
    method ProcessingTimeout()
      requires Valid()
      modifies this
      ensures Valid()
      ensures uploadStatus == Processing
      ensures selectedFile == old(selectedFile) && isUploading == old(isUploading) && uploadProgress == old(uploadProgress)
    {
      uploadStatus := Processing;
    }

    /** `handleReset`: clears the file, the progress and the status, but not `isUploading`. */
    method HandleReset()
      requires Valid()
      modifies this
      ensures Valid()
      ensures selectedFile == None && uploadProgress == 0 && uploadStatus == Idle
      ensures isUploading == old(isUploading)
    {
      selectedFile := None;
      uploadProgress := 0;
      uploadStatus := Idle;
    }

    /** The Upload button's `disabled` (line 132): enabled only with a file and no upload running. */
    predicate UploadDisabled()
      reads this
    {
      selectedFile.None? || isUploading
    }

    /** Pressing an enabled Upload button always starts an upload. */
    method PressUpload() returns (alert: Option<string>)
      requires Valid() && !UploadDisabled()
      modifies this
      ensures Valid()
      ensures alert.None? && isUploading && uploadStatus == Uploading && uploadProgress == 0
      ensures UploadDisabled()
      ensures selectedFile == old(selectedFile)
    {
      alert := HandleUpload();
    }
  }
}
