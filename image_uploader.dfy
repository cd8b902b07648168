/**
 * The image uploader: file validation, the preview, and the analyze cycle
 * that converts the preview, uploads it to the "crop-images" bucket and
 * invokes the "analyze-crop" function. Storage and function calls are
 * outcomes given as parameters.
 */
module ImageUploader {
  import opened Basics
  import opened Text

  datatype AnalysisType = Pest | Soil | Disease

  function TypeName(t: AnalysisType): string {
    match t
    case Pest => "pest"
    case Soil => "soil"
    case Disease => "disease"
  }

  /** The size ceiling, 5 MiB. */
  const MaxImageBytes: nat := 5 * 1024 * 1024

  /** The `type` and `size` of the first selected file. */
  datatype SelectedFile = SelectedFile(mimeType: string, size: nat)

  /** How `handleFileSelect` judges a selection. */
  datatype FileCheck = NoFile | NotAnImage | TooLarge | Accepted

  function CheckFile(file: Option<SelectedFile>): (r: FileCheck)
    ensures r == Accepted <==>
              file.Some? && StartsWith(file.value.mimeType, "image/") && file.value.size <= MaxImageBytes
    ensures r == NoFile <==> file.None?
    ensures r == NotAnImage <==> file.Some? && !StartsWith(file.value.mimeType, "image/")
    ensures r == TooLarge <==>
              file.Some? && StartsWith(file.value.mimeType, "image/") && file.value.size > MaxImageBytes
  {
    if file.None? then NoFile
    else if !StartsWith(file.value.mimeType, "image/") then NotAnImage
    else if file.value.size > MaxImageBytes then TooLarge
    else Accepted
  }

  /** The type test comes first; exactly 5 MiB passes and one byte more does not. */
  lemma FileCheckBoundaries()
    ensures CheckFile(Some(SelectedFile("text/plain", 10))) == NotAnImage
    ensures CheckFile(Some(SelectedFile("text/plain", MaxImageBytes + 1))) == NotAnImage
    ensures CheckFile(Some(SelectedFile("image/jpeg", MaxImageBytes))) == Accepted
    ensures CheckFile(Some(SelectedFile("image/jpeg", MaxImageBytes + 1))) == TooLarge
  {
    assert "text/plain"[..6] != "image/" by { assert "text/plain"[0] != 'i'; }
  }

  /** A destructive toast. */
  datatype Toast = Toast(title: string, description: Option<string>)

  /** The toast `handleFileSelect` raises for a rejected selection, and none otherwise. */
  function RejectionToast(check: FileCheck): (r: Option<Toast>)
    ensures r.Some? <==> check == NotAnImage || check == TooLarge
    ensures r.Some? ==> r.value.description.None?
  {
    match check
    case NotAnImage => Some(Toast("Please select an image file", None))
    case TooLarge => Some(Toast("Image must be less than 5MB", None))
    case _ => None
  }

  /** `error.message || 'Please try again'`. */
  function FailureDescription(message: string): (r: string)
    ensures r != ""
    ensures message != "" ==> r == message
  {
    if message != "" then message else "Please try again"
  }

  /** The body of the `analyze-crop` invocation. */
  datatype AnalysisRequest = AnalysisRequest(imageUrl: string, analysisType: string, language: string)

  /** The outcome of an awaited step that either completes or throws an error with a message. */
  datatype Outcome = Completed | Threw(message: string)

  /** The outcome of `functions.invoke`: the response's `analysis`, or an error. */
  datatype Invocation = Answered(analysis: string) | InvokeFailed(message: string)

  /** The two busy flags as the button renders them. */
  datatype Flags = Flags(isUploading: bool, isAnalyzing: bool)

  class Uploader {
    /** The `analysisType` prop. */
    const analysisType: AnalysisType
    /** The `imagePreview` state: a data URL, or null. */
    var imagePreview: Option<string>
    var isUploading: bool
    var isAnalyzing: bool
    /** Every body sent to the analysis function, in order. */
    var requests: seq<AnalysisRequest>
    /** Every argument passed to `onAnalysisComplete`, in order. */
    var delivered: seq<string>
    var toasts: seq<Toast>

    constructor (analysisType: AnalysisType)
      ensures this.analysisType == analysisType
      ensures imagePreview.None? && !isUploading && !isAnalyzing
      ensures requests == [] && delivered == [] && toasts == []
    {
      this.analysisType := analysisType;
      imagePreview := None;
      isUploading, isAnalyzing := false, false;
      requests, delivered, toasts := [], [], [];
    }

    /**
     * `handleFileSelect`, with the file reader's `load` taken as immediate:
     * no file does nothing, a rejected file raises its toast and keeps the
     * preview, an accepted one becomes the preview.
     */
    method SelectFile(file: Option<SelectedFile>, dataUrl: string)
      requires StartsWith(dataUrl, "data:")
      modifies this`imagePreview, this`toasts
      ensures CheckFile(file) == Accepted ==> imagePreview == Some(dataUrl) && toasts == old(toasts)
      ensures CheckFile(file) != Accepted ==> imagePreview == old(imagePreview)
      ensures RejectionToast(CheckFile(file)).None? ==> toasts == old(toasts)
      ensures RejectionToast(CheckFile(file)).Some? ==> toasts == old(toasts) + [RejectionToast(CheckFile(file)).value]
    {
      if file.None? {
        return;
      }
      if !StartsWith(file.value.mimeType, "image/") {
        toasts := toasts + [RejectionToast(NotAnImage).value];
        return;
      }
      if file.value.size > MaxImageBytes {
        toasts := toasts + [RejectionToast(TooLarge).value];
        return;
      }
      imagePreview := Some(dataUrl);
    }

    /**
     * `handleAnalyze`. `conversion` is the fetch of the preview into a blob,
     * `upload` the storage upload, `publicUrl` what `getPublicUrl` returns and
     * `invocation` the function call. `trace` lists the flag states the
     * component shows while awaiting, in order.
     */
    method Analyze(language: string, conversion: Outcome, upload: Outcome, publicUrl: string,
                   invocation: Invocation) returns (trace: seq<Flags>)
      modifies this`isUploading, this`isAnalyzing, this`requests, this`delivered, this`toasts
      ensures old(imagePreview).Some? ==> !isUploading && !isAnalyzing
      ensures old(imagePreview).None? ==>
                trace == [] && requests == old(requests) && delivered == old(delivered) &&
                toasts == old(toasts) && isUploading == old(isUploading) && isAnalyzing == old(isAnalyzing)
      // The function is invoked exactly when the preview converts and uploads.
      ensures requests == old(requests) +
                if old(imagePreview).Some? && conversion.Completed? && upload.Completed?
                then [AnalysisRequest(publicUrl, TypeName(analysisType), language)] else []
      // The result is delivered exactly when every step succeeds.
      ensures delivered == old(delivered) +
                if old(imagePreview).Some? && conversion.Completed? && upload.Completed? && invocation.Answered?
                then [invocation.analysis] else []
      ensures old(imagePreview).Some? && conversion.Threw? ==>
                toasts == old(toasts) + [Toast("Analysis failed", Some(FailureDescription(conversion.message)))]
      ensures old(imagePreview).Some? && conversion.Completed? && upload.Threw? ==>
                toasts == old(toasts) + [Toast("Analysis failed", Some(FailureDescription(upload.message)))]
      ensures old(imagePreview).Some? && conversion.Completed? && upload.Completed? && invocation.InvokeFailed? ==>
                toasts == old(toasts) + [Toast("Analysis failed", Some(FailureDescription(invocation.message)))]
      ensures old(imagePreview).Some? && conversion.Completed? && upload.Completed? && invocation.Answered? ==>
                toasts == old(toasts)
      // Busy while uploading, then analysing only once the upload succeeded, then idle.
      ensures old(imagePreview).Some? ==>
                trace == [Flags(true, true)]
                         + (if conversion.Completed? && upload.Completed? then [Flags(false, true)] else [])
                         + [Flags(false, false)]
    {
      if imagePreview.None? {
        return [];
      }
      isAnalyzing := true;
      isUploading := true;
      trace := [Flags(isUploading, isAnalyzing)];
      var failure: Option<string> := None;
      if conversion.Threw? {
        failure := Some(conversion.message);
      } else if upload.Threw? {
        failure := Some(upload.message);
      } else {
        isUploading := false;
        trace := trace + [Flags(isUploading, isAnalyzing)];
        requests := requests + [AnalysisRequest(publicUrl, TypeName(analysisType), language)];
        match invocation
        case Answered(analysis) =>
          delivered := delivered + [analysis];
        case InvokeFailed(message) =>
          failure := Some(message);
      }
      if failure.Some? {
        toasts := toasts + [Toast("Analysis failed", Some(FailureDescription(failure.value)))];
      }
      isUploading := false;
      isAnalyzing := false;
      trace := trace + [Flags(isUploading, isAnalyzing)];
    }

    /** `clearImage`. */
    method ClearImage()
      modifies this`imagePreview
      ensures imagePreview.None?
    {
      imagePreview := None;
    }
  }
}
