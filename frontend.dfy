/**
  The browser controller: the module-level variables of the page script
  and the parts of the page its handlers change, as one object, `Page`.

  Each event handler is one method. Where the real handler waits for a
  `FileReader` or a `fetch`, the method takes the outcome as a parameter:
  `read` is the data URL the reader produced (`None` when it failed and
  `onload` never ran), `reply` is how the request ended. Requests sent
  and files saved are recorded in `requests` and `downloads`.
*/
module Frontend {
  import opened Optional
  import Backend

  /** The four mutually exclusive page sections. */
  datatype Section = Upload | Processing | Result | Error

  /** A file the user picked or dropped: its name, its MIME type and its bytes. */
  datatype File = File(name: string, mimeType: string, content: seq<Backend.Byte>)

  /** How a `fetch` to the backend ended, as the handler sees it. */
  datatype Reply =
    | Rejected(message: string)        // the promise rejected: no response at all
    | NotOk                            // a response whose `ok` is false (status outside 200..299)
    | Succeeded(image: string)         // `data.success` is truthy; `data.image`
    | Declined(error: Option<string>)  // `data.success` is falsy; `data.error`, if any

  /** A request the page sent: the multipart upload, or the JSON body for compositing. */
  datatype Request = RemoveCall(files: map<string, Backend.Upload>) | AddCall(body: Backend.AddRequest)

  /** A file save the page triggered through a temporary link. */
  datatype Download = Download(filename: string, href: string)

  const FailedToAdd: string := "Failed to add background"
  const UnknownError: string := "Unknown error"
  const NoBackgroundImage: string := "Please select a background image first"
  const NoFinalImage: string := "No final image to download. Please apply a background first."
  const NoProcessedImage: string := "No processed image to download. Please upload and process an image first."
  const FinalImageName: string := "final-image.png"
  const TransparentImageName: string := "transparent-background.png"

  /** JavaScript truthiness of a variable holding a string or `null`. */
  predicate Truthy(v: Option<string>) {
    v.Some? && v.value != ""
  }

  /** `JSON.stringify` of a string-or-`null` member. */
  function AsField(v: Option<string>): (f: Backend.Field)
    ensures f.Null? <==> v.None?
    ensures v.Some? ==> f == Backend.Text(v.value)
  {
    match v
    case None => Backend.Null
    case Some(s) => Backend.Text(s)
  }

  /** `s.startsWith(prefix)` */
  predicate StartsWith(s: string, prefix: string) {
    |prefix| <= |s| && s[..|prefix|] == prefix
  }

  /** The section `showSection(name)` unhides, if the name is one of the four. */
  function SectionNamed(name: string): (s: Option<Section>)
    ensures s.Some? <==> name in {"upload", "processing", "result", "error"}
  {
    if name == "upload" then Some(Upload)
    else if name == "processing" then Some(Processing)
    else if name == "result" then Some(Result)
    else if name == "error" then Some(Error)
    else None
  }

  /**
    What the page sees of a backend answer: first `response.ok` (a 2xx
    status), then `data.success`.
  */
  function ReplyOf(r: Backend.Response): (reply: Reply)
    ensures reply.NotOk? <==> !(200 <= r.status < 300)
    ensures reply.Succeeded? <==> 200 <= r.status < 300 && r.body.Success?
    ensures reply.Succeeded? ==> reply.image == r.body.image
  {
    if !(200 <= r.status < 300) then NotOk
    else
      match r.body
      case Success(image) => Succeeded(image)
      case Failure(e) => Declined(Some(e))
  }

  /**
    The message a compositing handler shows for a reply, or `None` when it
    succeeded: the generic text for a non-OK response, the backend's
    `error` (or "Unknown error") only for an OK response without `success`.
  */
  function CompositingError(reply: Reply): (e: Option<string>)
    ensures e.None? <==> reply.Succeeded?
    ensures reply.Rejected? ==> e == Some(reply.message)
    ensures reply.NotOk? ==> e == Some(FailedToAdd)
    ensures reply.Declined? && Truthy(reply.error) ==> e == reply.error
    ensures reply.Declined? && !Truthy(reply.error) ==> e == Some(UnknownError)
  {
    match reply
    case Rejected(message) => Some(message)
    case NotOk => Some(FailedToAdd)
    case Succeeded(_) => None
    case Declined(error) => Some(if Truthy(error) then error.value else UnknownError)
  }

  /**
    The backend never answers an error with a 2xx status, so the page only
    ever sees `NotOk` or `Succeeded` from it: the backend's error text is
    never shown.
  */
  lemma BackendRepliesAreOkOrNotOk<P>(files: map<string, Backend.Upload>, req: Backend.AddRequest, lib: Backend.Imaging<P>)
    ensures ReplyOf(Backend.RemoveBackground(files, lib)).NotOk? || ReplyOf(Backend.RemoveBackground(files, lib)).Succeeded?
    ensures ReplyOf(Backend.AddBackground(req, lib)).NotOk? || ReplyOf(Backend.AddBackground(req, lib)).Succeeded?
    ensures CompositingError(ReplyOf(Backend.AddBackground(req, lib))) in {None, Some(FailedToAdd)}
  {
  }

  /** Everything the page holds, for stating what a handler leaves alone. */
  datatype PageState = PageState(
    original: Option<string>, processed: Option<string>, background: Option<string>,
    visible: set<Section>, errorText: string,
    originalSrc: string, processedSrc: string, finalSrc: string, previewSrc: string,
    finalResultHidden: bool, previewHidden: bool,
    pickerValue: string, colorText: string,
    tabs: seq<bool>, colorTabActive: bool, imageTabActive: bool,
    requests: seq<Request>, downloads: seq<Download>)

  class Page {
    // The script's module-level variables.
    var originalImageData: Option<string>
    var processedImageData: Option<string>
    var backgroundImageData: Option<string>

    // The `hidden` class of the four sections.
    var uploadHidden: bool
    var processingHidden: bool
    var resultHidden: bool
    var errorHidden: bool

    var errorText: string          // errorMessage.textContent
    var originalSrc: string        // originalImage.src
    var processedSrc: string       // processedImage.src
    var finalSrc: string           // finalImage.src
    var previewSrc: string         // bgPreviewImage.src
    var finalResultHidden: bool    // the `hidden` class of finalResult
    var previewHidden: bool        // the `hidden` class of bgImagePreview
    var pickerValue: string        // colorPicker.value
    var colorText: string          // colorValue.textContent

    const tabNames: seq<string>    // the `data-tab` of each tab button, in page order
    const tabActive: array<bool>   // the `active` class of each tab button
    var colorTabActive: bool       // the `active` class of #colorTab
    var imageTabActive: bool       // the `active` class of #imageTab

    var requests: seq<Request>     // requests sent, oldest first
    var downloads: seq<Download>   // files saved, oldest first

    /** The sections without the `hidden` class. */
    function Visible(): set<Section>
      reads this
    {
      (if uploadHidden then {} else {Upload}) + (if processingHidden then {} else {Processing}) +
      (if resultHidden then {} else {Result}) + (if errorHidden then {} else {Error})
    }

    /** How many of the four sections are shown. */
    function ShownCount(): nat
      reads this
    {
      (if uploadHidden then 0 else 1) + (if processingHidden then 0 else 1) +
      (if resultHidden then 0 else 1) + (if errorHidden then 0 else 1)
    }

    /** One section shows, one tab panel is active, and every tab button has its flag. */
    ghost predicate Valid()
      reads this
    {
      tabActive.Length == |tabNames| && ShownCount() == 1 && colorTabActive != imageTabActive
    }

    /** A valid page shows exactly one section. */
    lemma ValidShowsOneSection()
      requires Valid()
      ensures |Visible()| == 1
      ensures Visible() == {Upload} || Visible() == {Processing} || Visible() == {Result} || Visible() == {Error}
    {
      if !uploadHidden {
        assert Visible() == {Upload};
      } else if !processingHidden {
        assert Visible() == {Processing};
      } else if !resultHidden {
        assert Visible() == {Result};
      } else {
        assert Visible() == {Error};
      }
    }

    ghost function State(): PageState
      reads this, tabActive
    {
      PageState(originalImageData, processedImageData, backgroundImageData, Visible(), errorText,
                originalSrc, processedSrc, finalSrc, previewSrc, finalResultHidden, previewHidden,
                pickerValue, colorText, tabActive[..], colorTabActive, imageTabActive, requests, downloads)
    }

    /**
      The page as loaded: the upload section shows, nothing is stored, no
      final image, the color tab is active.
    */
    constructor (tabNames: seq<string>, pickerValue: string)
      ensures Valid() && fresh(tabActive)
      ensures Visible() == {Upload}
      ensures originalImageData.None? && processedImageData.None? && backgroundImageData.None?
      ensures finalSrc == "" && finalResultHidden && previewHidden
      ensures this.tabNames == tabNames && this.pickerValue == pickerValue && colorText == pickerValue
      ensures forall k :: 0 <= k < tabActive.Length ==> tabActive[k] == (tabNames[k] == "color")
      ensures colorTabActive && requests == [] && downloads == []
    {
      originalImageData, processedImageData, backgroundImageData := None, None, None;
      uploadHidden, processingHidden, resultHidden, errorHidden := false, true, true, true;
      errorText, originalSrc, processedSrc, finalSrc, previewSrc := "", "", "", "", "";
      finalResultHidden, previewHidden := true, true;
      this.pickerValue, colorText := pickerValue, pickerValue;
      this.tabNames := tabNames;
      tabActive := new bool[|tabNames|](k => 0 <= k < |tabNames| && tabNames[k] == "color");
      colorTabActive, imageTabActive := true, false;
      requests, downloads := [], [];
      new;
      assert Visible() == {Upload};
    }

    /** `showSection`: hide all four, then unhide the one named; any other name leaves all four hidden. */
    method ShowSection(name: string)
      modifies this`uploadHidden, this`processingHidden, this`resultHidden, this`errorHidden
      ensures SectionNamed(name).Some? ==> Visible() == {SectionNamed(name).value}
      ensures SectionNamed(name).None? ==> Visible() == {}
    {
      uploadHidden, processingHidden, resultHidden, errorHidden := true, true, true, true;
      if name == "upload" {
        uploadHidden := false;
      } else if name == "processing" {
        processingHidden := false;
      } else if name == "result" {
        resultHidden := false;
      } else if name == "error" {
        errorHidden := false;
      }
    }

    /** `showError`: the message goes into the banner and only the error section shows. */
    method ShowError(message: string)
      modifies this`errorText, this`uploadHidden, this`processingHidden, this`resultHidden, this`errorHidden
      ensures errorText == message && Visible() == {Error}
    {
      errorText := message;
      ShowSection("error");
    }

    /**
      `resetApp`: the three variables are cleared, the final result and the
      preview hidden, the upload section shown. The final image keeps its
      source, so it can still be downloaded.
    */
    method ResetApp()
      requires Valid()
      modifies this`originalImageData, this`processedImageData, this`backgroundImageData
      modifies this`finalResultHidden, this`previewHidden
      modifies this`uploadHidden, this`processingHidden, this`resultHidden, this`errorHidden
      ensures Valid()
      ensures originalImageData.None? && processedImageData.None? && backgroundImageData.None?
      ensures finalResultHidden && previewHidden && Visible() == {Upload}
      ensures finalSrc == old(finalSrc)
    {
      originalImageData := None;
      processedImageData := None;
      backgroundImageData := None;
      finalResultHidden := true;
      previewHidden := true;
      ShowSection("upload");
    }

    /**
      `switchTab`: exactly the buttons whose `data-tab` is `name` become
      active; the color panel is active when `name` is "color", the image
      panel otherwise.
    */
    method SwitchTab(name: string)
      requires Valid()
      modifies tabActive, this`colorTabActive, this`imageTabActive
      ensures Valid()
      ensures forall k :: 0 <= k < tabActive.Length ==> tabActive[k] == (tabNames[k] == name)
      ensures colorTabActive == (name == "color") && imageTabActive == (name != "color")
    {
      var i := 0;
      while i < tabActive.Length
        invariant 0 <= i <= tabActive.Length
        invariant forall k :: 0 <= k < i ==> tabActive[k] == (tabNames[k] == name)
      {
        if tabNames[i] == name {
          tabActive[i] := true;
        } else {
          tabActive[i] := false;
        }
        i := i + 1;
      }
      colorTabActive, imageTabActive := false, false;
      if name == "color" {
        colorTabActive := true;
      } else {
        imageTabActive := true;
      }
    }

    /** `updateColorValue`: the label shows the picker's value. */
    method UpdateColorValue()
      modifies this`colorText
      ensures colorText == pickerValue
    {
      colorText := pickerValue;
    }

    /** A color preset's click handler: the picker takes the preset's color and the label follows. */
    method SelectPreset(color: string)
      modifies this`pickerValue, this`colorText
      ensures pickerValue == color && colorText == color
    {
      pickerValue := color;
      UpdateColorValue();
    }

    /**
      `processImage`: the processing section shows before anything is read
      or sent. Only a successful reply stores the cut-out and shows the
      result; every failure is raised inside `onload`, out of reach of the
      handler's `try`, so the page stays on the processing section and no
      error is shown.
    */
    method ProcessImage(file: File, read: Option<string>, reply: Reply)
      requires Valid()
      modifies this`originalImageData, this`originalSrc, this`processedImageData, this`processedSrc, this`requests
      modifies this`uploadHidden, this`processingHidden, this`resultHidden, this`errorHidden
      ensures Valid()
      ensures read.None? ==>
        originalImageData == old(originalImageData) && originalSrc == old(originalSrc) && requests == old(requests)
      ensures read.Some? ==>
        originalImageData == read && originalSrc == read.value &&
        requests == old(requests) + [RemoveCall(map["image" := Backend.Upload(file.name, file.content)])]
      ensures read.Some? && reply.Succeeded? ==>
        processedImageData == Some(reply.image) && processedSrc == reply.image && Visible() == {Result}
      ensures !(read.Some? && reply.Succeeded?) ==>
        processedImageData == old(processedImageData) && processedSrc == old(processedSrc) && Visible() == {Processing}
      ensures errorText == old(errorText)
    {
      ShowSection("processing");
      if read.Some? {
        originalImageData := read;
        originalSrc := read.value;
        requests := requests + [RemoveCall(map["image" := Backend.Upload(file.name, file.content)])];
        if reply.Succeeded? {
          processedImageData := Some(reply.image);
          processedSrc := reply.image;
          ShowSection("result");
        }
      }
    }

    /** `handleFileSelect`: the first chosen file, if any, is processed; its type is not checked. */
    method HandleFileSelect(files: seq<File>, read: Option<string>, reply: Reply)
      requires Valid()
      modifies this`originalImageData, this`originalSrc, this`processedImageData, this`processedSrc, this`requests
      modifies this`uploadHidden, this`processingHidden, this`resultHidden, this`errorHidden
      ensures Valid()
      ensures |files| == 0 ==> State() == old(State())
      ensures |files| > 0 ==> Visible() == (if read.Some? && reply.Succeeded? then {Result} else {Processing})
      ensures |files| > 0 && read.None? ==>
        originalImageData == old(originalImageData) && originalSrc == old(originalSrc) && requests == old(requests)
      ensures |files| > 0 && read.Some? ==>
        originalImageData == read && originalSrc == read.value &&
        requests == old(requests) + [RemoveCall(map["image" := Backend.Upload(files[0].name, files[0].content)])]
      ensures |files| > 0 && read.Some? && reply.Succeeded? ==>
        processedImageData == Some(reply.image) && processedSrc == reply.image
      ensures |files| > 0 && !(read.Some? && reply.Succeeded?) ==>
        processedImageData == old(processedImageData) && processedSrc == old(processedSrc)
    {
      if |files| > 0 {
        ProcessImage(files[0], read, reply);
      }
    }

    /** `handleDrop`: the first dropped file is processed only if its MIME type starts with `image/`. */
    method HandleDrop(files: seq<File>, read: Option<string>, reply: Reply)
      requires Valid()
      modifies this`originalImageData, this`originalSrc, this`processedImageData, this`processedSrc, this`requests
      modifies this`uploadHidden, this`processingHidden, this`resultHidden, this`errorHidden
      ensures Valid()
      ensures !(|files| > 0 && StartsWith(files[0].mimeType, "image/")) ==> State() == old(State())
      ensures |files| > 0 && StartsWith(files[0].mimeType, "image/") ==>
        Visible() == (if read.Some? && reply.Succeeded? then {Result} else {Processing})
      ensures |files| > 0 && StartsWith(files[0].mimeType, "image/") && read.None? ==>
        originalImageData == old(originalImageData) && originalSrc == old(originalSrc) && requests == old(requests)
      ensures |files| > 0 && StartsWith(files[0].mimeType, "image/") && read.Some? ==>
        originalImageData == read && originalSrc == read.value &&
        requests == old(requests) + [RemoveCall(map["image" := Backend.Upload(files[0].name, files[0].content)])]
      ensures |files| > 0 && StartsWith(files[0].mimeType, "image/") && read.Some? && reply.Succeeded? ==>
        processedImageData == Some(reply.image) && processedSrc == reply.image
      ensures |files| > 0 && StartsWith(files[0].mimeType, "image/") && !(read.Some? && reply.Succeeded?) ==>
        processedImageData == old(processedImageData) && processedSrc == old(processedSrc)
    {
      if |files| > 0 && StartsWith(files[0].mimeType, "image/") {
        ProcessImage(files[0], read, reply);
      }
    }

    /** `handleBackgroundImageSelect`: a file that was read becomes the background and is previewed. */
    method HandleBackgroundImageSelect(files: seq<File>, read: Option<string>)
      requires Valid()
      modifies this`backgroundImageData, this`previewSrc, this`previewHidden
      ensures Valid()
      ensures !(|files| > 0 && read.Some?) ==> State() == old(State())
      ensures |files| > 0 && read.Some? ==>
        backgroundImageData == read && previewSrc == read.value && !previewHidden
    {
      if |files| > 0 && read.Some? {
        backgroundImageData := read;
        previewSrc := read.value;
        previewHidden := false;
      }
    }

    /** The common end of both compositing handlers, once the reply is in. */
    method FinishCompositing(reply: Reply)
      modifies this`finalSrc, this`finalResultHidden, this`errorText
      modifies this`uploadHidden, this`processingHidden, this`resultHidden, this`errorHidden
      ensures reply.Succeeded? ==>
        finalSrc == reply.image && !finalResultHidden && Visible() == {Result} && errorText == old(errorText)
      ensures !reply.Succeeded? ==>
        finalSrc == old(finalSrc) && finalResultHidden == old(finalResultHidden) &&
        errorText == CompositingError(reply).value && Visible() == {Error}
    {
      if reply.Succeeded? {
        finalSrc := reply.image;
        finalResultHidden := false;
        ShowSection("result");
      } else {
        ShowError(CompositingError(reply).value);
      }
    }

    /**
      `applyColorBackground`: the processing section shows, the current
      cut-out (or `null`) and the picker's color are posted, and the reply
      decides between the result section with the new final image and the
      error section. The stored cut-out never changes.
    */
    method ApplyColorBackground(reply: Reply)
      requires Valid()
      modifies this`finalSrc, this`finalResultHidden, this`errorText, this`requests
      modifies this`uploadHidden, this`processingHidden, this`resultHidden, this`errorHidden
      ensures Valid()
      ensures requests == old(requests) +
        [AddCall(Backend.AddRequest(AsField(processedImageData), Backend.Text(pickerValue), Backend.Absent))]
      ensures reply.Succeeded? ==>
        finalSrc == reply.image && !finalResultHidden && Visible() == {Result} && errorText == old(errorText)
      ensures !reply.Succeeded? ==>
        finalSrc == old(finalSrc) && finalResultHidden == old(finalResultHidden) &&
        errorText == CompositingError(reply).value && Visible() == {Error}
      ensures processedImageData == old(processedImageData)
    {
      var color := pickerValue;
      ShowSection("processing");
      requests := requests + [AddCall(Backend.AddRequest(AsField(processedImageData), Backend.Text(color), Backend.Absent))];
      FinishCompositing(reply);
    }

    /**
      `applyImageBackground`: without a background image it shows an error
      and sends nothing; otherwise it behaves as the color handler, with
      the background image in place of the color.
    */
    method ApplyImageBackground(reply: Reply)
      requires Valid()
      modifies this`finalSrc, this`finalResultHidden, this`errorText, this`requests
      modifies this`uploadHidden, this`processingHidden, this`resultHidden, this`errorHidden
      ensures Valid()
      ensures !Truthy(backgroundImageData) ==>
        errorText == NoBackgroundImage && Visible() == {Error} && requests == old(requests) &&
        finalSrc == old(finalSrc) && finalResultHidden == old(finalResultHidden)
      ensures Truthy(backgroundImageData) ==>
        requests == old(requests) +
          [AddCall(Backend.AddRequest(AsField(processedImageData), Backend.Absent, Backend.Text(backgroundImageData.value)))]
      ensures Truthy(backgroundImageData) && reply.Succeeded? ==>
        finalSrc == reply.image && !finalResultHidden && Visible() == {Result} && errorText == old(errorText)
      ensures Truthy(backgroundImageData) && !reply.Succeeded? ==>
        finalSrc == old(finalSrc) && finalResultHidden == old(finalResultHidden) &&
        errorText == CompositingError(reply).value && Visible() == {Error}
      ensures processedImageData == old(processedImageData)
    {
      if !Truthy(backgroundImageData) {
        ShowError(NoBackgroundImage);
        return;
      }
      ShowSection("processing");
      requests := requests +
        [AddCall(Backend.AddRequest(AsField(processedImageData), Backend.Absent, Backend.Text(backgroundImageData.value)))];
      FinishCompositing(reply);
    }

    /** `downloadFinalImage`: refuses when the final image has no source, otherwise saves it as `final-image.png`. */
    method DownloadFinalImage()
      requires Valid()
      modifies this`errorText, this`downloads
      modifies this`uploadHidden, this`processingHidden, this`resultHidden, this`errorHidden
      ensures Valid()
      ensures finalSrc == "" ==> errorText == NoFinalImage && Visible() == {Error} && downloads == old(downloads)
      ensures finalSrc != "" ==>
        downloads == old(downloads) + [Download(FinalImageName, finalSrc)] &&
        Visible() == old(Visible()) && errorText == old(errorText)
    {
      if finalSrc == "" {
        ShowError(NoFinalImage);
        return;
      }
      downloads := downloads + [Download(FinalImageName, finalSrc)];
    }

    /** `downloadTransparentImage`: refuses without a cut-out, otherwise saves it as `transparent-background.png`. */
    method DownloadTransparentImage()
      requires Valid()
      modifies this`errorText, this`downloads
      modifies this`uploadHidden, this`processingHidden, this`resultHidden, this`errorHidden
      ensures Valid()
      ensures !Truthy(processedImageData) ==>
        errorText == NoProcessedImage && Visible() == {Error} && downloads == old(downloads)
      ensures Truthy(processedImageData) ==>
        downloads == old(downloads) + [Download(TransparentImageName, processedImageData.value)] &&
        Visible() == old(Visible()) && errorText == old(errorText)
    {
      if !Truthy(processedImageData) {
        ShowError(NoProcessedImage);
        return;
      }
      downloads := downloads + [Download(TransparentImageName, processedImageData.value)];
    }
  }

  /**
    "Start over", then "Download": the reset leaves the final image's
    source in place, so the download still saves the old final image.
  */
  method StartOverThenDownload(page: Page)
    requires page.Valid() && page.finalSrc != ""
    modifies page
    ensures page.Valid() && page.processedImageData.None?
    ensures page.downloads == old(page.downloads) + [Download(FinalImageName, old(page.finalSrc))]
  {
    page.ResetApp();
    page.DownloadFinalImage();
  }

  /**
    Applying a color against the real backend: the page ends on the
    result, or on the error section with the generic message, never with
    the backend's own error text.
  */
  method ApplyColorWithBackend<P>(page: Page, lib: Backend.Imaging<P>)
    requires page.Valid()
    modifies page
    ensures page.Valid()
    ensures page.Visible() == {Result} || (page.Visible() == {Error} && page.errorText == FailedToAdd)
  {
    var body := Backend.AddRequest(AsField(page.processedImageData), Backend.Text(page.pickerValue), Backend.Absent);
    BackendRepliesAreOkOrNotOk(map[], body, lib);
    page.ApplyColorBackground(ReplyOf(Backend.AddBackground(body, lib)));
  }

  /**
    Uploading against the real backend: a file the backend refuses (too
    large, say) leaves the page on the processing section, with no error
    shown.
  */
  method ProcessWithBackend<P>(page: Page, file: File, dataUrl: string, lib: Backend.Imaging<P>)
    requires page.Valid()
    modifies page
    ensures page.Valid() && page.errorText == old(page.errorText)
    ensures |file.content| > Backend.MaxFileSize ==> page.Visible() == {Processing}
  {
    var files := map["image" := Backend.Upload(file.name, file.content)];
    page.ProcessImage(file, Some(dataUrl), ReplyOf(Backend.RemoveBackground(files, lib)));
  }
}
