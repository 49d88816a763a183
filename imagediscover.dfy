/**
 * The image search page (pages/ImageDiscover.tsx): like the place search,
 * but the search also needs the uploaded image, encoded before the call.
 */
module ImageDiscover {
  import opened Types
  import Text
  import opened Gateway
  import Discover

  const DefaultPrompt: string := "Where can I find this dish near me?"
  const EmptyPromptMessage: string := "Please enter a prompt."
  const NoImageMessage: string := "Please upload an image."
  const BadFileMessage: string := "Could not process the image file."

  /** The chosen file as the page sees it: its object URL for the preview and its MIME type. */
  datatype FileRef = FileRef(previewUrl: string, mimeType: string)

  /** `{ data, mimeType }` sent with the search. */
  datatype ImageData = ImageData(data: string, mimeType: string)

  /** Which message a search attempt shows before any call: the prompt is checked first. */
  function Refusal(prompt: string, imageData: Option<ImageData>): (msg: Option<string>)
    ensures Text.IsBlank(prompt) ==> msg == Some(EmptyPromptMessage)
    ensures !Text.IsBlank(prompt) && imageData.None? ==> msg == Some(NoImageMessage)
    ensures msg.None? <==> !Text.IsBlank(prompt) && imageData.Some?
  {
    if Text.IsBlank(prompt) then Some(EmptyPromptMessage)
    else if imageData.None? then Some(NoImageMessage)
    else None
  }

  class Page {
    var prompt: string
    var location: Option<Location>
    var loading: bool
    var error: string
    var result: Option<SearchResult>
    var file: Option<FileRef>
    var preview: Option<string>
    var imageData: Option<ImageData>
    var locationStatus: string

    constructor ()
      ensures prompt == DefaultPrompt && location == None && !loading && error == ""
      ensures result == None && file == None && preview == None && imageData == None
      ensures locationStatus == Discover.FetchingStatus
      ensures UploadLabel() == "Upload a file" && SearchDisabled()
    {
      prompt := DefaultPrompt;
      location := None;
      loading := false;
      error := "";
      result := None;
      file := None;
      preview := None;
      imageData := None;
      locationStatus := Discover.FetchingStatus;
    }

    /**
     * Disabled while searching, without a location, or without encoded image
     * data: a click on the enabled button can only be refused for its prompt,
     * never for a missing image.
     */
    function SearchDisabled(): (d: bool)
      reads this
      ensures !d ==> location.Some? && !loading && imageData.Some?
      ensures !d ==> Refusal(prompt, imageData) != Some(NoImageMessage)
      ensures loading || location.None? || imageData.None? ==> d
    {
      loading || location.None? || imageData.None?
    }

    /** The upload label: "Change image" once a file was chosen. */
    function UploadLabel(): (caption: string)
      reads this
      ensures caption == "Change image" <==> file.Some?
      ensures caption == "Upload a file" <==> file.None?
    {
      if file.Some? then "Change image" else "Upload a file"
    }

    method SetPrompt(text: string)
      modifies this
      ensures prompt == text && imageData == old(imageData) && loading == old(loading)
      ensures error == old(error) && result == old(result)
    {
      prompt := text;
    }

    /** The geolocation callbacks, with the same messages as the place search. */
    method LocationReport(position: Option<Location>)
      modifies this
      ensures position.Some? ==> location == position && locationStatus == Discover.AcquiredStatus
                                 && error == old(error)
      ensures position.None? ==> location == old(location) && locationStatus == Discover.FailedStatus
                                 && error == Discover.LocationErrorMessage
      ensures prompt == old(prompt) && imageData == old(imageData) && result == old(result)
    {
      if position.Some? {
        location := position;
        locationStatus := Discover.AcquiredStatus;
      } else {
        error := Discover.LocationErrorMessage;
        locationStatus := Discover.FailedStatus;
      }
    }

    /**
     * `handleFileChange`: a chosen file is shown and the error cleared; its
     * encoding then becomes the image data, or on failure the data is
     * cleared and the error set. Without a file nothing changes.
     */
    method FileChange(chosen: Option<FileRef>, encoded: Outcome<string>)
      modifies this
      ensures chosen.None? ==> file == old(file) && preview == old(preview)
                               && imageData == old(imageData) && error == old(error)
      ensures chosen.Some? ==> file == chosen && preview == Some(chosen.value.previewUrl)
      ensures chosen.Some? && encoded.Returned? ==>
        imageData == Some(ImageData(encoded.value, chosen.value.mimeType)) && error == ""
      ensures chosen.Some? && !encoded.Returned? ==> imageData == None && error == BadFileMessage
      ensures prompt == old(prompt) && loading == old(loading) && result == old(result)
      ensures location == old(location)
      ensures chosen.Some? ==> UploadLabel() == "Change image"
      ensures chosen.Some? && !encoded.Returned? ==> SearchDisabled()
      ensures chosen.Some? && encoded.Returned? ==> (SearchDisabled() <==> loading || location.None?)
    {
      if chosen.None? {
        return;
      }
      file := chosen;
      preview := Some(chosen.value.previewUrl);
      error := "";
      if encoded.Returned? {
        imageData := Some(ImageData(encoded.value, chosen.value.mimeType));
      } else {
        error := BadFileMessage;
        imageData := None;
      }
    }

    /**
     * `handleSearch` up to the await: the prompt check, then the image check,
     * each setting its message and making no call; otherwise the error and
     * the previous result are cleared and the spinner is on.
     */
    method BeginSearch() returns (call: bool)
      modifies this
      ensures call <==> Refusal(old(prompt), old(imageData)).None?
      ensures !call ==> error == Refusal(old(prompt), old(imageData)).value
                        && loading == old(loading) && result == old(result)
      ensures call ==> loading && error == "" && result == None
      ensures call ==> SearchDisabled()
      ensures prompt == old(prompt) && imageData == old(imageData)
    {
      if Text.IsBlank(prompt) {
        error := EmptyPromptMessage;
        return false;
      }
      if imageData.None? {
        error := NoImageMessage;
        return false;
      }
      loading := true;
      error := "";
      result := None;
      return true;
    }

    /** `handleSearch` after the await. */
    method CompleteSearch(o: Outcome<SearchResult>)
      modifies this
      ensures !loading
      ensures o.Returned? ==> result == Some(o.value) && error == old(error)
      ensures !o.Returned? ==> result == old(result) && error == ErrorText(o, Discover.UnknownErrorMessage)
      ensures prompt == old(prompt) && imageData == old(imageData)
    {
      if o.Returned? {
        result := Some(o.value);
      } else {
        error := ErrorText(o, Discover.UnknownErrorMessage);
      }
      loading := false;
    }

    /** The whole handler as one step: without image data the service is never called. */
    method Search(o: Outcome<SearchResult>) returns (called: bool)
      modifies this
      ensures old(imageData).None? ==> !called
      ensures called <==> !Text.IsBlank(old(prompt)) && old(imageData).Some?
      ensures called ==> !loading
      ensures called && o.Returned? ==> result == Some(o.value) && error == ""
    {
      called := BeginSearch();
      if called {
        CompleteSearch(o);
      }
    }

    /**
     * The rendered result: the same line blocks and map sources as the place
     * search. The blocks give back the answer's text, and the sources section
     * lists exactly the chunks' map references, absent without chunks.
     */
    function Rendered(): (r: Option<(seq<Discover.Block>, Option<seq<MapsRef>>)>)
      reads this
      ensures r.None? <==> result.None?
      ensures r.Some? ==> var blocks := r.value.0;
        Text.Join(seq(|blocks|, i requires 0 <= i < |blocks| => Discover.Source(blocks[i])), '\n')
          == result.value.text
      ensures r.Some? ==> (r.value.1.None? <==> |result.value.groundingChunks| == 0)
      ensures r.Some? && r.value.1.Some? ==>
        forall m :: m in r.value.1.value <==> Chunk(Some(m)) in result.value.groundingChunks
    {
      if result.None? then None
      else
        Discover.RenderingIsLossless(result.value.text);
        Some((Discover.RenderLines(result.value.text), Discover.SourcesSection(result.value)))
    }
  }
}
