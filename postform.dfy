/**
 * The post form shared by the create page (pages/CreatePost.tsx) and the
 * edit page (pages/EditPost.tsx): the same fields, the same image upload and
 * AI image generation handlers, and the same completeness check.
 */
module PostForm {
  import opened Types
  import Text
  import Gateway

  const FillAllMessage: string := "Please fill all fields and provide an image."
  const EmptyPromptMessage: string := "Please enter a prompt for the image."
  const UnknownErrorMessage: string := "An unknown error occurred."

  /** `!title || !description || !image` is false: each is a non-empty string (no trimming). */
  function Filled(title: string, description: string, image: Option<string>): (ok: bool)
    ensures ok <==> title != "" && description != "" && image.Some? && image.value != ""
  {
    title != "" && description != "" && image.Some? && image.value != ""
  }

  /** White space counts as content for the submit check, unlike the prompt check. */
  lemma BlankTitleIsAccepted(description: string, image: string)
    requires description != "" && image != ""
    ensures Filled(" ", description, Some(image))
    ensures Text.IsBlank(" ")
  {
  }

  class Form {
    var title: string
    var description: string
    var image: Option<string>
    var imagePrompt: string
    var aspectRatio: Gateway.AspectRatio
    var isGenerating: bool
    var error: string

    /** The empty form of the create page. */
    constructor ()
      ensures title == "" && description == "" && image == None && imagePrompt == ""
      ensures aspectRatio == Gateway.DefaultRatio && !isGenerating && error == ""
    {
      title := "";
      description := "";
      image := None;
      imagePrompt := "";
      aspectRatio := Gateway.DefaultRatio;
      isGenerating := false;
      error := "";
    }

    function IsFilled(): bool
      reads this
    {
      Filled(title, description, image)
    }

    method SetFields(title: string, description: string, imagePrompt: string, ratio: Gateway.AspectRatio)
      modifies this
      ensures this.title == title && this.description == description
      ensures this.imagePrompt == imagePrompt && aspectRatio == ratio
      ensures image == old(image) && isGenerating == old(isGenerating) && error == old(error)
    {
      this.title := title;
      this.description := description;
      this.imagePrompt := imagePrompt;
      aspectRatio := ratio;
    }

    /**
     * `handleFileChange`: with a file chosen, the data URL the reader produces
     * becomes the image; without one nothing changes.
     */
    method FileChange(dataUrl: Option<string>)
      modifies this
      ensures image == if dataUrl.Some? then dataUrl else old(image)
      ensures title == old(title) && description == old(description) && error == old(error)
      ensures imagePrompt == old(imagePrompt) && isGenerating == old(isGenerating)
    {
      if dataUrl.Some? {
        image := dataUrl;
      }
    }

    /**
     * `handleImageGenerate` up to the await: a blank prompt sets the error and
     * no call is made; otherwise the generator is called (`call`) with the
     * spinner on and the error cleared.
     */
    method BeginGenerate() returns (call: bool)
      modifies this
      ensures call <==> !Text.IsBlank(old(imagePrompt))
      ensures !call ==> error == EmptyPromptMessage && isGenerating == old(isGenerating)
      ensures call ==> isGenerating && error == ""
      ensures image == old(image) && title == old(title) && description == old(description)
      ensures imagePrompt == old(imagePrompt) && aspectRatio == old(aspectRatio)
    {
      if Text.IsBlank(imagePrompt) {
        error := EmptyPromptMessage;
        return false;
      }
      isGenerating := true;
      error := "";
      return true;
    }

    /** `handleImageGenerate` after the await: the URL becomes the image, or the error is shown; the spinner stops either way. */
    method CompleteGenerate(o: Gateway.Outcome<string>)
      modifies this
      ensures !isGenerating
      ensures o.Returned? ==> image == Some(o.value) && error == old(error)
      ensures !o.Returned? ==> image == old(image) && error == Gateway.ErrorText(o, UnknownErrorMessage)
      ensures title == old(title) && description == old(description)
      ensures imagePrompt == old(imagePrompt) && aspectRatio == old(aspectRatio)
    {
      if o.Returned? {
        image := Some(o.value);
      } else {
        error := Gateway.ErrorText(o, UnknownErrorMessage);
      }
      isGenerating := false;
    }

    /** The whole handler as one step: a blank prompt never reaches the generator. */
    method GenerateImage(o: Gateway.Outcome<string>) returns (called: bool)
      modifies this
      ensures called <==> !Text.IsBlank(old(imagePrompt))
      ensures !called ==> image == old(image) && error == EmptyPromptMessage
      ensures called && o.Returned? ==> image == Some(o.value) && error == "" && !isGenerating
      ensures called && !o.Returned? ==> image == old(image) && !isGenerating
      ensures title == old(title) && description == old(description)
    {
      called := BeginGenerate();
      if called {
        CompleteGenerate(o);
      }
    }
  }
}
