/**
 * The mockup viewer: the rotation and error state kept beside the image it is given, which of
 * its four panels it shows, when its buttons work, and what download and share hand over.
 */
module MockupDisplay {

  import opened Wrappers
  import opened JsText

  /** The main area: the loading animation, the image, the failure panel, or the hint. */
  datatype DisplayMode = LoadingPanel | ImageShown | ErrorPanel | EmptyHint

  /** The link `handleDownload` clicks. */
  datatype Download = Download(href: string, fileName: string)

  /** What `handleShare` does: the native share sheet when there is one, otherwise the clipboard. */
  datatype Share = NativeShare(title: string, text: string, url: string) | CopyToClipboard(text: string)

  const DefaultTitle: string := "Your 3D mockup will appear here"

  const DownloadedToast: string := "Image downloaded successfully"

  /** A quarter turn. */
  predicate ValidRotation(degrees: int)
  {
    degrees == 0 || degrees == 90 || degrees == 180 || degrees == 270
  }

  /** `(prev + 90) % 360`; the operand is never negative, so JavaScript's `%` agrees with Dafny's. */
  function NextRotation(degrees: int): (next: int)
    requires 0 <= degrees
    ensures 0 <= next < 360
    ensures ValidRotation(degrees) ==> ValidRotation(next)
  {
    (degrees + 90) % 360
  }

  /** Four quarter turns bring any rotation in range back to where it was. */
  lemma FourTurnsIdentity(degrees: int)
    requires 0 <= degrees < 360
    ensures NextRotation(NextRotation(NextRotation(NextRotation(degrees)))) == degrees
  {
  }

  /** The download file name, stamped with the current time in milliseconds. */
  function DownloadName(now: nat): string
  {
    "3d-mockup-" + NatToDecimal(now) + ".png"
  }

  class Viewer {
    // the props
    var imageUrl: Option<string>
    var prompt: string
    var isLoading: bool
    // the state
    var rotation: int
    var isFullscreen: bool
    var imageError: bool

    predicate Valid()
      reads this
    {
      ValidRotation(rotation)
    }

    /** Mounting: no rotation, not fullscreen, no error. */
    constructor (imageUrl: Option<string>, prompt: string, isLoading: bool)
      ensures this.imageUrl == imageUrl && this.prompt == prompt && this.isLoading == isLoading
      ensures rotation == 0 && !isFullscreen && !imageError
      ensures Valid()
    {
      this.imageUrl := imageUrl;
      this.prompt := prompt;
      this.isLoading := isLoading;
      rotation := 0;
      isFullscreen := false;
      imageError := false;
    }

    /** A re-render with new props; the effect on `imageUrl` clears the error when the URL changed. */
    method ReceiveProps(newUrl: Option<string>, newPrompt: string, newLoading: bool)
      modifies this
      ensures imageUrl == newUrl && prompt == newPrompt && isLoading == newLoading
      ensures imageError <==> old(imageError) && newUrl == old(imageUrl)
      ensures rotation == old(rotation) && isFullscreen == old(isFullscreen)
      ensures newUrl != old(imageUrl) && StringTruthy(newUrl) && !newLoading ==> Display() == ImageShown
    {
      if newUrl != imageUrl {
        imageError := false;
      }
      imageUrl, prompt, isLoading := newUrl, newPrompt, newLoading;
    }

    /** `handleRotate`: a quarter turn clockwise. */
    method Rotate()
      requires Valid()
      modifies this
      ensures Valid()
      ensures rotation == NextRotation(old(rotation))
      ensures imageUrl == old(imageUrl) && prompt == old(prompt) && isLoading == old(isLoading)
      ensures isFullscreen == old(isFullscreen) && imageError == old(imageError)
    {
      rotation := (rotation + 90) % 360;
    }

    /** `handleImageError`: the image failed to load. */
    method ImageFailed()
      modifies this
      ensures imageError
      ensures imageUrl == old(imageUrl) && prompt == old(prompt) && isLoading == old(isLoading)
      ensures rotation == old(rotation) && isFullscreen == old(isFullscreen)
    {
      imageError := true;
    }

    /** The `fullscreenchange` listener: fullscreen exactly when the document has a fullscreen element. */
    method FullscreenChanged(hasFullscreenElement: bool)
      modifies this
      ensures isFullscreen == hasFullscreenElement
      ensures imageUrl == old(imageUrl) && prompt == old(prompt) && isLoading == old(isLoading)
      ensures rotation == old(rotation) && imageError == old(imageError)
    {
      isFullscreen := hasFullscreenElement;
    }

    /**
     * `handleDownload`: nothing without an image URL, otherwise a link to it named by the time,
     * followed by the success toast.
     */
    method DownloadImage(now: nat) returns (download: Option<Download>, toast: Option<string>)
      ensures download.None? <==> !StringTruthy(imageUrl)
      ensures download.Some? ==> download.value.href == imageUrl.value && download.value.fileName == DownloadName(now)
      ensures toast.Some? <==> download.Some?
      ensures toast.Some? ==> toast.value == DownloadedToast
    {
      if !StringTruthy(imageUrl) {
        return None, None;
      }
      download := Some(Download(imageUrl.value, "3d-mockup-" + NatToDecimal(now) + ".png"));
      toast := Some(DownloadedToast);
    }

    /** `handleShare`: nothing without an image URL, otherwise the share sheet or the clipboard. */
    method ShareImage(canShare: bool) returns (share: Option<Share>)
      ensures share.None? <==> !StringTruthy(imageUrl)
      ensures share.Some? && canShare ==> share.value == NativeShare("3D Mockup", prompt, imageUrl.value)
      ensures share.Some? && !canShare ==> share.value == CopyToClipboard(imageUrl.value)
    {
      if !StringTruthy(imageUrl) {
        return None;
      }
      if canShare {
        share := Some(NativeShare("3D Mockup", prompt, imageUrl.value));
      } else {
        share := Some(CopyToClipboard(imageUrl.value));
      }
    }

    /** The panel shown: loading first, then a usable image, then the failure, then the hint. */
    function Display(): DisplayMode
      reads this
    {
      if isLoading then LoadingPanel
      else if StringTruthy(imageUrl) && !imageError then ImageShown
      else if imageError then ErrorPanel
      else EmptyHint
    }

    /** The bar with "Copy Prompt", "Share" and "Download". */
    predicate ActionBarVisible()
      reads this
    {
      StringTruthy(imageUrl) && !isLoading && !imageError
    }

    predicate RotateDisabled()
      reads this
    {
      isLoading || !StringTruthy(imageUrl) || imageError
    }

    predicate FullscreenDisabled()
      reads this
    {
      isLoading || !StringTruthy(imageUrl) || imageError
    }

    /** The toolbar heading: the prompt, or a stand-in while it is empty. */
    function Title(): string
      reads this
    {
      if prompt != "" then prompt else DefaultTitle
    }
  }

  /**
   * The action bar appears exactly when the image is shown, and rotation and fullscreen work
   * exactly then too; so download and share, reachable only from that bar, always have a URL.
   */
  lemma ControlsFollowImage(v: Viewer)
    ensures v.ActionBarVisible() <==> v.Display() == ImageShown
    ensures v.RotateDisabled() <==> !v.ActionBarVisible()
    ensures v.FullscreenDisabled() <==> !v.ActionBarVisible()
    ensures v.ActionBarVisible() ==> StringTruthy(v.imageUrl)
  {
  }

  /**
   * The failure panel shows only after a load error while not loading; the hint only when there
   * is neither an image URL nor an error.
   */
  lemma PanelPrecedence(v: Viewer)
    ensures v.Display() == ErrorPanel <==> !v.isLoading && v.imageError
    ensures v.Display() == EmptyHint <==> !v.isLoading && !v.imageError && !StringTruthy(v.imageUrl)
    ensures v.isLoading ==> v.Display() == LoadingPanel
  {
  }

  /** The toolbar heading is never empty: the prompt itself, or the stand-in while there is none. */
  lemma TitleNeverEmpty(v: Viewer)
    ensures v.Title() != ""
    ensures v.prompt != "" ==> v.Title() == v.prompt
    ensures v.prompt == "" ==> v.Title() == DefaultTitle
  {
  }
}
