/** `BlueskyPostBuilder` of `services/bluesky_post_builder.py`: log in, then
    make exactly one post, choosing between a YouTube card, a video, a
    thumbnail image and plain text. */
module BlueskyPostBuilder {
  import opened Wrappers
  import Bluesky

  /** The posting method the builder calls. */
  datatype PostingChoice =
    | FacetPost(youtubeUrl: string)
    | VideoPost(videoPath: string)
    | ImagePost(thumbnailPath: string, altText: string)
    | TextPost

  /** An optional argument that Python treats as true: present and not empty. */
  predicate Truthy(o: Option<string>)
  {
    o.Some? && o.value != []
  }

  /** The `if`/`elif` chain of `post_content_with_media`; `pathExists` is
      `os.path.exists`. */
  function ChoosePosting(useYoutubeFacets: bool, youtubeUrl: Option<string>, videoPath: Option<string>,
                         thumbnailPath: Option<string>, videoTitle: string, pathExists: string -> bool)
    : (c: PostingChoice)
    ensures c.FacetPost? <==> useYoutubeFacets && Truthy(youtubeUrl)
    ensures c.VideoPost? <==> !(useYoutubeFacets && Truthy(youtubeUrl)) && Truthy(videoPath) && pathExists(videoPath.value)
    ensures c.ImagePost? <==>
      !(useYoutubeFacets && Truthy(youtubeUrl)) && !(Truthy(videoPath) && pathExists(videoPath.value))
      && Truthy(thumbnailPath) && pathExists(thumbnailPath.value)
    ensures c.FacetPost? ==> c.youtubeUrl == youtubeUrl.value
    ensures c.VideoPost? ==> c.videoPath == videoPath.value
    ensures c.ImagePost? ==> c.thumbnailPath == thumbnailPath.value && c.altText == "Thumbnail for " + videoTitle
  {
    if useYoutubeFacets && Truthy(youtubeUrl) then FacetPost(youtubeUrl.value)
    else if Truthy(videoPath) && pathExists(videoPath.value) then VideoPost(videoPath.value)
    else if Truthy(thumbnailPath) && pathExists(thumbnailPath.value) then ImagePost(thumbnailPath.value, "Thumbnail for " + videoTitle)
    else TextPost
  }

  /** In the YouTube-card branch the media paths play no part. */
  lemma FacetIgnoresMedia(youtubeUrl: string, videoTitle: string, pathExists: string -> bool,
                          video1: Option<string>, thumb1: Option<string>, video2: Option<string>, thumb2: Option<string>)
    requires youtubeUrl != []
    ensures ChoosePosting(true, Some(youtubeUrl), video1, thumb1, videoTitle, pathExists)
         == ChoosePosting(true, Some(youtubeUrl), video2, thumb2, videoTitle, pathExists)
         == FacetPost(youtubeUrl)
  {
  }

  /** Whether the chosen method reports success once logged in. The YouTube
      card and the video posts are oracles (`facetPostOk`, `videoPostOk`);
      the image and text posts are `Bluesky.BlueskyService.Post`. */
  predicate PostSucceeds(c: PostingChoice, text: string, upload: nat -> bool, sendOk: bool,
                         facetPostOk: bool, videoPostOk: bool)
  {
    match c
    case FacetPost(_) => facetPostOk
    case VideoPost(_) => videoPostOk
    case ImagePost(_, _) => upload(0) && sendOk
    case TextPost => text != [] && sendOk
  }

  class PostBuilder {
    const service: Bluesky.BlueskyService

    constructor (service: Bluesky.BlueskyService)
      ensures this.service == service
    {
      this.service := service;
    }

    /** `post_content_with_media`. A failed login returns false before any
        posting method is chosen; otherwise exactly the chosen method runs,
        and its exceptions, like its `False`, give false. */
    method PostContentWithMedia(text: string, videoPath: Option<string>, thumbnailPath: Option<string>,
                                videoTitle: string, youtubeUrl: Option<string>, useYoutubeFacets: bool,
                                loginOk: bool, pathExists: string -> bool, upload: nat -> bool, sendOk: bool,
                                facetPostOk: bool, videoPostOk: bool)
      returns (success: bool, ghost choice: Option<PostingChoice>)
      modifies service
      ensures service.authenticated == loginOk && service.logins == old(service.logins) + 1
      ensures !loginOk ==> !success && choice.None?
      ensures loginOk ==>
        choice == Some(ChoosePosting(useYoutubeFacets, youtubeUrl, videoPath, thumbnailPath, videoTitle, pathExists))
        && (success <==> PostSucceeds(choice.value, text, upload, sendOk, facetPostOk, videoPostOk))
    {
      choice := None;
      var ok := service.Authenticate(loginOk);
      if !ok {
        return false, choice;
      }
      var c := ChoosePosting(useYoutubeFacets, youtubeUrl, videoPath, thumbnailPath, videoTitle, pathExists);
      choice := Some(c);
      match c
      case FacetPost(_) =>
        success := facetPostOk;
      case VideoPost(_) =>
        success := videoPostOk;
      case ImagePost(path, alt) =>
        ghost var sent;
        var r;
        r, sent := service.PostWithImage(text, path, Some(alt), loginOk, upload, sendOk);
        success := r.Success? && r.value;
      case TextPost =>
        ghost var sent;
        var r;
        r, sent := service.PostTextOnly(text, loginOk, sendOk);
        success := r.Success? && r.value;
    }
  }
}
