/** `BlueskyService` of `services/bluesky_service.py`: the text rules of a
    post (truncation to the grapheme limit, link and hashtag facets with
    UTF-8 byte offsets, YouTube id extraction) and the authentication flag
    that every posting call checks first. The AT Protocol client is an
    oracle: a login either succeeds or fails, an upload or a send either
    succeeds or raises. */
module Bluesky {
  import opened Wrappers
  import opened Text

  /** The default limit `_truncate_to_grapheme_limit` cuts to. */
  const DefaultGraphemeLimit: nat := 299
  const Ellipsis := "..."
  /** The most media attachments one post may carry. */
  const MaxMedia: nat := 4

  const NotAuthenticated := "Not authenticated with Bluesky service"
  const EmptyPost := "Post must contain either text or media"

  /** `_count_graphemes`, as the library-free fallback computes it: one per
      code point. */
  function GraphemeCount(s: string): nat
  {
    |s|
  }

  /** Python's `s[:-1]`, which leaves the empty string empty. */
  function DropLast(s: string): string
  {
    if s == [] then [] else s[..|s| - 1]
  }

  /** What truncation produces: a text within the limit is kept; a longer
      one becomes a proper prefix of itself followed by "...", exactly
      `limit` characters long. */
  function Truncated(text: string, limit: nat): (r: string)
    requires limit >= |Ellipsis|
    ensures GraphemeCount(r) <= limit
    ensures r == text <==> GraphemeCount(text) <= limit
    ensures GraphemeCount(text) > limit ==>
      |r| == limit && EndsWith(r, Ellipsis) && |r| - |Ellipsis| < |text|
      && r[..|r| - |Ellipsis|] == text[..|r| - |Ellipsis|]
  {
    if |text| <= limit then text else text[..limit - |Ellipsis|] + Ellipsis
  }

  /** Truncating a truncated text changes nothing. */
  lemma TruncatedIdempotent(text: string, limit: nat)
    requires limit >= |Ellipsis|
    ensures Truncated(Truncated(text, limit), limit) == Truncated(text, limit)
  {
  }

  /** `_truncate_to_grapheme_limit`: drop the last character until the text
      fits, then drop more until "..." fits after it. Below a limit of 3 the
      second loop would never end (the text shrinks to "" and "..." alone
      is too long), hence the precondition. */
  method TruncateToGraphemeLimit(text: string, limit: nat) returns (r: string)
    requires limit >= |Ellipsis|
    ensures r == Truncated(text, limit)
  {
    if GraphemeCount(text) <= limit {
      return text;
    }
    var truncated := text;
    while GraphemeCount(truncated) > limit
      invariant limit <= |truncated| <= |text| && truncated == text[..|truncated|]
      decreases |truncated|
    {
      truncated := DropLast(truncated);
    }
    if truncated != text {
      while GraphemeCount(truncated + Ellipsis) > limit
        invariant limit - |Ellipsis| <= |truncated| <= limit && truncated == text[..|truncated|]
        decreases |truncated|
      {
        truncated := DropLast(truncated);
      }
      truncated := truncated + Ellipsis;
    }
    r := truncated;
  }

  /** A match of the URL or hashtag pattern, as code-point positions. */
  datatype Span = Span(start: nat, end: nat)

  /** What a facet marks: a link to a URI or a hashtag's tag. */
  datatype Feature = Link(uri: string) | Tag(tag: string)

  /** A facet: the UTF-8 byte range of the marked text and its feature. */
  datatype Facet = Facet(byteStart: nat, byteEnd: nat, feature: Feature)

  predicate ValidSpan(text: string, sp: Span)
  {
    sp.start <= sp.end <= |text|
  }

  /** A hashtag match: it starts with '#' and is not empty. */
  predicate ValidTagSpan(text: string, sp: Span)
  {
    ValidSpan(text, sp) && sp.start < sp.end && text[sp.start] == '#'
  }

  /** The facet of a URL match: byte offsets are the UTF-8 lengths of the
      text before the match's start and end. */
  function LinkFacet(text: string, sp: Span): (f: Facet)
    requires ValidSpan(text, sp)
    ensures f.byteStart <= f.byteEnd <= Utf8Length(text)
    ensures f.byteStart == Utf8Length(text[..sp.start]) && f.byteEnd == Utf8Length(text[..sp.end])
    ensures f.feature == Link(text[sp.start..sp.end])
  {
    Utf8LengthPrefixMonotone(text, sp.start, sp.end);
    Facet(Utf8Length(text[..sp.start]), Utf8Length(text[..sp.end]), Link(text[sp.start..sp.end]))
  }

  /** The facet of a hashtag match; its tag is the hashtag without '#'. */
  function TagFacet(text: string, sp: Span): (f: Facet)
    requires ValidTagSpan(text, sp)
    ensures f.byteStart < f.byteEnd <= Utf8Length(text)
    ensures f.byteStart == Utf8Length(text[..sp.start]) && f.byteEnd == Utf8Length(text[..sp.end])
    ensures f.feature.Tag? && "#" + f.feature.tag == text[sp.start..sp.end]
  {
    Utf8LengthPrefixMonotone(text, sp.start, sp.end);
    assert text[..sp.end] == text[..sp.start] + text[sp.start..sp.end];
    Utf8LengthAppend(text[..sp.start], text[sp.start..sp.end]);
    Facet(Utf8Length(text[..sp.start]), Utf8Length(text[..sp.end]), Tag(text[sp.start + 1..sp.end]))
  }

  /** On ASCII text the byte offsets are the character positions. */
  lemma AsciiFacetOffsets(text: string, sp: Span)
    requires ValidSpan(text, sp)
    requires forall i :: 0 <= i < |text| ==> text[i] as int < 0x80
    ensures LinkFacet(text, sp).byteStart == sp.start && LinkFacet(text, sp).byteEnd == sp.end
  {
    Utf8LengthAscii(text[..sp.start]);
    Utf8LengthAscii(text[..sp.end]);
  }

  /** `_create_facets`, given the URL matches and the hashtag matches in the
      order the regular expressions find them: one facet per match, every
      link facet before every tag facet. */
  method CreateFacets(text: string, urls: seq<Span>, tags: seq<Span>) returns (facets: seq<Facet>)
    requires forall k :: 0 <= k < |urls| ==> ValidSpan(text, urls[k])
    requires forall k :: 0 <= k < |tags| ==> ValidTagSpan(text, tags[k])
    ensures |facets| == |urls| + |tags|
    ensures forall k :: 0 <= k < |urls| ==> facets[k] == LinkFacet(text, urls[k])
    ensures forall k :: 0 <= k < |tags| ==> facets[|urls| + k] == TagFacet(text, tags[k])
    ensures forall i, j :: 0 <= i < j < |facets| && facets[i].feature.Tag? ==> facets[j].feature.Tag?
    ensures forall k :: 0 <= k < |facets| ==> facets[k].byteStart <= facets[k].byteEnd <= Utf8Length(text)
  {
    facets := [];
    var i := 0;
    while i < |urls|
      invariant 0 <= i <= |urls| && |facets| == i
      invariant forall k :: 0 <= k < i ==> facets[k] == LinkFacet(text, urls[k])
    {
      facets := facets + [LinkFacet(text, urls[i])];
      i := i + 1;
    }
    var j := 0;
    while j < |tags|
      invariant 0 <= j <= |tags| && |facets| == |urls| + j
      invariant forall k :: 0 <= k < |urls| ==> facets[k] == LinkFacet(text, urls[k])
      invariant forall k :: 0 <= k < j ==> facets[|urls| + k] == TagFacet(text, tags[k])
    {
      facets := facets + [TagFacet(text, tags[j])];
      j := j + 1;
    }
    forall k | 0 <= k < |facets|
      ensures facets[k].byteStart <= facets[k].byteEnd <= Utf8Length(text)
      ensures facets[k].feature.Tag? <==> k >= |urls|
    {
      if k >= |urls| {
        assert facets[|urls| + (k - |urls|)] == TagFacet(text, tags[k - |urls|]);
      }
    }
  }

  /** `[a-zA-Z0-9_-]`. */
  predicate IsIdChar(c: char)
  {
    'a' <= c <= 'z' || 'A' <= c <= 'Z' || '0' <= c <= '9' || c == '_' || c == '-'
  }

  /** The greedy run of id characters starting at `i`. */
  function IdRun(s: string, i: nat): (run: string)
    requires i <= |s|
    ensures i + |run| <= |s| && run == s[i..i + |run|]
    ensures forall k :: 0 <= k < |run| ==> IsIdChar(run[k])
    ensures i + |run| == |s| || !IsIdChar(s[i + |run|])
    decreases |s| - i
  {
    if i < |s| && IsIdChar(s[i]) then [s[i]] + IdRun(s, i + 1) else []
  }

  /** The two id patterns of `_extract_youtube_info`, tried in order. */
  datatype IdPattern = WatchOrShort | Embed

  /** The id a pattern captures when its match starts at `i`. */
  function IdAt(s: string, pat: IdPattern, i: nat): Option<string>
    requires i <= |s|
  {
    match pat
    case WatchOrShort =>
      if OccursAt(s, "youtube.com/watch?v=", i) && IdRun(s, i + 20) != [] then Some(IdRun(s, i + 20))
      else if OccursAt(s, "youtu.be/", i) && IdRun(s, i + 9) != [] then Some(IdRun(s, i + 9))
      else None
    case Embed =>
      if OccursAt(s, "youtube.com/embed/", i) && IdRun(s, i + 18) != [] then Some(IdRun(s, i + 18))
      else None
  }

  /** `k` is the leftmost position from `i` on where the pattern matches. */
  predicate LeftmostMatch(s: string, pat: IdPattern, i: nat, k: nat)
  {
    i <= k <= |s| && IdAt(s, pat, k).Some? && forall j :: i <= j < k ==> IdAt(s, pat, j).None?
  }

  /** `re.search` from position `i`: the capture of the leftmost match. */
  function SearchId(s: string, pat: IdPattern, i: nat): (r: Option<string>)
    requires i <= |s|
    ensures r.Some? ==> exists k :: LeftmostMatch(s, pat, i, k) && IdAt(s, pat, k) == r
    ensures r.Some? ==> r.value != [] && forall k :: 0 <= k < |r.value| ==> IsIdChar(r.value[k])
    ensures r.None? <==> forall k :: i <= k <= |s| ==> IdAt(s, pat, k).None?
    decreases |s| - i
  {
    if IdAt(s, pat, i).Some? then IdAt(s, pat, i)
    else if i == |s| then None
    else SearchId(s, pat, i + 1)
  }

  /** The video id of a URL: the watch or short-link form anywhere in it
      wins over the embed form. */
  function ExtractVideoId(url: string): (r: Option<string>)
    ensures r.Some? ==> r.value != [] && forall k :: 0 <= k < |r.value| ==> IsIdChar(r.value[k])
    ensures SearchId(url, WatchOrShort, 0).Some? ==> r == SearchId(url, WatchOrShort, 0)
    ensures r.None? <==>
      (forall k :: 0 <= k <= |url| ==> IdAt(url, WatchOrShort, k).None?)
      && (forall k :: 0 <= k <= |url| ==> IdAt(url, Embed, k).None?)
  {
    match SearchId(url, WatchOrShort, 0)
    case Some(id) => Some(id)
    case None => SearchId(url, Embed, 0)
  }

  /** The external-embed card data `_extract_youtube_info` returns. */
  datatype YoutubeInfo = YoutubeInfo(uri: string, title: string, description: string, thumbUrl: Option<string>)

  function ExtractYoutubeInfo(url: string): (info: YoutubeInfo)
    ensures info.uri == url && info.description == "Watch this video on YouTube"
    ensures info.thumbUrl.Some? <==> ExtractVideoId(url).Some?
    ensures ExtractVideoId(url).Some? ==>
      var id := ExtractVideoId(url).value;
      info.title == "YouTube Video (" + id + ")"
      && info.thumbUrl == Some("https://img.youtube.com/vi/" + id + "/maxresdefault.jpg")
    ensures ExtractVideoId(url).None? ==> info.title == "YouTube Video"
  {
    match ExtractVideoId(url)
    case None => YoutubeInfo(url, "YouTube Video", "Watch this video on YouTube", None)
    case Some(id) =>
      YoutubeInfo(url, "YouTube Video (" + id + ")", "Watch this video on YouTube",
                  Some("https://img.youtube.com/vi/" + id + "/maxresdefault.jpg"))
  }

  /** The id of a watch URL built from an id is that id back. */
  lemma WatchUrlRoundTrip(id: string)
    requires id != [] && forall k :: 0 <= k < |id| ==> IsIdChar(id[k])
    ensures ExtractVideoId("https://www.youtube.com/watch?v=" + id) == Some(id)
  {
    assert "https://www.youtube.com/watch?v=" + id == "https://www." + "youtube.com/watch?v=" + id;
    WatchMarkerFound("https://www.", id);
  }

  /** After a prefix without a 'y', the watch marker followed by an id is
      the first match. */
  lemma WatchMarkerFound(pre: string, id: string)
    requires forall k :: 0 <= k < |pre| ==> pre[k] != 'y'
    requires id != [] && forall k :: 0 <= k < |id| ==> IsIdChar(id[k])
    ensures SearchId(pre + "youtube.com/watch?v=" + id, WatchOrShort, 0) == Some(id)
  {
    var url := pre + "youtube.com/watch?v=" + id;
    var n := |pre|;
    assert url[n..n + 20] == "youtube.com/watch?v=";
    assert url[n + 20..] == id;
    IdRunToEnd(url, n + 20);
    NoMatchBeforeY(url, n);
    SearchIdSkips(url, WatchOrShort, 0, n);
  }

  /** The short-link form gives the same id. */
  lemma ShortUrlRoundTrip(id: string)
    requires id != [] && forall k :: 0 <= k < |id| ==> IsIdChar(id[k])
    ensures ExtractVideoId("https://youtu.be/" + id) == Some(id)
  {
    assert "https://youtu.be/" + id == "https://" + "youtu.be/" + id;
    ShortMarkerFound("https://", id);
  }

  /** After a prefix without a 'y', the short-link marker followed by an id
      is the first match. */
  lemma ShortMarkerFound(pre: string, id: string)
    requires forall k :: 0 <= k < |pre| ==> pre[k] != 'y'
    requires id != [] && forall k :: 0 <= k < |id| ==> IsIdChar(id[k])
    ensures SearchId(pre + "youtu.be/" + id, WatchOrShort, 0) == Some(id)
  {
    var url := pre + "youtu.be/" + id;
    var n := |pre|;
    assert url[n..n + 9] == "youtu.be/";
    if OccursAt(url, "youtube.com/watch?v=", n) {
      OccursAtChar(url, "youtube.com/watch?v=", n, 5);
      assert false;
    }
    assert url[n + 9..] == id;
    IdRunToEnd(url, n + 9);
    NoMatchBeforeY(url, n);
    SearchIdSkips(url, WatchOrShort, 0, n);
  }

  lemma OccursAtChar(s: string, sub: string, i: nat, j: nat)
    requires OccursAt(s, sub, i) && j < |sub|
    ensures s[i + j] == sub[j]
  {
    assert s[i..i + |sub|][j] == s[i + j];
  }

  /** Both forms of the first pattern start with 'y', so no match starts
      before the first 'y'. */
  lemma NoMatchBeforeY(s: string, n: nat)
    requires n <= |s| && forall k :: 0 <= k < n ==> s[k] != 'y'
    ensures forall k :: 0 <= k < n ==> IdAt(s, WatchOrShort, k).None?
  {
    forall k | 0 <= k < n
      ensures IdAt(s, WatchOrShort, k).None?
    {
      if OccursAt(s, "youtube.com/watch?v=", k) {
        OccursAtChar(s, "youtube.com/watch?v=", k, 0);
      }
      if OccursAt(s, "youtu.be/", k) {
        OccursAtChar(s, "youtu.be/", k, 0);
      }
    }
  }

  lemma {:induction false} IdRunToEnd(s: string, i: nat)
    requires i <= |s| && forall k :: i <= k < |s| ==> IsIdChar(s[k])
    ensures IdRun(s, i) == s[i..]
    decreases |s| - i
  {
    if i < |s| {
      IdRunToEnd(s, i + 1);
    }
  }

  /** Positions without a match do not change the search's result. */
  lemma {:induction false} SearchIdSkips(s: string, pat: IdPattern, i: nat, j: nat)
    requires i <= j <= |s|
    requires forall k :: i <= k < j ==> IdAt(s, pat, k).None?
    ensures SearchId(s, pat, i) == SearchId(s, pat, j)
    decreases j - i
  {
    if i < j {
      SearchIdSkips(s, pat, i + 1, j);
    }
  }

  /** The alt text of media item `i`: `alt_texts[i]`, or "" when the list is
      absent, too short, or holds `None` there. */
  function AltText(altTexts: Option<seq<Option<string>>>, i: nat): string
  {
    if altTexts.Some? && i < |altTexts.value| then altTexts.value[i].GetOr("") else ""
  }

  function AltTexts(altTexts: Option<seq<Option<string>>>, n: nat): (alts: seq<string>)
    ensures |alts| == n && forall i :: 0 <= i < n ==> alts[i] == AltText(altTexts, i)
  {
    if n == 0 then [] else AltTexts(altTexts, n - 1) + [AltText(altTexts, n - 1)]
  }

  /** The upload of every one of the first `n` media items succeeds. */
  predicate AllUploaded(upload: nat -> bool, n: nat)
  {
    forall i :: 0 <= i < n ==> upload(i)
  }

  /** A post as handed to `send_post`: its text and one alt text per image.
      Its facets are `CreateFacets` of the text. */
  datatype SentPost = SentPost(text: string, alts: seq<string>)

  class BlueskyService {
    /** `_authenticated`. */
    var authenticated: bool
    /** How many times `client.login` has been called. */
    ghost var logins: nat

    constructor ()
      ensures !authenticated && logins == 0
    {
      authenticated := false;
      logins := 0;
    }

    /** `authenticate`: `loginOk` is whether `client.login` succeeds; the
        flag records the outcome either way. */
    method Authenticate(loginOk: bool) returns (ok: bool)
      modifies this
      ensures ok == loginOk && authenticated == loginOk
      ensures logins == old(logins) + 1
    {
      logins := logins + 1;
      authenticated := loginOk;
      ok := loginOk;
    }

    /** `_ensure_authenticated`: logs in only when not yet authenticated;
        a failed login is the RuntimeError. */
    method EnsureAuthenticated(loginOk: bool) returns (r: Result<(), string>)
      modifies this
      ensures old(authenticated) ==> r.Success? && authenticated && logins == old(logins)
      ensures !old(authenticated) ==> logins == old(logins) + 1 && authenticated == loginOk
      ensures r.Success? <==> authenticated
      ensures r.Failure? ==> r.error == NotAuthenticated
    {
      if !authenticated {
        var ok := Authenticate(loginOk);
        if !ok {
          return Failure(NotAuthenticated);
        }
      }
      r := Success(());
    }

    /** The media loop of `post`: every item is uploaded in turn and the
        first failed upload ends it; the alt texts of the uploaded images. */
    method UploadMedia(count: nat, altTexts: Option<seq<Option<string>>>, upload: nat -> bool)
      returns (ok: bool, alts: seq<string>)
      ensures ok <==> AllUploaded(upload, count)
      ensures ok ==> alts == AltTexts(altTexts, count)
    {
      alts := [];
      var i := 0;
      while i < count
        invariant 0 <= i <= count
        invariant AllUploaded(upload, i) && alts == AltTexts(altTexts, i)
      {
        if !upload(i) {
          return false, alts;
        }
        alts := alts + [AltText(altTexts, i)];
        i := i + 1;
      }
      ok := true;
    }

    /** `post`. `media` holds the attachments (`None` and `[]` act alike);
        `upload(i)` is whether uploading item `i` succeeds and `sendOk`
        whether `send_post` does. `Failure` is an exception the caller sees:
        the failed login, or a post with neither text nor media. Every
        later error is caught and gives `Success(false)`. `sent` is the
        post handed to the client, if any. */
    method Post(text: string, media: seq<string>, altTexts: Option<seq<Option<string>>>,
                loginOk: bool, upload: nat -> bool, sendOk: bool)
      returns (r: Result<bool, string>, ghost sent: Option<SentPost>)
      modifies this
      ensures old(authenticated) ==> authenticated && logins == old(logins)
      ensures !old(authenticated) ==> logins == old(logins) + 1 && authenticated == loginOk
      ensures !authenticated ==> r == Failure(NotAuthenticated) && sent.None?
      ensures authenticated && text == [] && media == [] ==> r == Failure(EmptyPost) && sent.None?
      ensures authenticated && (text != [] || media != []) ==>
        r.Success?
        && (sent.Some? <==> |media| <= MaxMedia && AllUploaded(upload, |media|))
        && (r.value <==> sent.Some? && sendOk)
        && (sent.Some? ==> sent.value == SentPost(Truncated(text, DefaultGraphemeLimit), AltTexts(altTexts, |media|)))
    {
      sent := None;
      var auth := EnsureAuthenticated(loginOk);
      if auth.Failure? {
        return Failure(auth.error), sent;
      }
      if text == [] && media == [] {
        return Failure(EmptyPost), sent;
      }
      var postText := TruncateToGraphemeLimit(text, DefaultGraphemeLimit);
      if |media| > MaxMedia {
        return Success(false), sent;
      }
      var ok, alts := UploadMedia(|media|, altTexts, upload);
      if !ok {
        return Success(false), sent;
      }
      sent := Some(SentPost(postText, alts));
      r := Success(sendOk);
    }

    /** `post_with_image`: one image, with its alt text when that is not empty. */
    method PostWithImage(text: string, imagePath: string, altText: Option<string>,
                         loginOk: bool, upload: nat -> bool, sendOk: bool)
      returns (r: Result<bool, string>, ghost sent: Option<SentPost>)
      modifies this
      ensures old(authenticated) ==> authenticated && logins == old(logins)
      ensures !old(authenticated) ==> logins == old(logins) + 1 && authenticated == loginOk
      ensures !authenticated ==> r == Failure(NotAuthenticated) && sent.None?
      ensures authenticated ==>
        r.Success? && (sent.Some? <==> upload(0)) && (r.value <==> upload(0) && sendOk)
        && (sent.Some? ==> sent.value == SentPost(Truncated(text, DefaultGraphemeLimit),
                                                  [if altText.Some? then altText.value else ""]))
    {
      var alts := if altText.Some? && altText.value != [] then Some([altText]) else None;
      r, sent := Post(text, [imagePath], alts, loginOk, upload, sendOk);
    }

    /** `post_text_only`. */
    method PostTextOnly(text: string, loginOk: bool, sendOk: bool)
      returns (r: Result<bool, string>, ghost sent: Option<SentPost>)
      modifies this
      ensures old(authenticated) ==> authenticated && logins == old(logins)
      ensures !old(authenticated) ==> logins == old(logins) + 1 && authenticated == loginOk
      ensures !authenticated ==> r == Failure(NotAuthenticated) && sent.None?
      ensures authenticated && text == [] ==> r == Failure(EmptyPost) && sent.None?
      ensures authenticated && text != [] ==>
        r == Success(sendOk) && sent == Some(SentPost(Truncated(text, DefaultGraphemeLimit), []))
    {
      r, sent := Post(text, [], None, loginOk, n => true, sendOk);
    }
  }
}
