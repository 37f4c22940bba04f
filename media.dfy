/**
 * Media extraction from a boulder's bleau.info page, and the popup markup
 * built from what was found.
 *
 * The page is searched in two independent parts: the video section
 * (`div.boulder_mp4s`), where embedded YouTube players come first, then
 * video.js players, then plain video elements; and the photo section
 * (`div.boulder_photos`), where only the first photo block is looked at:
 * the image of its lightbox link, else any image in it, with site-relative
 * addresses made absolute.
 *
 * The network is a parameter: `page` maps a URL to what fetching it gives.
 */
module Media {
  import opened Wrappers
  import opened Text
  import opened Collections
  import opened Html

  const Site := "https://bleau.info"
  const YouTubeKind := "youtube"
  const Mp4Kind := "mp4"

  /** A found video: its kind (`youtube` or `mp4`) and its address. */
  datatype VideoInfo = VideoInfo(kind: string, url: string)

  /** A found image: its absolute address. */
  datatype ImageInfo = ImageInfo(url: string)

  /** The outcome of a fetch: no response at all (connection error, timeout), or a status and the parsed page. */
  datatype Fetched = NoResponse | Response(status: int, doc: Node)

  /** The address of a boulder's page: the area name in lower case, then the boulder's id. */
  function PageUrl(area: string, id: string): (r: string)
    ensures StartsWith(r, Site + "/")
    ensures EndsWith(r, id + ".html")
  {
    var r := Site + "/" + Lower(area) + "/" + id + ".html";
    assert r[..|Site + "/"|] == Site + "/";
    assert r[|r| - |id + ".html"|..] == id + ".html";
    r
  }

  /** The address of an embedded player names YouTube. */
  predicate IsYouTubeSrc(src: string)
  {
    Includes(src, "youtube.com/embed/") || Includes(src, "youtu.be")
  }

  /** The address ends, ignoring case, in one of the three playable extensions. */
  predicate HasVideoExtension(url: string)
  {
    var lowered := Lower(url);
    EndsWith(lowered, ".mp4") || EndsWith(lowered, ".webm") || EndsWith(lowered, ".ogg")
  }

  /** Stage one, per embedded frame: a YouTube player. */
  function YouTubeCandidate(iframe: Node): Option<VideoInfo>
  {
    var src := Attr(iframe, "src", "");
    if IsYouTubeSrc(src) then Some(VideoInfo(YouTubeKind, src)) else None
  }

  /** The first source of a video element, when it has an address with a playable extension. */
  function PlayableSource(video: Node): Option<VideoInfo>
  {
    match Find(video, "source", None)
    case None => None
    case Some(source) =>
      var src := Attr(source, "src", "");
      if src != "" && HasVideoExtension(src) then Some(VideoInfo(Mp4Kind, src)) else None
  }

  /** Stage two, per video.js player: the playable source of its first video element. */
  function VideoJsCandidate(player: Node): Option<VideoInfo>
  {
    match Find(player, "video", None)
    case None => None
    case Some(video) => PlayableSource(video)
  }

  /** The video of a video section: the first stage that finds one wins, each stage in document order. */
  function SectionVideo(section: Node): Option<VideoInfo>
  {
    var embedded := FirstSome(FindAll(section, "iframe", None), YouTubeCandidate);
    if embedded.Some? then embedded
    else
      var player := FirstSome(FindAll(section, "div", Some("video-js")), VideoJsCandidate);
      if player.Some? then player
      else FirstSome(FindAll(section, "video", None), PlayableSource)
  }

  /** The video of a page: looked for in its first video section only. */
  function PageVideo(doc: Node): Option<VideoInfo>
  {
    match Find(doc, "div", Some("boulder_mp4s"))
    case None => None
    case Some(section) => SectionVideo(section)
  }

  /** An image source made absolute: full addresses are kept, site-relative ones get the site prefix, others are dropped. */
  function RepairUrl(src: string): Option<string>
  {
    if StartsWith(src, "http") then Some(src)
    else if StartsWith(src, "/") then Some(Site + src)
    else None
  }

  /** The image an optional image element gives: its non-empty, repairable source. */
  function ImageOf(img: Option<Node>): Option<ImageInfo>
  {
    match img
    case None => None
    case Some(tag) =>
      var src := Attr(tag, "src", "");
      if src == "" then None
      else match RepairUrl(src)
        case None => None
        case Some(url) => Some(ImageInfo(url))
  }

  /** The image of a photo block: through its lightbox link first, else its first image element. */
  function PhotoImage(photo: Node): Option<ImageInfo>
  {
    var viaLink := match Find(photo, "a", Some("fancybox"))
      case None => None
      case Some(link) => ImageOf(Find(link, "img", None));
    if viaLink.Some? then viaLink else ImageOf(Find(photo, "img", None))
  }

  /** The image of a page: from the first photo block of its first photo section. */
  function PageImage(doc: Node): Option<ImageInfo>
  {
    match Find(doc, "div", Some("boulder_photos"))
    case None => None
    case Some(photos) =>
      match Find(photos, "div", Some("boulder_photo"))
      case None => None
      case Some(photo) => PhotoImage(photo)
  }

  /**
   * What extraction yields for a boulder: nothing when the area name is
   * missing (its lower-casing fails and the failure is swallowed), when
   * the fetch gives no response or when the status is not 200; otherwise
   * the page's video and image, found independently of each other.
   */
  function ExtractMedia(area: Option<string>, id: string, page: string -> Fetched): (Option<VideoInfo>, Option<ImageInfo>)
  {
    if area.None? then (None, None)
    else
      match page(PageUrl(area.value, id))
      case NoResponse => (None, None)
      case Response(status, doc) =>
        if status != 200 then (None, None) else (PageVideo(doc), PageImage(doc))
  }

  /** An image element's source made absolute, as the scraper's two image branches do it in place. */
  method ImageFromTag(img: Option<Node>) returns (image: Option<ImageInfo>)
    ensures image == ImageOf(img)
  {
    image := None;
    if img.Some? && Attr(img.value, "src", "") != "" {
      var imageUrl := Attr(img.value, "src", "");
      if StartsWith(imageUrl, "http") {
        image := Some(ImageInfo(imageUrl));
      } else if StartsWith(imageUrl, "/") {
        image := Some(ImageInfo(Site + imageUrl));
      }
    }
  }

  /** The playable source of one video element, as the scraper's two video loops test it. */
  method SourceOf(video: Node) returns (found: Option<VideoInfo>)
    ensures found == PlayableSource(video)
  {
    found := None;
    var sourceTag := Find(video, "source", None);
    if sourceTag.Some? && Attr(sourceTag.value, "src", "") != "" {
      var videoUrl := Attr(sourceTag.value, "src", "");
      var lowered := Lower(videoUrl);
      if EndsWith(lowered, ".mp4") || EndsWith(lowered, ".webm") || EndsWith(lowered, ".ogg") {
        found := Some(VideoInfo(Mp4Kind, videoUrl));
      }
    }
  }

  /** The loop over the section's embedded frames: the first one whose address names YouTube. */
  method ScanFrames(iframes: seq<Node>) returns (video: Option<VideoInfo>)
    ensures video == FirstSome(iframes, YouTubeCandidate)
  {
    video := None;
    var i := 0;
    while i < |iframes|
      invariant 0 <= i <= |iframes|
      invariant FirstSome(iframes, YouTubeCandidate) == FirstSome(iframes[i..], YouTubeCandidate)
    {
      FirstSomeStep(iframes, i, YouTubeCandidate);
      var iframeSrc := Attr(iframes[i], "src", "");
      if Includes(iframeSrc, "youtube.com/embed/") || Includes(iframeSrc, "youtu.be") {
        video := Some(VideoInfo(YouTubeKind, iframeSrc));
        return;
      }
      i := i + 1;
    }
  }

  /** The loop over the section's video.js players: the first whose video element has a playable source. */
  method ScanPlayers(players: seq<Node>) returns (video: Option<VideoInfo>)
    ensures video == FirstSome(players, VideoJsCandidate)
  {
    video := None;
    var j := 0;
    while j < |players|
      invariant 0 <= j <= |players|
      invariant FirstSome(players, VideoJsCandidate) == FirstSome(players[j..], VideoJsCandidate)
    {
      FirstSomeStep(players, j, VideoJsCandidate);
      var videoTag := Find(players[j], "video", None);
      if videoTag.Some? {
        var found := SourceOf(videoTag.value);
        if found.Some? {
          video := found;
          return;
        }
      }
      j := j + 1;
    }
  }

  /** The fallback loop over the section's video elements: the first with a playable source. */
  method ScanVideos(videoTags: seq<Node>) returns (video: Option<VideoInfo>)
    ensures video == FirstSome(videoTags, PlayableSource)
  {
    video := None;
    var k := 0;
    while k < |videoTags|
      invariant 0 <= k <= |videoTags|
      invariant FirstSome(videoTags, PlayableSource) == FirstSome(videoTags[k..], PlayableSource)
    {
      FirstSomeStep(videoTags, k, PlayableSource);
      var found := SourceOf(videoTags[k]);
      if found.Some? {
        video := found;
        return;
      }
      k := k + 1;
    }
  }

  /** The video part of the scan: the three stages in turn, each tried only when the earlier ones found nothing. */
  method ScanVideoSection(doc: Node) returns (video: Option<VideoInfo>)
    ensures video == PageVideo(doc)
  {
    video := None;
    var mp4s := Find(doc, "div", Some("boulder_mp4s"));
    if mp4s.Some? {
      var section := mp4s.value;
      video := ScanFrames(FindAll(section, "iframe", None));
      if video.None? {
        video := ScanPlayers(FindAll(section, "div", Some("video-js")));
        if video.None? {
          video := ScanVideos(FindAll(section, "video", None));
        }
      }
    }
  }

  /** The image part of the scan: the lightbox image of the first photo block, else its first image. */
  method ScanPhotoSection(doc: Node) returns (image: Option<ImageInfo>)
    ensures image == PageImage(doc)
  {
    image := None;
    var photos := Find(doc, "div", Some("boulder_photos"));
    if photos.Some? {
      var photo := Find(photos.value, "div", Some("boulder_photo"));
      if photo.Some? {
        var link := Find(photo.value, "a", Some("fancybox"));
        if link.Some? {
          image := ImageFromTag(Find(link.value, "img", None));
        }
        if image.None? {
          image := ImageFromTag(Find(photo.value, "img", None));
        }
      }
    }
  }

  /** Fetches a boulder's page and scans it for a video and an image. */
  method GetMediaFromBleauPage(area: Option<string>, id: string, page: string -> Fetched)
    returns (video: Option<VideoInfo>, image: Option<ImageInfo>)
    ensures (video, image) == ExtractMedia(area, id, page)
  {
    if area.None? {
      return None, None;
    }
    var url := PageUrl(area.value, id);
    var response := page(url);
    if response.NoResponse? || response.status != 200 {
      return None, None;
    }
    video := ScanVideoSection(response.doc);
    image := ScanPhotoSection(response.doc);
  }

  /** No page, a missing area name or a status other than 200 give neither medium. */
  lemma NothingWithoutPage(area: Option<string>, id: string, page: string -> Fetched)
    requires area.None? || page(PageUrl(area.value, id)).NoResponse? || page(PageUrl(area.value, id)).status != 200
    ensures ExtractMedia(area, id, page) == (None, None)
  {
  }

  /** On a page that was served, the video comes from the page alone and the image from the page alone. */
  lemma ServedPage(area: string, id: string, page: string -> Fetched)
    requires page(PageUrl(area, id)).Response? && page(PageUrl(area, id)).status == 200
    ensures ExtractMedia(Some(area), id, page) == (PageVideo(page(PageUrl(area, id)).doc), PageImage(page(PageUrl(area, id)).doc))
  {
  }

  /**
   * Embedded YouTube players take precedence: when any frame of the video
   * section names YouTube, the video is a YouTube one, and it is the
   * first such frame in document order.
   */
  lemma YouTubeFirst(section: Node, k: nat)
    requires k < |FindAll(section, "iframe", None)|
    requires IsYouTubeSrc(Attr(FindAll(section, "iframe", None)[k], "src", ""))
    ensures SectionVideo(section).Some? && SectionVideo(section).value.kind == YouTubeKind
    ensures exists i :: 0 <= i <= k && SectionVideo(section) == YouTubeCandidate(FindAll(section, "iframe", None)[i])
                        && forall j :: 0 <= j < i ==> !IsYouTubeSrc(Attr(FindAll(section, "iframe", None)[j], "src", ""))
  {
    var iframes := FindAll(section, "iframe", None);
    assert YouTubeCandidate(iframes[k]).Some?;
    var i :| 0 <= i < |iframes| && YouTubeCandidate(iframes[i]) == SectionVideo(section)
             && forall j :: 0 <= j < i ==> YouTubeCandidate(iframes[j]).None?;
  }

  /** A YouTube video is the address of an embedded frame of the section that names YouTube. */
  lemma YouTubeVideoShape(section: Node)
    requires SectionVideo(section).Some? && SectionVideo(section).value.kind == YouTubeKind
    ensures IsYouTubeSrc(SectionVideo(section).value.url)
    ensures exists f :: f in FindAll(section, "iframe", None) && Attr(f, "src", "") == SectionVideo(section).value.url
  {
    var iframes := FindAll(section, "iframe", None);
    var embedded := FirstSome(iframes, YouTubeCandidate);
    if embedded.Some? {
      var i :| 0 <= i < |iframes| && YouTubeCandidate(iframes[i]) == embedded;
    }
  }

  /**
   * A direct video has a non-empty address with a playable extension, is
   * the first source of some video element of the section, and is chosen
   * only when no frame of the section names YouTube.
   */
  lemma Mp4VideoShape(section: Node)
    requires SectionVideo(section).Some? && SectionVideo(section).value.kind == Mp4Kind
    ensures SectionVideo(section).value.url != "" && HasVideoExtension(SectionVideo(section).value.url)
    ensures forall f :: f in FindAll(section, "iframe", None) ==> !IsYouTubeSrc(Attr(f, "src", ""))
    ensures exists v :: v in FindAll(section, "video", None) && PlayableSource(v) == SectionVideo(section)
  {
    var iframes := FindAll(section, "iframe", None);
    var embedded := FirstSome(iframes, YouTubeCandidate);
    assert forall f :: f in iframes ==> YouTubeCandidate(f).None?;
    var players := FindAll(section, "div", Some("video-js"));
    var player := FirstSome(players, VideoJsCandidate);
    if player.Some? {
      var i :| 0 <= i < |players| && VideoJsCandidate(players[i]) == player;
      var video := Find(players[i], "video", None);
      FindBelowFound(section, players[i], "video", None);
      assert video.value in FindAll(section, "video", None) && PlayableSource(video.value) == player;
    } else {
      var videos := FindAll(section, "video", None);
      var i :| 0 <= i < |videos| && PlayableSource(videos[i]) == SectionVideo(section);
      assert videos[i] in videos;
    }
  }

  /**
   * Without a YouTube frame, video.js players come before plain video
   * elements: when some player has a playable video, the result is the
   * first such player's, in document order, whatever the video elements
   * before it hold.
   */
  lemma PlayerBeatsVideos(section: Node, k: nat)
    requires forall f :: f in FindAll(section, "iframe", None) ==> !IsYouTubeSrc(Attr(f, "src", ""))
    requires k < |FindAll(section, "div", Some("video-js"))|
    requires VideoJsCandidate(FindAll(section, "div", Some("video-js"))[k]).Some?
    ensures exists i :: 0 <= i <= k && SectionVideo(section) == VideoJsCandidate(FindAll(section, "div", Some("video-js"))[i])
                        && forall j :: 0 <= j < i ==> VideoJsCandidate(FindAll(section, "div", Some("video-js"))[j]).None?
  {
    var iframes := FindAll(section, "iframe", None);
    var players := FindAll(section, "div", Some("video-js"));
    assert forall i :: 0 <= i < |iframes| ==> iframes[i] in iframes;
    assert FirstSome(iframes, YouTubeCandidate).None?;
    var i :| 0 <= i < |players| && VideoJsCandidate(players[i]) == FirstSome(players, VideoJsCandidate)
             && forall j :: 0 <= j < i ==> VideoJsCandidate(players[j]).None?;
  }

  /** No frame of the section names YouTube and no video element in it has a playable first source. */
  predicate NoVideoCandidates(section: Node)
  {
    && (forall f :: f in FindAll(section, "iframe", None) ==> !IsYouTubeSrc(Attr(f, "src", "")))
    && (forall v :: v in FindAll(section, "video", None) ==> PlayableSource(v).None?)
  }

  /**
   * The section gives no video exactly when no frame in it names YouTube
   * and no video element in it has a playable first source: the video.js
   * stage can only find videos the plain stage would find as well.
   */
  lemma NoVideoExactly(section: Node)
    ensures SectionVideo(section).None? <==>
      (forall f :: f in FindAll(section, "iframe", None) ==> !IsYouTubeSrc(Attr(f, "src", "")))
      && (forall v :: v in FindAll(section, "video", None) ==> PlayableSource(v).None?)
  {
    if NoVideoCandidates(section) {
      NoCandidatesNoVideo(section);
    }
    if SectionVideo(section).None? {
      NoVideoNoCandidates(section);
    }
  }

  /** Without candidates none of the three stages finds a video. */
  lemma NoCandidatesNoVideo(section: Node)
    requires NoVideoCandidates(section)
    ensures SectionVideo(section).None?
  {
    var iframes := FindAll(section, "iframe", None);
    var videos := FindAll(section, "video", None);
    var players := FindAll(section, "div", Some("video-js"));
    forall i | 0 <= i < |iframes|
      ensures YouTubeCandidate(iframes[i]).None?
    {
      assert iframes[i] in iframes;
    }
    forall i | 0 <= i < |players|
      ensures VideoJsCandidate(players[i]).None?
    {
      assert players[i] in players;
      if Find(players[i], "video", None).Some? {
        FindBelowFound(section, players[i], "video", None);
      }
    }
    forall i | 0 <= i < |videos|
      ensures PlayableSource(videos[i]).None?
    {
      assert videos[i] in videos;
    }
  }

  /** When no stage finds a video, neither the frames nor the plain video elements hold a candidate. */
  lemma NoVideoNoCandidates(section: Node)
    requires SectionVideo(section).None?
    ensures NoVideoCandidates(section)
  {
    var iframes := FindAll(section, "iframe", None);
    var videos := FindAll(section, "video", None);
    forall f | f in iframes
      ensures !IsYouTubeSrc(Attr(f, "src", ""))
    {
      var i :| 0 <= i < |iframes| && iframes[i] == f;
      assert YouTubeCandidate(iframes[i]).None?;
    }
    forall v | v in videos
      ensures PlayableSource(v).None?
    {
      var i :| 0 <= i < |videos| && videos[i] == v;
    }
  }

  /** Full addresses are kept, site-relative ones (including `//host/...`) get the site prefix, and every other source is dropped. */
  lemma RepairUrlSpec(src: string)
    ensures StartsWith(src, "http") ==> RepairUrl(src) == Some(src)
    ensures !StartsWith(src, "http") && StartsWith(src, "/") ==> RepairUrl(src) == Some(Site + src)
    ensures RepairUrl(src).None? <==> !StartsWith(src, "http") && !StartsWith(src, "/")
    ensures RepairUrl(src).Some? ==> StartsWith(RepairUrl(src).value, "http")
  {
    if !StartsWith(src, "http") && StartsWith(src, "/") {
      assert (Site + src)[..4] == "http";
    }
  }

  /** A found image has an absolute address built from a non-empty source of the photo block. */
  lemma ImageShape(photo: Node)
    requires PhotoImage(photo).Some?
    ensures StartsWith(PhotoImage(photo).value.url, "http")
    ensures exists img :: img in Descendants(photo) && img.tag == "img" && Attr(img, "src", "") != ""
                          && RepairUrl(Attr(img, "src", "")) == Some(PhotoImage(photo).value.url)
  {
    var link := Find(photo, "a", Some("fancybox"));
    var viaLink := if link.None? then None else ImageOf(Find(link.value, "img", None));
    if viaLink.Some? {
      var img := Find(link.value, "img", None).value;
      ForestDescendantsClosed(photo.children, link.value, img);
      RepairUrlSpec(Attr(img, "src", ""));
    } else {
      var img := Find(photo, "img", None).value;
      RepairUrlSpec(Attr(img, "src", ""));
    }
  }

  /** A lightbox image that can be repaired wins over any other image element of the block. */
  lemma LinkImageFirst(photo: Node)
    requires Find(photo, "a", Some("fancybox")).Some?
    requires ImageOf(Find(Find(photo, "a", Some("fancybox")).value, "img", None)).Some?
    ensures PhotoImage(photo) == ImageOf(Find(Find(photo, "a", Some("fancybox")).value, "img", None))
  {
  }

  /** The part of a YouTube address after its last marker and before the first `?`, or the whole address when it has no marker. */
  function YouTubeId(url: string): string
  {
    if Includes(url, "youtube.com/embed/") then FirstPiece(LastPiece(url, "youtube.com/embed/"), "?")
    else if Includes(url, "youtu.be/") then FirstPiece(LastPiece(url, "youtu.be/"), "?")
    else url
  }

  /**
   * The id taken from an embed address follows an occurrence of the
   * marker, contains neither the marker nor a `?`, and is followed in the
   * address by a `?` or by nothing.
   */
  lemma YouTubeIdFromEmbed(url: string)
    requires Includes(url, "youtube.com/embed/")
    ensures !Contains(YouTubeId(url), "?") && !Contains(YouTubeId(url), "youtube.com/embed/")
    ensures Contains(url, "youtube.com/embed/" + YouTubeId(url))
  {
    PieceAfterMarker(url, "youtube.com/embed/");
  }

  /** The same for a short address: the id follows the last `youtu.be/` and holds no `?`. */
  lemma YouTubeIdFromShortLink(url: string)
    requires !Includes(url, "youtube.com/embed/") && Includes(url, "youtu.be/")
    ensures !Contains(YouTubeId(url), "?") && !Contains(YouTubeId(url), "youtu.be/")
    ensures Contains(url, "youtu.be/" + YouTubeId(url))
  {
    PieceAfterMarker(url, "youtu.be/");
  }

  /** The text between the last marker and the next `?` is free of both, and the marker is followed by it. */
  lemma PieceAfterMarker(url: string, sep: string)
    requires |sep| > 0 && IndexOf(url, sep).Some?
    ensures !Contains(FirstPiece(LastPiece(url, sep), "?"), "?")
    ensures !Contains(FirstPiece(LastPiece(url, sep), "?"), sep)
    ensures Contains(url, sep + FirstPiece(LastPiece(url, sep), "?"))
  {
    var tail := LastPiece(url, sep);
    var id := FirstPiece(tail, "?");
    FirstPieceSpec(tail, "?");
    assert !Contains(id, sep) by {
      LastPieceIsFreeSuffix(url, sep);
      NoOccurrenceInPrefix(tail, id, sep);
    }
    assert OccursAt(url, sep + id, |url| - |tail| - |sep|) by {
      MarkerThenTail(url, sep, tail);
      assert (sep + tail)[..|sep + id|] == sep + tail[..|id|];
      PrefixOccurrence(url, sep + tail, sep + id, |url| - |tail| - |sep|);
    }
  }

  /** The last piece is preceded by the marker: the marker and the piece end the address. */
  lemma MarkerThenTail(url: string, sep: string, tail: string)
    requires |sep| > 0 && IndexOf(url, sep).Some? && tail == LastPiece(url, sep)
    ensures |tail| + |sep| <= |url|
    ensures OccursAt(url, sep + tail, |url| - |tail| - |sep|)
  {
    LastPieceFollowsSeparator(url, sep);
    SuffixOccurs(url, sep + tail);
  }

  /** Where a text occurs, every prefix of it occurs too. */
  lemma PrefixOccurrence(s: string, t: string, u: string, at: int)
    requires OccursAt(s, t, at) && StartsWith(t, u)
    ensures OccursAt(s, u, at)
  {
    assert s[at..at + |u|] == s[at..at + |t|][..|u|];
  }

  /** A prefix of a text the pattern does not occur in does not contain it either. */
  lemma NoOccurrenceInPrefix(s: string, t: string, pat: string)
    requires StartsWith(s, t)
    requires !Contains(s, pat)
    ensures !Contains(t, pat)
  {
    assert t == s[..|t|];
    forall i | OccursAt(t, pat, i)
      ensures OccursAt(s, pat, i)
    {
      assert s[..|t|][i..i + |pat|] == s[i..i + |pat|];
    }
  }

  /** Every character of `s` differs from `c`: no pattern starting with `c` occurs in it. */
  lemma AbsentInitial(s: string, pat: string)
    requires |pat| > 0
    requires forall i :: 0 <= i < |s| ==> s[i] != pat[0]
    ensures !Contains(s, pat)
  {
    forall i | OccursAt(s, pat, i)
      ensures s[i] == pat[0]
    {
      OccurrenceStartsWithInitial(s, pat, i);
    }
  }

  /** An occurrence begins with the pattern's first character. */
  lemma OccurrenceStartsWithInitial(s: string, pat: string, i: int)
    requires |pat| > 0 && OccursAt(s, pat, i)
    ensures 0 <= i < |s| && s[i] == pat[0]
  {
    assert s[i..i + |pat|][0] == s[i];
  }

  /** A pattern whose first character appears only at one of its occurrences is found there. */
  lemma OnlyOccurrence(s: string, pat: string, k: nat)
    requires |pat| > 0 && OccursAt(s, pat, k)
    requires forall i :: 0 <= i < |s| && i != k ==> s[i] != pat[0]
    ensures IndexOf(s, pat) == Some(k)
  {
    if IndexOf(s, pat) != Some(k) {
      var j := IndexOf(s, pat).value;
      OccurrenceStartsWithInitial(s, pat, j);
    }
  }

  /** The markup for a YouTube video shows the embed address of its id. */
  lemma YouTubeMarkupShowsId(url: string)
    ensures Contains(CreateVideoHtml(Some(VideoInfo(YouTubeKind, url))), "https://www.youtube.com/embed/" + YouTubeId(url))
  {
    var embed := "https://www.youtube.com/embed/" + YouTubeId(url);
    var src := SrcAttribute(embed);
    assert src[5..5 + |embed|] == embed;
    assert OccursAt(src, embed, 5);
    ContainsInContaining(CreateVideoHtml(Some(VideoInfo(YouTubeKind, url))), src, embed);
  }

  /**
   * The id of `https://host/youtube.com/embed/ABC123?x=1` is `ABC123`, and
   * its markup shows `https://www.youtube.com/embed/ABC123`.
   */
  lemma EmbedIdExample(url: string)
    requires url == "https://host/youtube.com/embed/ABC123?x=1"
    ensures YouTubeId(url) == "ABC123"
  {
    var tail := ExampleAfterMarker(url);
    ExampleBeforeQuery(tail);
  }

  lemma ExampleAfterMarker(url: string) returns (tail: string)
    requires url == "https://host/youtube.com/embed/ABC123?x=1"
    ensures tail == "ABC123?x=1"
    ensures Includes(url, "youtube.com/embed/") && LastPiece(url, "youtube.com/embed/") == tail
  {
    var sep := "youtube.com/embed/";
    tail := url[31..];
    assert url[13..31] == url[13..][..18];
    assert url[13..31] == sep;
    ExampleInitials(url);
    OnlyOccurrence(url, sep, 13);
    assert tail == "ABC123?x=1";
    AbsentInitial(tail, sep);
  }

  lemma ExampleInitials(url: string)
    requires url == "https://host/youtube.com/embed/ABC123?x=1"
    ensures forall i :: 0 <= i < |url| && i != 13 ==> url[i] != 'y'
  {
  }

  lemma ExampleBeforeQuery(tail: string)
    requires tail == "ABC123?x=1"
    ensures FirstPiece(tail, "?") == "ABC123"
  {
    assert tail[6..7] == "?";
    OnlyOccurrence(tail, "?", 6);
    assert tail[..6] == "ABC123";
  }

  /** A text contained in a contained text is contained. */
  lemma ContainsInContaining(s: string, t: string, u: string)
    requires Contains(s, t) && Contains(t, u)
    ensures Contains(s, u)
  {
    var i :| OccursAt(s, t, i);
    var j :| OccursAt(t, u, j);
    forall k | 0 <= k < |u|
      ensures s[i + j + k] == u[k]
    {
      assert s[i..i + |t|][j + k] == s[i + j + k];
      assert t[j..j + |u|][k] == t[j + k];
    }
    assert s[i + j..i + j + |u|] == u;
    assert OccursAt(s, u, i + j);
  }

  /** An embed address of another host without either marker is used whole as the id. */
  lemma BareEmbedAddressUsedWhole()
    ensures YouTubeId("https://host/embed/ABC123?x=1") == "https://host/embed/ABC123?x=1"
  {
    var url := "https://host/embed/ABC123?x=1";
    AbsentInitial(url, "youtube.com/embed/");
    AbsentInitial(url, "youtu.be/");
  }

  const VideoBlockOpen := "\n        <div style=\"margin-top: 10px; text-align: center;\">\n"
  const Mp4Lead := VideoBlockOpen
    + "            <video width=\"320\" height=\"180\" controls style=\"max-width: 100%; border-radius: 8px;\">\n"
    + "                <source "
  const Mp4Rest := " type=\"video/mp4\">\n"
    + "                Your browser does not support the video tag.\n"
    + "            </video>\n"
    + "        </div>\n        "
  const YouTubeLead := VideoBlockOpen
    + "            <iframe \n"
    + "                "
  const YouTubeRest := " \n"
    + "                width=\"320\" \n"
    + "                height=\"180\" \n"
    + "                frameborder=\"0\" \n"
    + "                allowfullscreen \n"
    + "                style=\"max-width: 100%; border-radius: 8px;\">\n"
    + "            </iframe>\n"
    + "        </div>\n        "
  const ImageLead := "\n    <div style=\"margin-top: 10px; text-align: center;\">\n"
    + "        <img \n"
    + "            "
  const ImageRest := " \n"
    + "            width=\"320\" \n"
    + "            style=\"max-width: 100%; height: auto; max-height: 180px; object-fit: cover; border-radius: 8px;\"\n"
    + "            alt=\"Route image\"\n"
    + "        >\n"
    + "    </div>\n    "

  /** The attribute `src="value"`. */
  function SrcAttribute(value: string): string
  {
    "src=\"" + value + "\""
  }

  /**
   * The popup markup for a video: a player whose source is a direct
   * file's address, an embedded player whose address names the YouTube
   * id, and nothing for no video or a kind of neither sort.
   */
  function CreateVideoHtml(video: Option<VideoInfo>): (r: string)
    ensures video.None? ==> r == ""
    ensures video.Some? && video.value.kind == Mp4Kind ==> Contains(r, SrcAttribute(video.value.url))
    ensures video.Some? && video.value.kind == YouTubeKind ==>
      Contains(r, SrcAttribute("https://www.youtube.com/embed/" + YouTubeId(video.value.url)))
    ensures video.Some? && video.value.kind != Mp4Kind && video.value.kind != YouTubeKind ==> r == ""
  {
    match video
    case None => ""
    case Some(info) =>
      if info.kind == Mp4Kind then
        InMiddle(Mp4Lead, SrcAttribute(info.url), Mp4Rest);
        Mp4Lead + SrcAttribute(info.url) + Mp4Rest
      else if info.kind == YouTubeKind then
        var src := SrcAttribute("https://www.youtube.com/embed/" + YouTubeId(info.url));
        InMiddle(YouTubeLead, src, YouTubeRest);
        YouTubeLead + src + YouTubeRest
      else ""
  }

  /** The popup markup for an image: an image element whose source is the image's address, or nothing. */
  function CreateImageHtml(image: Option<ImageInfo>): (r: string)
    ensures image.None? ==> r == ""
    ensures image.Some? ==> Contains(r, SrcAttribute(image.value.url))
  {
    match image
    case None => ""
    case Some(info) =>
      InMiddle(ImageLead, SrcAttribute(info.url), ImageRest);
      ImageLead + SrcAttribute(info.url) + ImageRest
  }

  /** A text occurs in any text made of something, that text and something else. */
  lemma InMiddle(lead: string, middle: string, rest: string)
    ensures Contains(lead + middle + rest, middle)
  {
    assert (lead + middle + rest)[|lead|..|lead| + |middle|] == middle;
    assert OccursAt(lead + middle + rest, middle, |lead|);
  }
}
