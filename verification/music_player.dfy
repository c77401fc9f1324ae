/**
 * `MusicPlayerModal`: how a musical work's stored media reference becomes
 * something to play, and the ready/error flags of the player.
 *
 * A reference is either a storage-relative path, joined onto the storage
 * base URL, or an external URL; YouTube URLs are reduced to their video id
 * and rebuilt in a canonical form. URL parsing (`new URL(...)`) is not
 * modelled: every function that needs it takes the parser as a parameter,
 * a partial function giving the hostname, the pathname and the first value
 * of each query parameter.
 */
module MusicPlayerModal {
  import opened Wrappers
  import opened Text
  import opened Entities

  /** Which of the work's two references the modal plays; the component defaults to audio. */
  datatype MediaType = Audio | Video

  /** What `new URL(s)` exposes to the id extraction. */
  datatype ParsedUrl = ParsedUrl(hostname: string, pathname: string, query: map<string, string>)

  /** `new URL(s)`: None when the constructor throws. */
  type UrlParser = string -> Option<ParsedUrl>

  const WatchPrefix: string := "https://www.youtube.com/watch?v="
  const EmbedPrefix: string := "https://www.youtube.com/embed/"
  const EmbedParams: string := "?autoplay=1&modestbranding=1&rel=0&controls=1"

  /** `rawUrl`: the video reference for `'video'`, otherwise the audio reference. */
  function RawUrl(music: KaryaMusik, kind: MediaType): (raw: Option<string>)
    ensures kind == Video ==> raw == music.url_video
    ensures kind == Audio ==> raw == music.url_audio
  {
    if kind == Video then music.url_video else music.url_audio
  }

  /** The platform markers any of which makes a reference external. */
  predicate HasPlatformMarker(s: string)
  {
    Includes(s, "youtube") || Includes(s, "youtu.be") || Includes(s, "vimeo")
    || Includes(s, "soundcloud") || Includes(s, "spotify")
  }

  /** `isExternalUrl`: a non-empty reference with an http(s) scheme or a platform marker anywhere in it. */
  predicate IsExternalUrl(url: Option<string>)
    ensures IsExternalUrl(url) ==> Truthy(url)
    ensures Truthy(url) && HasPlatformMarker(url.value) ==> IsExternalUrl(url)
    ensures IsExternalUrl(url) && !HasPlatformMarker(url.value) ==> StartsWith(url.value, "http")
  {
    Truthy(url)
    && (StartsWith(url.value, "http://") || StartsWith(url.value, "https://") || HasPlatformMarker(url.value))
  }

  /** `getYouTubeVideoId`: the `v` parameter on youtube.com, the first path segment on youtu.be, else null. */
  function YouTubeVideoId(url: string, parse: UrlParser): (id: Option<string>)
    ensures url == "" || parse(url).None? ==> id.None?
    ensures url != "" && parse(url).Some? && Includes(parse(url).value.hostname, "youtube.com") ==>
      var u := parse(url).value;
      id == (if "v" in u.query then Some(u.query["v"]) else None)
    ensures url != "" && parse(url).Some? && !Includes(parse(url).value.hostname, "youtube.com") ==>
      var u := parse(url).value;
      && (Includes(u.hostname, "youtu.be") ==> id == Some(CutAt(DropFirst(u.pathname), '?')))
      && (!Includes(u.hostname, "youtu.be") ==> id.None?)
  {
    if url == "" then None
    else match parse(url)
      case None => None
      case Some(u) =>
        if Includes(u.hostname, "youtube.com") then
          (if "v" in u.query then Some(u.query["v"]) else None)
        else if Includes(u.hostname, "youtu.be") then
          Some(CutAt(DropFirst(u.pathname), '?'))
        else None
  }

  /** The canonical watch URL of a video id. */
  function WatchUrl(id: string): string
  {
    WatchPrefix + id
  }

  /** `cleanYouTubeUrl`: a YouTube reference with a non-empty id becomes the canonical watch URL; anything else is kept. */
  function CleanYouTubeUrl(url: string, parse: UrlParser): (r: string)
    ensures !Includes(url, "youtube.com") && !Includes(url, "youtu.be") ==> r == url
    ensures Truthy(YouTubeVideoId(url, parse)) && (Includes(url, "youtube.com") || Includes(url, "youtu.be")) ==>
      r == WatchUrl(YouTubeVideoId(url, parse).value)
    ensures !Truthy(YouTubeVideoId(url, parse)) ==> r == url
  {
    if Includes(url, "youtube.com") || Includes(url, "youtu.be") then
      var id := YouTubeVideoId(url, parse);
      if Truthy(id) then WatchUrl(id.value) else url
    else url
  }

  /**
   * `mediaUrl`: absent exactly when the raw reference is absent or empty;
   * an external reference is cleaned, a storage path is joined onto the
   * storage base with one slash and no normalisation.
   */
  function MediaUrl(raw: Option<string>, storage: string, parse: UrlParser): (m: Option<string>)
    ensures m.None? <==> !Truthy(raw)
    ensures Truthy(raw) && !IsExternalUrl(raw) ==> m == Some(JoinPath(storage, raw.value))
    ensures IsExternalUrl(raw) ==> m == Some(CleanYouTubeUrl(raw.value, parse))
    ensures IsExternalUrl(raw) && !Includes(raw.value, "youtube.com") && !Includes(raw.value, "youtu.be") ==> m == raw
    ensures m.Some? ==> m.value != ""
  {
    if Truthy(raw) then
      if IsExternalUrl(raw) then Some(CleanYouTubeUrl(raw.value, parse))
      else Some(JoinPath(storage, raw.value))
    else None
  }

  /** `youtubeVideoId`: extracted only from references mentioning youtube or youtu.be. */
  function YoutubeVideoIdOf(raw: Option<string>, parse: UrlParser): (id: Option<string>)
    ensures id.Some? ==> Truthy(raw) && (Includes(raw.value, "youtube") || Includes(raw.value, "youtu.be"))
    ensures id.Some? ==> id == YouTubeVideoId(raw.value, parse)
    ensures Truthy(raw) && (Includes(raw.value, "youtube") || Includes(raw.value, "youtu.be")) ==>
      id == YouTubeVideoId(raw.value, parse)
  {
    if Truthy(raw) && (Includes(raw.value, "youtube") || Includes(raw.value, "youtu.be")) then
      YouTubeVideoId(raw.value, parse)
    else None
  }

  /** What fills the media area. */
  datatype Stage =
    | NoMedia                     // "Media tidak tersedia"
    | YouTubeFrame(src: string)   // the YouTube iframe
    | GenericPlayer(url: string)  // ReactPlayer on the media URL

  /**
   * The media area: nothing to play without a media URL; the YouTube
   * iframe when a non-empty video id was extracted; the generic player on
   * the media URL otherwise.
   */
  function StageOf(raw: Option<string>, storage: string, parse: UrlParser): (st: Stage)
    ensures st.NoMedia? <==> !Truthy(raw)
    ensures st.YouTubeFrame? <==> Truthy(raw) && Truthy(YoutubeVideoIdOf(raw, parse))
    ensures st.YouTubeFrame? ==> st.src == EmbedPrefix + YoutubeVideoIdOf(raw, parse).value + EmbedParams
    ensures st.GenericPlayer? ==> Some(st.url) == MediaUrl(raw, storage, parse)
  {
    var m := MediaUrl(raw, storage, parse);
    var id := YoutubeVideoIdOf(raw, parse);
    if m.None? then NoMedia
    else if Truthy(id) then YouTubeFrame(EmbedPrefix + id.value + EmbedParams)
    else GenericPlayer(m.value)
  }

  /**
   * "Media dari: ...": shown only for an external reference with a media
   * URL, naming the first platform the media URL mentions in the order
   * YouTube, Vimeo, SoundCloud, Spotify.
   */
  function SourceLabel(raw: Option<string>, storage: string, parse: UrlParser): (source: Option<string>)
    ensures source.Some? <==> IsExternalUrl(raw)
    ensures source.Some? ==> source.value in ["YouTube", "Vimeo", "SoundCloud", "Spotify", "External Source"]
    ensures source.Some? ==>
      var m := MediaUrl(raw, storage, parse).value;
      var yt := Includes(m, "youtube") || Includes(m, "youtu.be");
      && (source.value == "YouTube" <==> yt)
      && (source.value == "Vimeo" <==> !yt && Includes(m, "vimeo"))
      && (source.value == "SoundCloud" <==> !yt && !Includes(m, "vimeo") && Includes(m, "soundcloud"))
      && (source.value == "Spotify" <==>
            !yt && !Includes(m, "vimeo") && !Includes(m, "soundcloud") && Includes(m, "spotify"))
      && (source.value == "External Source" <==> !HasPlatformMarker(m))
  {
    var m := MediaUrl(raw, storage, parse);
    if m.Some? && IsExternalUrl(raw) then
      var u := m.value;
      Some(if Includes(u, "youtube") || Includes(u, "youtu.be") then "YouTube"
           else if Includes(u, "vimeo") then "Vimeo"
           else if Includes(u, "soundcloud") then "SoundCloud"
           else if Includes(u, "spotify") then "Spotify"
           else "External Source")
    else None
  }

  /** The "File Dummy" warning: a media URL built from a storage path. */
  predicate DummyFileWarning(raw: Option<string>, storage: string, parse: UrlParser)
    ensures DummyFileWarning(raw, storage, parse) ==>
      Truthy(raw) && MediaUrl(raw, storage, parse) == Some(JoinPath(storage, raw.value))
    ensures Truthy(raw) && !StartsWith(raw.value, "http") && !HasPlatformMarker(raw.value) ==>
      DummyFileWarning(raw, storage, parse)
  {
    MediaUrl(raw, storage, parse).Some? && !IsExternalUrl(raw)
  }

  /** Whenever there is a media URL, exactly one of the source line and the dummy-file warning is shown. */
  lemma SourceInfoExclusive(raw: Option<string>, storage: string, parse: UrlParser)
    ensures MediaUrl(raw, storage, parse).Some? ==>
      (SourceLabel(raw, storage, parse).Some? <==> !DummyFileWarning(raw, storage, parse))
    ensures MediaUrl(raw, storage, parse).None? ==>
      SourceLabel(raw, storage, parse).None? && !DummyFileWarning(raw, storage, parse)
  {
  }

  /** A reference to the storage: no scheme and no platform marker. */
  lemma StoragePathJoined(raw: string, storage: string, parse: UrlParser)
    requires raw != ""
    requires !StartsWith(raw, "http://") && !StartsWith(raw, "https://") && !HasPlatformMarker(raw)
    ensures MediaUrl(Some(raw), storage, parse) == Some(storage + "/" + raw)
    ensures SourceLabel(Some(raw), storage, parse).None?
  {
  }

  /**
   * A parser that reads the canonical watch URL of `id` as the standard
   * does: host www.youtube.com and `v` equal to `id`. This holds for ids
   * made of URL-safe characters.
   */
  ghost predicate ReadsWatchUrl(parse: UrlParser, id: string)
  {
    parse(WatchUrl(id)).Some?
    && parse(WatchUrl(id)).value.hostname == "www.youtube.com"
    && "v" in parse(WatchUrl(id)).value.query
    && parse(WatchUrl(id)).value.query["v"] == id
  }

  /** The watch URL mentions youtube.com. */
  lemma WatchUrlMentionsYouTube(id: string)
    ensures Includes(WatchUrl(id), "youtube.com") && Includes(WatchUrl(id), "youtube")
    ensures StartsWith(WatchUrl(id), "https://")
  {
    var w := WatchUrl(id);
    assert w[12..23] == "youtube.com";
    assert w[12..19] == "youtube";
    IncludesAt(w, "youtube.com", 12);
    IncludesAt(w, "youtube", 12);
  }

  /** Reading the id back out of the canonical watch URL gives the id. */
  lemma WatchUrlRoundTrip(id: string, parse: UrlParser)
    requires ReadsWatchUrl(parse, id)
    ensures YouTubeVideoId(WatchUrl(id), parse) == Some(id)
  {
    var u := parse(WatchUrl(id)).value;
    assert u.hostname[4..15] == "youtube.com";
    IncludesAt(u.hostname, "youtube.com", 4);
  }

  /**
   * Cleaning is idempotent: a cleaned reference, cleaned again, stays the
   * same (for a parser that reads canonical watch URLs).
   */
  lemma CleanIdempotent(url: string, parse: UrlParser)
    requires Truthy(YouTubeVideoId(url, parse)) ==> ReadsWatchUrl(parse, YouTubeVideoId(url, parse).value)
    ensures CleanYouTubeUrl(CleanYouTubeUrl(url, parse), parse) == CleanYouTubeUrl(url, parse)
  {
    var c := CleanYouTubeUrl(url, parse);
    if c != url {
      var id := YouTubeVideoId(url, parse).value;
      assert c == WatchUrl(id);
      WatchUrlMentionsYouTube(id);
      WatchUrlRoundTrip(id, parse);
    }
  }

  /**
   * A cleaned external reference is still external and is labelled with
   * the same platform: resolving the media URL of a media URL gives the
   * same source label.
   */
  lemma ResolveStable(raw: string, storage: string, parse: UrlParser)
    requires IsExternalUrl(Some(raw))
    requires Truthy(YouTubeVideoId(raw, parse)) ==> ReadsWatchUrl(parse, YouTubeVideoId(raw, parse).value)
    ensures var m := MediaUrl(Some(raw), storage, parse).value;
      && IsExternalUrl(Some(m))
      && MediaUrl(Some(m), storage, parse) == Some(m)
      && SourceLabel(Some(m), storage, parse) == SourceLabel(Some(raw), storage, parse)
  {
    var m := MediaUrl(Some(raw), storage, parse).value;
    CleanIdempotent(raw, parse);
    if m != raw {
      var id := YouTubeVideoId(raw, parse).value;
      WatchUrlMentionsYouTube(id);
      IncludesPrefix(m, "https://");
    }
  }

  /** The player flags, and whether the modal is open. */
  datatype Flags = Flags(isOpen: bool, isReady: bool, hasError: bool)

  /** The flags when the component mounts. */
  function InitialFlags(isOpen: bool): (f: Flags)
    ensures f.isOpen == isOpen && !f.isReady && !f.hasError
  {
    Flags(isOpen, false, false)
  }

  /** A change of the `isOpen` prop: opening resets both flags; closing keeps them. */
  function SetOpen(f: Flags, isOpen: bool): (r: Flags)
    ensures r.isOpen == isOpen
    ensures isOpen && !f.isOpen ==> !r.isReady && !r.hasError
    ensures !(isOpen && !f.isOpen) ==> r.isReady == f.isReady && r.hasError == f.hasError
  {
    if isOpen && !f.isOpen then Flags(true, false, false) else f.(isOpen := isOpen)
  }

  /** The player (iframe `onLoad` or ReactPlayer `onReady`) reports it is ready. */
  function OnReady(f: Flags): (r: Flags)
    ensures r.isReady && r.isOpen == f.isOpen && r.hasError == f.hasError
  {
    f.(isReady := true)
  }

  /** The player reports an error. */
  function OnError(f: Flags): (r: Flags)
    ensures r.hasError && r.isOpen == f.isOpen && r.isReady == f.isReady
  {
    f.(hasError := true)
  }

  /** The loading overlay: shown exactly in the flags a fresh open leaves, neither ready nor failed. */
  predicate LoadingOverlay(f: Flags)
    ensures LoadingOverlay(f) <==> f.(isOpen := true) == SetOpen(f.(isOpen := false), true)
  {
    !f.isReady && !f.hasError
  }

  /** A key press asks the parent to close exactly when the modal is open and the key is Escape. */
  function KeyRequestsClose(f: Flags, code: string): (close: bool)
    ensures close <==> f.isOpen && code == "Escape"
  {
    f.isOpen && code == "Escape"
  }

  /** The events that drive the flags. */
  datatype FlagEvent = OpenChanged(isOpen: bool) | Ready | Failed

  function Apply(f: Flags, e: FlagEvent): Flags
  {
    match e
    case OpenChanged(o) => SetOpen(f, o)
    case Ready => OnReady(f)
    case Failed => OnError(f)
  }

  function ApplyAll(f: Flags, es: seq<FlagEvent>): Flags
    decreases |es|
  {
    if es == [] then f else ApplyAll(Apply(f, es[0]), es[1..])
  }

  /**
   * The callbacks only ever raise their flag: while the `isOpen` prop does
   * not change, a flag once set stays set, so the loading overlay, once gone,
   * does not come back until the modal is opened again.
   */
  lemma {:induction false} FlagsOnlyRise(f: Flags, es: seq<FlagEvent>)
    requires forall i :: 0 <= i < |es| ==> es[i].OpenChanged? ==> es[i].isOpen == f.isOpen
    ensures var r := ApplyAll(f, es);
      (f.isReady ==> r.isReady) && (f.hasError ==> r.hasError)
      && (!LoadingOverlay(f) ==> !LoadingOverlay(r))
    decreases |es|
  {
    if es != [] {
      var g := Apply(f, es[0]);
      assert g.isOpen == f.isOpen;
      FlagsOnlyRise(g, es[1..]);
    }
  }

  /** Opening a closed modal always shows the loading overlay until a callback arrives. */
  lemma OpenShowsLoading(f: Flags)
    requires !f.isOpen
    ensures LoadingOverlay(SetOpen(f, true))
    ensures !LoadingOverlay(OnReady(SetOpen(f, true))) && !LoadingOverlay(OnError(SetOpen(f, true)))
  {
  }
}
