/**
 * `VideoPlayerModal`: the full-screen viewer of one documentation item.
 * A video plays its embed URL when it has one, and otherwise the stored
 * file. A photo shows the stored file. The modal keeps a single `playing`
 * flag, driven by the `isOpen` prop, the keyboard, the player's own
 * callbacks and the play overlay.
 */
module VideoPlayerModal {
  import opened Wrappers
  import opened Text
  import opened Entities

  predicate IsVideo(item: Dokumentasi)
  {
    item.jenis == "video"
  }

  /** Whether the modal renders anything: it must be open and have an item. */
  predicate Visible(isOpen: bool, item: Option<Dokumentasi>)
  {
    isOpen && item.Some?
  }

  /**
   * `mediaUrl`: a video's non-empty embed URL, used as given; in every
   * other case the stored file joined onto the storage base.
   */
  function MediaUrl(item: Dokumentasi, storage: string): (m: string)
    ensures IsVideo(item) && Truthy(item.url_embed) ==> m == item.url_embed.value
    ensures !IsVideo(item) || !Truthy(item.url_embed) ==>
      |m| == |storage| + 1 + |item.file_dokumentasi| && StartsWith(m, storage)
      && m[|storage|] == '/' && m[|storage| + 1..] == item.file_dokumentasi
  {
    if IsVideo(item) && Truthy(item.url_embed) then item.url_embed.value
    else JoinPath(storage, item.file_dokumentasi)
  }

  /** The platform the "Video dari" line names, from the first marker the embed URL mentions. */
  function Platform(embed: string): (p: string)
    ensures p == "YouTube" <==> Includes(embed, "youtube")
    ensures p == "Vimeo" <==> !Includes(embed, "youtube") && Includes(embed, "vimeo")
    ensures p == "Dailymotion" <==>
      !Includes(embed, "youtube") && !Includes(embed, "vimeo") && Includes(embed, "dailymotion")
    ensures p == "External Source" <==>
      !Includes(embed, "youtube") && !Includes(embed, "vimeo") && !Includes(embed, "dailymotion")
    ensures p in ["YouTube", "Vimeo", "Dailymotion", "External Source"]
  {
    if Includes(embed, "youtube") then "YouTube"
    else if Includes(embed, "vimeo") then "Vimeo"
    else if Includes(embed, "dailymotion") then "Dailymotion"
    else "External Source"
  }

  /** The "Video dari" line: shown only for a video with a non-empty embed URL. */
  function SourceLabel(item: Dokumentasi): (source: Option<string>)
    ensures source.Some? <==> IsVideo(item) && Truthy(item.url_embed)
    ensures source.Some? ==> source.value == Platform(item.url_embed.value)
  {
    if IsVideo(item) && Truthy(item.url_embed) then Some(Platform(item.url_embed.value)) else None
  }

  /** The label always names the platform of the URL actually played. */
  lemma SourceLabelNamesPlayedUrl(item: Dokumentasi, storage: string)
    requires SourceLabel(item).Some?
    ensures SourceLabel(item) == Some(Platform(MediaUrl(item, storage)))
    ensures SourceLabel(item).value == "YouTube" <==> Includes(MediaUrl(item, storage), "youtube")
  {
  }

  /** The badge under the title: a photo exactly when `jenis` is "foto", a video in every other case. */
  function BadgeLabel(item: Dokumentasi): (b: string)
    ensures b == "📷 Foto" <==> item.jenis == "foto"
    ensures b == "🎬 Video" <==> item.jenis != "foto"
  {
    if item.jenis == "foto" then "📷 Foto" else "🎬 Video"
  }

  /** The modal's state: the `isOpen` prop and the `playing` flag. */
  datatype Player = Player(isOpen: bool, playing: bool)

  /** The state on mount: not playing. */
  function Initial(isOpen: bool): (s: Player)
    ensures s.isOpen == isOpen && !s.playing
  {
    Player(isOpen, false)
  }

  /** A change of the `isOpen` prop: closing stops playback; opening keeps the flag. */
  function SetIsOpen(s: Player, isOpen: bool): (r: Player)
    ensures r.isOpen == isOpen
    ensures !isOpen ==> !r.playing
    ensures isOpen ==> r.playing == s.playing
  {
    if isOpen then s.(isOpen := true) else Player(false, false)
  }

  /** What a key press does: the new state, and whether the parent is asked to close. */
  datatype KeyOutcome = KeyOutcome(state: Player, close: bool)

  /**
   * The window key handler: nothing while closed; Space toggles playback;
   * Escape asks to close; any other key is ignored. The handler is
   * installed whether or not there is an item to show.
   */
  function KeyDown(s: Player, code: string): (o: KeyOutcome)
    ensures o.close <==> s.isOpen && code == "Escape"
    ensures o.state.isOpen == s.isOpen
    ensures o.state.playing != s.playing <==> s.isOpen && code == "Space"
  {
    if !s.isOpen then KeyOutcome(s, false)
    else if code == "Space" then KeyOutcome(s.(playing := !s.playing), false)
    else if code == "Escape" then KeyOutcome(s, true)
    else KeyOutcome(s, false)
  }

  /** Whether the player element exists: a visible video item. */
  predicate PlayerRendered(s: Player, item: Option<Dokumentasi>)
  {
    Visible(s.isOpen, item) && IsVideo(item.value)
  }

  /** The player's `onPlay` callback; it can only fire while the player is rendered. */
  function OnPlay(s: Player, item: Option<Dokumentasi>): (r: Player)
    ensures PlayerRendered(s, item) ==> r == s.(playing := true)
    ensures !PlayerRendered(s, item) ==> r == s
  {
    if PlayerRendered(s, item) then s.(playing := true) else s
  }

  /** The player's `onPause` callback. */
  function OnPause(s: Player, item: Option<Dokumentasi>): (r: Player)
    ensures PlayerRendered(s, item) ==> r == s.(playing := false)
    ensures !PlayerRendered(s, item) ==> r == s
  {
    if PlayerRendered(s, item) then s.(playing := false) else s
  }

  /** The play overlay: shown over a rendered player while paused. */
  predicate PlayOverlay(s: Player, item: Option<Dokumentasi>)
    ensures PlayOverlay(s, item) ==> s.isOpen && item.Some? && IsVideo(item.value) && !s.playing
    ensures PlayOverlay(s, item) ==> OnPlay(s, item).playing && OnPause(s, item) == s
  {
    PlayerRendered(s, item) && !s.playing
  }

  /** A click on the play overlay (`handlePlayPause`); the overlay exists only while paused. */
  function OverlayClick(s: Player, item: Option<Dokumentasi>): (r: Player)
    ensures PlayOverlay(s, item) ==> r.playing && r.isOpen == s.isOpen
    ensures !PlayOverlay(s, item) ==> r == s
  {
    if PlayOverlay(s, item) then s.(playing := !s.playing) else s
  }

  /** Everything that can happen to the modal. */
  datatype Event =
    | OpenChanged(isOpen: bool)
    | Key(code: string)
    | Played
    | Paused
    | OverlayClicked

  function Step(s: Player, item: Option<Dokumentasi>, e: Event): Player
  {
    match e
    case OpenChanged(o) => SetIsOpen(s, o)
    case Key(code) => KeyDown(s, code).state
    case Played => OnPlay(s, item)
    case Paused => OnPause(s, item)
    case OverlayClicked => OverlayClick(s, item)
  }

  function Run(s: Player, item: Option<Dokumentasi>, es: seq<Event>): Player
    decreases |es|
  {
    if es == [] then s else Run(Step(s, item, es[0]), item, es[1..])
  }

  /** A closed modal is never playing. */
  predicate Quiet(s: Player)
  {
    !s.isOpen ==> !s.playing
  }

  /** Every event keeps a closed modal silent. */
  lemma StepQuiet(s: Player, item: Option<Dokumentasi>, e: Event)
    requires Quiet(s)
    ensures Quiet(Step(s, item, e))
  {
  }

  /** Starting quiet (as the initial state is), no sequence of events leaves a closed modal playing. */
  lemma {:induction false} RunQuiet(s: Player, item: Option<Dokumentasi>, es: seq<Event>)
    requires Quiet(s)
    ensures Quiet(Run(s, item, es))
    decreases |es|
  {
    if es != [] {
      StepQuiet(s, item, es[0]);
      RunQuiet(Step(s, item, es[0]), item, es[1..]);
    }
  }

  /** Space pressed twice returns to the same state, open or closed. */
  lemma SpaceTwice(s: Player)
    ensures KeyDown(KeyDown(s, "Space").state, "Space").state == s
  {
  }
}
