# KP Folen front end — a Dafny model of its core

The system is the Next.js front end of a music studio's site. It has
an admin side that manages musical works (`karya musik`), scheduled
activities (`jadwal kegiatan`), documentation photos and videos
(`dokumentasi`) and categories (`kategori`). It also has a public side
that shows them. This project models the part of it that carries logic:

- the four zustand CRUD stores: their paging state, and how each
  server answer (success or failure) changes the listed page;
- the page-number window of the `Pagination` component;
- the media-URL resolution and player flags of `MusicPlayerModal` and
  `VideoPlayerModal`, and the thumbnail rule of `GalleryCard`;
- the value conversion and the synthetic events of the `Select`
  wrapper;
- the sort toggle and the row/cell structure of `Table`;
- the theme and auth stores;
- the badge tables and the optional lines of `EventCard`.

Each component or store is one module. `Wrappers` and `Text` hold the
shared pieces: `Option`, the server oracle `Reply`, and the JS string
operations `startsWith`, `includes`, `split('?')[0]` and `slice(1)`, as
well as JS truthiness. `Entities` holds the records and the object
spread `{ ...item, ...response }`. `ListStore` holds the page-and-loading
state that all four CRUD stores share.

Modelling conventions:

- Every HTTP call is a `Reply` parameter: `Success(payload)` for a 2xx
  answer, `Failure` for a thrown error.
- The storage base URL (`url_storage`) is a `storage: string` parameter.
- `new URL(...)` is a parameter: a partial function to hostname,
  pathname and query parameters. The only thing assumed about it is what
  a lemma states in its `requires`.
- JS falsiness is modelled exactly for the types involved: `None` and
  `""` for strings, `None` and `0` for numbers, and `false`, `null` and
  `undefined` for the `Select` value.
- The ids that `removeData` and `updateData` accept are typed
  `number | string`. They are a `Key` (`NumKey | TextKey`), so the
  comparison `item.id === id` never holds for a text id.

`Text.JoinPath` concatenates `url_storage + "/" + path` with no
normalisation, as `MusicPlayerModal.tsx` does.

## Model

| member | source | states |
|---|---|---|
| ListStore.StatusesContainBerhasil | src/components/forms/KategoriForm.tsx:76 | the four success statuses all contain "berhasil", which is what the forms test for; "error" does not |
| ListStore.Initial | src/stores/crud/useDokumentasi.ts:83-90 | a fresh store is an empty first page of ten with total 0, not loading |
| ListStore.FetchQuery | src/stores/crud/useDokumentasi.ts:92-114 | page and limit default to 1 and 10; search, sort and filters pass through unchanged |
| ListStore.BeginFetch | src/stores/crud/useDokumentasi.ts:102 | a fetch raises `loading` and leaves the page alone |
| ListStore.FinishFetch | src/stores/crud/useDokumentasi.ts:117-132 | a successful answer replaces the whole page; a failed one keeps it; `loading` ends either way |
| ListStore.Fetch | src/stores/crud/useDokumentasi.ts:92-133 | a whole fetch: the server is asked with the defaulted query, and its answer decides the page as above |
| ListStore.Count | src/stores/crud/useDokumentasi.ts:192 | the number of listed records an id matches is at most the page length |
| ListStore.Without | src/stores/crud/useDokumentasi.ts:192 | the filter removes exactly the matching records: its length is the page length minus their count, and every record it keeps is non-matching, while every non-matching record is kept |
| ListStore.WithoutAppend | src/stores/crud/useDokumentasi.ts:192 | filtering distributes over concatenation, so the kept records stay in their order |
| ListStore.MergeMatching | src/stores/crud/useDokumentasi.ts:220-222 | the map keeps length and position: matching records get the response overlaid, the others are untouched |
| ListStore.Add | src/stores/crud/useDokumentasi.ts:154-180 | success prepends the created record and adds one to total, with the other counters kept; failure changes nothing and returns "error" |
| ListStore.Remove | src/stores/crud/useDokumentasi.ts:182-207 | success drops the matching records and takes one off total, matched or not; failure changes nothing |
| ListStore.Merge | src/stores/crud/useDokumentasi.ts:209-236 | success overlays the response on the matching records, with length, order and total kept; failure changes nothing |
| ListStore.Read | src/stores/crud/useDokumentasi.ts:135-152 | a read-only call never changes the store and returns the payload with "berhasil", or no data with "error" |
| ListStore.OffPageKept | src/stores/crud/useDokumentasi.ts:162-223 | total minus the listed count is kept by add and update, and by remove exactly when one listed record matched |
| ListStore.RemoveByTextKey | src/stores/crud/useDokumentasi.ts:189-195 | a text id matches nothing, so removing by it keeps every record but still decrements total |
| ListStore.WithoutNone | src/stores/crud/useDokumentasi.ts:192 | filtering by an id that nothing matches returns the page unchanged |
| ListStore.AddThenRemove | src/stores/crud/useDokumentasi.ts:154-207 | removing the record just added restores the previous page and total, when its id was new |
| ListStore.MergeThenWithout | src/stores/crud/useDokumentasi.ts:189-223 | an update that keeps ids, followed by a remove of that id, equals the remove alone |
| ListStore.MergeNoMatch | src/stores/crud/useDokumentasi.ts:217-223 | an update by an id no listed record has leaves the store unchanged |
| ListStore.CountZero | src/stores/crud/useDokumentasi.ts:192 | the match count is zero exactly when no listed record matches |
| DokumentasiStore.Init | src/stores/crud/useDokumentasi.ts:83-90 | the documentation store starts as an empty first page of ten, not loading |
| DokumentasiStore.SetDokumentasi | src/stores/crud/useDokumentasi.ts:92-133 | fetching with filters gives the server's page on success, keeps the page on failure, and always ends loading |
| DokumentasiStore.AddData | src/stores/crud/useDokumentasi.ts:154-180 | the created item goes first and total grows by one; "berhasil tambah", or "error" with no change |
| DokumentasiStore.RemoveData | src/stores/crud/useDokumentasi.ts:182-207 | the items with that id go and total drops by one; "berhasil hapus", or "error" with no change |
| DokumentasiStore.UpdateData | src/stores/crud/useDokumentasi.ts:209-236 | the response is overlaid on the items with that id, with length, order and total kept; "berhasil update", or "error" |
| DokumentasiStore.SetShowDokumentasi | src/stores/crud/useDokumentasi.ts:135-152 | reading one item leaves the store untouched |
| DokumentasiStore.UploadFile | src/stores/crud/useDokumentasi.ts:238-263 | an upload returns the stored path and leaves the store untouched |
| DokumentasiStore.GetByRelated | src/stores/crud/useDokumentasi.ts:265-283 | listing the items of a related record leaves the store untouched |
| DokumentasiStore.GetGallery | src/stores/crud/useDokumentasi.ts:285-303 | reading the public gallery leaves the store untouched |
| KategoriStore.Init | src/stores/crud/useKategori.ts:67-75 | the category store starts as an empty first page of ten, not loading |
| KategoriStore.SetKategori | src/stores/crud/useKategori.ts:77-118 | the server's page replaces the list on success, the list is kept on failure, and loading ends |
| KategoriStore.AddData | src/stores/crud/useKategori.ts:139-165 | the created category goes first and total grows by one; failure changes nothing |
| KategoriStore.RemoveData | src/stores/crud/useKategori.ts:167-192 | the categories with that id go and total drops by one unconditionally; failure changes nothing |
| KategoriStore.UpdateData | src/stores/crud/useKategori.ts:194-221 | the response is overlaid on the categories with that id, with length, order and total kept |
| KategoriStore.ToggleAktif | src/stores/crud/useKategori.ts:242-268 | the toggle answer is overlaid the same way, with status "berhasil"; failure changes nothing |
| KategoriStore.SetShowKategori | src/stores/crud/useKategori.ts:120-137 | reading one category leaves the store untouched |
| KategoriStore.GetByJenis | src/stores/crud/useKategori.ts:223-240 | listing categories of one kind leaves the store untouched |
| KategoriStore.GenerateSlug | src/stores/crud/useKategori.ts:270-288 | asking for a slug leaves the store untouched and returns the server's slug |
| JadwalKegiatanStore.Init | src/stores/crud/useJadwalKegiatan.ts:71-79 | the activity store starts as an empty first page of ten, not loading |
| JadwalKegiatanStore.SetJadwalKegiatan | src/stores/crud/useJadwalKegiatan.ts:81-122 | the server's page replaces the list on success, the list is kept on failure, and loading ends |
| JadwalKegiatanStore.AddData | src/stores/crud/useJadwalKegiatan.ts:143-169 | the created activity goes first and total grows by one; failure changes nothing |
| JadwalKegiatanStore.RemoveData | src/stores/crud/useJadwalKegiatan.ts:171-198 | the activities with that id go and total drops by one unconditionally; failure changes nothing |
| JadwalKegiatanStore.UpdateData | src/stores/crud/useJadwalKegiatan.ts:200-227 | the response is overlaid on the activities with that id, with length, order and total kept |
| JadwalKegiatanStore.UpdatePeserta | src/stores/crud/useJadwalKegiatan.ts:252-279 | the participant-count answer is overlaid the same way, with status "berhasil"; failure changes nothing |
| JadwalKegiatanStore.SetShowJadwalKegiatan | src/stores/crud/useJadwalKegiatan.ts:124-141 | reading one activity leaves the store untouched |
| JadwalKegiatanStore.GetByDateRange | src/stores/crud/useJadwalKegiatan.ts:229-250 | listing activities in a date range leaves the store untouched |
| KaryaMusikStore.Init | src/stores/crud/useKaryaMusik.ts:54-62 | the music store starts as an empty first page of ten, not loading |
| KaryaMusikStore.SetKaryaMusik | src/stores/crud/useKaryaMusik.ts:64-103 | page and limit default to 1 and 10; the server's page replaces the list on success, and loading ends |
| KaryaMusikStore.AddData | src/stores/crud/useKaryaMusik.ts:124-150 | the created work goes first and total grows by one; failure changes nothing |
| KaryaMusikStore.RemoveData | src/stores/crud/useKaryaMusik.ts:152-177 | the works with that id go and total drops by one unconditionally; failure changes nothing |
| KaryaMusikStore.UpdateData | src/stores/crud/useKaryaMusik.ts:179-206 | the response is overlaid on the works with that id, with length, order and total kept |
| KaryaMusikStore.SetShowKaryaMusik | src/stores/crud/useKaryaMusik.ts:105-122 | reading one work leaves the store untouched |
| KaryaMusikStore.GetGenres | src/stores/crud/useKaryaMusik.ts:208-225 | reading the genre list leaves the store untouched |
| Entities.OverlayKeepsId | src/stores/crud/useDokumentasi.ts:221 | the spread keeps a record's id unless the response has one, and applying the same response twice equals applying it once |
| Pagination.Run | src/components/ui/Pagination.tsx:26-32 | the loop's range holds every page from the start to the end of the window, consecutively |
| Pagination.GetVisiblePages | src/components/ui/Pagination.tsx:21-49 | the loop-built page list equals the declarative window: first page, optional ellipsis, window, optional ellipsis, last page |
| Pagination.InRun | src/components/ui/Pagination.tsx:26-32 | a page is in the range exactly when it lies between the window bounds |
| Pagination.VisiblePages | src/components/ui/Pagination.tsx:21-49 | the window opens with page 1, closes with the last page when there is more than one, and lists no page except those two and the pages within two of the current one |
| Pagination.VisiblePagesEnds | src/components/ui/Pagination.tsx:34-46 | the list starts at page 1 and ends at the last page; each ellipsis appears exactly when the window leaves a gap on its side |
| Pagination.VisiblePagesIncreasing | src/components/ui/Pagination.tsx:21-49 | the page numbers shown strictly increase |
| Pagination.VisiblePagesMembers | src/components/ui/Pagination.tsx:21-49 | a page is shown exactly when it is the first, the last, or within two of the current page |
| Pagination.VisiblePagesSize | src/components/ui/Pagination.tsx:21-49 | at most two ellipses and at most seven page buttons |
| Pagination.VisiblePagesContainCurrent | src/components/ui/Pagination.tsx:25-32 | the current page is always shown |
| Pagination.EllipsisMarksGaps | src/components/ui/Pagination.tsx:34-46 | adjacent page entries are consecutive numbers, and an ellipsis stands exactly for a skipped range |
| Pagination.Render | src/components/ui/Pagination.tsx:51-88 | nothing is drawn for one page or fewer; prev and next are disabled on the first and last page; one button per entry, active exactly on the current page |
| Pagination.RenderInRange | src/components/ui/Pagination.tsx:51-88 | exactly one button is active, and every enabled navigation target is a real page |
| MusicPlayerModal.RawUrl | src/components/ui/MusicPlayerModal.tsx:62 | the video reference is used for "video", the audio reference otherwise |
| MusicPlayerModal.IsExternalUrl | src/components/ui/MusicPlayerModal.tsx:65-74 | an external reference is never empty; any non-empty reference naming a platform is external; one without a platform marker must start with "http" |
| MusicPlayerModal.YouTubeVideoId | src/components/ui/MusicPlayerModal.tsx:77-93 | the id is the `v` parameter on a youtube.com host; on a youtu.be host it is the path after the first character, up to any "?"; otherwise, and when parsing fails, there is none |
| MusicPlayerModal.CleanYouTubeUrl | src/components/ui/MusicPlayerModal.tsx:96-104 | a YouTube reference with a non-empty id becomes the canonical watch URL; any other reference is returned as is |
| MusicPlayerModal.MediaUrl | src/components/ui/MusicPlayerModal.tsx:106-114 | there is a media URL exactly when the reference is non-empty; external references are cleaned, storage paths are joined onto the storage base |
| MusicPlayerModal.YoutubeVideoIdOf | src/components/ui/MusicPlayerModal.tsx:117-119 | an id is looked for only in references mentioning youtube or youtu.be |
| MusicPlayerModal.StageOf | src/components/ui/MusicPlayerModal.tsx:162-233 | nothing to play without a reference; the YouTube iframe with the embed URL when an id was found; otherwise the generic player on the media URL |
| MusicPlayerModal.SourceLabel | src/components/ui/MusicPlayerModal.tsx:311-320 | the source line appears exactly for external references and names the first platform the media URL mentions in the order YouTube (either marker), Vimeo, SoundCloud, Spotify, and "External Source" exactly when it mentions none |
| MusicPlayerModal.DummyFileWarning | src/components/ui/MusicPlayerModal.tsx:325-337 | the warning is shown for a reference played from storage, whose media URL is the joined path, and for every non-empty reference with no scheme and no platform marker |
| MusicPlayerModal.SourceInfoExclusive | src/components/ui/MusicPlayerModal.tsx:311-326 | with a media URL, exactly one of the source line and the dummy-file warning is shown; without one, neither is |
| MusicPlayerModal.StoragePathJoined | src/components/ui/MusicPlayerModal.tsx:65-114 | a plain storage path becomes `storage + "/" + path`, and has no source line |
| MusicPlayerModal.WatchUrlMentionsYouTube | src/components/ui/MusicPlayerModal.tsx:100 | the canonical watch URL is itself recognised as a youtube.com reference |
| MusicPlayerModal.WatchUrlRoundTrip | src/components/ui/MusicPlayerModal.tsx:77-100 | reading the id back out of the canonical watch URL gives the same id, for a parser that reads that URL in the standard way |
| MusicPlayerModal.CleanIdempotent | src/components/ui/MusicPlayerModal.tsx:96-104 | cleaning a cleaned reference changes nothing |
| MusicPlayerModal.ResolveStable | src/components/ui/MusicPlayerModal.tsx:106-114 | the media URL of an external reference is itself external, resolves to itself, and gets the same source label |
| MusicPlayerModal.InitialFlags | src/components/ui/MusicPlayerModal.tsx:34-35 | the player starts neither ready nor failed |
| MusicPlayerModal.SetOpen | src/components/ui/MusicPlayerModal.tsx:37-43 | opening a closed modal clears both flags; any other change of `isOpen` keeps them |
| MusicPlayerModal.OnReady | src/components/ui/MusicPlayerModal.tsx:172-175 | the ready callback sets `isReady` and nothing else |
| MusicPlayerModal.OnError | src/components/ui/MusicPlayerModal.tsx:176-179 | the error callback sets `hasError` and nothing else |
| MusicPlayerModal.LoadingOverlay | src/components/ui/MusicPlayerModal.tsx:181-200 | the loading overlay is shown exactly in the ready/error flags a fresh open leaves |
| MusicPlayerModal.KeyRequestsClose | src/components/ui/MusicPlayerModal.tsx:46-56 | a key asks to close exactly when the modal is open and the key is Escape |
| MusicPlayerModal.FlagsOnlyRise | src/components/ui/MusicPlayerModal.tsx:34-43 | while `isOpen` does not change, set flags stay set, so the loading overlay does not come back |
| MusicPlayerModal.OpenShowsLoading | src/components/ui/MusicPlayerModal.tsx:181-193 | opening shows the loading overlay, and either callback removes it |
| VideoPlayerModal.MediaUrl | src/components/ui/VideoPlayerModal.tsx:54-59 | a video plays its non-empty embed URL as given; anything else shows the stored file under the storage base |
| VideoPlayerModal.Platform | src/components/ui/VideoPlayerModal.tsx:164-168 | the first marker the embed URL mentions in the order youtube, vimeo, dailymotion decides the platform: each name is given exactly when its marker is present and no earlier one is, and "External Source" exactly when none is |
| VideoPlayerModal.SourceLabel | src/components/ui/VideoPlayerModal.tsx:161-172 | the "Video dari" line appears exactly for a video with a non-empty embed URL |
| VideoPlayerModal.SourceLabelNamesPlayedUrl | src/components/ui/VideoPlayerModal.tsx:54-59 | whenever the line appears, it names the platform of the URL actually played |
| VideoPlayerModal.BadgeLabel | src/components/ui/VideoPlayerModal.tsx:137-141 | the badge says photo exactly for "foto", and video for everything else |
| VideoPlayerModal.Initial | src/components/ui/VideoPlayerModal.tsx:26 | the modal starts paused |
| VideoPlayerModal.SetIsOpen | src/components/ui/VideoPlayerModal.tsx:29-33 | closing stops playback; opening keeps the flag |
| VideoPlayerModal.KeyDown | src/components/ui/VideoPlayerModal.tsx:36-46 | while open, Space toggles playback and Escape asks to close; while closed, keys do nothing |
| VideoPlayerModal.OnPlay | src/components/ui/VideoPlayerModal.tsx:100 | the player's play callback sets `playing` while the player is shown, and nothing happens otherwise |
| VideoPlayerModal.OnPause | src/components/ui/VideoPlayerModal.tsx:101 | the pause callback clears `playing` while the player is shown |
| VideoPlayerModal.PlayOverlay | src/components/ui/VideoPlayerModal.tsx:104-114 | the play overlay is shown only over a rendered, paused video player, so the player's play event starts playback and its pause event changes nothing |
| VideoPlayerModal.OverlayClick | src/components/ui/VideoPlayerModal.tsx:61-63 | clicking the overlay, which exists only while paused, starts playback |
| VideoPlayerModal.StepQuiet | src/components/ui/VideoPlayerModal.tsx:29-101 | no single event leaves a closed modal playing |
| VideoPlayerModal.RunQuiet | src/components/ui/VideoPlayerModal.tsx:26-101 | from the initial state, no sequence of events leaves a closed modal playing |
| VideoPlayerModal.SpaceTwice | src/components/ui/VideoPlayerModal.tsx:40-42 | two presses of Space return playback to where it was |
| GalleryCard.Thumbnail | src/components/user/GalleryCard.tsx:18-26 | a non-empty thumbnail always wins; without one a photo shows its file; only a video without a thumbnail has no image |
| GalleryCard.BadgeLabel | src/components/user/GalleryCard.tsx:67 | "Foto" exactly for "foto", "Video" otherwise |
| GalleryCard.PhotoHasImage | src/components/user/GalleryCard.tsx:18-26 | a photo always has an image URL under the storage base |
| GalleryCard.CardMatchesViewer | src/components/user/GalleryCard.tsx:22-24 | a photo without a thumbnail shows on the card the image the viewer opens, and both badges agree |
| Select.Find | src/components/ui/Select.tsx:116 | the first option with a strictly equal value, and none exactly when no option carries it |
| Select.MatchKey | src/components/ui/Select.tsx:112 | an array element is matched by its defined `.value`, or by itself when it is a scalar |
| Select.ConvertElems | src/components/ui/Select.tsx:108-115 | it throws exactly when an element is null; otherwise the result is each element's matching option, position by position, with the unmatched ones dropped and the input order kept |
| Select.ConvertElemsAppend | src/components/ui/Select.tsx:110-114 | converting a concatenation converts each part in order |
| Select.Convert | src/components/ui/Select.tsx:107-117 | a falsy value selects `[]` for multi-select and nothing otherwise; a scalar selects the first equal option; an array throws exactly when it holds a null and otherwise selects its element-wise conversion |
| Select.Change | src/components/ui/Select.tsx:121-144 | no event without a handler; a multi-select forwards the array; a single select sends the option's value, or "" when cleared or falsy |
| Select.Blur | src/components/ui/Select.tsx:147-159 | no event without a handler; otherwise a blur event with the field name |
| Select.FindDistinct | src/components/ui/Select.tsx:116 | with distinct option values, finding an option's value gives that option |
| Select.SingleRoundTrip | src/components/ui/Select.tsx:107-131 | the value sent for a picked option, fed back as the form value, selects that option again |
| Select.ClearRoundTrip | src/components/ui/Select.tsx:107-131 | a cleared single select, fed back, shows no selection |
| Select.Records | src/components/ui/Select.tsx:127-128 | the form stores one record per forwarded option, carrying its value |
| Select.RecordsConvert | src/components/ui/Select.tsx:108-115 | converting those records gives back exactly the options, in order |
| Select.MultiRoundTrip | src/components/ui/Select.tsx:107-128 | the options forwarded by a multi-select, fed back, are all selected again in the same order |
| Select.NativeOptions | src/components/ui/Select.tsx:69-74 | native mode lists the empty placeholder first and then every option in order |
| Table.HandleSort | src/components/ui/Table.tsx:34-40 | no request without a handler; descending exactly when the same key is currently ascending, otherwise ascending |
| Table.HeaderClick | src/components/ui/Table.tsx:62 | only sortable columns request a sort |
| Table.RepeatedClicksAlternate | src/components/ui/Table.tsx:37-38 | repeated clicks on one column alternate the direction, starting ascending unless that column is already ascending |
| Table.HeaderFor | src/components/ui/Table.tsx:55-88 | the up arrow is lit exactly for a sortable column that is the sorted key in ascending order, the down arrow exactly for descending, never both |
| Table.Render | src/components/ui/Table.tsx:42-113 | a spinner exactly while loading; otherwise a placeholder row spanning every column for no data, or one row per record with one cell per column in order |
| Table.AdoptedRequestHighlighted | src/components/ui/Table.tsx:62-83 | once the parent adopts a click's request, only the clicked column shows the arrow for the requested direction |
| Theme.Initial | src/stores/useTheme.ts:19 | the theme starts light |
| Theme.Toggle | src/stores/useTheme.ts:20-23 | toggling always changes the theme: light to dark, dark to light |
| Theme.SetTheme | src/stores/useTheme.ts:24 | setting makes the theme exactly the one given |
| Theme.ToggleTwice | src/stores/useTheme.ts:20-23 | toggling twice gives back the original theme |
| Theme.ToggleIsSetOther | src/stores/useTheme.ts:20-24 | toggling is the same as setting the other theme |
| Auth.Initial | src/stores/useAuth.ts:26 | no user and not authenticated at start |
| Auth.Login | src/stores/useAuth.ts:27-31 | login stores the user and authenticates |
| Auth.Logout | src/stores/useAuth.ts:32-36 | logout clears the user and the flag from any state |
| Auth.LogoutIdempotent | src/stores/useAuth.ts:32-36 | logging out twice equals logging out once, which is the initial state |
| Auth.ApplyAllConsistent | src/stores/useAuth.ts:26-36 | any sequence of logins and logouts keeps "authenticated exactly when a user is stored", with the last login's user or the initial state after a final logout |
| Auth.Reachable | src/stores/useAuth.ts:26-36 | every state reachable from the start is consistent |
| EventCard.StatusBadge | src/components/user/EventCard.tsx:18-26 | the four known statuses get their own classes; any other status gets the ghost class |
| EventCard.JenisBadge | src/components/user/EventCard.tsx:28-36 | the four known types get their own classes; any other type gets the ghost class |
| EventCard.FormatJenis | src/components/user/EventCard.tsx:38-46 | a known type gets its label from the table, which differs from the key, has its length and starts with its capitalised first letter; an unknown type is shown as is |
| EventCard.FormatStatus | src/components/user/EventCard.tsx:48-56 | a known status gets its label from the table, with the same properties; an unknown status is shown as is |
| EventCard.TablesAgree | src/components/user/EventCard.tsx:18-56 | the badge tables and the label tables know the same keys |
| EventCard.GhostIffRaw | src/components/user/EventCard.tsx:18-56 | a badge is ghost exactly when its label is the raw value |
| EventCard.FormatIdempotent | src/components/user/EventCard.tsx:38-56 | formatting a label again changes nothing |
| EventCard.ParticipantSlotAsWritten | src/components/user/EventCard.tsx:97-109 | no line without a limit; a bare "0" for a limit of 0; the participant line otherwise |
| EventCard.ParticipantSlot | src/components/user/EventCard.tsx:97-109 | the line appears exactly for a non-zero limit and nothing stray is ever rendered |
| EventCard.ParticipantZeroShowsStray | src/components/user/EventCard.tsx:97 | a zero limit renders "0" as written and nothing when corrected |
| EventCard.ParticipantSlotsAgree | src/components/user/EventCard.tsx:97 | the written and corrected participant slots differ only for a zero limit |
| EventCard.PriceSlotAsWritten | src/components/user/EventCard.tsx:111-115 | no line for a missing or negative price; a bare "0" for price 0; the price line for a positive price |
| EventCard.PriceSlot | src/components/user/EventCard.tsx:111-115 | the price line appears exactly for a positive price and nothing stray is ever rendered |
| EventCard.PriceZeroShowsStray | src/components/user/EventCard.tsx:111 | a free activity renders "0" as written and nothing when corrected |
| EventCard.PriceSlotsAgree | src/components/user/EventCard.tsx:111 | the written and corrected price slots differ only for price 0 |
| Text.IncludesIffOccurs | src/components/ui/MusicPlayerModal.tsx:69-73 | the `includes` scan holds exactly when the needle occurs at some index |
| Text.IncludesTransitive | src/components/ui/MusicPlayerModal.tsx:97 | a string containing "youtube.com" contains everything "youtube.com" contains |
| Text.IncludesPrefix | src/components/ui/MusicPlayerModal.tsx:67-68 | a prefix is included |
| Text.JoinPath | src/components/ui/MusicPlayerModal.tsx:112 | the join is the base, one slash, and the path, with no normalisation |
| Text.DropFirst | src/components/ui/MusicPlayerModal.tsx:87 | `slice(1)` drops the first character, and leaves "" as it is |
| Text.CutAt | src/components/ui/MusicPlayerModal.tsx:87 | `split('?')[0]` is the longest prefix without "?", ending where the first "?" is |
| Text.CutAtNoSeparator | src/components/ui/MusicPlayerModal.tsx:87 | without a "?" the string is unchanged |

## Left out

- HTTP, cookies and token handling (the axios instances and
  interceptors, and `authService`). Every server call is a
  success/failure oracle. The server's own answers, such as which slug
  it generates or what a toggle returns, are whatever the oracle gives.
- `isTokenExpired`: it compares wall-clock dates.
- URL parsing (`new URL`, `searchParams`). It is a parameter, and the
  round-trip lemmas state what they assume of it.
- React rendering, effects and listener registration, `setTimeout`
  debounces, `console.log`, and the internals of react-player and the
  iframe. Their callbacks are inputs to the state functions.
- The error overlay of the music modal (`hasError` in the non-YouTube
  branch). It is a direct read of the flag.
- Date formatting (`moment`), number formatting (`toLocaleString`) and
  the Tailwind class strings. Prices and participant counts are
  integers. The source types them as JS numbers and may hold fractions,
  which are not modelled.
- The relation fields of the records (`kategori`, `karya_musik`, and the
  other nested objects). They do not affect any modelled decision.
- The zustand `persist` and `devtools` middleware. The theme and auth
  stores are modelled from their initial state; what the browser
  storage restores is not modelled.
- The forms, admin pages, layouts, navigation and route guards. They are
  UI wiring.
- EventCard.StatusBadge: a status that names a property of
  `Object.prototype` (such as "constructor") makes the JS lookup return
  a function instead of falling back to the ghost class. The model
  treats every unlisted key as unknown. The same holds for
  EventCard.JenisBadge, EventCard.FormatJenis and EventCard.FormatStatus.
- Select.Convert: JS numbers are modelled as integers, so `NaN` and
  fractional option values are not covered. Elements of an array value
  that are booleans, `undefined` or nested arrays are one case that
  never matches.
- VideoPlayerModal.Platform: a short youtu.be embed URL does not contain
  "youtube", so it is labelled "External Source". The music modal
  recognises such links. This is stated as the code does it and is not
  claimed as a defect.

## Findings

| source | as written | input that shows it | evidently intended | confidence | as-written member | corrected member |
|---|---|---|---|---|---|---|
| src/components/user/EventCard.tsx:111 | `{event.harga && event.harga > 0 && (...)}` renders the left operand when it is falsy, and 0 is a number React prints | an activity with `harga` 0, which the activity form allows (min 0) | no price line for a free activity, as the detail page does with `harga !== undefined && harga > 0` | medium, not executed | EventCard.PriceSlotAsWritten | EventCard.PriceSlot |
| src/components/user/EventCard.tsx:97 | `{event.maksimal_peserta && (...)}` renders a bare 0 for a limit of 0 | an activity with `maksimal_peserta` 0 | no participant line when there is no positive limit | low (the form asks for at least 1), not executed | EventCard.ParticipantSlotAsWritten | EventCard.ParticipantSlot |
