/**
 * `GalleryCard`: the card of one documentation item in the public
 * gallery, reduced to the image it shows and its type badge.
 */
module GalleryCard {
  import opened Wrappers
  import opened Text
  import opened Entities
  import VideoPlayerModal

  /**
   * `getThumbnail`: a non-empty thumbnail always wins, whatever the type;
   * without one, a photo shows its own file and a video shows nothing
   * (the card then draws a placeholder icon).
   */
  function Thumbnail(item: Dokumentasi, storage: string): (t: Option<string>)
    ensures Truthy(item.thumbnail) ==> t == Some(JoinPath(storage, item.thumbnail.value))
    ensures !Truthy(item.thumbnail) && item.jenis == "foto" ==> t == Some(JoinPath(storage, item.file_dokumentasi))
    ensures t.None? <==> !Truthy(item.thumbnail) && item.jenis != "foto"
  {
    if Truthy(item.thumbnail) then Some(JoinPath(storage, item.thumbnail.value))
    else if item.jenis == "foto" then Some(JoinPath(storage, item.file_dokumentasi))
    else None
  }

  /** The badge in the corner: "Foto" exactly for photos, "Video" for everything else. */
  function BadgeLabel(item: Dokumentasi): (b: string)
    ensures b == "Foto" <==> item.jenis == "foto"
    ensures b == "Video" <==> item.jenis != "foto"
  {
    if item.jenis == "foto" then "Foto" else "Video"
  }

  /** A photo always has an image, and it is a URL under the storage base. */
  lemma PhotoHasImage(item: Dokumentasi, storage: string)
    requires item.jenis == "foto"
    ensures Thumbnail(item, storage).Some?
    ensures StartsWith(Thumbnail(item, storage).value, storage + "/")
  {
    var t := Thumbnail(item, storage).value;
    assert t[..|storage| + 1] == storage + "/";
  }

  /**
   * The card and the viewer agree: a photo without a thumbnail shows on
   * the card the very image the viewer opens, and both badges name the
   * same type.
   */
  lemma CardMatchesViewer(item: Dokumentasi, storage: string)
    ensures !Truthy(item.thumbnail) && item.jenis == "foto" ==>
      Thumbnail(item, storage) == Some(VideoPlayerModal.MediaUrl(item, storage))
    ensures BadgeLabel(item) == "Foto" <==> VideoPlayerModal.BadgeLabel(item) == "📷 Foto"
  {
  }
}
