/**
 * The records the CRUD API returns (`KaryaMusik`, `JadwalKegiatan`,
 * `Dokumentasi`, `Kategori`) and the object spread `{ ...item, ...response }`
 * the stores use to merge a server response into a listed record.
 *
 * A response is a `...Patch`: one optional slot per field, absent when the
 * response object has no such key. For a field that is itself optional in
 * the record, the slot holds the new optional value, so a response key that
 * is present with `null` clears the field.
 */
module Entities {
  import opened Wrappers

  /** One field of `{ ...current, ...incoming }`: the incoming value wins when the key is present. */
  function Over<X>(current: X, incoming: Option<X>): X
  {
    incoming.GetOr(current)
  }

  datatype KaryaMusik = KaryaMusik(
    id: int,
    judul: string,
    deskripsi: Option<string>,
    nm_artis: string,
    genre: Option<string>,
    tgl_rilis: Option<string>,
    url_video: Option<string>,
    url_audio: Option<string>,
    thumbnail: Option<string>,
    created_at: string,
    updated_at: string)

  datatype KaryaMusikPatch = KaryaMusikPatch(
    id: Option<int>,
    judul: Option<string>,
    deskripsi: Option<Option<string>>,
    nm_artis: Option<string>,
    genre: Option<Option<string>>,
    tgl_rilis: Option<Option<string>>,
    url_video: Option<Option<string>>,
    url_audio: Option<Option<string>>,
    thumbnail: Option<Option<string>>,
    created_at: Option<string>,
    updated_at: Option<string>)

  function KaryaMusikId(x: KaryaMusik): int { x.id }

  function OverlayKaryaMusik(x: KaryaMusik, p: KaryaMusikPatch): KaryaMusik
  {
    KaryaMusik(
      Over(x.id, p.id), Over(x.judul, p.judul), Over(x.deskripsi, p.deskripsi),
      Over(x.nm_artis, p.nm_artis), Over(x.genre, p.genre), Over(x.tgl_rilis, p.tgl_rilis),
      Over(x.url_video, p.url_video), Over(x.url_audio, p.url_audio),
      Over(x.thumbnail, p.thumbnail), Over(x.created_at, p.created_at),
      Over(x.updated_at, p.updated_at))
  }

  datatype JadwalKegiatan = JadwalKegiatan(
    id: int,
    judul: string,
    deskripsi: Option<string>,
    jenis: string,
    waktu_mulai: string,
    waktu_selesai: string,
    lokasi: Option<string>,
    harga: Option<int>,
    maksimal_peserta: Option<int>,
    peserta_saat_ini: int,
    status: string,
    catatan: Option<string>,
    created_at: string,
    updated_at: string)

  datatype JadwalKegiatanPatch = JadwalKegiatanPatch(
    id: Option<int>,
    judul: Option<string>,
    deskripsi: Option<Option<string>>,
    jenis: Option<string>,
    waktu_mulai: Option<string>,
    waktu_selesai: Option<string>,
    lokasi: Option<Option<string>>,
    harga: Option<Option<int>>,
    maksimal_peserta: Option<Option<int>>,
    peserta_saat_ini: Option<int>,
    status: Option<string>,
    catatan: Option<Option<string>>,
    created_at: Option<string>,
    updated_at: Option<string>)

  function JadwalKegiatanId(x: JadwalKegiatan): int { x.id }

  function OverlayJadwalKegiatan(x: JadwalKegiatan, p: JadwalKegiatanPatch): JadwalKegiatan
  {
    JadwalKegiatan(
      Over(x.id, p.id), Over(x.judul, p.judul), Over(x.deskripsi, p.deskripsi),
      Over(x.jenis, p.jenis), Over(x.waktu_mulai, p.waktu_mulai),
      Over(x.waktu_selesai, p.waktu_selesai), Over(x.lokasi, p.lokasi),
      Over(x.harga, p.harga), Over(x.maksimal_peserta, p.maksimal_peserta),
      Over(x.peserta_saat_ini, p.peserta_saat_ini), Over(x.status, p.status),
      Over(x.catatan, p.catatan), Over(x.created_at, p.created_at),
      Over(x.updated_at, p.updated_at))
  }

  datatype Dokumentasi = Dokumentasi(
    id: int,
    judul: string,
    deskripsi: Option<string>,
    jenis: string,
    file_dokumentasi: string,
    url_embed: Option<string>,
    thumbnail: Option<string>,
    tgl_dokumentasi: Option<string>,
    lokasi: Option<string>,
    terdokumentasi_type: Option<string>,
    terdokumentasi_id: Option<int>,
    created_at: string,
    updated_at: string)

  datatype DokumentasiPatch = DokumentasiPatch(
    id: Option<int>,
    judul: Option<string>,
    deskripsi: Option<Option<string>>,
    jenis: Option<string>,
    file_dokumentasi: Option<string>,
    url_embed: Option<Option<string>>,
    thumbnail: Option<Option<string>>,
    tgl_dokumentasi: Option<Option<string>>,
    lokasi: Option<Option<string>>,
    terdokumentasi_type: Option<Option<string>>,
    terdokumentasi_id: Option<Option<int>>,
    created_at: Option<string>,
    updated_at: Option<string>)

  function DokumentasiId(x: Dokumentasi): int { x.id }

  function OverlayDokumentasi(x: Dokumentasi, p: DokumentasiPatch): Dokumentasi
  {
    Dokumentasi(
      Over(x.id, p.id), Over(x.judul, p.judul), Over(x.deskripsi, p.deskripsi),
      Over(x.jenis, p.jenis), Over(x.file_dokumentasi, p.file_dokumentasi),
      Over(x.url_embed, p.url_embed), Over(x.thumbnail, p.thumbnail),
      Over(x.tgl_dokumentasi, p.tgl_dokumentasi), Over(x.lokasi, p.lokasi),
      Over(x.terdokumentasi_type, p.terdokumentasi_type),
      Over(x.terdokumentasi_id, p.terdokumentasi_id),
      Over(x.created_at, p.created_at), Over(x.updated_at, p.updated_at))
  }

  datatype Kategori = Kategori(
    id: int,
    nm_kategori: string,
    slug: string,
    deskripsi: Option<string>,
    jenis: string,
    aktif: bool,
    created_at: string,
    updated_at: string)

  datatype KategoriPatch = KategoriPatch(
    id: Option<int>,
    nm_kategori: Option<string>,
    slug: Option<string>,
    deskripsi: Option<Option<string>>,
    jenis: Option<string>,
    aktif: Option<bool>,
    created_at: Option<string>,
    updated_at: Option<string>)

  function KategoriId(x: Kategori): int { x.id }

  function OverlayKategori(x: Kategori, p: KategoriPatch): Kategori
  {
    Kategori(
      Over(x.id, p.id), Over(x.nm_kategori, p.nm_kategori), Over(x.slug, p.slug),
      Over(x.deskripsi, p.deskripsi), Over(x.jenis, p.jenis), Over(x.aktif, p.aktif),
      Over(x.created_at, p.created_at), Over(x.updated_at, p.updated_at))
  }

  /**
   * The spread keeps a record's id unless the response carries an id of its
   * own, for every entity; and a response with every key absent changes
   * nothing, while applying the same response twice is the same as once.
   */
  lemma OverlayKeepsId(
    km: KaryaMusik, kmp: KaryaMusikPatch, jk: JadwalKegiatan, jkp: JadwalKegiatanPatch,
    d: Dokumentasi, dp: DokumentasiPatch, k: Kategori, kp: KategoriPatch)
    ensures OverlayKaryaMusik(km, kmp).id == kmp.id.GetOr(km.id)
    ensures OverlayJadwalKegiatan(jk, jkp).id == jkp.id.GetOr(jk.id)
    ensures OverlayDokumentasi(d, dp).id == dp.id.GetOr(d.id)
    ensures OverlayKategori(k, kp).id == kp.id.GetOr(k.id)
    ensures OverlayKaryaMusik(OverlayKaryaMusik(km, kmp), kmp) == OverlayKaryaMusik(km, kmp)
    ensures OverlayJadwalKegiatan(OverlayJadwalKegiatan(jk, jkp), jkp) == OverlayJadwalKegiatan(jk, jkp)
    ensures OverlayDokumentasi(OverlayDokumentasi(d, dp), dp) == OverlayDokumentasi(d, dp)
    ensures OverlayKategori(OverlayKategori(k, kp), kp) == OverlayKategori(k, kp)
  {
  }
}
