/**
 * `useDokumentasi`: the list store of documentation items (photos and videos).
 * Every server call is an oracle `Reply`; the state changes are those of
 * the shared list store, stated here for this store's records.
 */
module DokumentasiStore {
  import opened Wrappers
  import opened Entities
  import opened ListStore

  /** The filters `setDokumentasi` adds to the paging parameters. */
  datatype Filter = Filter(jenis: Option<string>, terdokumentasi_type: Option<string>)

  /** The answer of a file upload: stored path, public URL and file name. */
  datatype UploadResponse = UploadResponse(path: string, url: string, filename: string)

  type State = Store<Dokumentasi>

  /** The initial state: an empty first page of ten, `total` 0, not loading. */
  function Init(): (s: State)
    ensures s.dt.data == [] && s.dt.total == 0
    ensures s.dt.current_page == 1 && s.dt.last_page == 1 && s.dt.per_page == 10
    ensures !s.loading
  {
    Initial()
  }

  /**
   * `setDokumentasi`: page and limit default to 1 and 10; on success the server's
   * page replaces the whole page, on failure the page is kept; loading ends
   * either way.
   */
  function SetDokumentasi(s: State, p: FetchParams<Filter>, server: Query<Filter> -> Reply<PaginatedData<Dokumentasi>>): (r: Outcome<Dokumentasi>)
    ensures !r.state.loading
    ensures server(FetchQuery(p)).Success? ==> r.state.dt == server(FetchQuery(p)).payload && r.status == "berhasil"
    ensures server(FetchQuery(p)).Failure? ==> r.state.dt == s.dt && r.status == "error"
  {
    Fetch(s, p, server)
  }

  /** `addData`: the created record goes first, `total` grows by one, the paging counters stay. */
  function AddData(s: State, reply: Reply<Dokumentasi>): (r: Outcome<Dokumentasi>)
    ensures reply.Success? ==> Prepended(s.dt, r.state.dt, reply.payload) && r.state.loading == s.loading
    ensures reply.Success? ==> r.status == "berhasil tambah"
    ensures reply.Failure? ==> r.state == s && r.status == "error"
  {
    Add(s, reply)
  }

  /** `removeData`: the records with that id go, in order, and `total` drops by one even if none matched. */
  function RemoveData<X>(s: State, id: Key, reply: Reply<X>): (r: Outcome<Dokumentasi>)
    ensures reply.Success? ==> Removed(s.dt, r.state.dt, DokumentasiId, id) && r.state.loading == s.loading
    ensures reply.Success? ==> r.status == "berhasil hapus"
    ensures reply.Failure? ==> r.state == s && r.status == "error"
  {
    Remove(s, DokumentasiId, id, reply)
  }

  /** `updateData`: the response is overlaid on the records with that id; length, order and `total` stay. */
  function UpdateData(s: State, id: Key, reply: Reply<DokumentasiPatch>): (r: Outcome<Dokumentasi>)
    ensures reply.Success? ==> Merged(s.dt, r.state.dt, DokumentasiId, OverlayDokumentasi, id, reply.payload) && r.state.loading == s.loading
    ensures reply.Success? ==> r.status == "berhasil update"
    ensures reply.Failure? ==> r.state == s && r.status == "error"
  {
    Merge(s, DokumentasiId, OverlayDokumentasi, id, reply, BerhasilUpdate)
  }

  /** `setShowDokumentasi`: reads one record; the store is not touched. */
  function SetShowDokumentasi(s: State, id: Key, reply: Reply<Dokumentasi>): (r: Lookup<Dokumentasi, Dokumentasi>)
    ensures r.state == s
    ensures reply.Success? ==> r.status == "berhasil" && r.data == Some(reply.payload)
    ensures reply.Failure? ==> r.status == "error" && r.data.None?
  {
    Read(s, reply)
  }

  /** `uploadFile`: uploads a file of a given kind and returns where it is stored; the store is not touched. */
  function UploadFile(s: State, file: seq<bv8>, jenis: string, reply: Reply<UploadResponse>): (r: Lookup<Dokumentasi, UploadResponse>)
    ensures r.state == s
    ensures reply.Success? ==> r.status == "berhasil" && r.data == Some(reply.payload)
    ensures reply.Failure? ==> r.status == "error" && r.data.None?
  {
    Read(s, reply)
  }

  /** `getByRelated`: lists the items attached to a musical work or an activity; the store is not touched. */
  function GetByRelated(s: State, relatedType: string, relatedId: int, reply: Reply<seq<Dokumentasi>>): (r: Lookup<Dokumentasi, seq<Dokumentasi>>)
    ensures r.state == s
    ensures reply.Success? ==> r.status == "berhasil" && r.data == Some(reply.payload)
    ensures reply.Failure? ==> r.status == "error" && r.data.None?
  {
    Read(s, reply)
  }

  /** `getGallery`: reads the public gallery page; the store is not touched. */
  function GetGallery(s: State, search: Option<string>, reply: Reply<PaginatedData<Dokumentasi>>): (r: Lookup<Dokumentasi, PaginatedData<Dokumentasi>>)
    ensures r.state == s
    ensures reply.Success? ==> r.status == "berhasil" && r.data == Some(reply.payload)
    ensures reply.Failure? ==> r.status == "error" && r.data.None?
  {
    Read(s, reply)
  }
}
