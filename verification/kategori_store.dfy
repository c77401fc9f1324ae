/**
 * `useKategori`: the list store of categories.
 * Every server call is an oracle `Reply`; the state changes are those of
 * the shared list store, stated here for this store's records.
 */
module KategoriStore {
  import opened Wrappers
  import opened Entities
  import opened ListStore

  /** The filters `setKategori` adds to the paging parameters. */
  datatype Filter = Filter(jenis: Option<string>, aktif: Option<bool>)

  type State = Store<Kategori>

  /** The initial state: an empty first page of ten, `total` 0, not loading. */
  function Init(): (s: State)
    ensures s.dt.data == [] && s.dt.total == 0
    ensures s.dt.current_page == 1 && s.dt.last_page == 1 && s.dt.per_page == 10
    ensures !s.loading
  {
    Initial()
  }

  /**
   * `setKategori`: page and limit default to 1 and 10; on success the server's
   * page replaces the whole page, on failure the page is kept; loading ends
   * either way.
   */
  function SetKategori(s: State, p: FetchParams<Filter>, server: Query<Filter> -> Reply<PaginatedData<Kategori>>): (r: Outcome<Kategori>)
    ensures !r.state.loading
    ensures server(FetchQuery(p)).Success? ==> r.state.dt == server(FetchQuery(p)).payload && r.status == "berhasil"
    ensures server(FetchQuery(p)).Failure? ==> r.state.dt == s.dt && r.status == "error"
  {
    Fetch(s, p, server)
  }

  /** `addData`: the created record goes first, `total` grows by one, the paging counters stay. */
  function AddData(s: State, reply: Reply<Kategori>): (r: Outcome<Kategori>)
    ensures reply.Success? ==> Prepended(s.dt, r.state.dt, reply.payload) && r.state.loading == s.loading
    ensures reply.Success? ==> r.status == "berhasil tambah"
    ensures reply.Failure? ==> r.state == s && r.status == "error"
  {
    Add(s, reply)
  }

  /** `removeData`: the records with that id go, in order, and `total` drops by one even if none matched. */
  function RemoveData<X>(s: State, id: Key, reply: Reply<X>): (r: Outcome<Kategori>)
    ensures reply.Success? ==> Removed(s.dt, r.state.dt, KategoriId, id) && r.state.loading == s.loading
    ensures reply.Success? ==> r.status == "berhasil hapus"
    ensures reply.Failure? ==> r.state == s && r.status == "error"
  {
    Remove(s, KategoriId, id, reply)
  }

  /** `updateData`: the response is overlaid on the records with that id; length, order and `total` stay. */
  function UpdateData(s: State, id: Key, reply: Reply<KategoriPatch>): (r: Outcome<Kategori>)
    ensures reply.Success? ==> Merged(s.dt, r.state.dt, KategoriId, OverlayKategori, id, reply.payload) && r.state.loading == s.loading
    ensures reply.Success? ==> r.status == "berhasil update"
    ensures reply.Failure? ==> r.state == s && r.status == "error"
  {
    Merge(s, KategoriId, OverlayKategori, id, reply, BerhasilUpdate)
  }

  /** `toggleAktif`: the server flips `aktif` and its response is overlaid on the records with that id; length, order and `total` stay. */
  function ToggleAktif(s: State, id: Key, reply: Reply<KategoriPatch>): (r: Outcome<Kategori>)
    ensures reply.Success? ==> Merged(s.dt, r.state.dt, KategoriId, OverlayKategori, id, reply.payload) && r.state.loading == s.loading
    ensures reply.Success? ==> r.status == "berhasil"
    ensures reply.Failure? ==> r.state == s && r.status == "error"
  {
    Merge(s, KategoriId, OverlayKategori, id, reply, Berhasil)
  }

  /** `setShowKategori`: reads one record; the store is not touched. */
  function SetShowKategori(s: State, id: Key, reply: Reply<Kategori>): (r: Lookup<Kategori, Kategori>)
    ensures r.state == s
    ensures reply.Success? ==> r.status == "berhasil" && r.data == Some(reply.payload)
    ensures reply.Failure? ==> r.status == "error" && r.data.None?
  {
    Read(s, reply)
  }

  /** `getByJenis`: lists the categories of one kind; the store is not touched. */
  function GetByJenis(s: State, jenis: string, reply: Reply<seq<Kategori>>): (r: Lookup<Kategori, seq<Kategori>>)
    ensures r.state == s
    ensures reply.Success? ==> r.status == "berhasil" && r.data == Some(reply.payload)
    ensures reply.Failure? ==> r.status == "error" && r.data.None?
  {
    Read(s, reply)
  }

  /** `generateSlug`: asks the server for the slug of a category name; the store is not touched. */
  function GenerateSlug(s: State, nmKategori: string, reply: Reply<string>): (r: Lookup<Kategori, string>)
    ensures r.state == s
    ensures reply.Success? ==> r.status == "berhasil" && r.data == Some(reply.payload)
    ensures reply.Failure? ==> r.status == "error" && r.data.None?
  {
    Read(s, reply)
  }
}
