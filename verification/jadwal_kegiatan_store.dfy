/**
 * `useJadwalKegiatan`: the list store of scheduled activities.
 * Every server call is an oracle `Reply`; the state changes are those of
 * the shared list store, stated here for this store's records.
 */
module JadwalKegiatanStore {
  import opened Wrappers
  import opened Entities
  import opened ListStore

  /** The filters `setJadwalKegiatan` adds to the paging parameters. */
  datatype Filter = Filter(jenis: Option<string>, status: Option<string>)

  type State = Store<JadwalKegiatan>

  /** The initial state: an empty first page of ten, `total` 0, not loading. */
  function Init(): (s: State)
    ensures s.dt.data == [] && s.dt.total == 0
    ensures s.dt.current_page == 1 && s.dt.last_page == 1 && s.dt.per_page == 10
    ensures !s.loading
  {
    Initial()
  }

  /**
   * `setJadwalKegiatan`: page and limit default to 1 and 10; on success the server's
   * page replaces the whole page, on failure the page is kept; loading ends
   * either way.
   */
  function SetJadwalKegiatan(s: State, p: FetchParams<Filter>, server: Query<Filter> -> Reply<PaginatedData<JadwalKegiatan>>): (r: Outcome<JadwalKegiatan>)
    ensures !r.state.loading
    ensures server(FetchQuery(p)).Success? ==> r.state.dt == server(FetchQuery(p)).payload && r.status == "berhasil"
    ensures server(FetchQuery(p)).Failure? ==> r.state.dt == s.dt && r.status == "error"
  {
    Fetch(s, p, server)
  }

  /** `addData`: the created record goes first, `total` grows by one, the paging counters stay. */
  function AddData(s: State, reply: Reply<JadwalKegiatan>): (r: Outcome<JadwalKegiatan>)
    ensures reply.Success? ==> Prepended(s.dt, r.state.dt, reply.payload) && r.state.loading == s.loading
    ensures reply.Success? ==> r.status == "berhasil tambah"
    ensures reply.Failure? ==> r.state == s && r.status == "error"
  {
    Add(s, reply)
  }

  /** `removeData`: the records with that id go, in order, and `total` drops by one even if none matched. */
  function RemoveData<X>(s: State, id: Key, reply: Reply<X>): (r: Outcome<JadwalKegiatan>)
    ensures reply.Success? ==> Removed(s.dt, r.state.dt, JadwalKegiatanId, id) && r.state.loading == s.loading
    ensures reply.Success? ==> r.status == "berhasil hapus"
    ensures reply.Failure? ==> r.state == s && r.status == "error"
  {
    Remove(s, JadwalKegiatanId, id, reply)
  }

  /** `updateData`: the response is overlaid on the records with that id; length, order and `total` stay. */
  function UpdateData(s: State, id: Key, reply: Reply<JadwalKegiatanPatch>): (r: Outcome<JadwalKegiatan>)
    ensures reply.Success? ==> Merged(s.dt, r.state.dt, JadwalKegiatanId, OverlayJadwalKegiatan, id, reply.payload) && r.state.loading == s.loading
    ensures reply.Success? ==> r.status == "berhasil update"
    ensures reply.Failure? ==> r.state == s && r.status == "error"
  {
    Merge(s, JadwalKegiatanId, OverlayJadwalKegiatan, id, reply, BerhasilUpdate)
  }

  /** `updatePeserta`: the server records a new participant count and its response is overlaid on the records with that id; length, order and `total` stay. */
  function UpdatePeserta(s: State, id: Key, pesertaSaatIni: int, reply: Reply<JadwalKegiatanPatch>): (r: Outcome<JadwalKegiatan>)
    ensures reply.Success? ==> Merged(s.dt, r.state.dt, JadwalKegiatanId, OverlayJadwalKegiatan, id, reply.payload) && r.state.loading == s.loading
    ensures reply.Success? ==> r.status == "berhasil"
    ensures reply.Failure? ==> r.state == s && r.status == "error"
  {
    Merge(s, JadwalKegiatanId, OverlayJadwalKegiatan, id, reply, Berhasil)
  }

  /** `setShowJadwalKegiatan`: reads one record; the store is not touched. */
  function SetShowJadwalKegiatan(s: State, id: Key, reply: Reply<JadwalKegiatan>): (r: Lookup<JadwalKegiatan, JadwalKegiatan>)
    ensures r.state == s
    ensures reply.Success? ==> r.status == "berhasil" && r.data == Some(reply.payload)
    ensures reply.Failure? ==> r.status == "error" && r.data.None?
  {
    Read(s, reply)
  }

  /** `getByDateRange`: lists the activities between two dates; the store is not touched. */
  function GetByDateRange(s: State, startDate: string, endDate: string, reply: Reply<seq<JadwalKegiatan>>): (r: Lookup<JadwalKegiatan, seq<JadwalKegiatan>>)
    ensures r.state == s
    ensures reply.Success? ==> r.status == "berhasil" && r.data == Some(reply.payload)
    ensures reply.Failure? ==> r.status == "error" && r.data.None?
  {
    Read(s, reply)
  }
}
