/**
 * `useKaryaMusik`: the list store of musical works.
 * Every server call is an oracle `Reply`; the state changes are those of
 * the shared list store, stated here for this store's records.
 */
module KaryaMusikStore {
  import opened Wrappers
  import opened Entities
  import opened ListStore

  /** The filters `setKaryaMusik` adds to the paging parameters. */
  datatype Filter = Filter(genre: Option<string>)

  type State = Store<KaryaMusik>

  /** The initial state: an empty first page of ten, `total` 0, not loading. */
  function Init(): (s: State)
    ensures s.dt.data == [] && s.dt.total == 0
    ensures s.dt.current_page == 1 && s.dt.last_page == 1 && s.dt.per_page == 10
    ensures !s.loading
  {
    Initial()
  }

  /**
   * `setKaryaMusik`: page and limit default to 1 and 10; on success the server's
   * page replaces the whole page, on failure the page is kept; loading ends
   * either way.
   */
  function SetKaryaMusik(s: State, p: FetchParams<Filter>, server: Query<Filter> -> Reply<PaginatedData<KaryaMusik>>): (r: Outcome<KaryaMusik>)
    ensures !r.state.loading
    ensures server(FetchQuery(p)).Success? ==> r.state.dt == server(FetchQuery(p)).payload && r.status == "berhasil"
    ensures server(FetchQuery(p)).Failure? ==> r.state.dt == s.dt && r.status == "error"
  {
    Fetch(s, p, server)
  }

  /** `addData`: the created record goes first, `total` grows by one, the paging counters stay. */
  function AddData(s: State, reply: Reply<KaryaMusik>): (r: Outcome<KaryaMusik>)
    ensures reply.Success? ==> Prepended(s.dt, r.state.dt, reply.payload) && r.state.loading == s.loading
    ensures reply.Success? ==> r.status == "berhasil tambah"
    ensures reply.Failure? ==> r.state == s && r.status == "error"
  {
    Add(s, reply)
  }

  /** `removeData`: the records with that id go, in order, and `total` drops by one even if none matched. */
  function RemoveData<X>(s: State, id: Key, reply: Reply<X>): (r: Outcome<KaryaMusik>)
    ensures reply.Success? ==> Removed(s.dt, r.state.dt, KaryaMusikId, id) && r.state.loading == s.loading
    ensures reply.Success? ==> r.status == "berhasil hapus"
    ensures reply.Failure? ==> r.state == s && r.status == "error"
  {
    Remove(s, KaryaMusikId, id, reply)
  }

  /** `updateData`: the response is overlaid on the records with that id; length, order and `total` stay. */
  function UpdateData(s: State, id: Key, reply: Reply<KaryaMusikPatch>): (r: Outcome<KaryaMusik>)
    ensures reply.Success? ==> Merged(s.dt, r.state.dt, KaryaMusikId, OverlayKaryaMusik, id, reply.payload) && r.state.loading == s.loading
    ensures reply.Success? ==> r.status == "berhasil update"
    ensures reply.Failure? ==> r.state == s && r.status == "error"
  {
    Merge(s, KaryaMusikId, OverlayKaryaMusik, id, reply, BerhasilUpdate)
  }

  /** `setShowKaryaMusik`: reads one record; the store is not touched. */
  function SetShowKaryaMusik(s: State, id: Key, reply: Reply<KaryaMusik>): (r: Lookup<KaryaMusik, KaryaMusik>)
    ensures r.state == s
    ensures reply.Success? ==> r.status == "berhasil" && r.data == Some(reply.payload)
    ensures reply.Failure? ==> r.status == "error" && r.data.None?
  {
    Read(s, reply)
  }

  /** `getGenres`: lists the known genres; the store is not touched. */
  function GetGenres(s: State, reply: Reply<seq<string>>): (r: Lookup<KaryaMusik, seq<string>>)
    ensures r.state == s
    ensures reply.Success? ==> r.status == "berhasil" && r.data == Some(reply.payload)
    ensures reply.Failure? ==> r.status == "error" && r.data.None?
  {
    Read(s, reply)
  }
}
