/**
 * The list store shared by the four CRUD stores: a page of records
 * (`PaginatedData<T>`) plus a `loading` flag, and the pure updates each store
 * applies once the server has answered. The records' type is a parameter;
 * each store supplies how to read a record's id and how to overlay a server
 * response onto a record.
 */
module ListStore {
  import opened Wrappers
  import opened Text

  /** `PaginatedData<T>`: the current page of records and the paging counters. */
  datatype PaginatedData<T> = PaginatedData(
    data: seq<T>,
    current_page: int,
    last_page: int,
    per_page: int,
    total: int)

  /** A store's state. */
  datatype Store<T> = Store(dt: PaginatedData<T>, loading: bool)

  /**
   * The id argument of `removeData`/`updateData`, typed `number | string` in
   * the source; a record id is a number, and ids are compared with `===`.
   */
  datatype Key = NumKey(n: int) | TextKey(s: string)

  /** The state after an action and the status string the action returns. */
  datatype Outcome<T> = Outcome(state: Store<T>, status: string)

  /** The state, status and payload of an action that returns server data. */
  datatype Lookup<T, X> = Lookup(state: Store<T>, status: string, data: Option<X>)

  /** Paging and search parameters of a fetch; `extra` holds the store's own filters. */
  datatype FetchParams<F> = FetchParams(
    page: Option<int>,
    limit: Option<int>,
    search: Option<string>,
    sortby: Option<string>,
    order: Option<string>,
    extra: F)

  /** The query a fetch sends. */
  datatype Query<F> = Query(
    page: int,
    limit: int,
    search: Option<string>,
    sortby: Option<string>,
    order: Option<string>,
    extra: F)

  const Berhasil: string := "berhasil"
  const BerhasilTambah: string := "berhasil tambah"
  const BerhasilHapus: string := "berhasil hapus"
  const BerhasilUpdate: string := "berhasil update"
  const Error: string := "error"

  const DefaultPage: int := 1
  const DefaultLimit: int := 10

  /**
   * Every success status contains "berhasil" (the admin pages test
   * `status.includes("berhasil")`), and the error status does not.
   */
  lemma StatusesContainBerhasil()
    ensures forall s :: s in [Berhasil, BerhasilTambah, BerhasilHapus, BerhasilUpdate] ==> Includes(s, Berhasil)
    ensures !Includes(Error, Berhasil)
  {
    IncludesPrefix(Berhasil, Berhasil);
    IncludesPrefix(BerhasilTambah, Berhasil);
    IncludesPrefix(BerhasilHapus, Berhasil);
    IncludesPrefix(BerhasilUpdate, Berhasil);
    IncludesIffOccurs(Error, Berhasil);
  }

  /** The initial state of every list store: an empty first page of ten, not loading. */
  function Initial<T>(): (s: Store<T>)
    ensures s.dt.data == [] && s.dt.total == 0
    ensures s.dt.current_page == 1 && s.dt.last_page == 1 && s.dt.per_page == 10
    ensures !s.loading
  {
    Store(PaginatedData([], 1, 1, 10, 0), false)
  }

  /** The query of a fetch: page and limit default to 1 and 10 when not given; the rest passes through. */
  function FetchQuery<F>(p: FetchParams<F>): (q: Query<F>)
    ensures p.page.None? ==> q.page == DefaultPage
    ensures p.page.Some? ==> q.page == p.page.value
    ensures p.limit.None? ==> q.limit == DefaultLimit
    ensures p.limit.Some? ==> q.limit == p.limit.value
    ensures q.search == p.search && q.sortby == p.sortby && q.order == p.order && q.extra == p.extra
  {
    Query(p.page.GetOr(DefaultPage), p.limit.GetOr(DefaultLimit), p.search, p.sortby, p.order, p.extra)
  }

  /** `set({ loading: true })` before a fetch is sent. */
  function BeginFetch<T>(s: Store<T>): (r: Store<T>)
    ensures r.loading && r.dt == s.dt
  {
    s.(loading := true)
  }

  /** The answer to a fetch: the server's page replaces the whole page; either way loading ends. */
  function FinishFetch<T>(s: Store<T>, reply: Reply<PaginatedData<T>>): (r: Outcome<T>)
    ensures !r.state.loading
    ensures reply.Success? ==> r.state.dt == reply.payload && r.status == Berhasil
    ensures reply.Failure? ==> r.state.dt == s.dt && r.status == Error
  {
    match reply
    case Success(page) => Outcome(Store(page, false), Berhasil)
    case Failure => Outcome(s.(loading := false), Error)
  }

  /** A whole fetch: the query built from the parameters, answered by the server. */
  function Fetch<T, F>(s: Store<T>, p: FetchParams<F>, server: Query<F> -> Reply<PaginatedData<T>>): (r: Outcome<T>)
    ensures !r.state.loading
    ensures server(FetchQuery(p)).Success? ==> r.state.dt == server(FetchQuery(p)).payload && r.status == Berhasil
    ensures server(FetchQuery(p)).Failure? ==> r.state.dt == s.dt && r.status == Error
  {
    FinishFetch(BeginFetch(s), server(FetchQuery(p)))
  }

  /** A record matches a key when the key is that number: `item.id === id`. */
  predicate Matches<T>(idOf: T -> int, x: T, key: Key)
  {
    key == NumKey(idOf(x))
  }

  /** How many records match a key. */
  function Count<T>(xs: seq<T>, idOf: T -> int, key: Key): (n: nat)
    ensures n <= |xs|
  {
    if xs == [] then 0
    else (if Matches(idOf, xs[0], key) then 1 else 0) + Count(xs[1..], idOf, key)
  }

  /** `data.filter((item) => item.id !== id)` */
  function Without<T>(xs: seq<T>, idOf: T -> int, key: Key): (r: seq<T>)
    ensures |r| == |xs| - Count(xs, idOf, key)
    ensures forall i :: 0 <= i < |r| ==> r[i] in xs && !Matches(idOf, r[i], key)
    ensures forall i :: 0 <= i < |xs| && !Matches(idOf, xs[i], key) ==> xs[i] in r
  {
    if xs == [] then []
    else (if Matches(idOf, xs[0], key) then [] else [xs[0]]) + Without(xs[1..], idOf, key)
  }

  /** Filtering keeps the relative order of what it keeps: it distributes over concatenation. */
  lemma {:induction false} WithoutAppend<T>(a: seq<T>, b: seq<T>, idOf: T -> int, key: Key)
    ensures Without(a + b, idOf, key) == Without(a, idOf, key) + Without(b, idOf, key)
    decreases |a|
  {
    if a == [] {
      assert a + b == b;
    } else {
      assert (a + b)[1..] == a[1..] + b;
      WithoutAppend(a[1..], b, idOf, key);
    }
  }

  /** `data.map((item) => item.id === id ? { ...item, ...response } : item)` */
  function MergeMatching<T, P>(xs: seq<T>, idOf: T -> int, overlay: (T, P) -> T, key: Key, p: P): (r: seq<T>)
    ensures |r| == |xs|
    ensures forall i :: 0 <= i < |xs| && !Matches(idOf, xs[i], key) ==> r[i] == xs[i]
    ensures forall i :: 0 <= i < |xs| && Matches(idOf, xs[i], key) ==> r[i] == overlay(xs[i], p)
  {
    seq(|xs|, i requires 0 <= i < |xs| => if Matches(idOf, xs[i], key) then overlay(xs[i], p) else xs[i])
  }

  /** The paging counters other than `total` are the same. */
  ghost predicate SameCounters<T>(a: PaginatedData<T>, b: PaginatedData<T>)
  {
    a.current_page == b.current_page && a.last_page == b.last_page && a.per_page == b.per_page
  }

  /** `b` is `a` with `x` prepended and one more in `total`. */
  ghost predicate Prepended<T>(a: PaginatedData<T>, b: PaginatedData<T>, x: T)
  {
    SameCounters(a, b) && b.data == [x] + a.data && b.total == a.total + 1
  }

  /** `b` is `a` without the records matching `key`, and one less in `total`. */
  ghost predicate Removed<T>(a: PaginatedData<T>, b: PaginatedData<T>, idOf: T -> int, key: Key)
  {
    SameCounters(a, b) && b.data == Without(a.data, idOf, key) && b.total == a.total - 1
  }

  /** `b` is `a` with the response overlaid on the records matching `key`, same length, order and `total`. */
  ghost predicate Merged<T, P>(a: PaginatedData<T>, b: PaginatedData<T>, idOf: T -> int, overlay: (T, P) -> T, key: Key, p: P)
  {
    && SameCounters(a, b) && b.total == a.total && |b.data| == |a.data|
    && (forall i :: 0 <= i < |a.data| ==>
          b.data[i] == if Matches(idOf, a.data[i], key) then overlay(a.data[i], p) else a.data[i])
  }

  /** `addData`: on success the created record goes first and `total` grows by one. */
  function Add<T>(s: Store<T>, reply: Reply<T>): (r: Outcome<T>)
    ensures reply.Success? ==> Prepended(s.dt, r.state.dt, reply.payload) && r.state.loading == s.loading && r.status == BerhasilTambah
    ensures reply.Failure? ==> r.state == s && r.status == Error
  {
    match reply
    case Success(x) =>
      Outcome(s.(dt := s.dt.(data := [x] + s.dt.data, total := s.dt.total + 1)), BerhasilTambah)
    case Failure => Outcome(s, Error)
  }

  /** `removeData`: on success the matching records go and `total` drops by one, matched or not. */
  function Remove<T, X>(s: Store<T>, idOf: T -> int, key: Key, reply: Reply<X>): (r: Outcome<T>)
    ensures reply.Success? ==> Removed(s.dt, r.state.dt, idOf, key) && r.state.loading == s.loading && r.status == BerhasilHapus
    ensures reply.Failure? ==> r.state == s && r.status == Error
  {
    match reply
    case Success(_) =>
      Outcome(s.(dt := s.dt.(data := Without(s.dt.data, idOf, key), total := s.dt.total - 1)), BerhasilHapus)
    case Failure => Outcome(s, Error)
  }

  /** `updateData`, `toggleAktif`, `updatePeserta`: on success the response is overlaid on the matching records. */
  function Merge<T, P>(s: Store<T>, idOf: T -> int, overlay: (T, P) -> T, key: Key, reply: Reply<P>, okStatus: string): (r: Outcome<T>)
    ensures reply.Success? ==> Merged(s.dt, r.state.dt, idOf, overlay, key, reply.payload) && r.state.loading == s.loading && r.status == okStatus
    ensures reply.Failure? ==> r.state == s && r.status == Error
  {
    match reply
    case Success(p) =>
      Outcome(s.(dt := s.dt.(data := MergeMatching(s.dt.data, idOf, overlay, key, p))), okStatus)
    case Failure => Outcome(s, Error)
  }

  /** A call that only reads from the server: the store is left as it is. */
  function Read<T, X>(s: Store<T>, reply: Reply<X>): (r: Lookup<T, X>)
    ensures r.state == s
    ensures reply.Success? ==> r.status == Berhasil && r.data == Some(reply.payload)
    ensures reply.Failure? ==> r.status == Error && r.data.None?
  {
    match reply
    case Success(x) => Lookup(s, Berhasil, Some(x))
    case Failure => Lookup(s, Error, None)
  }

  /** Records on other pages: `total` minus the records held. */
  function OffPage<T>(d: PaginatedData<T>): int
  {
    d.total - |d.data|
  }

  /**
   * The count of records on other pages is kept by a successful add and
   * update, and by a successful remove exactly when one listed record
   * matched: a remove that matched nothing (for instance a text id) still
   * takes one off `total`.
   */
  lemma OffPageKept<T, P>(s: Store<T>, idOf: T -> int, overlay: (T, P) -> T, key: Key, x: T, p: P)
    ensures OffPage(Add(s, Success(x)).state.dt) == OffPage(s.dt)
    ensures OffPage(Merge(s, idOf, overlay, key, Success(p), BerhasilUpdate).state.dt) == OffPage(s.dt)
    ensures OffPage(Remove(s, idOf, key, Success(())).state.dt) == OffPage(s.dt) <==> Count(s.dt.data, idOf, key) == 1
  {
  }

  /** A text id never matches a record, so a successful remove by text id only decrements `total`. */
  lemma RemoveByTextKey<T, X>(s: Store<T>, idOf: T -> int, text: string, x: X)
    ensures var r := Remove(s, idOf, TextKey(text), Success(x)).state;
      r.dt.data == s.dt.data && r.dt.total == s.dt.total - 1
  {
    WithoutNone(s.dt.data, idOf, TextKey(text));
  }

  /** Filtering with a key nothing matches returns the list as it is. */
  lemma {:induction false} WithoutNone<T>(xs: seq<T>, idOf: T -> int, key: Key)
    requires forall i :: 0 <= i < |xs| ==> !Matches(idOf, xs[i], key)
    ensures Without(xs, idOf, key) == xs
    decreases |xs|
  {
    if xs != [] {
      WithoutNone(xs[1..], idOf, key);
    }
  }

  /**
   * Removing a record just added gives back the old page and total, when
   * the added record's id was not listed before.
   */
  lemma AddThenRemove<T>(s: Store<T>, idOf: T -> int, x: T)
    requires forall i :: 0 <= i < |s.dt.data| ==> idOf(s.dt.data[i]) != idOf(x)
    ensures Remove(Add(s, Success(x)).state, idOf, NumKey(idOf(x)), Success(())).state == s
  {
    var key := NumKey(idOf(x));
    WithoutAppend([x], s.dt.data, idOf, key);
    WithoutNone(s.dt.data, idOf, key);
    assert Without([x], idOf, key) == [];
  }

  /**
   * When the response does not change the id of the records it is
   * overlaid on, updating and then removing by that id is the same as
   * removing: the update touches only the records the remove drops.
   */
  lemma {:induction false} MergeThenWithout<T, P>(xs: seq<T>, idOf: T -> int, overlay: (T, P) -> T, key: Key, p: P)
    requires forall x :: Matches(idOf, x, key) ==> idOf(overlay(x, p)) == idOf(x)
    ensures Without(MergeMatching(xs, idOf, overlay, key, p), idOf, key) == Without(xs, idOf, key)
    decreases |xs|
  {
    if xs != [] {
      var m := MergeMatching(xs, idOf, overlay, key, p);
      assert m == [m[0]] + m[1..];
      assert m[1..] == MergeMatching(xs[1..], idOf, overlay, key, p);
      MergeThenWithout(xs[1..], idOf, overlay, key, p);
      WithoutAppend([m[0]], m[1..], idOf, key);
      assert xs == [xs[0]] + xs[1..];
      WithoutAppend([xs[0]], xs[1..], idOf, key);
    }
  }

  /** An update by a key no listed record matches leaves the page as it is. */
  lemma MergeNoMatch<T, P>(s: Store<T>, idOf: T -> int, overlay: (T, P) -> T, key: Key, p: P, okStatus: string)
    requires Count(s.dt.data, idOf, key) == 0
    ensures Merge(s, idOf, overlay, key, Success(p), okStatus).state == s
  {
    var xs := s.dt.data;
    CountZero(xs, idOf, key);
    assert MergeMatching(xs, idOf, overlay, key, p) == xs;
  }

  /** No record matches exactly when the count is zero. */
  lemma {:induction false} CountZero<T>(xs: seq<T>, idOf: T -> int, key: Key)
    ensures Count(xs, idOf, key) == 0 <==> forall i :: 0 <= i < |xs| ==> !Matches(idOf, xs[i], key)
    decreases |xs|
  {
    if xs != [] {
      CountZero(xs[1..], idOf, key);
      assert forall i :: 1 <= i < |xs| ==> xs[i] == xs[1..][i - 1];
    }
  }
}
