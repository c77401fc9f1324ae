/**
 * `Table`: the generic data table of the admin pages. The parent owns the
 * sort state (`sortKey`, `sortDirection`); a header click asks it, through
 * `onSort`, for a new direction. Cells are whatever a column's `render`
 * (or the bare field) makes of a record, given here as one function.
 */
module Table {
  import opened Wrappers

  datatype Direction = Asc | Desc

  datatype Column<K> = Column(key: K, title: string, sortable: bool)

  /** The sort state as the parent passes it in. */
  datatype SortState<K> = SortState(key: Option<K>, direction: Option<Direction>)

  /** What `onSort` is called with. */
  datatype SortRequest<K> = SortRequest(key: K, direction: Direction)

  /**
   * `handleSort`: without a handler nothing is requested; the current key
   * while ascending asks for descending; anything else (another key, or
   * the same key descending or without a direction) asks for ascending.
   */
  function HandleSort<K(==)>(hasOnSort: bool, st: SortState<K>, key: K): (r: Option<SortRequest<K>>)
    ensures r.None? <==> !hasOnSort
    ensures r.Some? ==> r.value.key == key
    ensures r.Some? ==> (r.value.direction == Desc <==> st.key == Some(key) && st.direction == Some(Asc))
  {
    if !hasOnSort then None
    else if st.key == Some(key) && st.direction == Some(Asc) then Some(SortRequest(key, Desc))
    else Some(SortRequest(key, Asc))
  }

  /** A click on a header cell: only a sortable column sorts. */
  function HeaderClick<K(==)>(hasOnSort: bool, st: SortState<K>, column: Column<K>): (r: Option<SortRequest<K>>)
    ensures r.Some? <==> hasOnSort && column.sortable
    ensures r.Some? ==> r == HandleSort(hasOnSort, st, column.key)
  {
    if column.sortable then HandleSort(hasOnSort, st, column.key) else None
  }

  /** The parent adopting a request as its new sort state. */
  function Adopt<K>(req: SortRequest<K>): SortState<K>
  {
    SortState(Some(req.key), Some(req.direction))
  }

  /**
   * Clicking the same sortable column again and again, with the parent
   * adopting each request, alternates ascending and descending, starting
   * ascending unless that column is already sorted ascending.
   */
  lemma RepeatedClicksAlternate<K>(st: SortState<K>, column: Column<K>)
    requires column.sortable
    ensures var r1 := HeaderClick(true, st, column).value;
      var r2 := HeaderClick(true, Adopt(r1), column).value;
      var r3 := HeaderClick(true, Adopt(r2), column).value;
      && r2.direction != r1.direction
      && r3.direction == r1.direction
      && (r1.direction == Asc <==> st != SortState(Some(column.key), Some(Asc)))
  {
  }

  /** One header cell: its title and which of the two arrows is highlighted. */
  datatype Header = Header(title: string, sortable: bool, upActive: bool, downActive: bool)

  function HeaderFor<K(==)>(st: SortState<K>, column: Column<K>): (h: Header)
    ensures h.title == column.title && h.sortable == column.sortable
    ensures h.upActive <==> column.sortable && st.key == Some(column.key) && st.direction == Some(Asc)
    ensures h.downActive <==> column.sortable && st.key == Some(column.key) && st.direction == Some(Desc)
    ensures !(h.upActive && h.downActive)
  {
    Header(column.title, column.sortable,
      column.sortable && st.key == Some(column.key) && st.direction == Some(Asc),
      column.sortable && st.key == Some(column.key) && st.direction == Some(Desc))
  }

  /** The table body: the "No data available" row, or one row of cells per record. */
  datatype Body<C> = Placeholder(colSpan: nat, text: string) | Rows(rows: seq<seq<C>>)

  datatype View<C> = Spinner | Grid(headers: seq<Header>, body: Body<C>)

  /**
   * What the table draws: only a spinner while loading; otherwise one
   * header per column and either a single placeholder row spanning every
   * column or one row per record with one cell per column, in order.
   */
  function Render<T, K(==), C>(data: seq<T>, columns: seq<Column<K>>, loading: bool, st: SortState<K>,
                               cell: (T, Column<K>) -> C): (v: View<C>)
    ensures v.Spinner? <==> loading
    ensures v.Grid? ==> |v.headers| == |columns|
    ensures v.Grid? ==> forall j :: 0 <= j < |columns| ==> v.headers[j] == HeaderFor(st, columns[j])
    ensures v.Grid? ==> (v.body.Placeholder? <==> |data| == 0)
    ensures v.Grid? && v.body.Placeholder? ==> v.body.colSpan == |columns| && v.body.text == "No data available"
    ensures v.Grid? && v.body.Rows? ==> |v.body.rows| == |data|
    ensures v.Grid? && v.body.Rows? ==> forall i :: 0 <= i < |data| ==> |v.body.rows[i]| == |columns|
    ensures v.Grid? && v.body.Rows? ==> forall i, j :: 0 <= i < |data| && 0 <= j < |columns| ==>
      v.body.rows[i][j] == cell(data[i], columns[j])
  {
    if loading then Spinner
    else
      var headers := seq(|columns|, j requires 0 <= j < |columns| => HeaderFor(st, columns[j]));
      if |data| == 0 then Grid(headers, Placeholder(|columns|, "No data available"))
      else Grid(headers, Rows(seq(|data|, i requires 0 <= i < |data| =>
        seq(|columns|, j requires 0 <= j < |columns| => cell(data[i], columns[j])))))
  }

  /** Once the parent adopts a request, exactly the clicked column shows the requested arrow. */
  lemma AdoptedRequestHighlighted<K>(st: SortState<K>, columns: seq<Column<K>>, c: nat)
    requires c < |columns| && columns[c].sortable
    requires forall j :: 0 <= j < |columns| && j != c ==> columns[j].key != columns[c].key
    ensures var req := HeaderClick(true, st, columns[c]).value;
      forall j :: 0 <= j < |columns| ==>
        var h := HeaderFor(Adopt(req), columns[j]);
        (h.upActive <==> j == c && req.direction == Asc) && (h.downActive <==> j == c && req.direction == Desc)
  {
  }
}
