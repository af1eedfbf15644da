/**
 * The pure string handling of the crawler: how `get_list` turns a listing
 * response into stock ids (`'{f13}.{f12}'`), and how the crawler derives a
 * stock's save path from its id (`save_fp % id[2:]`).
 */
module StockIds {
  import opened Options

  /** One element of the listing's `data.diff` array; `f13` is the market
      code and `f12` the stock code, each as `str.format` renders it. */
  datatype Row = Row(f13: string, f12: string)

  /** The decoded listing response: `get` gave nothing, `data` is empty,
      or `data.diff` holds the rows of the page. */
  datatype Content = NoContent | NoData | Diff(rows: seq<Row>)

  function FormatId(row: Row): string
  {
    row.f13 + "." + row.f12
  }

  /** The list comprehension over `data.diff`. */
  function FormatIds(rows: seq<Row>): seq<string>
  {
    seq(|rows|, k requires 0 <= k < |rows| => FormatId(rows[k]))
  }

  /** `get_list`: `None` is a transient failure, `[]` the end of the listing. */
  function GetList(content: Content): (r: Option<seq<string>>)
    ensures r.None? <==> content.NoContent?
    ensures r == Some([]) <==> content.NoData? || content == Diff([])
  {
    match content
    case NoContent => None
    case NoData => Some([])
    case Diff(rows) =>
      assert |FormatIds(rows)| == |rows|;
      Some(FormatIds(rows))
  }

  /** Position of the first '.' in s, or |s| when there is none. */
  function DotIndex(s: string): (j: nat)
    ensures j <= |s|
    ensures j < |s| ==> s[j] == '.'
    ensures forall k :: 0 <= k < j ==> s[k] != '.'
  {
    if s == [] || s[0] == '.' then 0 else 1 + DotIndex(s[1..])
  }

  /** Reads an id back into its market and code, splitting at the first '.'. */
  function ParseId(id: string): Option<Row>
  {
    var j := DotIndex(id);
    if j == |id| then None else Some(Row(id[..j], id[j + 1..]))
  }

  /** An id determines the row it was formatted from, as long as the market
      code holds no '.' (market codes are numbers). */
  lemma ParseFormatId(row: Row)
    requires '.' !in row.f13
    ensures ParseId(FormatId(row)) == Some(row)
  {
    var s := FormatId(row);
    var m := |row.f13|;
    assert s[m] == '.';
    assert forall k :: 0 <= k < m ==> s[k] == row.f13[k];
    assert DotIndex(s) == m;
    assert s[..m] == row.f13;
    assert s[m + 1..] == row.f12;
  }

  /** `get_list` keeps one id per row, in the rows' order, and each id can be
      read back into its row. */
  lemma GetListRoundTrip(rows: seq<Row>)
    requires forall k :: 0 <= k < |rows| ==> '.' !in rows[k].f13
    ensures GetList(Diff(rows)).Some?
    ensures |GetList(Diff(rows)).value| == |rows|
    ensures forall k :: 0 <= k < |rows| ==> ParseId(GetList(Diff(rows)).value[k]) == Some(rows[k])
  {
    var ids := GetList(Diff(rows)).value;
    forall k | 0 <= k < |rows|
      ensures ParseId(ids[k]) == Some(rows[k])
    {
      ParseFormatId(rows[k]);
    }
  }

  /** `save_fp`, a path template with a single `%s`: the text before and after it. */
  datatype PathTemplate = PathTemplate(head: string, tail: string)

  /** `id[2:]`; Python's slice of a shorter string is empty. */
  function StockKey(id: string): string
  {
    if |id| >= 2 then id[2..] else []
  }

  /** `save_fp % id[2:]`: the file a stock's history is written to. */
  function Destination(saveFp: PathTemplate, id: string): string
  {
    saveFp.head + StockKey(id) + saveFp.tail
  }

  /** For a one-character market code, `id[2:]` strips exactly the market
      and the dot, so the file is named after the stock code. */
  lemma DestinationOfListedId(saveFp: PathTemplate, row: Row)
    requires |row.f13| == 1
    ensures Destination(saveFp, FormatId(row)) == saveFp.head + row.f12 + saveFp.tail
  {
    assert FormatId(row)[2..] == row.f12;
  }

  /** Two listed stocks (one-character markets) share a file exactly when
      their stock codes agree: the market does not reach the path. */
  lemma DestinationsCollide(saveFp: PathTemplate, a: Row, b: Row)
    requires |a.f13| == 1 && |b.f13| == 1
    ensures Destination(saveFp, FormatId(a)) == Destination(saveFp, FormatId(b)) <==> a.f12 == b.f12
  {
    DestinationOfListedId(saveFp, a);
    DestinationOfListedId(saveFp, b);
    var da, db := saveFp.head + a.f12 + saveFp.tail, saveFp.head + b.f12 + saveFp.tail;
    if da == db {
      var h := |saveFp.head|;
      assert |a.f12| == |b.f12|;
      assert da[h..h + |a.f12|] == a.f12;
      assert db[h..h + |b.f12|] == b.f12;
    }
  }
}
