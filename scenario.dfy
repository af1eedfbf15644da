/**
 * A two-stock listing run end to end with `max_retry = 3`: page 0 lists two
 * stocks, page 1 is empty, the first stock's fetch fails once and then
 * returns one row, the second returns one row at once, and both writes
 * succeed.
 */
module Scenario {
  import opened Options
  import opened StockIds
  import opened Tasks
  import opened Crawler

  const A := Entry(0, Task(StockHistory("1.600000"), 0))
  const B := Entry(0, Task(StockHistory("0.000001"), 0))
  const NextPage := Entry(1, Task(ListPage(1), 0))

  method TwoStockListing()
  {
    var c := new AShareCrawler(PathTemplate("data/", ".csv"));
    c.SeedListPage(0);
    c.StartCrawler();
    ListTwoStocks(c);
    FetchBoth(c);
    DrainWriter(c);
  }

  method ListTwoStocks(c: AShareCrawler)
    requires c.Valid() && c.tasks == [Entry(1, Task(ListPage(0), 0))] && c.writer == [] && c.total == 0
    modifies c
    ensures c.Valid() && c.tasks == [A, B, NextPage] && c.writer == [] && c.total == 2
    ensures c.n == old(c.n) && c.live == old(c.live)
  {
    var rows := [Row("1", "600000"), Row("0", "000001")];
    var ids := ["1.600000", "0.000001"];
    assert FormatId(rows[0]) == ids[0] && FormatId(rows[1]) == ids[1];
    assert FormatIds(rows) == ids;
    FanOutShape(ids, 0);
    var stop := c.CrawlerStep(3, 0, Listed(Diff(rows)));
  }

  method FetchBoth(c: AShareCrawler)
    requires c.Valid() && c.tasks == [A, B, NextPage] && c.writer == []
    modifies c
    ensures c.Valid() && c.tasks == [] && |c.writer| == 2
    ensures c.writer[0].result == c.writer[1].result == Frame(1)
    ensures c.total == old(c.total) && c.n == old(c.n) && c.live == old(c.live)
  {
    // the first stock fails once and sinks below the next page
    var stop := c.CrawlerStep(3, 0, Fetched(None));
    assert c.tasks == [B, NextPage, Entry(2, Task(StockHistory("1.600000"), 1))];
    stop := c.CrawlerStep(3, 0, Fetched(Some(Frame(1))));
    stop := c.CrawlerStep(3, 0, Listed(NoData));
    stop := c.CrawlerStep(3, 0, Fetched(Some(Frame(1))));
  }

  method DrainWriter(c: AShareCrawler)
    requires c.Valid() && c.tasks == [] && |c.writer| == 2 && c.live == 1
    requires c.writer[0].result == c.writer[1].result == Frame(1)
    modifies c
    ensures c.n == old(c.n) + 2 && c.total == old(c.total)
    ensures c.tasks == [] && c.writer == [] && c.live == 0
  {
    var stop := c.CrawlerStep(3, 0, Raised);
    assert stop;
    c.StopCrawler();
    stop := c.WriterStep(true);
    stop := c.WriterStep(true);
    stop := c.WriterStep(true);
    assert stop;
  }
}
