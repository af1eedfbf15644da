# A-Share market crawler: the scheduling core in Dafny

This project models the scheduling rule of `AShareCrawler` (src/ashare_crawler.py) and proves
properties about it. The crawler downloads the price history of every listed A-share stock. Crawler
threads pop `[priority, task]` entries off a priority queue. A `get_list` task fetches one listing
page. A non-empty page fans out into one `get_stock` task per stock id at priority 0, plus the next
page at priority 1. A `get_stock` task hands its DataFrame and save path to the writer queue. A task
whose function returns `None` is retried two priority levels lower until it reaches `max_retry`
attempts. One writer thread drains the writer queue and keeps the progress bar (`pbar.total`,
`pbar.n`) up to date. It stops once its queue times out while no crawler is registered in
`queues.other`.

Everything runs as one sequential state machine:

- `options.dfy`: `Option`, for Python's `None`-or-value results.
- `stock_ids.dfy` (module `StockIds`, pure): `get_list`'s id formatting `'{f13}.{f12}'`, the save
  path `save_fp % id[2:]`, and an inverse parser used to state that ids lose nothing.
- `tasks.dfy` (module `Tasks`, pure): tasks and queue entries as values. Also here: the retry policy
  (`Requeued`), a task's whole run when it always fails (`FailingRun`), the fan-out (`FanOut`), and
  the effect of one crawler iteration on the queues and the total (`Step`).
- `crawler.dfy` (module `Crawler`): the class `AShareCrawler`. Its fields are the task queue and the
  writer queue (as sequences), the registry count and the two progress counters. The methods are
  the loop bodies of `do_task` and `write_result`, registration, and `assign_tasks` as a run of a
  schedule of thread turns. Ghost counters and the invariant `Valid()` carry the progress
  accounting.
- `scenario.dfy`: a client. Two stocks are listed; one fails once and is retried; both are written.
  The contracts alone give `total == n == 2` with both queues empty and no crawler registered.

The fetch functions and `write` belong to the outside world, so each step takes their outcome as a
parameter:

- `Reply.Raised` means the function raised.
- `Reply.Listed(content)` is the decoded listing response that `get_list` saw.
- `Reply.Fetched(frame)` is what `get_stock` returned.
- `written` is `write`'s boolean.

A blocking `get` that times out is modelled as a `get` on an empty queue. The crawler's pop takes
the index of some entry of smallest priority.

Where the specification of the system and the code differ, the model follows the code:

- An always-failing task runs `max(1, max_retry)` times, not `max_retry` times: a `max_retry` of 0
  or less still allows one attempt.
- An empty DataFrame takes 1 off `pbar.total`. So when everything is quiescent,
  `total - n` counts failed writes and abandoned stock tasks. Empty results are not in it.
- `assign_tasks` puts no first task on the queue. `SeedListPage` puts a page task there at
  priority 1, the seed the design describes.
- The order among equal priorities depends on comparing task objects (`each_task` is not part of
  this model). So no first-in-first-out tie-break is claimed.

## Model

| member | source | states |
|---|---|---|
| StockIds.GetList | src/ashare_crawler.py:194-205 | the result is `None` exactly when `get` returned nothing; it is the empty list (end of pages) exactly when `data` is empty or holds no rows |
| StockIds.GetListRoundTrip | src/ashare_crawler.py:200-205 | `get_list` yields one id per row, in row order, and each id reads back to its own `(f13, f12)` |
| StockIds.ParseFormatId | src/ashare_crawler.py:201 | `'{f13}.{f12}'` is injective: when the market code has no '.', splitting the id at its first '.' returns the row |
| StockIds.DestinationOfListedId | src/ashare_crawler.py:107-108 | for a one-character market code, `id[2:]` is exactly the stock code, so the save path is `save_fp` with the stock code in place of `%s` |
| StockIds.DestinationsCollide | src/ashare_crawler.py:108 | two listed stocks write to the same file if and only if their stock codes are equal; the market never reaches the path |
| Tasks.FailingRunShape | src/ashare_crawler.py:69-87 | a task whose function always returns `None` runs `max(1, max_retry - tries)` more times; its j-th run is at priority `prior + 2j` with `tries + j` attempts behind it; after the last run nothing is requeued |
| Tasks.FreshTaskAttempts | src/ashare_crawler.py:72-87 | a fresh task (`tries = 0`) that always fails is executed exactly `max(1, max_retry)` times, the last time at `prior + 2(max(1, max_retry) - 1)` |
| Tasks.FanOutShape | src/ashare_crawler.py:94-104 | a page of K ids enqueues exactly K fresh `get_stock` tasks at priority 0, one per id in order with args `[id]`, plus exactly one fresh `get_list` task for `page + 1` at priority 1; that is K stock tasks in all |
| Tasks.StepConserves | src/ashare_crawler.py:69-108 | one iteration conserves stock work: the stock task run plus the K stocks a page discovers equal the stock tasks put back, plus the results forwarded to the writer, plus a stock task abandoned after failure |
| Crawler.AShareCrawler.constructor | src/ashare_crawler.py:20-34 | empty queues, no crawler registered, `pbar.total = pbar.n = 0`; the accounting invariant holds |
| Crawler.AShareCrawler.ProgressBounded | src/ashare_crawler.py:133-140 | under the accounting invariant, `n <= total`, and `total - n` is the failed writes plus abandoned stock tasks plus results waiting for the writer plus stock tasks still queued |
| Crawler.AShareCrawler.SeedListPage | src/ashare_crawler.py:103-104 | a fresh page task is put on the crawler queue at priority 1; nothing else changes and the invariant is kept |
| Crawler.AShareCrawler.StartCrawler | src/ashare_crawler.py:61-62 | a starting crawler adds exactly one entry to the registry |
| Crawler.AShareCrawler.StopCrawler | src/ashare_crawler.py:118 | a stopping crawler removes exactly one entry from the registry |
| Crawler.AShareCrawler.CrawlerStep | src/ashare_crawler.py:66-111 | on an empty queue the crawler leaves its loop and nothing changes; otherwise a smallest-priority entry is removed and replaced by `Step`'s requeued entries; its forwarded results are appended to the writer queue; `total` grows by the ids discovered; `n` and the registry are untouched; the accounting invariant is kept |
| Crawler.AShareCrawler.RunTask | src/ashare_crawler.py:69-108 | running a popped task changes the task queue, the writer queue and `total` exactly as `Step` says: retry at `prior + 2` with one more attempt while `tries < max_retry`, otherwise drop; fan out a non-empty page; forward any non-`None` frame, empty or not, with destination `save_fp % id[2:]` |
| Crawler.AShareCrawler.WriterStep | src/ashare_crawler.py:129-147 | a timeout stops the writer if and only if the registry is empty, and changes nothing; otherwise the oldest result is consumed: an empty frame takes 1 off `total` and leaves `n`; a successful write adds 1 to `n`; a failed write changes neither; the crawler queue and the registry are untouched; the invariant is kept |
| Crawler.AShareCrawler.AssignTasks | src/ashare_crawler.py:36-53 | after registering the crawler threads and running any schedule of turns, the accounting invariant still holds. If the writer has returned, the registry is back to empty and the writer queue is empty. With at least one crawler, the task queue is empty too, `n <= total`, and `total - n` is exactly the failed writes plus the abandoned stock tasks |

## Left out

- Threads, `ThreadPoolExecutor`, `PBAR_LOCK` and the 30 s / 120 s timeouts: each loop iteration is one atomic step, and a timeout is a `get` on an empty queue. Races inside an iteration are not modelled, nor are timeouts that fire while another thread is still working.
- Crawler.AShareCrawler.AssignTasks: the thread interleaving is a schedule given as a parameter. A turn that no execution could take is skipped: a thread that has already returned, a pick that is not a smallest entry, or a reply from the wrong function. All crawlers register before any turn runs. Termination of a whole run (liveness) is not proved, because the listing may go on for ever.
- Exceptions: only an exception raised by the task's function is modelled (`Reply.Raised`). The task is lost, its `tries` is not incremented, and the loop goes on. An exception later in the iteration, for example midway through a fan-out, is not modelled. An exception in the writer has the same effect on the state as a failed write (`written = false`).
- Task objects: a task is owned by exactly one queue or by the crawler running it, so `task.tries += 1` is a functional update of a value. Object identity and aliasing are not modelled.
- Tie-breaking among entries of equal priority: the pop may take any entry of smallest priority.
- `get_stock`, `get`, `write`, `multi_queues` and `each_task`: HTTP, JSON decoding, DataFrame building, date filtering and file output are outside this model. A DataFrame is modelled by its row count, `write` by its boolean, and `get_list`'s response by `Content`. A missing `diff` key surfaces as `Raised`.
- `save_fp % key`: only a template with a single `%s` is modelled (`PathTemplate`).
- The registry holds thread ids; only their count is modelled. `queues.other.get()` on an empty registry would block for ever. That cannot happen, because each crawler registers before it deregisters, so `StopCrawler` requires a registered crawler.
- Logging, `tqdm` display and refresh, and the time-stamp cache-buster parameter: they do not affect the queues or the counters.
- start_crawler.py: argument parsing, configuration and logging set-up; it only passes `num_crawler` and the default `max_retry = 3` to `assign_tasks`.
