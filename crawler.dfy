/**
 * The `AShareCrawler` object as one sequential state machine: its three
 * queues, its progress bar's two counters, and the loop bodies of the crawler
 * threads and of the writer thread as step methods. The outcome of every call
 * the loops make into the outside world (the fetch functions, `write`) is a
 * parameter, and a blocking `get` that times out is a `get` on an empty queue.
 */
module Crawler {
  import opened Options
  import opened StockIds
  import opened Tasks

  /** One turn of the thread pool: a crawler thread runs one loop iteration,
      popping entry `pick` and seeing `reply`, or the writer runs one,
      seeing `write` report `written`. */
  datatype Turn = CrawlerTurn(crawler: nat, pick: nat, reply: Reply) | WriterTurn(written: bool)

  class AShareCrawler {
    const saveFp: PathTemplate
    /** `queues.crawler`, the priority queue of `[prior, task]` entries */
    var tasks: seq<Entry>
    /** `queues.writer`, the FIFO of `(result, save_fp)` pairs */
    var writer: seq<Pending>
    /** `queues.other`: how many crawler threads are registered */
    var live: nat
    /** `pbar.total` and `pbar.n` */
    var total: int
    var n: nat

    /** Stocks ever listed, empty frames written off, results whose write
        failed, and stock tasks abandoned after failures. */
    ghost var added: nat
    ghost var emptied: nat
    ghost var lost: nat
    ghost var dropped: nat

    /** Progress accounting: every listed stock is written, written off as
        empty, lost in a failed write, abandoned, waiting for the writer, or
        still a task; `total` counts the listed stocks that were not empty. */
    ghost predicate Valid()
      reads this
    {
      && total == added - emptied
      && added == n + emptied + lost + dropped + |writer| + StockCount(tasks)
    }

    /** The progress bar never runs ahead of its total. */
    lemma ProgressBounded()
      requires Valid()
      ensures n <= total
      ensures total - n == lost + dropped + |writer| + StockCount(tasks)
    {
    }

    constructor (saveFp: PathTemplate)
      ensures Valid()
      ensures this.saveFp == saveFp
      ensures tasks == [] && writer == [] && live == 0 && total == 0 && n == 0
    {
      this.saveFp := saveFp;
      tasks, writer, live, total, n := [], [], 0, 0, 0;
      added, emptied, lost, dropped := 0, 0, 0, 0;
    }

    /** Puts the first listing page on the crawler queue. */
    method SeedListPage(page: int)
      requires Valid()
      modifies this
      ensures Valid()
      ensures tasks == old(tasks) + [Entry(1, Task(ListPage(page), 0))]
      ensures writer == old(writer) && live == old(live) && total == old(total) && n == old(n)
      ensures added == old(added) && emptied == old(emptied) && lost == old(lost) && dropped == old(dropped)
    {
      var seed := Entry(1, Task(ListPage(page), 0));
      StockCountAppend(tasks, [seed]);
      assert [seed][..0] == [];
      tasks := tasks + [seed];
    }

    /** A crawler thread registers itself before its loop. */
    method StartCrawler()
      modifies this`live
      ensures live == old(live) + 1
    {
      live := live + 1;
    }

    /** A crawler thread takes one entry off the registry after its loop. */
    method StopCrawler()
      requires live > 0
      modifies this`live
      ensures live == old(live) - 1
    {
      live := live - 1;
    }

    /** One iteration of a crawler thread's loop. On an empty queue the `get`
        times out and the thread leaves its loop (`stop`); otherwise entry
        `i`, one of smallest priority, is popped and run. */
    method CrawlerStep(maxRetry: int, i: nat, reply: Reply) returns (stop: bool)
      requires Valid()
      requires tasks != [] ==> IsMinEntry(tasks, i) && Answers(tasks[i].task.kind, reply)
      modifies this
      ensures Valid()
      ensures stop <==> old(tasks) == []
      ensures old(tasks) == [] ==> unchanged(this)
      ensures old(tasks) != [] ==>
        var e := old(tasks)[i];
        var eff := Step(e, reply, maxRetry, saveFp);
        && tasks == Remove(old(tasks), i) + eff.requeue
        && writer == old(writer) + eff.forward
        && total == old(total) + eff.discovered
        && added == old(added) + eff.discovered
        && dropped == old(dropped) + (if eff.abandoned then IsStock(e) else 0)
      ensures n == old(n) && live == old(live) && emptied == old(emptied) && lost == old(lost)
    {
      if tasks == [] {
        return true;
      }
      stop := false;
      var e := tasks[i];
      ghost var eff := Step(e, reply, maxRetry, saveFp);
      StepConserves(e, reply, maxRetry, saveFp);
      StockCountRemove(tasks, i);
      StockCountAppend(Remove(tasks, i), eff.requeue);
      tasks := Remove(tasks, i);
      RunTask(e, reply, maxRetry);
    }

    /** The body of the crawler loop after the pop: runs the popped entry's
        function and applies the retry policy, the fan-out or the handoff. */
    method RunTask(e: Entry, reply: Reply, maxRetry: int)
      requires Answers(e.task.kind, reply)
      modifies this
      ensures var eff := Step(e, reply, maxRetry, saveFp);
        && tasks == old(tasks) + eff.requeue
        && writer == old(writer) + eff.forward
        && total == old(total) + eff.discovered
        && added == old(added) + eff.discovered
        && dropped == old(dropped) + (if eff.abandoned then IsStock(e) else 0)
      ensures n == old(n) && live == old(live) && emptied == old(emptied) && lost == old(lost)
    {
      var prior, task := e.prior, e.task;
      match reply {
        case Raised =>
          dropped := dropped + IsStock(e);
        case Listed(content) =>
          var result := GetList(content);
          task := task.(tries := task.tries + 1);
          if result.None? {
            if task.tries < maxRetry {
              tasks := tasks + [Entry(prior + 2, task)];
            }
          } else if result.value != [] {
            var ids := result.value;
            total := total + |ids|;
            added := added + |ids|;
            tasks := tasks + (StockTasks(ids) + [Entry(1, Task(ListPage(task.kind.page + 1), 0))]);
          }
        case Fetched(frame) =>
          task := task.(tries := task.tries + 1);
          if frame.None? {
            if task.tries >= maxRetry {
              dropped := dropped + 1;
            } else {
              tasks := tasks + [Entry(prior + 2, task)];
            }
          } else {
            writer := writer + [Pending(frame.value, Destination(saveFp, task.kind.id))];
          }
      }
    }

    /** One iteration of the writer thread's loop. On an empty queue the
        `get` times out, and the writer stops exactly when no crawler is
        registered; otherwise the oldest result is taken and accounted. */
    method WriterStep(written: bool) returns (stop: bool)
      requires Valid()
      modifies this
      ensures Valid()
      ensures old(writer) == [] ==> stop == (live == 0) && unchanged(this)
      ensures old(writer) != [] ==>
        var p := old(writer)[0];
        && !stop
        && writer == old(writer)[1..]
        && (p.result.rows == 0 ==> total == old(total) - 1 && n == old(n) && emptied == old(emptied) + 1)
        && (p.result.rows > 0 && written ==> total == old(total) && n == old(n) + 1 && emptied == old(emptied))
        && (p.result.rows > 0 && !written ==> total == old(total) && n == old(n) && lost == old(lost) + 1)
      ensures tasks == old(tasks) && live == old(live) && added == old(added) && dropped == old(dropped)
    {
      if writer == [] {
        return live == 0;
      }
      stop := false;
      var result := writer[0].result;
      writer := writer[1..];
      if result.rows == 0 {
        total := total - 1;
        emptied := emptied + 1;
      } else if written {
        n := n + 1;
      } else {
        lost := lost + 1;
      }
    }

    /** The thread pool: registers `numCrawler` crawler threads, then runs
        the loop iterations of the crawlers and the writer in the order the
        schedule gives. A turn no execution could take (a thread that has
        already returned, a pick that is not a smallest entry, a reply from
        the wrong function) is skipped. `finished` says the writer returned. */
    method AssignTasks(numCrawler: nat, maxRetry: int, schedule: seq<Turn>) returns (finished: bool)
      requires Valid() && live == 0
      modifies this
      ensures Valid()
      ensures finished ==> live == 0 && writer == [] && (numCrawler > 0 ==> tasks == [])
      ensures finished && numCrawler > 0 ==> n <= total && total - n == lost + dropped
    {
      var running: set<nat> := {};
      for c := 0 to numCrawler
        invariant Valid()
        invariant forall k :: k in running ==> k < c
        invariant live == |running| == c
      {
        StartCrawler();
        running := running + {c};
      }
      finished := false;
      for t := 0 to |schedule|
        invariant Valid()
        invariant live == |running|
        invariant numCrawler > 0 && running == {} ==> tasks == []
        invariant finished ==> running == {} && writer == []
      {
        match schedule[t] {
          case CrawlerTurn(c, pick, reply) =>
            if c in running {
              if tasks == [] {
                var _ := CrawlerStep(maxRetry, pick, reply);
                StopCrawler();
                running := running - {c};
              } else if IsMinEntry(tasks, pick) && Answers(tasks[pick].task.kind, reply) {
                var _ := CrawlerStep(maxRetry, pick, reply);
              }
            }
          case WriterTurn(written) =>
            if !finished {
              finished := WriterStep(written);
            }
        }
      }
      if finished && numCrawler > 0 {
        ProgressBounded();
      }
    }
  }
}
