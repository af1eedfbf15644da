/**
 * The crawler's tasks and what one execution of a popped task does to the
 * queues: the retry policy, the fan-out of a listing page, and the handoff of
 * a stock's history to the writer. Everything here is a value; the class in
 * module Crawler applies these effects to its queues.
 */
module Tasks {
  import opened Options
  import opened StockIds

  /** Which bound function a task calls, with its single argument:
      `get_list(page_num)` or `get_stock(stock_id)`. */
  datatype Kind = ListPage(page: int) | StockHistory(id: string)

  /** `each_task(func, args, tries)` */
  datatype Task = Task(kind: Kind, tries: nat)

  /** `[prior, task]` as it sits on the crawler's priority queue. */
  datatype Entry = Entry(prior: int, task: Task)

  /** The DataFrame `get_stock` returns; only whether it holds rows matters. */
  datatype Frame = Frame(rows: nat)

  /** `(result, save_fp)` on the writer queue. */
  datatype Pending = Pending(result: Frame, saveFp: string)

  /** What the world answers when a task's function runs: it raised, or
      `get_list` saw this listing response, or `get_stock` returned a frame
      or `None`. */
  datatype Reply = Raised | Listed(content: Content) | Fetched(frame: Option<Frame>)

  function Max(a: int, b: int): int
  {
    if a < b then b else a
  }

  /** A reply can only come from the function the task calls. */
  predicate Answers(kind: Kind, reply: Reply)
  {
    match reply
    case Raised => true
    case Listed(_) => kind.ListPage?
    case Fetched(_) => kind.StockHistory?
  }

  /** `PriorityQueue.get` hands out an entry of smallest priority; which one
      among equal priorities is not specified. */
  predicate IsMinEntry(q: seq<Entry>, i: nat)
  {
    i < |q| && forall j :: 0 <= j < |q| ==> q[i].prior <= q[j].prior
  }

  function Remove(q: seq<Entry>, i: nat): seq<Entry>
    requires i < |q|
  {
    q[..i] + q[i + 1..]
  }

  function IsStock(e: Entry): nat
  {
    if e.task.kind.StockHistory? then 1 else 0
  }

  /** The number of `get_stock` tasks in a queue. */
  function StockCount(q: seq<Entry>): nat
  {
    if q == [] then 0 else StockCount(q[..|q| - 1]) + IsStock(q[|q| - 1])
  }

  lemma {:induction false} StockCountAppend(a: seq<Entry>, b: seq<Entry>)
    ensures StockCount(a + b) == StockCount(a) + StockCount(b)
    decreases |b|
  {
    if b != [] {
      assert (a + b)[..|a + b| - 1] == a + b[..|b| - 1];
      StockCountAppend(a, b[..|b| - 1]);
    } else {
      assert a + b == a;
    }
  }

  lemma StockCountRemove(q: seq<Entry>, i: nat)
    requires i < |q|
    ensures StockCount(q) == StockCount(Remove(q, i)) + IsStock(q[i])
  {
    var left, mid, right := q[..i], [q[i]], q[i + 1..];
    assert q == left + (mid + right);
    assert Remove(q, i) == left + right;
    assert StockCount(mid) == IsStock(q[i]) by {
      assert mid[..0] == [];
    }
    StockCountAppend(left, mid + right);
    StockCountAppend(mid, right);
    StockCountAppend(left, right);
  }

  /** The retry policy for a task whose function returned `None`: count the
      attempt, and put it back two priority levels lower unless it has now
      reached `max_retry` attempts. */
  function Requeued(e: Entry, maxRetry: int): seq<Entry>
  {
    var task := e.task.(tries := e.task.tries + 1);
    if task.tries >= maxRetry then [] else [Entry(e.prior + 2, task)]
  }

  /** The entries executed, in order, for a task whose function keeps
      returning `None`. */
  function FailingRun(e: Entry, maxRetry: int): seq<Entry>
    decreases maxRetry - e.task.tries
  {
    var next := Requeued(e, maxRetry);
    if next == [] then [e] else [e] + FailingRun(next[0], maxRetry)
  }

  /** A task that always fails runs max(1, max_retry - tries) more times,
      the j-th time at priority `prior + 2j` with `tries + j` attempts behind
      it, and the last failure drops it. */
  lemma {:induction false} FailingRunShape(e: Entry, maxRetry: int)
    ensures |FailingRun(e, maxRetry)| == Max(1, maxRetry - e.task.tries)
    ensures forall j :: 0 <= j < |FailingRun(e, maxRetry)| ==>
      FailingRun(e, maxRetry)[j] == Entry(e.prior + 2 * j, e.task.(tries := e.task.tries + j))
    ensures Requeued(FailingRun(e, maxRetry)[|FailingRun(e, maxRetry)| - 1], maxRetry) == []
    decreases maxRetry - e.task.tries
  {
    var next := Requeued(e, maxRetry);
    if next != [] {
      var run, rest := FailingRun(e, maxRetry), FailingRun(next[0], maxRetry);
      FailingRunShape(next[0], maxRetry);
      assert run == [e] + rest;
      forall j | 0 <= j < |run|
        ensures run[j] == Entry(e.prior + 2 * j, e.task.(tries := e.task.tries + j))
      {
        if j > 0 {
          assert run[j] == rest[j - 1];
        }
      }
      assert run[|run| - 1] == rest[|rest| - 1];
    }
  }

  /** A freshly created task whose function always returns `None` is
      executed exactly max(1, max_retry) times and then discarded. */
  lemma FreshTaskAttempts(e: Entry, maxRetry: int)
    requires e.task.tries == 0
    ensures |FailingRun(e, maxRetry)| == Max(1, maxRetry)
    ensures FailingRun(e, maxRetry)[Max(1, maxRetry) - 1].prior == e.prior + 2 * (Max(1, maxRetry) - 1)
  {
    FailingRunShape(e, maxRetry);
  }

  /** One `get_stock` task at priority 0 per listed id. */
  function StockTasks(ids: seq<string>): seq<Entry>
  {
    seq(|ids|, k requires 0 <= k < |ids| => Entry(0, Task(StockHistory(ids[k]), 0)))
  }

  /** What a non-empty listing page puts on the crawler queue. */
  function FanOut(ids: seq<string>, page: int): seq<Entry>
  {
    StockTasks(ids) + [Entry(1, Task(ListPage(page + 1), 0))]
  }

  lemma {:induction false} StockTasksCount(ids: seq<string>)
    ensures StockCount(StockTasks(ids)) == |ids|
    decreases |ids|
  {
    if ids != [] {
      var q := StockTasks(ids);
      assert q[..|q| - 1] == StockTasks(ids[..|ids| - 1]);
      StockTasksCount(ids[..|ids| - 1]);
    }
  }

  /** A page of K ids yields exactly K fresh stock tasks at priority 0, one
      per id in order, and one fresh task for the next page at priority 1. */
  lemma FanOutShape(ids: seq<string>, page: int)
    ensures |FanOut(ids, page)| == |ids| + 1
    ensures forall k :: 0 <= k < |ids| ==> FanOut(ids, page)[k] == Entry(0, Task(StockHistory(ids[k]), 0))
    ensures FanOut(ids, page)[|ids|] == Entry(1, Task(ListPage(page + 1), 0))
    ensures StockCount(FanOut(ids, page)) == |ids|
  {
    var last := Entry(1, Task(ListPage(page + 1), 0));
    StockTasksCount(ids);
    StockCountAppend(StockTasks(ids), [last]);
    assert [last][..0] == [];
  }

  /** What executing one popped entry does: the entries it puts back on the
      crawler queue, the results it hands to the writer, how much it adds
      to the progress total, and whether a failure abandoned the task. */
  datatype Effect = Effect(requeue: seq<Entry>, forward: seq<Pending>, discovered: nat, abandoned: bool)

  /** One iteration of the crawler loop, after the pop. */
  function Step(e: Entry, reply: Reply, maxRetry: int, saveFp: PathTemplate): Effect
    requires Answers(e.task.kind, reply)
  {
    match reply
    case Raised => Effect([], [], 0, true)
    case Listed(content) =>
      (match GetList(content)
       case None =>
         var next := Requeued(e, maxRetry);
         Effect(next, [], 0, next == [])
       case Some(ids) =>
         if ids == [] then Effect([], [], 0, false)
         else Effect(FanOut(ids, e.task.kind.page), [], |ids|, false))
    case Fetched(frame) =>
      (match frame
       case None =>
         var next := Requeued(e, maxRetry);
         Effect(next, [], 0, next == [])
       case Some(result) =>
         Effect([], [Pending(result, Destination(saveFp, e.task.kind.id))], 0, false))
  }

  /** Stock work is conserved by a step: the stock task that ran (if any)
      plus the stocks a page discovered equal the stock tasks put back, plus
      the results forwarded to the writer, plus a stock task given up on. */
  lemma StepConserves(e: Entry, reply: Reply, maxRetry: int, saveFp: PathTemplate)
    requires Answers(e.task.kind, reply)
    ensures var eff := Step(e, reply, maxRetry, saveFp);
      IsStock(e) + eff.discovered
        == StockCount(eff.requeue) + |eff.forward| + (if eff.abandoned then IsStock(e) else 0)
  {
    var eff := Step(e, reply, maxRetry, saveFp);
    if eff.requeue != [] && (reply.Fetched? || GetList(reply.content).None?) {
      var next := Requeued(e, maxRetry);
      assert next[..0] == [];
      assert StockCount(next) == IsStock(e);
    } else if reply.Listed? && GetList(reply.content).Some? && GetList(reply.content).value != [] {
      FanOutShape(GetList(reply.content).value, e.task.kind.page);
    }
  }
}
