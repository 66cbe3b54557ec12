/** The `page` registration decorator: it turns a page function into a
    pipeline task and appends that task to a task queue, either at once
    (`@page`) or once the configured decorator is applied (`@page(...)`). */
module Pages {
  import opened Values
  import opened Pipelines
  import opened Tasks

  /** The closure `real_decorator`, which captures the `foreach` and
      `task_queue` arguments given to `page`. */
  datatype Decorator = RealDecorator(foreach: Value, taskQueue: TaskQueue)

  /** What `page(...)` returns: the page function itself (bare use, already
      registered) or the decorator still to be applied (configured use). */
  datatype PageResult = Function(pageFn: Value) | Decorate(decorator: Decorator)

  /** What the adapter returns: the seeded source itself, or that source piped
      through the listed stages (a description of `source | map(f) | cout()`). */
  datatype AdapterResult =
    | Seeded(source: Source)
    | Piped(source: Source, stages: seq<Stage>)

  /** The `foreach` a task stores: under bare use the first argument is the
      page function and the task gets an empty `foreach`; otherwise the
      argument is kept as given. */
  function ApparentForeach(foreach: Value): (r: Value)
    ensures !IsCallable(r)
    ensures IsCallable(foreach) ==> r == EmptyList
    ensures !IsCallable(foreach) ==> r == foreach
  {
    if IsCallable(foreach) then EmptyList else foreach
  }

  /** The task one application of `real_decorator` enqueues. */
  function TaskFor(foreach: Value, pageFn: Value): (t: Task)
    ensures t.adapter == PageToPipelineAdapter(pageFn)
    ensures t.foreach == ApparentForeach(foreach) && !IsCallable(t.foreach)
    ensures !t.flag
  {
    PipelineTask(PageToPipelineAdapter(pageFn), ApparentForeach(foreach), false)
  }

  /** The dispatch of `page` on the shape of its first argument. */
  function PageReturn(foreach: Value, taskQueue: TaskQueue): (r: PageResult)
    ensures r.Function? <==> IsCallable(foreach)
    ensures r.Function? ==> r.pageFn == foreach
    ensures r.Decorate? ==> r.decorator == RealDecorator(foreach, taskQueue)
  {
    if IsCallable(foreach) then Function(foreach) else Decorate(RealDecorator(foreach, taskQueue))
  }

  /** `real_decorator(function)`: enqueue exactly one task onto the captured
      queue and hand the page function back unchanged. */
  method ApplyDecorator(d: Decorator, pageFn: Value) returns (r: Value)
    modifies d.taskQueue
    ensures r == pageFn
    ensures d.taskQueue.tasks == old(d.taskQueue.tasks) + [TaskFor(d.foreach, pageFn)]
  {
    var apparentForeach := d.foreach;
    if IsCallable(d.foreach) {
      apparentForeach := EmptyList;
    }
    var task := PipelineTask(PageToPipelineAdapter(pageFn), apparentForeach, false);
    d.taskQueue.Enqueue(task);
    r := pageFn;
  }

  /** `page(foreach, task_queue)`. Bare use registers the page function at
      once; configured use enqueues nothing and returns the decorator. */
  method Page(foreach: Value, taskQueue: TaskQueue) returns (r: PageResult)
    modifies taskQueue
    ensures r == PageReturn(foreach, taskQueue)
    ensures IsCallable(foreach) ==>
      taskQueue.tasks == old(taskQueue.tasks) + [TaskFor(foreach, foreach)]
    ensures !IsCallable(foreach) ==> taskQueue.tasks == old(taskQueue.tasks)
  {
    var foreachIsFunc := IsCallable(foreach);
    var decorator := RealDecorator(foreach, taskQueue);
    if foreachIsFunc {
      var registered := ApplyDecorator(decorator, foreach);
      return Function(registered);
    }
    return Decorate(decorator);
  }

  /** The contents a source holds after the adapter ran on it: an empty source
      is seeded with the one item the page function returns when called with
      no arguments; a non-empty one is left to the pipeline. */
  function AdaptedContents(pageFn: Value, contents: seq<Value>, callNoArgs: Value -> Value): (c: seq<Value>)
    ensures c != []
    ensures contents != [] ==> c == contents
    ensures contents == [] ==> c == [callNoArgs(pageFn)]
  {
    if |contents| == 0 then [callNoArgs(pageFn)] else contents
  }

  /** `page_to_pipeline_adapter(source)`. `callNoArgs` gives what a callable
      returns when invoked with no arguments. */
  method RunAdapter(adapter: Adapter, source: Source, callNoArgs: Value -> Value) returns (r: AdapterResult)
    modifies source
    ensures source.contents == AdaptedContents(adapter.pageFn, old(source.contents), callNoArgs)
    ensures old(source.contents) == [] ==> r == Seeded(source)
    ensures old(source.contents) != [] ==>
      r == Piped(source, [MapStage(adapter.pageFn), CoutStage])
  {
    if |source.contents| == 0 {
      source.contents := [callNoArgs(adapter.pageFn)];
      return Seeded(source);
    }
    return Piped(source, [MapStage(adapter.pageFn), CoutStage]);
  }

  /** Running the adapter a second time never seeds again: whatever the page
      function would return on the second call, the first seed stays. */
  lemma AdapterSeedsOnce(pageFn: Value, contents: seq<Value>, firstCall: Value -> Value, secondCall: Value -> Value)
    ensures AdaptedContents(pageFn, AdaptedContents(pageFn, contents, firstCall), secondCall)
         == AdaptedContents(pageFn, contents, firstCall)
  {
  }

  /** Two runs of the adapter on one source: the second run keeps what the
      first left there and hands the source on to the pipeline. */
  method RunAdapterTwice(adapter: Adapter, source: Source, firstCall: Value -> Value, secondCall: Value -> Value)
    returns (first: AdapterResult, second: AdapterResult)
    modifies source
    ensures source.contents == AdaptedContents(adapter.pageFn, old(source.contents), firstCall)
    ensures second == Piped(source, [MapStage(adapter.pageFn), CoutStage])
    ensures first.source == source
  {
    first := RunAdapter(adapter, source, firstCall);
    ghost var seeded := source.contents;
    second := RunAdapter(adapter, source, secondCall);
    assert source.contents == seeded;
  }

  /** One decorated page definition: `@page` on `function`, or
      `@page(foreach=...)` on `function`. */
  datatype Registration =
    | Bare(pageFn: Value)
    | Configured(foreach: Value, pageFn: Value)

  /** Bare use decorates a callable; configured use passes a non-callable
      `foreach` (a callable one would be taken for the page function). */
  predicate WellFormed(reg: Registration) {
    match reg
    case Bare(f) => IsCallable(f)
    case Configured(xs, _) => !IsCallable(xs)
  }

  predicate AllWellFormed(regs: seq<Registration>) {
    forall k :: 0 <= k < |regs| ==> WellFormed(regs[k])
  }

  /** The task a registration enqueues. */
  function RegisteredTask(reg: Registration): (t: Task)
    requires WellFormed(reg)
    ensures t.adapter.pageFn == reg.pageFn
    ensures reg.Bare? ==> t.foreach == EmptyList
    ensures reg.Configured? ==> t.foreach == reg.foreach
    ensures !t.flag
  {
    match reg
    case Bare(f) => TaskFor(f, f)
    case Configured(xs, f) => TaskFor(xs, f)
  }

  /** A queue holding `tasks` after the registrations `regs` ran in order. */
  function Replay(tasks: seq<Task>, regs: seq<Registration>): (r: seq<Task>)
    requires AllWellFormed(regs)
    ensures |r| == |tasks| + |regs|
    ensures r[..|tasks|] == tasks
    decreases |regs|
  {
    if regs == [] then tasks
    else Replay(tasks, regs[..|regs| - 1]) + [RegisteredTask(regs[|regs| - 1])]
  }

  /** The decorator syntax: `@page` calls `page(function)`; `@page(...)` calls
      `page(...)` and then applies the returned decorator to `function`. */
  method Register(reg: Registration, taskQueue: TaskQueue) returns (r: Value)
    requires WellFormed(reg)
    modifies taskQueue
    ensures r == reg.pageFn
    ensures taskQueue.tasks == old(taskQueue.tasks) + [RegisteredTask(reg)]
    ensures taskQueue.tasks == Replay(old(taskQueue.tasks), [reg])
  {
    match reg
    case Bare(f) =>
      var p := Page(f, taskQueue);
      r := p.pageFn;
    case Configured(xs, f) =>
      var p := Page(xs, taskQueue);
      r := ApplyDecorator(p.decorator, f);
  }

  /** `page(f)` and `page()(f)` enqueue the same task. */
  lemma BareMatchesDefaultConfigured(f: Value)
    requires IsCallable(f)
    ensures RegisteredTask(Bare(f)) == RegisteredTask(Configured(EmptyList, f))
  {
  }

  /** Registrations land in the queue in call order, one task each, after the
      entries that were already there. */
  lemma {:induction false} ReplayInOrder(tasks: seq<Task>, regs: seq<Registration>, k: nat)
    requires AllWellFormed(regs)
    requires k < |regs|
    ensures Replay(tasks, regs)[|tasks| + k] == RegisteredTask(regs[k])
  {
    var n := |regs|;
    if k < n - 1 {
      assert AllWellFormed(regs[..n - 1]);
      ReplayInOrder(tasks, regs[..n - 1], k);
      assert regs[..n - 1][k] == regs[k];
    }
  }

  /** Two batches of registrations in a row leave the queue as their
      concatenation does. */
  lemma {:induction false} ReplayAppend(tasks: seq<Task>, a: seq<Registration>, b: seq<Registration>)
    requires AllWellFormed(a) && AllWellFormed(b)
    ensures AllWellFormed(a + b)
    ensures Replay(Replay(tasks, a), b) == Replay(tasks, a + b)
    decreases |b|
  {
    if b == [] {
      assert a + b == a;
    } else {
      var n := |b|;
      assert AllWellFormed(b[..n - 1]);
      ReplayAppend(tasks, a, b[..n - 1]);
      assert (a + b)[..|a + b| - 1] == a + b[..n - 1];
      assert (a + b)[|a + b| - 1] == b[n - 1];
    }
  }
}
