# phial page registration, modelled in Dafny

This project models the `page` decorator of phial, a static site generator.
A page function is registered either bare (`@page`) or configured
(`@page(foreach=..., task_queue=...)`). Registration wraps the function in a
`page_to_pipeline_adapter` closure and puts it in a `PipelineTask`. The task is
appended to a task queue: the process-wide queue by default, or the one the
caller passes in. The original function is returned unchanged.

Modules:

- `Values` (`values.dfy`): Python values as the decorator sees them. `Callable(id)` stands for any object with `__call__`, identified by object identity; `IsCallable` replaces `hasattr(x, "__call__")`.
- `Pipelines` (`pipelines.dfy`): the interfaces `pages.py` uses from the pipeline module:
  - `Source`, a class with a reassignable `contents` list;
  - `Stage`, which describes `map(fn)` and `cout()`;
  - the `PipelineTask` record.
- `Tasks` (`tasks.dfy`): `TaskQueue` from the task module, a class whose `Enqueue` appends.
- `Pages` (`pages.dfy`): the decorator. It covers:
  - the bare/configured dispatch (`PageReturn`, `Page`);
  - `real_decorator` (`ApplyDecorator`, `TaskFor`, `ApparentForeach`);
  - the adapter (`RunAdapter`, `AdaptedContents`);
  - decorator syntax applied to a sequence of page definitions (`Register`, `Replay`), with lemmas on ordering.

Default arguments are passed explicitly. The global task queue is whatever
`TaskQueue` the caller gives, and `foreach=[]` is `EmptyList`. A page function
invoked with no arguments is modelled by the parameter `callNoArgs`, which says
what each callable returns.

## Model

| member | source | states |
|---|---|---|
| `Pages.ApparentForeach` | phial/pages.py:29-31 | The stored `foreach` is never callable. A callable first argument (the page function under bare use) gives the empty list. Any other argument is kept exactly as given. |
| `Pages.TaskFor` | phial/pages.py:33 | The enqueued task holds the adapter over the page function, the apparent `foreach` (never callable), the flag `false`, and nothing else. |
| `Pages.PageReturn` | phial/pages.py:37-40 | `page` returns the function itself exactly when its first argument is callable. Otherwise it returns the decorator that captured `foreach` and the task queue. |
| `Pages.ApplyDecorator` | phial/pages.py:16-35 | Applying `real_decorator` returns the page function unchanged. It appends exactly one task, `TaskFor(foreach, function)`, to the captured queue. Earlier entries are untouched. |
| `Pages.Page` | phial/pages.py:12-40 | Bare use appends exactly one task for the function, at once. Configured use leaves the queue unchanged and returns the decorator. |
| `Tasks.TaskQueue.Enqueue` | phial/pages.py:34 | Enqueueing appends the task at the end and leaves earlier entries in place. |
| `Pages.AdaptedContents` | phial/pages.py:21-25 | After the adapter runs, a source is never empty. An empty source holds exactly `[function()]`. A non-empty source keeps its contents. |
| `Pages.RunAdapter` | phial/pages.py:20-25 | An empty source is seeded in place with `[function()]` and the same source object is returned. A non-empty source is not seeded; the result is that source piped through `map(function)` and then `cout()`, in that order. |
| `Pages.AdapterSeedsOnce` | phial/pages.py:21-23 | A second run of the adapter keeps the contents the first run left, whatever the page function would return on the second call; an already seeded source is never seeded again. |
| `Pages.RunAdapterTwice` | phial/pages.py:20-25 | Two runs of the adapter on one source object: the contents are what the first run left, and the second run returns that same source piped through `map(function)` then `cout()`. |
| `Pages.RegisteredTask` | phial/pages.py:29-33 | A registered page's task wraps that page's function. Its `foreach` is the empty list under bare use and the given `foreach` under configured use. Its flag is `false`. |
| `Pages.Register` | phial/pages.py:37-40 | Either decorator form returns the function. Either form appends exactly one task, `RegisteredTask(reg)`, to the queue. |
| `Pages.BareMatchesDefaultConfigured` | phial/pages.py:12-14 | `page(f)` and `page()(f)` enqueue the same task. |
| `Pages.Replay` | phial/pages.py:33-34 | After n registrations the queue has grown by exactly n tasks. Its earlier entries form an unchanged prefix. |
| `Pages.ReplayInOrder` | phial/pages.py:34 | The k-th registration's task sits at position `old length + k`, so registrations appear in call order. |
| `Pages.ReplayAppend` | phial/pages.py:34 | Two batches of registrations in a row leave the queue exactly as their concatenation does. |

## Left out

- Logging setup (`phial/pages.py:7-8`), a side-effect sink. The export helper `phial.utils.public` (`phial/pages.py:11`) is not part of this model and is assumed to return `page` unchanged.
- Aliasing of `foreach`: the task stores a reference to the caller's list (`phial/pages.py:29,33`), so a later change to that list, or to the shared mutable default `foreach=[]`, is visible when the task runs. The model stores a `Value` snapshot taken at registration.
- The semantics of `phial.pipelines.map`, `cout`, the `|` pipe operator and `PipelineTask`. `phial/pipelines.py` and `phial/tasks.py` are not part of this model. `RunAdapter` returns a description of the pipe (`Piped(source, [MapStage(f), CoutStage])`) and does not evaluate it, so any effect that evaluating the pipeline has on the source or on output is not modelled.
- The third argument of `PipelineTask` is kept as the field `flag` (always `false` here). Its meaning is defined in `phial/pipelines.py`.
- Exceptions raised by a page function, and a configured decorator applied to something that is not callable. The call `function()` is the total parameter `callNoArgs`.
- A callable passed as `foreach=` under configured use. `page` would take it for the page function. `Registration` excludes this case through `WellFormed`, but `Page` itself handles it.
- Draining the queue and running tasks are build-driver code and are not part of this model.
- `setup.py`: packaging metadata, file reads and directory walks.
