/** The parts of the pipeline infrastructure that the page decorator uses:
    the source container, stage descriptions and the pipeline task record.
    Only their interfaces are modelled. */
module Pipelines {
  import opened Values

  /** The container threaded through pipeline stages; its `contents` list is
      reassigned in place. */
  class Source {
    var contents: seq<Value>

    constructor (contents: seq<Value>)
      ensures this.contents == contents
    {
      this.contents := contents;
    }
  }

  /** A pipeline stage, as a description: `map(fn)` or the terminal `cout()`. */
  datatype Stage = MapStage(fn: Value) | CoutStage

  /** The closure `page_to_pipeline_adapter`: the only thing it captures is the
      page function. */
  datatype Adapter = PageToPipelineAdapter(pageFn: Value)

  /** `PipelineTask(adapter, foreach, flag)`. */
  datatype Task = PipelineTask(adapter: Adapter, foreach: Value, flag: bool)
}
