/** The Jaeger trace export and the call-edge table derived from it.
    Timestamps and durations are integer microseconds. */
module Spans {
  import opened OrderedMaps

  /** One `{key, value}` entry of a process's `tags`. */
  datatype Tag = Tag(key: string, value: string)

  /** `processes.<id>.tags` after `json_normalize`: a list for a well-formed
      process, anything else (a missing or non-list field) otherwise. */
  datatype Tags = TagList(tags: seq<Tag>) | NotAList

  datatype Process = Process(serviceName: string, tags: Tags)

  /** One entry of a span's `references`; only `spanID` is read. */
  datatype Reference = Reference(spanId: string)

  datatype Span = Span(
    traceId: string,
    spanId: string,
    operationName: string,
    duration: int,
    processId: string,
    references: seq<Reference>,
    startTime: int)

  /** One element of the export's `data` list. */
  datatype Trace = Trace(traceId: string, spans: seq<Span>, processes: OMap<string, Process>)

  /** One row of the call-edge table (columns trace_id … child_duration). */
  datatype Edge = Edge(
    traceId: string,
    traceTime: int,
    startTime: int,
    endTime: int,
    parentId: string,
    childId: string,
    childOperation: string,
    parentOperation: string,
    childMs: string,
    childPod: string,
    parentMs: string,
    parentPod: string,
    parentDuration: int,
    childDuration: int)
}
