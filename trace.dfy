/**
 * The `intermediate_steps` records that every execution mode returns for
 * observability. Timestamps (`time.time()`) are not modelled.
 */
module Trace {

  /** A value stored in a trace record. */
  datatype Datum =
    | DInt(i: int)
    | DStr(s: string)
    | DBool(b: bool)
    | DStrs(ss: seq<string>)
    | DMap(m: map<string, Datum>)

  /**
   * One trace record: its `step` name, its `description`, the contents of
   * its `data` dictionary (empty when the record has none) and any further
   * top-level keys in `extra`.
   */
  datatype TraceStep = TraceStep(step: string, description: string, data: map<string, Datum>, extra: map<string, Datum>)

  function Step(step: string, description: string): TraceStep {
    TraceStep(step, description, map[], map[])
  }

  function DataStep(step: string, description: string, data: map<string, Datum>): TraceStep {
    TraceStep(step, description, data, map[])
  }

  function StepNames(steps: seq<TraceStep>): (names: seq<string>)
    ensures |names| == |steps|
    ensures forall k :: 0 <= k < |steps| ==> names[k] == steps[k].step
  {
    seq(|steps|, k requires 0 <= k < |steps| => steps[k].step)
  }

  /** The names of a trace, record by record. */
  lemma StepNamesAre(steps: seq<TraceStep>, names: seq<string>)
    requires |steps| == |names|
    requires forall k :: 0 <= k < |steps| ==> steps[k].step == names[k]
    ensures StepNames(steps) == names
  {
  }

  /**
   * The numbered records of the stand-alone function-calling script:
   * `{"step": n, "action": ..., "details": ...}`.
   */
  datatype NumberedStep = NumberedStep(step: nat, action: string, details: string)

  function StepNumbers(steps: seq<NumberedStep>): (numbers: seq<nat>)
    ensures |numbers| == |steps|
    ensures forall k :: 0 <= k < |steps| ==> numbers[k] == steps[k].step
  {
    seq(|steps|, k requires 0 <= k < |steps| => steps[k].step)
  }
}
