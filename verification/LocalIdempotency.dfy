/** Process-local deduplication: a bounded table of cells, each of which lets its tool run once. */
module LocalIdempotency {
  import opened Messages
  import opened Idempotency

  datatype Cell = Ready | Uncertain | Done(outcome: Outcome)

  datatype Record = Record(input: string, context: Context, cell: Cell)

  const CAPACITY: Code := Other("idempotency_capacity_exceeded")

  /** Refused without running: a bad key, a key of another request, or no room. */
  predicate Refused(outcome: Outcome) {
    outcome.Err? && outcome.error.code in {Some(InvalidKey), Some(IdempotencyConflict), Some(CAPACITY)}
  }

  predicate Matches(record: Record, input: string, context: Context) {
    record.input == input && record.context == context
  }

  class IdempotentTool {
    var records: map<string, Record>
    const capacity: nat
    /** The keys under which the wrapped tool was run, in order. */
    ghost var runs: seq<string>

    constructor (capacity: nat)
      ensures Valid() && records == map[] && this.capacity == capacity && runs == []
    {
      records := map[];
      this.capacity := capacity;
      runs := [];
    }

    /** The table is within its bound, and a cell that is still ready has never let its tool run. */
    ghost predicate Valid()
      reads this
    {
      && |records| <= capacity
      && (forall i, j | 0 <= i < j < |runs| :: runs[i] != runs[j])
      && (forall key | key in runs :: key in records && records[key].cell != Ready)
    }

    /** Whether a keyed call runs its tool: in a new cell if there is room, or in one that never ran. */
    predicate Runs(before: map<string, Record>, key: string, input: string, context: Context) {
      && !IsBlank(key)
      && (if key in before then Matches(before[key], input, context) && before[key].cell == Ready
          else |before| < capacity)
    }

    /** Finds the record of a key, or adds one while there is room. */
    method FindRecord(key: string, input: string, context: Context) returns (failure: Option<ToolError>)
      requires Valid()
      modifies this`records
      ensures Valid()
      ensures failure.None? ==>
        && key in records && records[key].input == input && records[key].context == context
        && records == if key in old(records) then old(records) else old(records)[key := Record(input, context, Ready)]
      ensures failure.Some? ==> records == old(records) && Refused(Err(failure.value))
      ensures failure == if key in old(records)
          then if Matches(old(records)[key], input, context) then None else Some(Coded(IdempotencyConflict))
          else if |old(records)| < capacity then None else Some(Coded(CAPACITY))
    {
      if key in records {
        if records[key].input != input || records[key].context != context { return Some(Coded(IdempotencyConflict)); }
        return None;
      }
      if |records| >= capacity { return Some(Coded(CAPACITY)); }
      records := records[key := Record(input, context, Ready)];
      return None;
    }

    /**
     * One call; None when its future is dropped while the tool runs. The tool runs only in a fresh
     * cell, which it leaves uncertain or done for good.
     */
    method Execute(input: string, context: Context, inner: Outcome, dropped: bool)
      returns (outcome: Option<Outcome>, ran: bool)
      requires Valid()
      modifies this
      ensures Valid() && old(runs) <= runs
      ensures context.key.Absent? ==> ran && runs == old(runs) && records == old(records)
      ensures context.key.Key? ==> (ran <==> Runs(old(records), context.key.text, input, context))
      ensures ran ==> outcome == if dropped then None else Some(inner)
      ensures context.key.Key? && ran ==>
        && runs == old(runs) + [context.key.text] && context.key.text in records
        && records[context.key.text]
           == Record(input, context, if dropped || InDoubt(inner) then Uncertain else Done(inner))
      ensures !ran ==> outcome.Some? && match context.key
        case Key(text) =>
          if IsBlank(text) then outcome.value == Err(Coded(InvalidKey))
          else if text in old(records) && Matches(old(records)[text], input, context) then
            outcome.value == if old(records)[text].cell.Done? then old(records)[text].cell.outcome
                             else Err(Coded(IdempotencyInDoubt))
          else outcome.value == Err(Coded(if text in old(records) then IdempotencyConflict else CAPACITY))
        case _ => outcome.value == Err(Coded(InvalidKey))
      ensures context.key.Key? && !ran ==> runs == old(runs)
      ensures context.key.Key? && outcome.Some? && !Refused(outcome.value) && !InDoubt(outcome.value) ==>
        && context.key.text in records
        && records[context.key.text] == Record(input, context, Done(outcome.value))
      ensures forall key | key in old(records) :: (
        && key in records
        && records[key].input == old(records)[key].input && records[key].context == old(records)[key].context
        && (old(records)[key].cell != Ready ==> records[key] == old(records)[key]))
    {
      if context.key.Absent? { return if dropped then None else Some(inner), true; }
      if !context.key.Key? || IsBlank(context.key.text) { return Some(Err(Coded(InvalidKey))), false; }
      var key := context.key.text;
      var failure := FindRecord(key, input, context);
      if failure.Some? { return Some(Err(failure.value)), false; }
      var record := records[key];
      match record.cell {
        case Done(result) => return Some(result), false;
        case Uncertain => return Some(Err(Coded(IdempotencyInDoubt))), false;
        case Ready =>
      }
      records := records[key := record.(cell := Uncertain)];
      runs := runs + [key];
      if dropped { return None, true; }
      if InDoubt(inner) { return Some(inner), true; }
      records := records[key := record.(cell := Done(inner))];
      return Some(inner), true;
    }
  }
}
