/** The record of one thinking step and the upward correction of its total
    estimate that the tool applies before storing it. */
module ThoughtRecords {
  import opened Values

  /** One validated thinking step. Optional fields are `None` when the caller
      did not supply them; they are never defaulted to false or empty. */
  datatype ThoughtData = ThoughtData(
    thought: string,
    thoughtNumber: int,
    totalThoughts: int,
    nextThoughtNeeded: bool,
    isRevision: Option<bool>,
    revisesThought: Option<int>,
    branchFromThought: Option<int>,
    branchId: Option<string>,
    needsMoreThoughts: Option<bool>)

  predicate PositiveOrAbsent(o: Option<int>)
  {
    o.Some? ==> o.value >= 1
  }

  /** Python truthiness of the optional branch point: set and nonzero. */
  predicate NamesBranchPoint(t: ThoughtData)
  {
    t.branchFromThought.Some? && t.branchFromThought.value != 0
  }

  /** What validation guarantees of every record it produces. */
  predicate WellFormed(t: ThoughtData)
  {
    && t.thoughtNumber >= 1
    && t.totalThoughts >= 1
    && PositiveOrAbsent(t.revisesThought)
    && PositiveOrAbsent(t.branchFromThought)
  }

  /** The step as it is stored: the total estimate is raised to the step's
      own number when the number exceeds it, and nothing else changes. */
  function Corrected(t: ThoughtData): (c: ThoughtData)
    ensures c == t.(totalThoughts := c.totalThoughts)
    ensures c.totalThoughts >= t.totalThoughts && c.totalThoughts >= t.thoughtNumber
    ensures c.totalThoughts == t.totalThoughts || c.totalThoughts == t.thoughtNumber
    ensures WellFormed(t) ==> WellFormed(c)
  {
    if t.thoughtNumber > t.totalThoughts then t.(totalThoughts := t.thoughtNumber) else t
  }
}
