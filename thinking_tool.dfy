/** The thought ledger of the sequential-thinking tool: an append-only history
    of accepted steps and, as a secondary index, the steps filed under each
    named branch. `Submit` is the specification of one tool call on the
    ledger's value; `SequentialThinkingTool.Execute` performs it in place. */
module ThinkingTool {
  import opened Values
  import opened ThoughtRecords
  import opened Validation

  /** What a successful call reports. */
  datatype Status = Status(
    thoughtNumber: int,
    totalThoughts: int,
    nextThoughtNeeded: bool,
    branches: seq<string>,
    thoughtHistoryLength: nat)

  /** The tool's answer: the status, or the validation message with error code -1. */
  datatype ExecResult = Completed(status: Status) | Failed(error: string, errorCode: int)

  const ErrorCode: int := -1

  /** The ledger's state. `branchKeys` lists the keys of `branches` in the
      order they were first inserted, as Python's dict keeps them. */
  datatype Ledger = Ledger(
    history: seq<ThoughtData>,
    branches: map<string, seq<ThoughtData>>,
    branchKeys: seq<string>)

  const EmptyLedger: Ledger := Ledger([], map[], [])

  /** A step is filed under a branch when it names a branch point and a
      non-empty branch identifier. */
  predicate Files(t: ThoughtData)
  {
    && NamesBranchPoint(t)
    && t.branchId.Some? && t.branchId.value != ""
  }

  /** Stores an accepted, corrected step: appended to the history and, when
      it is filed, to its branch, which is created empty first when new; the
      other branches and the earlier keys stay as they were. */
  function Record(l: Ledger, t: ThoughtData): (r: Ledger)
    ensures |r.history| == |l.history| + 1 && r.history[..|l.history|] == l.history && r.history[|l.history|] == t
    ensures forall k :: k in l.branches && !(Files(t) && k == t.branchId.value) ==>
      k in r.branches && r.branches[k] == l.branches[k]
    ensures Files(t) ==>
      && t.branchId.value in r.branches
      && r.branches[t.branchId.value] == (if t.branchId.value in l.branches then l.branches[t.branchId.value] else []) + [t]
    ensures r.branches.Keys == l.branches.Keys + (if Files(t) then {t.branchId.value} else {})
    ensures r.branchKeys == l.branchKeys + (if Files(t) && t.branchId.value !in l.branches then [t.branchId.value] else [])
  {
    var history := l.history + [t];
    if Files(t) then
      var id := t.branchId.value;
      var known := id in l.branches;
      var filed := (if known then l.branches[id] else []) + [t];
      Ledger(history, l.branches[id := filed], if known then l.branchKeys else l.branchKeys + [id])
    else
      Ledger(history, l.branches, l.branchKeys)
  }

  /** One tool call: validate, and only then correct, record and report.
      A rejected call leaves the ledger as it was. */
  function Submit(l: Ledger, a: Args): (out: (Ledger, ExecResult))
    ensures out.1.Failed? <==> Validate(a).Failure?
    ensures out.1.Failed? ==> out.0 == l && out.1 == Failed(Validate(a).error.Message(), -1)
    ensures out.1.Completed? ==> |out.0.history| == |l.history| + 1 == out.1.status.thoughtHistoryLength
  {
    match Validate(a)
    case Failure(e) => (l, Failed(e.Message(), ErrorCode))
    case Success(v) =>
      var t := Corrected(v);
      var l' := Record(l, t);
      (l', Completed(Status(t.thoughtNumber, t.totalThoughts, t.nextThoughtNeeded, l'.branchKeys, |l'.history|)))
  }

  /** The records of `h` filed under branch `k`, in history order. */
  function FiledUnder(h: seq<ThoughtData>, k: string): seq<ThoughtData>
  {
    if h == [] then []
    else FiledUnder(h[..|h| - 1], k) + (if Files(h[|h| - 1]) && h[|h| - 1].branchId.value == k then [h[|h| - 1]] else [])
  }

  /** The branch identifiers of `h` in order of first appearance. */
  function BranchNames(h: seq<ThoughtData>): seq<string>
  {
    if h == [] then []
    else
      var names := BranchNames(h[..|h| - 1]);
      var t := h[|h| - 1];
      if Files(t) && t.branchId.value !in names then names + [t.branchId.value] else names
  }

  /** Every stored step is well-formed and its total is at least its number. */
  predicate Stored(t: ThoughtData)
  {
    WellFormed(t) && t.totalThoughts >= t.thoughtNumber
  }

  /** The ledger's invariant: the branch index is exactly what the history
      determines, and every stored step was corrected. */
  ghost predicate Consistent(l: Ledger)
  {
    && l.branchKeys == BranchNames(l.history)
    && (forall k :: k in l.branches <==> k in l.branchKeys)
    && (forall k :: k in l.branches ==> l.branches[k] == FiledUnder(l.history, k))
    && (forall i :: 0 <= i < |l.history| ==> Stored(l.history[i]))
  }

  lemma {:induction false} NotNamedNotFiled(h: seq<ThoughtData>, k: string)
    ensures k in BranchNames(h) <==> FiledUnder(h, k) != []
    decreases |h|
  {
    if h != [] {
      var init := h[..|h| - 1];
      NotNamedNotFiled(init, k);
    }
  }

  /** Branch names are listed once each. */
  lemma {:induction false} BranchNamesDistinct(h: seq<ThoughtData>)
    ensures forall i, j :: 0 <= i < j < |BranchNames(h)| ==> BranchNames(h)[i] != BranchNames(h)[j]
    decreases |h|
  {
    if h != [] {
      BranchNamesDistinct(h[..|h| - 1]);
    }
  }

  lemma EmptyConsistent()
    ensures Consistent(EmptyLedger)
  {
  }

  /** Recording a stored step keeps the invariant. */
  lemma RecordPreservesConsistent(l: Ledger, t: ThoughtData)
    requires Consistent(l) && Stored(t)
    ensures Consistent(Record(l, t))
  {
    var l' := Record(l, t);
    var h := l.history;
    assert l'.history[..|l'.history| - 1] == h;
    if Files(t) {
      var id := t.branchId.value;
      NotNamedNotFiled(h, id);
    }
    forall k | k in l'.branches ensures l'.branches[k] == FiledUnder(l'.history, k) {
      NotNamedNotFiled(h, k);
    }
  }

  /** Every call keeps the invariant. */
  lemma SubmitPreservesConsistent(l: Ledger, a: Args)
    requires Consistent(l)
    ensures Consistent(Submit(l, a).0)
  {
    if Validate(a).Success? {
      RecordPreservesConsistent(l, Corrected(Validate(a).value));
    }
  }

  /** A step filed under a branch is also in the history, so the branches
      never hold a step the history lacks. */
  lemma BranchesIndexHistory(l: Ledger, k: string, t: ThoughtData)
    requires Consistent(l)
    requires k in l.branches && t in l.branches[k]
    ensures t in l.history && Files(t) && t.branchId == Some(k)
  {
    FiledUnderInHistory(l.history, k, t);
  }

  lemma {:induction false} FiledUnderInHistory(h: seq<ThoughtData>, k: string, t: ThoughtData)
    requires t in FiledUnder(h, k)
    ensures t in h && Files(t) && t.branchId == Some(k)
    decreases |h|
  {
    var init := h[..|h| - 1];
    if t in FiledUnder(init, k) {
      FiledUnderInHistory(init, k, t);
      assert init[..] <= h;
    }
  }

  /** An accepted call reports the step number and the continuation flag as
      supplied, and the total raised to the step number when it was lower. */
  lemma TotalCorrection(l: Ledger, a: Args)
    requires Validate(a).Success?
    ensures var s := Submit(l, a).1.status;
      && Submit(l, a).1.Completed?
      && s.thoughtNumber == a["thought_number"].i
      && s.nextThoughtNeeded == a["next_thought_needed"].b
      && s.totalThoughts == (if a["thought_number"].i > a["total_thoughts"].i
                             then a["thought_number"].i else a["total_thoughts"].i)
  {
  }

  /** An accepted call appends exactly its corrected record to the history,
      leaving the earlier entries in place, and reports the new length. */
  lemma HistoryAppend(l: Ledger, a: Args)
    requires Validate(a).Success?
    ensures var (l', r) := Submit(l, a);
      && l'.history == l.history + [Corrected(Validate(a).value)]
      && l'.history[..|l.history|] == l.history
      && r.status.thoughtHistoryLength == |l'.history|
  {
    var (l', r) := Submit(l, a);
    assert l'.history[..|l.history|] == l.history;
  }

  /** An accepted call files its record under its branch exactly when it names
      a nonzero branch point and a non-empty branch identifier; a new branch
      starts empty and its key goes last; every other branch is unchanged, and
      the reported branches are the keys in insertion order. */
  lemma BranchFiling(l: Ledger, a: Args)
    requires Validate(a).Success?
    ensures var (l', r) := Submit(l, a);
      var t := Corrected(Validate(a).value);
      && r.status.branches == l'.branchKeys
      && (Files(t) <==>
           && "branch_from_thought" in a && a["branch_from_thought"].Int? && a["branch_from_thought"].i >= 1
           && "branch_id" in a && a["branch_id"] != Null && PyStr(a["branch_id"]) != "")
      && (Files(t) ==>
           var id := PyStr(a["branch_id"]);
           && t.branchId == Some(id)
           && l'.branches == l.branches[id := (if id in l.branches then l.branches[id] else []) + [t]]
           && l'.branchKeys == (if id in l.branches then l.branchKeys else l.branchKeys + [id]))
      && (!Files(t) ==> l'.branches == l.branches && l'.branchKeys == l.branchKeys)
  {
  }

  /** The ledger after a sequence of calls. */
  function Run(l: Ledger, calls: seq<Args>): Ledger
    decreases |calls|
  {
    if calls == [] then l else Run(Submit(l, calls[0]).0, calls[1..])
  }

  /** The corrected records of the accepted calls, in call order. */
  function Accepted(calls: seq<Args>): seq<ThoughtData>
    decreases |calls|
  {
    if calls == [] then []
    else
      (match Validate(calls[0])
       case Success(v) => [Corrected(v)]
       case Failure(_) => [])
      + Accepted(calls[1..])
  }

  /** The history grows by the accepted calls' records, in call order, and
      by nothing else. */
  lemma {:induction false} RunAppendsAccepted(l: Ledger, calls: seq<Args>)
    ensures Run(l, calls).history == l.history + Accepted(calls)
    decreases |calls|
  {
    if calls != [] {
      var l1 := Submit(l, calls[0]).0;
      assert Run(l, calls) == Run(l1, calls[1..]);
      SubmitHistory(l, calls[0]);
      AcceptedFirst(calls);
      RunAppendsAccepted(l1, calls[1..]);
      assert l.history + Accepted([calls[0]]) + Accepted(calls[1..]) == l.history + Accepted(calls);
    }
  }

  lemma AcceptedFirst(calls: seq<Args>)
    requires calls != []
    ensures Accepted(calls) == Accepted([calls[0]]) + Accepted(calls[1..])
  {
    assert [calls[0]][1..] == [];
  }

  /** One call appends its accepted record, if any, to the history. */
  lemma SubmitHistory(l: Ledger, a: Args)
    ensures Submit(l, a).0.history == l.history + Accepted([a])
  {
    assert [a][1..] == [];
  }

  /** After calls that are all accepted, the history holds exactly one record per call. */
  lemma {:induction false} HistoryLengthAfterAcceptedCalls(calls: seq<Args>)
    requires forall i :: 0 <= i < |calls| ==> Validate(calls[i]).Success?
    ensures |Run(EmptyLedger, calls).history| == |calls|
  {
    RunAppendsAccepted(EmptyLedger, calls);
    AcceptedAll(calls);
  }

  lemma {:induction false} AcceptedAll(calls: seq<Args>)
    requires forall i :: 0 <= i < |calls| ==> Validate(calls[i]).Success?
    ensures |Accepted(calls)| == |calls|
    decreases |calls|
  {
    if calls != [] {
      AcceptedAll(calls[1..]);
    }
  }

  /** From any consistent ledger, the invariant holds after any sequence of calls. */
  lemma {:induction false} RunConsistent(l: Ledger, calls: seq<Args>)
    requires Consistent(l)
    ensures Consistent(Run(l, calls))
    decreases |calls|
  {
    if calls != [] {
      SubmitPreservesConsistent(l, calls[0]);
      RunConsistent(Submit(l, calls[0]).0, calls[1..]);
    }
  }

  /** Worked examples of single calls. */
  lemma FirstStepScenario()
    ensures Submit(EmptyLedger, map[
      "thought" := Str("start"), "thought_number" := Int(1),
      "total_thoughts" := Int(3), "next_thought_needed" := Bool(true)]).1
      == Completed(Status(1, 3, true, [], 1))
  {
  }

  lemma CorrectedTotalScenario(l: Ledger)
    ensures Submit(l, map[
      "thought" := Str("deep dive"), "thought_number" := Int(5),
      "total_thoughts" := Int(3), "next_thought_needed" := Bool(true)]).1
      == Completed(Status(5, 5, true, l.branchKeys, |l.history| + 1))
  {
  }

  lemma ForkScenario()
    ensures var (l, r) := Submit(EmptyLedger, map[
      "thought" := Str("fork"), "thought_number" := Int(2),
      "total_thoughts" := Int(3), "next_thought_needed" := Bool(true),
      "branch_from_thought" := Int(1), "branch_id" := Str("alt")]);
      && r.Completed? && r.status.branches == ["alt"]
      && l.branches.Keys == {"alt"} && l.branches["alt"] == l.history
  {
  }

  /** The empty thought passes its own check; the zero step number is what is reported. */
  lemma ZeroStepNumberScenario(l: Ledger)
    ensures Submit(l, map[
      "thought" := Str(""), "thought_number" := Int(0),
      "total_thoughts" := Int(3), "next_thought_needed" := Bool(true)])
      == (l, Failed("thought_number must be at least 1", -1))
  {
    var a := map[
      "thought" := Str(""), "thought_number" := Int(0),
      "total_thoughts" := Int(3), "next_thought_needed" := Bool(true)];
    assert HasStr(a, "thought") && HasInt(a, "thought_number") && HasInt(a, "total_thoughts");
    assert HasBool(a, "next_thought_needed") && a["thought_number"].i < 1;
    assert Validate(a) == Failure(ThoughtNumberBelowOne);
    assert ThoughtNumberBelowOne.Message() == "thought_number must be at least 1";
  }

  lemma RevisesZeroScenario()
    ensures var (l, r) := Submit(EmptyLedger, map[
      "thought" := Str("x"), "thought_number" := Int(1),
      "total_thoughts" := Int(1), "next_thought_needed" := Bool(true),
      "revises_thought" := Int(0)]);
      r.Completed? && l.history[0].revisesThought == None
  {
  }

  /** The tool object: its history and branch index live in fields that each
      call updates in place. */
  class SequentialThinkingTool {
    var thoughtHistory: seq<ThoughtData>
    var branches: map<string, seq<ThoughtData>>
    var branchKeys: seq<string>

    function Snapshot(): Ledger
      reads this
    {
      Ledger(thoughtHistory, branches, branchKeys)
    }

    ghost predicate Valid()
      reads this
    {
      Consistent(Snapshot())
    }

    /** A new tool starts with an empty history and no branches. */
    constructor ()
      ensures Valid()
      ensures thoughtHistory == [] && branches == map[] && branchKeys == []
    {
      thoughtHistory := [];
      branches := map[];
      branchKeys := [];
    }

    /** One tool call. */
    method Execute(arguments: Args) returns (r: ExecResult)
      requires Valid()
      modifies this
      ensures Valid()
      ensures (Snapshot(), r) == Submit(old(Snapshot()), arguments)
      ensures r.Failed? <==> Validate(arguments).Failure?
      ensures r.Failed? ==> r.errorCode == -1 && Snapshot() == old(Snapshot())
      ensures r.Completed? ==> thoughtHistory == old(thoughtHistory) + [Corrected(Validate(arguments).value)]
    {
      ghost var before := Snapshot();
      var validated := Validate(arguments);
      if validated.Failure? {
        return Failed(validated.error.Message(), ErrorCode);
      }
      var t := validated.value;
      ghost var corrected := Corrected(t);
      if t.thoughtNumber > t.totalThoughts {
        t := t.(totalThoughts := t.thoughtNumber);
      }
      assert t == corrected;
      Store(t);
      r := Completed(Status(t.thoughtNumber, t.totalThoughts, t.nextThoughtNeeded, branchKeys, |thoughtHistory|));
      SubmitPreservesConsistent(before, arguments);
    }

    /** Appends a corrected step to the history and, when it is filed, to its
        branch, creating the branch empty and appending its key to `branchKeys` if new. */
    method Store(t: ThoughtData)
      modifies this
      ensures Snapshot() == Record(old(Snapshot()), t)
    {
      thoughtHistory := thoughtHistory + [t];
      if Files(t) {
        var id := t.branchId.value;
        if id !in branches {
          branches := branches[id := []];
          branchKeys := branchKeys + [id];
        }
        branches := branches[id := branches[id] + [t]];
      }
    }
  }
}
