/** Turning the argument bag of one tool call into a `ThoughtData` record,
    or rejecting it with the message of the first check that fails. */
module Validation {
  import opened Values
  import opened ThoughtRecords

  /** The reasons a call is rejected, one per check, in the order the checks run. */
  datatype ValidationError =
    | ThoughtNotString
    | ThoughtNumberNotInt
    | TotalThoughtsNotInt
    | NextThoughtNeededNotBool
    | ThoughtNumberBelowOne
    | TotalThoughtsBelowOne
    | RevisesThoughtNotPositive
    | BranchFromThoughtNotPositive
  {
    /** The argument the check inspects. */
    function Parameter(): string
    {
      match this
      case ThoughtNotString => "thought"
      case ThoughtNumberNotInt | ThoughtNumberBelowOne => "thought_number"
      case TotalThoughtsNotInt | TotalThoughtsBelowOne => "total_thoughts"
      case NextThoughtNeededNotBool => "next_thought_needed"
      case RevisesThoughtNotPositive => "revises_thought"
      case BranchFromThoughtNotPositive => "branch_from_thought"
    }

    /** A type check, as opposed to a range check. */
    predicate IsTypeCheck()
    {
      this in {ThoughtNotString, ThoughtNumberNotInt, TotalThoughtsNotInt, NextThoughtNeededNotBool}
    }

    /** The text of the `ValueError` the tool raises for this reason: a type
        check reads "Invalid <parameter>: ...", a range check starts with the
        parameter's name. */
    function Message(): (m: string)
      ensures var p := Parameter();
        IsTypeCheck() ==> |m| > 9 + |p| && m[..8] == "Invalid " && m[8..8 + |p|] == p && m[8 + |p|] == ':'
      ensures var p := Parameter();
        !IsTypeCheck() ==> |m| > |p| + 1 && m[..|p|] == p && m[|p|] == ' '
    {
      match this
      case ThoughtNotString => "Invalid " + "thought" + ": must be a string"
      case ThoughtNumberNotInt => "Invalid " + "thought_number" + ": must be a number"
      case TotalThoughtsNotInt => "Invalid " + "total_thoughts" + ": must be a number"
      case NextThoughtNeededNotBool => "Invalid " + "next_thought_needed" + ": must be a boolean"
      case ThoughtNumberBelowOne => "thought_number" + " must be at least 1"
      case TotalThoughtsBelowOne => "total_thoughts" + " must be at least 1"
      case RevisesThoughtNotPositive => "revises_thought" + " must be a positive integer"
      case BranchFromThoughtNotPositive => "branch_from_thought" + " must be a positive integer"
    }
  }

  /** The checks, first to last. */
  const CheckOrder: seq<ValidationError> := [
    ThoughtNotString, ThoughtNumberNotInt, TotalThoughtsNotInt, NextThoughtNeededNotBool,
    ThoughtNumberBelowOne, TotalThoughtsBelowOne,
    RevisesThoughtNotPositive, BranchFromThoughtNotPositive]

  predicate HasStr(a: Args, key: string)
  {
    key in a && a[key].Str?
  }

  predicate HasInt(a: Args, key: string)
  {
    key in a && a[key].Int?
  }

  predicate HasBool(a: Args, key: string)
  {
    key in a && a[key].Bool?
  }

  /** An optional step number counts as supplied only when it is present, not
      `None` and not zero: zero stands for "absent". */
  predicate SuppliedNonZero(a: Args, key: string)
  {
    key in a && a[key] != Null && a[key] != Int(0)
  }

  /** An optional step number: absent (missing, `None` or zero), rejected with
      `e` (any other non-integer or a negative integer), or kept as it is. */
  function OptionalPositive(a: Args, key: string, e: ValidationError): (r: Result<Option<int>, ValidationError>)
    ensures r.Failure? ==> r.error == e
    ensures r.Success? ==> PositiveOrAbsent(r.value)
    ensures r.Success? && r.value.Some? ==> key in a && a[key] == Int(r.value.value)
  {
    if SuppliedNonZero(a, key) then
      if !a[key].Int? || a[key].i < 1 then Failure(e) else Success(Some(a[key].i))
    else
      Success(None)
  }

  /** An optional boolean: `None` when missing or `None`, otherwise Python's `bool` of it. */
  function OptionalBool(a: Args, key: string): (r: Option<bool>)
    ensures r.None? <==> key !in a || a[key] == Null
    ensures r.Some? ==> r.value == Truthy(a[key]) && (a[key].Bool? ==> r.value == a[key].b)
  {
    if key in a && a[key] != Null then Some(Truthy(a[key])) else None
  }

  /** An optional text: `None` when missing or `None`, otherwise Python's `str` of it. */
  function OptionalStr(a: Args, key: string): (r: Option<string>)
    ensures r.None? <==> key !in a || a[key] == Null
    ensures r.Some? ==> r.value == PyStr(a[key]) && (a[key].Str? ==> r.value == a[key].s)
    ensures r.Some? && r.value == "" ==> a[key] == Str("")
  {
    if key in a && a[key] != Null then Some(PyStr(a[key])) else None
  }

  /** The tool's validation of one call's arguments. */
  function Validate(a: Args): (r: Result<ThoughtData, ValidationError>)
    ensures r.Success? ==> WellFormed(r.value)
    ensures r.Success? ==>
      && "thought" in a && "thought_number" in a && "total_thoughts" in a && "next_thought_needed" in a
      && a["thought"] == Str(r.value.thought)
      && a["thought_number"] == Int(r.value.thoughtNumber)
      && a["total_thoughts"] == Int(r.value.totalThoughts)
      && a["next_thought_needed"] == Bool(r.value.nextThoughtNeeded)
  {
    if !HasStr(a, "thought") then Failure(ThoughtNotString)
    else if !HasInt(a, "thought_number") then Failure(ThoughtNumberNotInt)
    else if !HasInt(a, "total_thoughts") then Failure(TotalThoughtsNotInt)
    else if !HasBool(a, "next_thought_needed") then Failure(NextThoughtNeededNotBool)
    else if a["thought_number"].i < 1 then Failure(ThoughtNumberBelowOne)
    else if a["total_thoughts"].i < 1 then Failure(TotalThoughtsBelowOne)
    else
      match OptionalPositive(a, "revises_thought", RevisesThoughtNotPositive)
      case Failure(e) => Failure(e)
      case Success(revises) =>
        match OptionalPositive(a, "branch_from_thought", BranchFromThoughtNotPositive)
        case Failure(e) => Failure(e)
        case Success(branchFrom) =>
          Success(ThoughtData(
            thought := a["thought"].s,
            thoughtNumber := a["thought_number"].i,
            totalThoughts := a["total_thoughts"].i,
            nextThoughtNeeded := a["next_thought_needed"].b,
            isRevision := OptionalBool(a, "is_revision"),
            revisesThought := revises,
            branchFromThought := branchFrom,
            branchId := OptionalStr(a, "branch_id"),
            needsMoreThoughts := OptionalBool(a, "needs_more_thoughts")))
  }

  /** Whether the arguments break the rule behind `e`, judged on its own,
      regardless of the other rules. */
  predicate Violates(e: ValidationError, a: Args)
  {
    match e
    case ThoughtNotString => !HasStr(a, "thought")
    case ThoughtNumberNotInt => !HasInt(a, "thought_number")
    case TotalThoughtsNotInt => !HasInt(a, "total_thoughts")
    case NextThoughtNeededNotBool => !HasBool(a, "next_thought_needed")
    case ThoughtNumberBelowOne => HasInt(a, "thought_number") && a["thought_number"].i < 1
    case TotalThoughtsBelowOne => HasInt(a, "total_thoughts") && a["total_thoughts"].i < 1
    case RevisesThoughtNotPositive =>
      SuppliedNonZero(a, "revises_thought") && !(a["revises_thought"].Int? && a["revises_thought"].i >= 1)
    case BranchFromThoughtNotPositive =>
      SuppliedNonZero(a, "branch_from_thought") && !(a["branch_from_thought"].Int? && a["branch_from_thought"].i >= 1)
  }

  /** No rule before position `i` of the check order is broken. */
  predicate NoneBrokenBefore(a: Args, i: nat)
    requires i <= |CheckOrder|
  {
    forall j :: 0 <= j < i ==> !Violates(CheckOrder[j], a)
  }

  lemma NoneBrokenBeforeNext(a: Args, i: nat)
    requires i < |CheckOrder|
    ensures NoneBrokenBefore(a, i + 1) <==> NoneBrokenBefore(a, i) && !Violates(CheckOrder[i], a)
  {
    if NoneBrokenBefore(a, i) && !Violates(CheckOrder[i], a) {
      forall j | 0 <= j < i + 1 ensures !Violates(CheckOrder[j], a) {
        if j < i {
          assert !Violates(CheckOrder[j], a);
        }
      }
    }
  }

  /** The first rule broken, in check order, decides the error. */
  lemma ValidationOrder(a: Args, i: nat)
    requires i < |CheckOrder|
    ensures Validate(a) == Failure(CheckOrder[i]) <==> NoneBrokenBefore(a, i) && Violates(CheckOrder[i], a)
  {
    UnrollCheckOrder(a);
    if i == 0 {
    } else if i == 1 {
    } else if i == 2 {
    } else if i == 3 {
    } else if i == 4 {
    } else if i == 5 {
    } else if i == 6 {
    } else {
      assert i == 7;
    }
  }

  /** A call that breaks no rule is accepted, and only such a call. */
  lemma ValidationAccepts(a: Args)
    ensures Validate(a).Success? <==> NoneBrokenBefore(a, |CheckOrder|)
  {
    UnrollCheckOrder(a);
  }

  /** `NoneBrokenBefore` spelled out rule by rule. */
  lemma UnrollCheckOrder(a: Args)
    ensures NoneBrokenBefore(a, 0)
    ensures NoneBrokenBefore(a, 1) == !Violates(ThoughtNotString, a)
    ensures NoneBrokenBefore(a, 2) == (NoneBrokenBefore(a, 1) && !Violates(ThoughtNumberNotInt, a))
    ensures NoneBrokenBefore(a, 3) == (NoneBrokenBefore(a, 2) && !Violates(TotalThoughtsNotInt, a))
    ensures NoneBrokenBefore(a, 4) == (NoneBrokenBefore(a, 3) && !Violates(NextThoughtNeededNotBool, a))
    ensures NoneBrokenBefore(a, 5) == (NoneBrokenBefore(a, 4) && !Violates(ThoughtNumberBelowOne, a))
    ensures NoneBrokenBefore(a, 6) == (NoneBrokenBefore(a, 5) && !Violates(TotalThoughtsBelowOne, a))
    ensures NoneBrokenBefore(a, 7) == (NoneBrokenBefore(a, 6) && !Violates(RevisesThoughtNotPositive, a))
    ensures NoneBrokenBefore(a, 8) == (NoneBrokenBefore(a, 7) && !Violates(BranchFromThoughtNotPositive, a))
  {
    assert NoneBrokenBefore(a, 0);
    NoneBrokenBeforeNext(a, 0);
    NoneBrokenBeforeNext(a, 1);
    NoneBrokenBeforeNext(a, 2);
    NoneBrokenBeforeNext(a, 3);
    NoneBrokenBeforeNext(a, 4);
    NoneBrokenBeforeNext(a, 5);
    NoneBrokenBeforeNext(a, 6);
    NoneBrokenBeforeNext(a, 7);
  }

  /** A zero or `None` step number in either optional numeric field is
      treated exactly as the missing field. */
  lemma ZeroAsAbsent(a: Args, key: string)
    requires key == "revises_thought" || key == "branch_from_thought"
    ensures Validate(a[key := Int(0)]) == Validate(a - {key})
    ensures Validate(a[key := Null]) == Validate(a - {key})
  {
    AbsentLike(a, key, Int(0));
    AbsentLike(a, key, Null);
  }

  lemma AbsentLike(a: Args, key: string, v: Value)
    requires key == "revises_thought" || key == "branch_from_thought"
    requires v == Int(0) || v == Null
    ensures Validate(a[key := v]) == Validate(a - {key})
  {
    var given, gone := a[key := v], a - {key};
    assert forall k :: k != key ==> (k in given <==> k in gone);
    assert forall k :: k != key && k in gone ==> given[k] == gone[k];
    assert OptionalPositive(given, "revises_thought", RevisesThoughtNotPositive)
        == OptionalPositive(gone, "revises_thought", RevisesThoughtNotPositive);
    assert OptionalPositive(given, "branch_from_thought", BranchFromThoughtNotPositive)
        == OptionalPositive(gone, "branch_from_thought", BranchFromThoughtNotPositive);
    assert OptionalBool(given, "is_revision") == OptionalBool(gone, "is_revision");
    assert OptionalBool(given, "needs_more_thoughts") == OptionalBool(gone, "needs_more_thoughts");
    assert OptionalStr(given, "branch_id") == OptionalStr(gone, "branch_id");
  }

  /** Optional fields are carried over when supplied and stay absent otherwise:
      `None` is never turned into false or empty text. */
  lemma OptionalFieldsCarried(a: Args)
    requires Validate(a).Success?
    ensures var t := Validate(a).value;
      && (t.isRevision == None <==> "is_revision" !in a || a["is_revision"] == Null)
      && (t.needsMoreThoughts == None <==> "needs_more_thoughts" !in a || a["needs_more_thoughts"] == Null)
      && (t.branchId == None <==> "branch_id" !in a || a["branch_id"] == Null)
      && ("is_revision" in a && a["is_revision"].Bool? ==> t.isRevision == Some(a["is_revision"].b))
      && ("needs_more_thoughts" in a && a["needs_more_thoughts"].Bool? ==> t.needsMoreThoughts == Some(a["needs_more_thoughts"].b))
      && ("branch_id" in a && a["branch_id"].Str? ==> t.branchId == Some(a["branch_id"].s))
      && ("is_revision" in a && a["is_revision"] != Null ==> t.isRevision == Some(Truthy(a["is_revision"])))
      && ("needs_more_thoughts" in a && a["needs_more_thoughts"] != Null ==>
            t.needsMoreThoughts == Some(Truthy(a["needs_more_thoughts"])))
      && ("branch_id" in a && a["branch_id"] != Null ==> t.branchId == Some(PyStr(a["branch_id"])))
  {
  }

  /** A supplied positive step number is kept unchanged; a missing, `None` or
      zero one leaves the field absent. */
  lemma StepReferencesKept(a: Args, key: string)
    requires key == "revises_thought" || key == "branch_from_thought"
    requires Validate(a).Success?
    ensures var t := Validate(a).value;
      var field := if key == "revises_thought" then t.revisesThought else t.branchFromThought;
      && (field == None <==> !SuppliedNonZero(a, key))
      && (field.Some? ==> a[key] == Int(field.value) && field.value >= 1)
  {
  }

  /** The argument bag a caller sends for a record: the four required fields,
      and each optional field only when it is set. */
  function ToArgs(t: ThoughtData): Args
  {
    var required := map[
      "thought" := Str(t.thought),
      "thought_number" := Int(t.thoughtNumber),
      "total_thoughts" := Int(t.totalThoughts),
      "next_thought_needed" := Bool(t.nextThoughtNeeded)];
    var a1 := if t.isRevision.Some? then required["is_revision" := Bool(t.isRevision.value)] else required;
    var a2 := if t.revisesThought.Some? then a1["revises_thought" := Int(t.revisesThought.value)] else a1;
    var a3 := if t.branchFromThought.Some? then a2["branch_from_thought" := Int(t.branchFromThought.value)] else a2;
    var a4 := if t.branchId.Some? then a3["branch_id" := Str(t.branchId.value)] else a3;
    if t.needsMoreThoughts.Some? then a4["needs_more_thoughts" := Bool(t.needsMoreThoughts.value)] else a4
  }

  /** What each parameter name looks up in the argument bag of a record. */
  lemma ToArgsLookups(t: ThoughtData)
    ensures var a := ToArgs(t);
      && HasStr(a, "thought") && a["thought"].s == t.thought
      && HasInt(a, "thought_number") && a["thought_number"].i == t.thoughtNumber
      && HasInt(a, "total_thoughts") && a["total_thoughts"].i == t.totalThoughts
      && HasBool(a, "next_thought_needed") && a["next_thought_needed"].b == t.nextThoughtNeeded
      && OptionalBool(a, "is_revision") == t.isRevision
      && OptionalBool(a, "needs_more_thoughts") == t.needsMoreThoughts
      && OptionalStr(a, "branch_id") == t.branchId
      && ("revises_thought" in a <==> t.revisesThought.Some?)
      && (t.revisesThought.Some? ==> a["revises_thought"] == Int(t.revisesThought.value))
      && ("branch_from_thought" in a <==> t.branchFromThought.Some?)
      && (t.branchFromThought.Some? ==> a["branch_from_thought"] == Int(t.branchFromThought.value))
  {
    RequiredLookups(t);
    OptionalLookups(t);
    StepReferenceLookups(t);
  }

  lemma RequiredLookups(t: ThoughtData)
    ensures var a := ToArgs(t);
      && HasStr(a, "thought") && a["thought"].s == t.thought
      && HasInt(a, "thought_number") && a["thought_number"].i == t.thoughtNumber
      && HasInt(a, "total_thoughts") && a["total_thoughts"].i == t.totalThoughts
      && HasBool(a, "next_thought_needed") && a["next_thought_needed"].b == t.nextThoughtNeeded
  {
  }

  lemma OptionalLookups(t: ThoughtData)
    ensures var a := ToArgs(t);
      && OptionalBool(a, "is_revision") == t.isRevision
      && OptionalBool(a, "needs_more_thoughts") == t.needsMoreThoughts
      && OptionalStr(a, "branch_id") == t.branchId
  {
  }

  lemma StepReferenceLookups(t: ThoughtData)
    ensures var a := ToArgs(t);
      && ("revises_thought" in a <==> t.revisesThought.Some?)
      && (t.revisesThought.Some? ==> a["revises_thought"] == Int(t.revisesThought.value))
      && ("branch_from_thought" in a <==> t.branchFromThought.Some?)
      && (t.branchFromThought.Some? ==> a["branch_from_thought"] == Int(t.branchFromThought.value))
  {
  }

  /** Validation gives back every well-formed record it is sent, and rejects
      a record whose step number or total is below one. */
  lemma ValidateToArgs(t: ThoughtData)
    ensures WellFormed(t) ==> Validate(ToArgs(t)) == Success(t)
    ensures Validate(ToArgs(t)).Success? ==> t.thoughtNumber >= 1 && t.totalThoughts >= 1
  {
    ToArgsLookups(t);
  }
}
