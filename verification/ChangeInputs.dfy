/** Which change requests are planned and what each input becomes, said of the inputs and
    the snapshot alone: kind by kind, field by field. */
module ChangeInputs {
  import opened Basics
  import opened Change
  import opened ChangePlanning

  // ----- One input -----

  /** The input's expected hash is that of the file the snapshot has at its path. */
  predicate Confirms(source: Files, input: Input)
    requires input.path.Normal?
  {
    var path := input.path.path;
    path in source && source[path].present && source[path].hash == input.expected && input.expected != NoHash
  }

  predicate Free(source: Files, path: Path) {
    path in source ==> !source[path].present
  }

  /** The inputs the snapshot admits, kind by kind. */
  predicate Admits(source: Files, input: Input) {
    && input.path.Normal? && input.kind.Some?
    && (input.kind == Some(Create) ==> Free(source, input.path.path) && |input.content| > 0)
    && (input.kind == Some(Replace) ==> Confirms(source, input) && |input.content| > 0)
    && (input.kind == Some(Delete) ==> Confirms(source, input))
    && (input.kind == Some(Rename) ==>
          && Confirms(source, input) && input.destination.Normal?
          && input.destination != input.path && Free(source, input.destination.path))
    && (input.kind == Some(Chmod) ==> Confirms(source, input) && input.newMode != 0)
  }

  /** The operation carries what the input asks for. */
  predicate Asks(index: nat, input: Input, op: Operation) {
    && input.path == Normal(op.path) && input.kind == Some(op.kind)
    && (op.destination.Some? <==> op.kind == Rename)
    && (op.kind == Rename ==> input.destination == Normal(op.destination.value))
    && op.expected == input.expected
    && (if input.id != "" then op.id == input.id else op.id == DefaultId(index + 1))
    && (if input.ordinal != 0 then op.ordinal == input.ordinal else op.ordinal == index + 1)
  }

  /** What the operation leaves at its path, or at its destination: content and mode. */
  predicate Leaves(source: Files, input: Input, op: Operation) {
    && (op.kind == Create || op.kind == Replace ==> op.newHash == HashOf(input.content) && op.newSize == |input.content|)
    && (op.kind == Delete ==> op.newHash == NoHash && op.newSize == 0)
    && (op.kind == Rename || op.kind == Chmod ==>
          op.path in source && op.newHash == source[op.path].hash && op.newSize == source[op.path].size)
    && (op.kind == Create ==> if input.newMode != 0 then op.newMode == input.newMode else op.newMode == 0x1A4)
    && (op.kind == Replace ==>
          if input.newMode != 0 then op.newMode == input.newMode
          else op.path in source && op.newMode == source[op.path].mode)
    && (op.kind == Rename ==> op.path in source && op.newMode == source[op.path].mode)
    && (op.kind == Chmod || op.kind == Delete ==> op.newMode == input.newMode)
  }

  /** An input is accepted exactly when the snapshot admits it, and becomes the one operation
      that carries what it asks for. */
  lemma InputBecomesItsOperation(source: Files, index: nat, input: Input, op: Operation)
    ensures Alone(source, index, input) == Ok(op) <==>
              Admits(source, input) && Asks(index, input, op) && Leaves(source, input, op)
  {
    hide DefaultId;
    if Admits(source, input) && Asks(index, input, op) && Leaves(source, input, op) {
      if op.kind == Rename { assert op.destination == Some(input.destination.path); }
      var r := Alone(source, index, input);
      assert r.Ok? && r.value.kind == op.kind;
      assert r.value.destination == op.destination;
    }
  }

  /** The id given to the n-th operation ends in its number, padded to three digits. */
  function NumberOf(digits: string): int {
    if digits == "" then 0
    else 10 * NumberOf(digits[..|digits| - 1]) + (digits[|digits| - 1] as int - '0' as int)
  }

  lemma {:induction false} DigitsSpellTheNumber(n: nat)
    ensures NumberOf(Digits(n)) == n
    ensures |Digits(n)| == 1 <==> n < 10
    ensures |Digits(n)| == 2 <==> 10 <= n < 100
    ensures |Digits(n)| >= 1
  {
    if n < 10 {
      assert Digits(n)[..0] == "";
    } else {
      DigitsSpellTheNumber(n / 10);
      assert Digits(n)[..|Digits(n)| - 1] == Digits(n / 10);
    }
  }

  lemma {:induction false} ZerosCountNothing(zeros: nat, digits: string)
    ensures NumberOf(Zeros(zeros) + digits) == NumberOf(digits)
  {
    if digits == "" {
      assert Zeros(zeros) + digits == Zeros(zeros);
      if zeros > 0 {
        assert Zeros(zeros)[..zeros - 1] == Zeros(zeros - 1);
        ZerosCountNothing(zeros - 1, digits);
        assert Zeros(zeros - 1) + digits == Zeros(zeros - 1);
      }
    } else {
      var padded := Zeros(zeros) + digits;
      assert padded[..|padded| - 1] == Zeros(zeros) + digits[..|digits| - 1];
      ZerosCountNothing(zeros, digits[..|digits| - 1]);
    }
  }

  function Zeros(n: nat): (s: string)
    ensures |s| == n
  {
    seq(n, i => '0')
  }

  lemma DefaultIdsSpellTheirNumber(n: nat)
    ensures "op-" <= DefaultId(n) && |DefaultId(n)| >= 6
    ensures NumberOf(DefaultId(n)[3..]) == n
  {
    var zeros := if n < 10 then 2 else if n < 100 then 1 else 0;
    DigitsSpellTheNumber(n);
    ZerosCountNothing(zeros, Digits(n));
    assert Zeros(2) == "00" && Zeros(1) == "0" && Zeros(0) == "";
    assert DefaultId(n)[3..] == Zeros(zeros) + Digits(n);
  }

  /** Default ids never clash. */
  lemma DefaultIdsAreDistinct(m: nat, n: nat)
    requires DefaultId(m) == DefaultId(n)
    ensures m == n
  {
    DefaultIdsSpellTheirNumber(m);
    DefaultIdsSpellTheirNumber(n);
  }

  // ----- Whole requests -----

  /** The paths an input names for its kind. */
  function Touches(input: Input): set<RawPath> {
    {input.path} + if input.kind == Some(Rename) then {input.destination} else {}
  }

  /** The bytes an input counts against the request's budgets: what it writes, or keeps. */
  function Weight(source: Files, input: Input): nat {
    match input.kind
    case None => 0
    case Some(Create) => |input.content|
    case Some(Replace) => |input.content|
    case Some(Delete) => 0
    case Some(Rename) => if input.path.Normal? && input.path.path in source then source[input.path.path].size else 0
    case Some(Chmod) => if input.path.Normal? && input.path.path in source then source[input.path.path].size else 0
  }

  function TotalWeight(source: Files, inputs: seq<Input>): nat {
    if inputs == [] then 0 else TotalWeight(source, inputs[..|inputs| - 1]) + Weight(source, inputs[|inputs| - 1])
  }

  /** A request within its limits whose inputs are admitted one by one, clash nowhere, and fit the budgets. */
  ghost predicate Plannable(source: Files, budgets: Budgets, inputs: seq<Input>) {
    && 0 < |inputs| <= 128 && |inputs| <= budgets.maxOperations
    && (forall i :: 0 <= i < |inputs| ==> Admits(source, inputs[i]) && Weight(source, inputs[i]) <= budgets.maxFileBytes)
    && (forall i, j :: 0 <= i < j < |inputs| ==> Touches(inputs[i]) !! Touches(inputs[j]))
    && TotalWeight(source, inputs) <= budgets.maxTotalBytes
  }

  ghost predicate BecomesEach(source: Files, inputs: seq<Input>, ops: seq<Operation>) {
    && |ops| == |inputs|
    && forall i :: 0 <= i < |ops| ==> Asks(i, inputs[i], ops[i]) && Leaves(source, inputs[i], ops[i])
  }

  lemma OperationTouchesItsInput(source: Files, index: nat, input: Input, op: Operation)
    requires Admits(source, input) && Asks(index, input, op) && Leaves(source, input, op)
    ensures Touches(input) == set p | p in Footprint(op) :: Normal(p)
    ensures Weight(source, input) == op.newSize
  {
    hide DefaultId;
    assert op.path in Footprint(op);
    if op.kind == Rename {
      assert Footprint(op) == {op.path, op.destination.value};
      assert op.destination.value in Footprint(op);
    }
  }

  lemma {:induction false} WeightsAreSizes(source: Files, inputs: seq<Input>, ops: seq<Operation>)
    requires |ops| == |inputs| && forall i :: 0 <= i < |ops| ==> Weight(source, inputs[i]) == ops[i].newSize
    ensures TotalWeight(source, inputs) == TotalBytes(ops)
  {
    hide Weight;
    if ops != [] { WeightsAreSizes(source, inputs[..|ops| - 1], ops[..|ops| - 1]); }
  }

  lemma ClashesAgree(a: set<Path>, b: set<Path>)
    ensures (set p | p in a :: Normal(p)) !! (set p | p in b :: Normal(p)) <==> a !! b
  {
    var x, y := set p | p in a :: Normal(p), set p | p in b :: Normal(p);
    if p :| p in a && p in b { assert Normal(p) in x && Normal(p) in y; }
  }

  lemma AcceptableIsPlannable(source: Files, budgets: Budgets, inputs: seq<Input>, ops: seq<Operation>)
    requires BecomesEach(source, inputs, ops) && forall i :: 0 <= i < |inputs| ==> Admits(source, inputs[i])
    ensures Acceptable(source, budgets, inputs, ops) <==>
      && (forall i :: 0 <= i < |inputs| ==> Weight(source, inputs[i]) <= budgets.maxFileBytes)
      && (forall i, j :: 0 <= i < j < |inputs| ==> Touches(inputs[i]) !! Touches(inputs[j]))
      && TotalWeight(source, inputs) <= budgets.maxTotalBytes
  {
    hide Admits, Asks, Leaves, Weight, Touches, Footprint, Alone;
    forall i | 0 <= i < |inputs|
      ensures Alone(source, i, inputs[i]) == Ok(ops[i])
      ensures Touches(inputs[i]) == (set p | p in Footprint(ops[i]) :: Normal(p))
      ensures Weight(source, inputs[i]) == ops[i].newSize
    {
      InputBecomesItsOperation(source, i, inputs[i], ops[i]);
      OperationTouchesItsInput(source, i, inputs[i], ops[i]);
    }
    WeightsAreSizes(source, inputs, ops);
    forall i, j | 0 <= i < j < |inputs|
      ensures Touches(inputs[i]) !! Touches(inputs[j]) <==> Footprint(ops[i]) !! Footprint(ops[j])
    {
      ClashesAgree(Footprint(ops[i]), Footprint(ops[j]));
    }
  }

  /** A request is planned, as these operations, exactly when it is plannable and each
      operation carries what its own input asks for. */
  lemma PlanGivesEachInputItsOperation(source: Files, budgets: Budgets, inputs: seq<Input>, ops: seq<Operation>)
    ensures var plan := Plan(source, budgets, inputs);
            (plan.Ok? && plan.value.packet.ops == ops) <==>
            Plannable(source, budgets, inputs) && BecomesEach(source, inputs, ops)
  {
    hide Plan, Admits, Asks, Leaves, Weight, Touches, Alone, TotalWeight, TotalBytes, Disjoint;
    PlanAcceptsExactly(source, budgets, inputs, ops);
    if Acceptable(source, budgets, inputs, ops) {
      forall i | 0 <= i < |inputs| ensures Admits(source, inputs[i]) && Asks(i, inputs[i], ops[i]) && Leaves(source, inputs[i], ops[i]) {
        assert Answers(source, budgets, i, inputs[i], ops[i]);
        InputBecomesItsOperation(source, i, inputs[i], ops[i]);
      }
    }
    if BecomesEach(source, inputs, ops) && forall i :: 0 <= i < |inputs| ==> Admits(source, inputs[i]) {
      AcceptableIsPlannable(source, budgets, inputs, ops);
    }
  }

  /** Whether a request is planned is decided by its inputs and the snapshot alone. */
  lemma RequestsArePlannedExactly(source: Files, budgets: Budgets, inputs: seq<Input>)
    ensures Plan(source, budgets, inputs).Ok? <==> Plannable(source, budgets, inputs)
  {
    hide Plan, Admits, Asks, Leaves, Weight, Touches, Alone, TotalWeight;
    var plan := Plan(source, budgets, inputs);
    if plan.Ok? { PlanGivesEachInputItsOperation(source, budgets, inputs, plan.value.packet.ops); }
    if Plannable(source, budgets, inputs) {
      forall i | 0 <= i < |inputs| ensures exists op :: Asks(i, inputs[i], op) && Leaves(source, inputs[i], op) {
        var op := AdmittedInputHasAnOperation(source, i, inputs[i]);
      }
      var ops := seq(|inputs|, i requires 0 <= i < |inputs| =>
        var op :| Asks(i, inputs[i], op) && Leaves(source, inputs[i], op); op);
      PlanGivesEachInputItsOperation(source, budgets, inputs, ops);
    }
  }

  lemma AdmittedInputHasAnOperation(source: Files, index: nat, input: Input) returns (op: Operation)
    requires Admits(source, input)
    ensures Asks(index, input, op) && Leaves(source, input, op)
  {
    hide DefaultId;
    assert Alone(source, index, input).Ok?;
    op := Alone(source, index, input).value;
    InputBecomesItsOperation(source, index, input, op);
  }
}
