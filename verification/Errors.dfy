/**
 * Errors of an execution, the objects `%last_error%` and `:error:` show to a
 * script, and the two descriptors that keep them.
 */
module Errors {
  import opened Wrappers
  import opened Json

  datatype ErrorObjectError =
    | ScalarMustBeObject(value: JValue)
    | ScalarMustContainField(value: JValue, field: string)
    | ScalarFieldIsWrongType(value: JValue, field: string, expected: string)
    | ErrorCodeMustBeNonZero

  datatype CatchableError =
    | LocalServiceError(code: int, message: string)
    | MatchValuesNotEqual
    | MismatchValuesEqual
    | VariableNotFound(name: string)
    | FoldIteratesOverNonArray(value: JValue, expression: string)
    | UserError(error: JValue)
    | InvalidErrorObject(reason: ErrorObjectError)
    | VariableWasNotInitializedAfterNew(name: string)
    | UnsupportedMapKeyType(mapName: string)
  {
    predicate IsJoinable() {
      VariableNotFound?
    }

    predicate AffectsLastError() {
      !MatchValuesNotEqual? && !MismatchValuesEqual?
    }

    /** The first code of catchable errors plus the position of the variant in the source's enumeration. */
    function Code(): int {
      10000 + match this
      case LocalServiceError(_, _) => 0
      case MatchValuesNotEqual => 1
      case MismatchValuesEqual => 2
      case VariableNotFound(_) => 3
      case FoldIteratesOverNonArray(_, _) => 5
      case UserError(_) => 6
      case InvalidErrorObject(_) => 8
      case VariableWasNotInitializedAfterNew(_) => 9
      case UnsupportedMapKeyType(_) => 12
    }

    /** The text of JSON values inside a message is not part of the model. */
    function Message(): string {
      match this
      case LocalServiceError(code, message) =>
        "Local service error, ret_code is " + Decimal(code) + ", error message is '" + message + "'"
      case MatchValuesNotEqual => "compared values do not match"
      case MismatchValuesEqual => "compared values do not mismatch"
      case VariableNotFound(name) => "variable with name '" + name + "' wasn't defined during script execution"
      case FoldIteratesOverNonArray(_, expression) =>
        "expression '" + expression + "' returned non-array value for fold iterable"
      case UserError(_) => "fail is used without corresponding xor"
      case InvalidErrorObject(_) => "invalid error object"
      case VariableWasNotInitializedAfterNew(name) => "variable with name '" + name + "' was cleared by new and then wasn't set"
      case UnsupportedMapKeyType(mapName) => "unsupported type for " + mapName + " map's key"
    }
  }

  /** Where the interpreter would stop altogether: unwraps, unreachable arms and overflows of the source. */
  datatype PanicReason = IterableAndScalar | NoArgumentHash | ErrorCodeOutOfRange | NoStreamToLeave | NoStreamMapToLeave

  datatype UncatchableError =
    | ShadowingIsNotAllowed(name: string)
    | MultipleIterableValues(name: string)
    | FoldStateNotFound(name: string)
    | IterableShadowing(name: string)
    | ScalarsStateCorrupted(name: string, depth: nat)
    | UnsupportedKVPairObjectOrMapKeyType
    | ValueFieldIsAbsent
    | Panic(reason: PanicReason)

  datatype ExecutionError = Catchable(c: CatchableError) | Uncatchable(u: UncatchableError) {
    predicate IsJoinable() {
      Catchable? && c.IsJoinable()
    }
  }

  // ---- error objects ----

  const ERROR_CODE_FIELD_NAME := "error_code"
  const MESSAGE_FIELD_NAME := "message"
  const INSTRUCTION_FIELD_NAME := "instruction"
  const PEER_ID_FIELD_NAME := "peer_id"

  function ErrorFromRawFields(code: int, message: string, instruction: string, peerId: Option<string>): JValue {
    var fields := map[
      ERROR_CODE_FIELD_NAME := JNumber(Int(code)),
      MESSAGE_FIELD_NAME := JString(message),
      INSTRUCTION_FIELD_NAME := JString(instruction)];
    JObject(if peerId.Some? then fields[PEER_ID_FIELD_NAME := JString(peerId.value)] else fields)
  }

  function NoErrorObject(): JValue {
    JObject(map[ERROR_CODE_FIELD_NAME := JNumber(Int(0)), MESSAGE_FIELD_NAME := JString("")])
  }

  /** The code of an error object is read as a signed 64-bit number; a larger unsigned one stops the interpreter. */
  function CheckErrorObject(value: JValue): Result<(), ExecutionError> {
    var invalid := (e: ErrorObjectError) => Err(Catchable(InvalidErrorObject(e)));
    if !value.JObject? then invalid(ScalarMustBeObject(value))
    else if ERROR_CODE_FIELD_NAME !in value.fields then invalid(ScalarMustContainField(value, ERROR_CODE_FIELD_NAME))
    else
      match value.fields[ERROR_CODE_FIELD_NAME]
      case JNumber(n) =>
        if !IsI64(n) && !IsU64(n) then invalid(ScalarFieldIsWrongType(value, ERROR_CODE_FIELD_NAME, "integer"))
        else if !IsI64(n) then Err(Uncatchable(Panic(ErrorCodeOutOfRange)))
        else if n.i == 0 then invalid(ErrorCodeMustBeNonZero)
        else if MESSAGE_FIELD_NAME !in value.fields then invalid(ScalarMustContainField(value, MESSAGE_FIELD_NAME))
        else if !value.fields[MESSAGE_FIELD_NAME].JString? then
          invalid(ScalarFieldIsWrongType(value, MESSAGE_FIELD_NAME, "string"))
        else Ok(())
      case _ => invalid(ScalarFieldIsWrongType(value, ERROR_CODE_FIELD_NAME, "integer"))
  }

  datatype InstructionError = InstructionError(error: JValue, origCatchable: Option<CatchableError>)

  function NoError(): InstructionError {
    InstructionError(NoErrorObject(), None)
  }

  function FromCatchable(c: CatchableError, instruction: string, peerId: Option<string>): InstructionError {
    InstructionError(ErrorFromRawFields(c.Code(), c.Message(), instruction, peerId), None)
  }

  // ---- descriptors ----

  /** The state of `:error:` or of `%last_error%`: the current object, and whether an error replaces it. */
  datatype Descriptor = Descriptor(error: InstructionError, canBeSet: bool)

  function InitialDescriptor(): Descriptor {
    Descriptor(NoError(), true)
  }

  function TrySetError(d: Descriptor, e: ExecutionError, instruction: string, peerId: Option<string>): Descriptor {
    if d.canBeSet && e.Catchable? then d.(error := FromCatchable(e.c, instruction, peerId)) else d
  }

  function TrySetLastError(d: Descriptor, e: ExecutionError, instruction: string, peerId: Option<string>): Descriptor {
    if d.canBeSet && e.Catchable? && e.c.AffectsLastError()
    then Descriptor(FromCatchable(e.c, instruction, peerId), false)
    else d
  }

  function ClearIfSettable(d: Descriptor): Descriptor {
    if d.canBeSet then d.(error := NoError()) else d
  }

  class ErrorDescriptor {
    var error: InstructionError
    var errorCanBeSet: bool

    ghost function View(): Descriptor
      reads this
    {
      Descriptor(error, errorCanBeSet)
    }

    constructor ()
      ensures View() == InitialDescriptor()
    {
      error, errorCanBeSet := NoError(), true;
    }

    method TryToSetErrorFromExecError(e: ExecutionError, instruction: string, peerId: Option<string>)
      modifies this
      ensures View() == TrySetError(old(View()), e, instruction, peerId)
    {
      if !errorCanBeSet || e.Uncatchable? {
        return;
      }
      error := FromCatchable(e.c, instruction, peerId);
    }

    method ClearErrorObjectIfNeeded()
      modifies this
      ensures View() == ClearIfSettable(old(View()))
    {
      if errorCanBeSet {
        error := NoError();
      }
    }

    method SetOriginalExecutionError(e: ExecutionError)
      modifies this
      ensures View() == old(View()).(error := old(error).(origCatchable := if e.Catchable? then Some(e.c) else None))
    {
      error := error.(origCatchable := match e case Catchable(c) => Some(c) case Uncatchable(_) => None);
    }

    method EnableErrorSetting()
      modifies this
      ensures View() == old(View()).(canBeSet := true)
    {
      errorCanBeSet := true;
    }

    method DisableErrorSetting()
      modifies this
      ensures View() == old(View()).(canBeSet := false)
    {
      errorCanBeSet := false;
    }
  }

  class LastErrorDescriptor {
    var error: InstructionError
    var errorCanBeSet: bool

    ghost function View(): Descriptor
      reads this
    {
      Descriptor(error, errorCanBeSet)
    }

    constructor ()
      ensures View() == InitialDescriptor()
    {
      error, errorCanBeSet := NoError(), true;
    }

    method TryToSetLastErrorFromExecError(e: ExecutionError, instruction: string, peerId: Option<string>)
      modifies this
      ensures View() == TrySetLastError(old(View()), e, instruction, peerId)
    {
      if !errorCanBeSet || e.Uncatchable? || !e.c.AffectsLastError() {
        return;
      }
      error := FromCatchable(e.c, instruction, peerId);
      errorCanBeSet := false;
    }

    method SetFromErrorObject(value: JValue)
      modifies this
      ensures View() == Descriptor(InstructionError(value, None), false)
    {
      error, errorCanBeSet := InstructionError(value, None), false;
    }

    method MeetXorRightBranch()
      modifies this
      ensures View() == old(View()).(canBeSet := true)
    {
      errorCanBeSet := true;
    }

    method MeetParSuccessedEnd()
      modifies this
      ensures View() == old(View()).(canBeSet := true)
    {
      errorCanBeSet := true;
    }
  }

  /** The object says these things, each in its own field, and nothing else. */
  ghost predicate Tells(o: JValue, code: int, message: string, instruction: string, peerId: Option<string>) {
    && o.JObject?
    && (forall field {:trigger field in o.fields} :: field in o.fields <==>
          field == "error_code" || field == "message" || field == "instruction" || (field == "peer_id" && peerId.Some?))
    && o.fields["error_code"] == JNumber(Int(code))
    && o.fields["message"] == JString(message)
    && o.fields["instruction"] == JString(instruction)
    && (peerId.Some? ==> o.fields["peer_id"] == JString(peerId.value))
  }

  lemma RawFieldsTell(code: int, message: string, instruction: string, peerId: Option<string>)
    ensures Tells(ErrorFromRawFields(code, message, instruction, peerId), code, message, instruction, peerId)
  {
  }

  /** Codes are those of catchable errors, and tell the kinds of errors apart. */
  lemma CodesTellKindsApart(a: CatchableError, b: CatchableError)
    ensures 10000 <= a.Code() < 20000
    ensures match a case LocalServiceError(_, _) => a.Code() == 10000 case MatchValuesNotEqual => a.Code() == 10001
                    case MismatchValuesEqual => a.Code() == 10002 case UserError(_) => a.Code() == 10006 case _ => a.Code() > 10002
    ensures a.Code() == b.Code() <==>
      || (a.LocalServiceError? && b.LocalServiceError?)
      || (a.MatchValuesNotEqual? && b.MatchValuesNotEqual?)
      || (a.MismatchValuesEqual? && b.MismatchValuesEqual?)
      || (a.VariableNotFound? && b.VariableNotFound?)
      || (a.FoldIteratesOverNonArray? && b.FoldIteratesOverNonArray?)
      || (a.UserError? && b.UserError?)
      || (a.InvalidErrorObject? && b.InvalidErrorObject?)
      || (a.VariableWasNotInitializedAfterNew? && b.VariableWasNotInitializedAfterNew?)
      || (a.UnsupportedMapKeyType? && b.UnsupportedMapKeyType?)
  {
  }

  /** Every object the interpreter builds for a catchable error is an error object; the initial one is not. */
  lemma BuiltObjectsAreErrors(c: CatchableError, instruction: string, peerId: Option<string>)
    ensures CheckErrorObject(FromCatchable(c, instruction, peerId).error) == Ok(())
    ensures CheckErrorObject(NoErrorObject()) == Err(Catchable(InvalidErrorObject(ErrorCodeMustBeNonZero)))
  {
    var value := FromCatchable(c, instruction, peerId).error;
    assert value.fields[ERROR_CODE_FIELD_NAME] == JNumber(Int(c.Code()));
    assert value.fields[MESSAGE_FIELD_NAME] == JString(c.Message());
  }

  /**
   * Exactly what passes the check: an object whose code is a non-zero signed
   * 64-bit integer and whose message is a string.
   */
  lemma ErrorObjectsExactly(value: JValue)
    ensures CheckErrorObject(value).Ok? <==>
      && value.JObject?
      && ERROR_CODE_FIELD_NAME in value.fields && MESSAGE_FIELD_NAME in value.fields
      && value.fields[MESSAGE_FIELD_NAME].JString?
      && (exists code: int :: code != 0 && IsI64(Int(code)) && value.fields[ERROR_CODE_FIELD_NAME] == JNumber(Int(code)))
  {
    if CheckErrorObject(value).Ok? {
      var n := value.fields[ERROR_CODE_FIELD_NAME].n;
      assert n.i != 0 && IsI64(Int(n.i)) && value.fields[ERROR_CODE_FIELD_NAME] == JNumber(Int(n.i));
    }
  }

  /** Why other values are refused. */
  lemma RefusedExactly(value: JValue, code: int)
    ensures CheckErrorObject(value) == Err(Catchable(InvalidErrorObject(ScalarMustBeObject(value)))) <==> !value.JObject?
    ensures CheckErrorObject(value) == Err(Catchable(InvalidErrorObject(ScalarMustContainField(value, "error_code")))) <==>
      value.JObject? && "error_code" !in value.fields
    ensures value.JObject? && "error_code" in value.fields && value.fields["error_code"] == JNumber(Int(code)) ==>
      && (CheckErrorObject(value) == Err(Uncatchable(Panic(ErrorCodeOutOfRange))) <==>
            0x8000_0000_0000_0000 <= code < 0x1_0000_0000_0000_0000)
      && (CheckErrorObject(value) == Err(Catchable(InvalidErrorObject(ErrorCodeMustBeNonZero))) <==> code == 0)
      && (CheckErrorObject(value) == Err(Catchable(InvalidErrorObject(ScalarMustContainField(value, "message")))) <==>
            code != 0 && -0x8000_0000_0000_0000 <= code < 0x8000_0000_0000_0000 && "message" !in value.fields)
  {
  }
}
