/** EventLoop::completeCodeToString: the name of a completion code, looked up
    in a table of three names. The bound check as written lets the code one
    past the table through; the corrected lookup rejects it. */
module CompleteCode {
  import opened Strings
  import opened DoneItems

  /** The static table of names, indexed by completion code. */
  const CodeNames: seq<string> := ["ASYNC_COMPLETE_NOT", "ASYNC_COMPLETE_SUCCESS", "ASYNC_COMPLETE_ERROR"]

  /** A lookup returns a name, throws runtime_error with a message, or
      indexes the table at a position it does not have (undefined behaviour
      in C++). */
  datatype Lookup = Name(name: string) | Invalid(msg: string) | PastEnd(index: int)

  function InvalidCodeMsg(code: int): string
  {
    "Invalid code value " + IntToDecimal(code)
  }

  /** The lookup as written: codes below 0 or above the table size are
      rejected, so a code equal to the table size is looked up. */
  function CompleteCodeToStringAsWritten(code: int): (r: Lookup)
    ensures r.PastEnd? ==> r.index >= |CodeNames|
  {
    if code < 0 || code > |CodeNames| then Invalid(InvalidCodeMsg(code))
    else if code < |CodeNames| then Name(CodeNames[code])
    else PastEnd(code)
  }

  /** ASYNC_COMPLETE_ABORTED (3) passes the bound check and is looked up one
      past the end of the table. */
  lemma AbortedReadsPastEnd()
    ensures CompleteCodeToStringAsWritten(CompleteAborted) == PastEnd(3)
    ensures |CodeNames| == 3
  {
  }

  /** The lookup with the bound the table has: every code outside it is
      rejected. */
  function CompleteCodeToString(code: int): (r: Lookup)
    ensures !r.PastEnd?
    ensures r.Name? <==> 0 <= code < |CodeNames|
    ensures r.Invalid? ==> r.msg == InvalidCodeMsg(code)
  {
    if code < 0 || code >= |CodeNames| then Invalid(InvalidCodeMsg(code))
    else Name(CodeNames[code])
  }

  /** The inverse lookup: the code a name stands for, or -1. */
  function CodeOf(name: string): (c: int)
    ensures -1 <= c < |CodeNames|
  {
    if name == CodeNames[0] then CompleteNot
    else if name == CodeNames[1] then CompleteSuccess
    else if name == CodeNames[2] then CompleteError
    else -1
  }

  /** Each of NOT, SUCCESS and ERROR has its own name, and the name gives
      back the code; a name the table has is the name of its code. */
  lemma NameRoundTrip(code: int, name: string)
    ensures CompleteCodeToString(code).Name? ==> CodeOf(CompleteCodeToString(code).name) == code
    ensures CodeOf(name) >= 0 ==> CompleteCodeToString(CodeOf(name)) == Name(name)
  {
    assert |CodeNames[0]| == 18 && |CodeNames[1]| == 22 && |CodeNames[2]| == 20;
  }

  /** The codes the loop uses map to their names; ABORTED has none. */
  lemma LoopCodesNamed()
    ensures CompleteCodeToString(CompleteNot) == Name("ASYNC_COMPLETE_NOT")
    ensures CompleteCodeToString(CompleteSuccess) == Name("ASYNC_COMPLETE_SUCCESS")
    ensures CompleteCodeToString(CompleteError) == Name("ASYNC_COMPLETE_ERROR")
    ensures CompleteCodeToString(CompleteAborted) == Invalid("Invalid code value 3")
  {
    assert NatToDecimal(3) == "3";
  }

  /** The correction changes one input only: wherever the lookup as written
      does not read past the table it gives the same answer, and the only
      code it reads past the table for is 3. */
  lemma CorrectedAgreesElsewhere(code: int)
    ensures CompleteCodeToStringAsWritten(code).PastEnd? <==> code == |CodeNames|
    ensures !CompleteCodeToStringAsWritten(code).PastEnd? ==>
      CompleteCodeToStringAsWritten(code) == CompleteCodeToString(code)
  {
  }
}
