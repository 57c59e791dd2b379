/** `MandelbrotError`: an error code and a message, fixed when the value is
    made and only read afterwards. A datatype value cannot be changed, which is
    the immutability the class gets from having only `const` getters. */
module MandelbrotErrors {
  import opened EnumList

  /** `ERROR_CODES_COUNT`: one per entry of `ERROR_CODE_LIST`. */
  const ERROR_CODES_COUNT: nat := XEnumCount(ERROR_CODE_LIST)

  /** `ERROR_CODES_STR`: the string of every error code, in list order. */
  const ERROR_CODES_STR: seq<string> := Strings(ERROR_CODE_LIST)

  datatype MandelbrotError = MandelbrotError(code: ErrorCode, message: string)
  {
    function GetCode(): ErrorCode
    {
      code
    }

    /** The string listed beside the code in `ERROR_CODE_LIST`; the lookup by
        the code's position is always in bounds. */
    function GetCodeString(): (s: string)
      ensures ERROR_CODE_LIST[CodeIndex(code)] == (code, s)
    {
      var index := CodeIndex(code);
      ERROR_CODES_STR[index]
    }

    function GetMessage(): string
    {
      message
    }
  }

  /** The getters return exactly what the error was made with. */
  lemma GettersReturnConstructorArguments(code: ErrorCode, message: string)
    ensures MandelbrotError(code, message).GetCode() == code
    ensures MandelbrotError(code, message).GetMessage() == message
  {
  }

  /** The position the code string is looked up at is below the count, for
      every code. */
  lemma CodeIndexInBounds(code: ErrorCode)
    ensures CodeIndex(code) < ERROR_CODES_COUNT == |ERROR_CODES_STR| == 4
  {
  }

  /** Every code's string is its own identifier, and different codes have
      different strings. */
  lemma CodeStrings(e: MandelbrotError, f: MandelbrotError)
    ensures e.GetCodeString() == ErrorCodeName(e.code)
    ensures e.code == ParseError ==> e.GetCodeString() == "ParseError"
    ensures e.code == FileNotFound ==> e.GetCodeString() == "FileNotFound"
    ensures e.code == MissingOption ==> e.GetCodeString() == "MissingOption"
    ensures e.code == InvalidValue ==> e.GetCodeString() == "InvalidValue"
    ensures e.GetCodeString() == f.GetCodeString() <==> e.code == f.code
  {
    ListsAreBijections();
  }
}
