/**
 * The request-validation result of internal/validation/validation.go: an ordered list
 * of field errors that validators append to, valid exactly when nothing was appended.
 */
module Validation {

  /** validation.FieldError: which field failed and why. */
  datatype FieldError = FieldError(field: string, message: string)

  /** The text every Errors value reports as an error. */
  const FailedText: string := "validation failed"

  /** validation.Errors, whose Add appends to its slice in place. */
  class Errors {
    var errors: seq<FieldError>

    /** The zero value `var errors validation.Errors`: a nil slice. */
    constructor ()
      ensures errors == []
      ensures IsValid()
    {
      errors := [];
    }

    /** IsValid: nothing has been added. */
    function IsValid(): (valid: bool)
      reads this
      ensures valid <==> errors == []
    {
      |errors| == 0
    }

    /**
     * Add: exactly one FieldError{field, message} at the end; the entries before it
     * are kept, so the value is no longer valid.
     */
    method Add(field: string, message: string)
      modifies this
      ensures errors == old(errors) + [FieldError(field, message)]
      ensures !IsValid()
    {
      errors := errors + [FieldError(field, message)];
    }

    /** Error: the same text whatever the contents. */
    function Error(): (text: string)
      ensures text == FailedText
    {
      "validation failed"
    }
  }

  /** Two Errors values, whatever they hold, report the same text, and it is not empty. */
  lemma ErrorIgnoresContents(a: Errors, b: Errors)
    ensures a.Error() == b.Error() != ""
  {
  }
}
