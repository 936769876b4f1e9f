/**
 * The input validator: the character classes the decoded sandbox ID and port
 * must belong to, written as character predicates in place of the two
 * anchored regular expressions `^[a-zA-Z0-9-_]+$` and `^[0-9]+$`.
 */
module Validation {
  import opened Wrappers
  import opened GoStrings

  /** A character of the class `[a-zA-Z0-9-_]` (the `-` after the range `0-9` stands for itself). */
  predicate IsSandboxIdChar(c: char) {
    'a' <= c <= 'z' || 'A' <= c <= 'Z' || '0' <= c <= '9' || c == '-' || c == '_'
  }

  /** A character of the class `[0-9]`. */
  predicate IsPortChar(c: char) {
    IsDigit(c)
  }

  /** Every character of `s` satisfies `p`. */
  function AllSatisfy(s: string, p: char -> bool): (r: bool)
    ensures r <==> forall i :: 0 <= i < |s| ==> p(s[i])
  {
    if |s| == 0 then true else p(s[0]) && AllSatisfy(s[1..], p)
  }

  /** Whether `^[C]+$` matches all of `s`, for the class `C` that `p` describes. */
  predicate FullMatch(s: string, p: char -> bool) {
    |s| > 0 && AllSatisfy(s, p)
  }

  /** The two errors the validator reports. */
  datatype InputError = EmptyInput | InvalidFormat

  /**
   * `validateInputs`: both parts present, the sandbox ID drawn from
   * `[A-Za-z0-9_-]` and the port from the digits. The port's numeric value is
   * not range-checked.
   */
  function ValidateInputs(sandboxId: string, port: string): (r: Outcome<InputError>)
    ensures r == Fail(EmptyInput) <==> sandboxId == "" || port == ""
    ensures r == Pass <==>
      && sandboxId != "" && port != ""
      && (forall i :: 0 <= i < |sandboxId| ==> IsSandboxIdChar(sandboxId[i]))
      && (forall i :: 0 <= i < |port| ==> IsPortChar(port[i]))
    ensures r.Fail? ==> r == Fail(EmptyInput) || r == Fail(InvalidFormat)
  {
    if sandboxId == "" || port == "" then Fail(EmptyInput)
    else if !FullMatch(sandboxId, IsSandboxIdChar) || !FullMatch(port, IsPortChar) then Fail(InvalidFormat)
    else Pass
  }

  /** An accepted pair holds none of the host separators in either part, and no `-` in the port. */
  lemma AcceptedHasNoSeparators(sandboxId: string, port: string)
    requires ValidateInputs(sandboxId, port) == Pass
    ensures '.' !in sandboxId && ':' !in sandboxId
    ensures '-' !in port && '.' !in port && ':' !in port
  {
  }

  /** The port is not range-checked: `99999` passes, and so does a sandbox ID made of dashes. */
  lemma NoPortRange()
    ensures ValidateInputs("abc", "99999") == Pass
    ensures ValidateInputs("a-b_C9", "0") == Pass && ValidateInputs("--", "1") == Pass
    ensures ValidateInputs("abc$", "8080") == Fail(InvalidFormat)
    ensures ValidateInputs("", "8080") == Fail(EmptyInput)
  {
  }
}
