/** Dirt-status strings: the two classifiers `_convert_to_dirt_status` and
    `_strtobool`, which lower-case a string and map it to "dirty" (true),
    "clean" (false) or an error. */
module DirtStrings {
  import opened Exceptions

  /** Strings that mean a square is dirty. */
  const DirtyValues: seq<string> := ["y", "yes", "t", "true", "dirty"]
  /** Strings that mean a square is clean. */
  const CleanValues: seq<string> := ["n", "no", "f", "false", "clean"]
  /** Prefix of the message an unrecognised dirt string is reported with. */
  const BadDirtStatusPrefix: string := "Invalid dirt status string: "

  predicate IsUpper(c: char) { 'A' <= c <= 'Z' }

  /** `str.lower()` on one character (ASCII letters only). */
  function LowerChar(c: char): (r: char)
    ensures !IsUpper(r)
    ensures IsUpper(c) ==> r as int == c as int + 32
    ensures !IsUpper(c) ==> r == c
  {
    if IsUpper(c) then (c as int + 32) as char else c
  }

  /** `str.lower()`: every ASCII capital becomes its small letter. */
  function ToLower(s: string): (r: string)
    ensures |r| == |s|
    ensures forall i :: 0 <= i < |s| ==> r[i] == LowerChar(s[i])
    ensures forall i :: 0 <= i < |r| ==> !IsUpper(r[i])
  {
    if s == [] then [] else [LowerChar(s[0])] + ToLower(s[1..])
  }

  /** Lower-casing twice is lower-casing once. */
  lemma {:induction false} ToLowerIdempotent(s: string)
    ensures ToLower(ToLower(s)) == ToLower(s)
  {
    if s != [] {
      ToLowerIdempotent(s[1..]);
      assert ToLower(s)[1..] == ToLower(s[1..]);
    }
  }

  /** No string is both a dirty and a clean spelling, so the classification
      is well defined. */
  lemma DirtyCleanDisjoint(v: string)
    ensures !(v in DirtyValues && v in CleanValues)
  {
  }

  function BadDirtStatusMessage(lowered: string): string {
    BadDirtStatusPrefix + lowered
  }

  /** `BasicVacuumWorld._convert_to_dirt_status`: lower-case, then classify;
      an unknown spelling raises ValueError with the message built from the
      lower-cased string. */
  function ConvertToDirtStatus(s: string): (r: Result<bool>)
    ensures r == Success(true) <==> ToLower(s) in DirtyValues
    ensures r == Success(false) <==> ToLower(s) in CleanValues
    ensures r.Failure? <==> ToLower(s) !in DirtyValues + CleanValues
    ensures r.Failure? ==> r.error == ValueError(Str(BadDirtStatusMessage(ToLower(s))))
  {
    var lowered := ToLower(s);
    if lowered in DirtyValues then Success(true)
    else if lowered in CleanValues then Success(false)
    else Failure(ValueError(Str(BadDirtStatusMessage(lowered))))
  }

  /** `_strtobool`: the same classification, raising
      argparse.ArgumentTypeError instead of ValueError. */
  function StrToBool(s: string): (r: Result<bool>)
    ensures r.Failure? <==> ToLower(s) !in DirtyValues + CleanValues
    ensures r.Failure? ==> r.error == ArgumentTypeError(Str(BadDirtStatusMessage(ToLower(s))))
  {
    var lowered := ToLower(s);
    if lowered in DirtyValues then Success(true)
    else if lowered in CleanValues then Success(false)
    else Failure(ArgumentTypeError(Str(BadDirtStatusMessage(lowered))))
  }

  /** The two classifiers agree on every string: same value on success, same
      message on failure, and only the exception kind differs. */
  lemma StrToBoolAgreesWithConvert(s: string)
    ensures StrToBool(s).Success? <==> ConvertToDirtStatus(s).Success?
    ensures StrToBool(s).Success? ==> StrToBool(s).value == ConvertToDirtStatus(s).value
    ensures StrToBool(s).Failure? ==>
              StrToBool(s).error.ArgumentTypeError? && ConvertToDirtStatus(s).error.ValueError? &&
              StrToBool(s).error.arg == ConvertToDirtStatus(s).error.arg
  {
  }

  /** Classification ignores case: a string and its lower-cased form classify
      alike (the message is built from the lower-cased form either way). */
  lemma {:induction false} ConvertIgnoresCase(s: string)
    ensures ConvertToDirtStatus(ToLower(s)) == ConvertToDirtStatus(s)
    ensures StrToBool(ToLower(s)) == StrToBool(s)
  {
    ToLowerIdempotent(s);
  }
}
