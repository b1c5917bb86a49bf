/** `_extract_environment_args`: groups the command-line tokens argparse
    did not recognise into `--env-NAME value ...` groups, giving the keyword
    arguments for the environment's constructor. */
module EnvArgs {
  import opened Exceptions

  /** The prefix that opens a group. */
  const EnvPrefix: string := "--env-"

  predicate StartsWith(s: string, prefix: string) {
    |prefix| <= |s| && s[..|prefix|] == prefix
  }

  predicate IsEnvFlag(token: string) {
    StartsWith(token, EnvPrefix)
  }

  /** `s.replace(from, to)` for single characters. */
  function ReplaceChar(s: string, from: char, to: char): (r: string)
    ensures |r| == |s|
    ensures forall i :: 0 <= i < |s| ==> r[i] == (if s[i] == from then to else s[i])
  {
    if s == [] then [] else [if s[0] == from then to else s[0]] + ReplaceChar(s[1..], from, to)
  }

  /** `token[6:].replace('-', '_')`: the flag without its prefix, dashes
      turned into underscores. */
  function ParamName(token: string): (name: string)
    requires IsEnvFlag(token)
    ensures |name| == |token| - |EnvPrefix|
    ensures forall i :: 0 <= i < |name| ==>
              name[i] == (if token[|EnvPrefix| + i] == '-' then '_' else token[|EnvPrefix| + i])
    ensures '-' !in name
  {
    ReplaceChar(token[|EnvPrefix|..], '-', '_')
  }

  /** The length of the maximal run of leading tokens that are not flags. */
  function GroupEnd(rest: seq<string>): (i: nat)
    ensures i <= |rest|
    ensures forall j :: 0 <= j < i ==> !IsEnvFlag(rest[j])
    ensures i < |rest| ==> IsEnvFlag(rest[i])
  {
    if rest == [] || IsEnvFlag(rest[0]) then 0 else 1 + GroupEnd(rest[1..])
  }

  /** The result of `_extract_environment_args`, group by group from the
      left; a later group for the same name replaces an earlier one, and a
      token where a flag should be raises ValueError(token). */
  function Extract(args: seq<string>): Result<map<string, seq<string>>>
    decreases |args|
  {
    if args == [] then Success(map[])
    else if !IsEnvFlag(args[0]) then Failure(ValueError(Str(args[0])))
    else
      var rest := args[1..];
      var i := GroupEnd(rest);
      match Extract(rest[i..])
      case Failure(e) => Failure(e)
      case Success(later) => Success(map[ParamName(args[0]) := rest[..i]] + later)
  }

  /** The only failure is the first token not being a flag: every group
      swallows the tokens up to the next flag, so no later token can be out
      of place. */
  lemma {:induction false} ExtractFailsIff(args: seq<string>)
    ensures Extract(args).Failure? <==> |args| > 0 && !IsEnvFlag(args[0])
    ensures Extract(args).Failure? ==> Extract(args) == Failure(ValueError(Str(args[0])))
    decreases |args|
  {
    if args != [] && IsEnvFlag(args[0]) {
      var rest := args[1..];
      var i := GroupEnd(rest);
      ExtractFailsIff(rest[i..]);
    }
  }

  /** Empty input gives an empty dictionary. */
  lemma ExtractEmpty()
    ensures Extract([]) == Success(map[])
  {
  }

  /** Unfolding the first group: a successful extraction is that group
      overridden by the successful extraction of the tokens after it. */
  lemma ExtractUnfold(args: seq<string>)
    requires |args| > 0 && IsEnvFlag(args[0]) && Extract(args).Success?
    ensures var i := GroupEnd(args[1..]);
            && Extract(args[1 + i..]).Success?
            && Extract(args).value == map[ParamName(args[0]) := args[1..][..i]] + Extract(args[1 + i..]).value
  {
    assert args[1..][GroupEnd(args[1..])..] == args[1 + GroupEnd(args[1..])..];
  }

  /** The names of the flags among `args`. */
  function FlagNames(args: seq<string>): set<string> {
    set j | 0 <= j < |args| && IsEnvFlag(args[j]) :: ParamName(args[j])
  }

  /** Skipping non-flag tokens after a leading flag: the names are the
      leading flag's and those of the tokens after its group. */
  lemma FlagNamesUnfold(args: seq<string>, i: nat)
    requires |args| > 0 && IsEnvFlag(args[0])
    requires 1 + i <= |args|
    requires forall j :: 1 <= j < 1 + i ==> !IsEnvFlag(args[j])
    ensures FlagNames(args) == {ParamName(args[0])} + FlagNames(args[1 + i..])
  {
    var tail := args[1 + i..];
    forall name | name in FlagNames(args) ensures name == ParamName(args[0]) || name in FlagNames(tail) {
      var j :| 0 <= j < |args| && IsEnvFlag(args[j]) && name == ParamName(args[j]);
      if j > 0 {
        assert tail[j - 1 - i] == args[j];
      }
    }
    forall name | name in FlagNames(tail) ensures name in FlagNames(args) {
      var j :| 0 <= j < |tail| && IsEnvFlag(tail[j]) && name == ParamName(tail[j]);
      assert tail[j] == args[1 + i + j];
    }
  }

  /** The dictionary's keys are exactly the names of the flags. */
  lemma {:induction false} ExtractKeys(args: seq<string>)
    requires Extract(args).Success?
    ensures Extract(args).value.Keys == FlagNames(args)
    decreases |args|
  {
    if args != [] {
      ExtractFailsIff(args);
      ExtractUnfold(args);
      var i := GroupEnd(args[1..]);
      ExtractKeys(args[1 + i..]);
      FlagNamesUnfold(args, i);
    }
  }

  /** Every value is a run of tokens none of which is a flag. */
  lemma {:induction false} ExtractValuesHaveNoFlags(args: seq<string>)
    requires Extract(args).Success?
    ensures forall name, j :: name in Extract(args).value && 0 <= j < |Extract(args).value[name]| ==>
              !IsEnvFlag(Extract(args).value[name][j])
    decreases |args|
  {
    if args != [] {
      var rest := args[1..];
      var i := GroupEnd(rest);
      ExtractValuesHaveNoFlags(rest[i..]);
    }
  }

  /** A repeated name keeps its last group: when no later flag has the same
      name as the flag at `k`, that name maps to the run of tokens after
      it, up to the next flag. */
  lemma {:induction false} ExtractLastGroupWins(args: seq<string>, k: nat)
    requires k < |args| && IsEnvFlag(args[k])
    requires forall j :: k < j < |args| && IsEnvFlag(args[j]) ==> ParamName(args[j]) != ParamName(args[k])
    requires Extract(args).Success?
    ensures ParamName(args[k]) in Extract(args).value
    ensures Extract(args).value[ParamName(args[k])] == args[k + 1..][..GroupEnd(args[k + 1..])]
    decreases |args|
  {
    ExtractFailsIff(args);
    ExtractUnfold(args);
    var i := GroupEnd(args[1..]);
    var tail := args[1 + i..];
    if k == 0 {
      LaterGroupsMissName(args, i);
    } else {
      var k' := k - 1 - i;
      ShiftToTail(args, i, k);
      ExtractLastGroupWins(tail, k');
    }
  }

  /** When no flag after the first group repeats the first flag's name,
      the tokens after that group do not produce the name. */
  lemma LaterGroupsMissName(args: seq<string>, i: nat)
    requires |args| > 0 && IsEnvFlag(args[0])
    requires 1 + i <= |args|
    requires forall j :: 0 < j < |args| && IsEnvFlag(args[j]) ==> ParamName(args[j]) != ParamName(args[0])
    requires Extract(args[1 + i..]).Success?
    ensures ParamName(args[0]) !in Extract(args[1 + i..]).value
  {
    var tail := args[1 + i..];
    ExtractKeys(tail);
    forall j | 0 <= j < |tail| && IsEnvFlag(tail[j]) ensures ParamName(tail[j]) != ParamName(args[0]) {
      assert tail[j] == args[1 + i + j];
    }
  }

  /** The flag at `k`, past the first group, sits at `k - 1 - i` in the
      tokens after that group, with the same tokens and flags after it. */
  lemma ShiftToTail(args: seq<string>, i: nat, k: nat)
    requires |args| > 0 && IsEnvFlag(args[0])
    requires i == GroupEnd(args[1..])
    requires 0 < k < |args| && IsEnvFlag(args[k])
    requires forall j :: k < j < |args| && IsEnvFlag(args[j]) ==> ParamName(args[j]) != ParamName(args[k])
    ensures 1 + i <= k
    ensures var tail := args[1 + i..];
            && tail[k - 1 - i] == args[k]
            && tail[k - i..] == args[k + 1..]
            && forall j :: k - 1 - i < j < |tail| && IsEnvFlag(tail[j]) ==> ParamName(tail[j]) != ParamName(tail[k - 1 - i])
  {
    assert args[1..][k - 1] == args[k];
    var tail := args[1 + i..];
    forall j | k - 1 - i < j < |tail| && IsEnvFlag(tail[j]) ensures ParamName(tail[j]) != ParamName(args[k]) {
      assert tail[j] == args[1 + i + j];
    }
  }

  /** `_extract_environment_args(args)`, with its two nested loops. */
  method ExtractEnvironmentArgs(args: seq<string>) returns (r: Result<map<string, seq<string>>>)
    ensures r == Extract(args)
  {
    var environmentArgs: map<string, seq<string>> := map[];
    var remaining := args;
    if Extract(args).Success? {
      assert environmentArgs + Extract(args).value == Extract(args).value;
    }
    while |remaining| > 0
      invariant Extract(args) == match Extract(remaining)
                                 case Failure(e) => Failure(e)
                                 case Success(later) => Success(environmentArgs + later)
      decreases |remaining|
    {
      if !IsEnvFlag(remaining[0]) {
        return Failure(ValueError(Str(remaining[0])));
      }
      var paramName := ParamName(remaining[0]);
      var rest := remaining[1..];
      if |rest| > 0 {
        var i := 0;
        while i < |rest|
          invariant 0 <= i <= |rest|
          invariant forall j :: 0 <= j < i ==> !IsEnvFlag(rest[j])
        {
          if IsEnvFlag(rest[i]) {
            break;
          }
          i := i + 1;
        }
        assert i == GroupEnd(rest);
        MergeAssoc(environmentArgs, paramName, rest[..i], Extract(rest[i..]));
        environmentArgs := environmentArgs[paramName := rest[..i]];
        remaining := rest[i..];
      } else {
        MergeAssoc(environmentArgs, paramName, [], Extract([]));
        environmentArgs := environmentArgs[paramName := []];
        remaining := [];
      }
    }
    assert environmentArgs + map[] == environmentArgs;
    return Success(environmentArgs);
  }

  /** Adding one group on the left of the later result is adding it to the
      dictionary built so far. */
  lemma MergeAssoc(built: map<string, seq<string>>, name: string, group: seq<string>,
                   later: Result<map<string, seq<string>>>)
    ensures (match later
             case Failure(e) => Failure(e)
             case Success(m) => Success(built + (map[name := group] + m)))
         == (match later
             case Failure(e) => Failure(e)
             case Success(m) => Success(built[name := group] + m))
  {
    if later.Success? {
      var m := later.value;
      assert built + (map[name := group] + m) == built[name := group] + m;
    }
  }
}
