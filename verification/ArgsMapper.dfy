/**
  The command-line tokenizer: one pass over the tokens that sorts them into
  positional arguments, switches and key/value options.

  A token's role depends only on itself and its neighbours, because a token
  starting with `-` is never consumed as an option value: `RoleAt` states
  that role in closed form, and the constructor's loop is proved to fill the
  three collections exactly as the roles say.
 */
module Arguments {
  import opened Wrappers

  /** `StartsWith("-")`: the token begins with a dash. */
  predicate IsDash(s: string)
  {
    |s| > 0 && s[0] == '-'
  }

  /** The role the tokenizer gives one token. */
  datatype Role = Positional | Switch | OptionKey | OptionValue

  /**
    A dash token followed by a non-dash token is an option key; any other
    dash token is a switch; a non-dash token right after a dash token is that
    key's value; any other token is positional.
   */
  function RoleAt(args: seq<string>, i: nat): Role
    requires i < |args|
  {
    if IsDash(args[i]) then
      if i + 1 < |args| && !IsDash(args[i + 1]) then OptionKey else Switch
    else if i > 0 && IsDash(args[i - 1]) then OptionValue
    else Positional
  }

  /** The tokens among the first `n` that have `role`, in order. */
  function Pick(args: seq<string>, role: Role, n: nat): seq<string>
    requires n <= |args|
  {
    if n == 0 then []
    else Pick(args, role, n - 1) + (if RoleAt(args, n - 1) == role then [args[n - 1]] else [])
  }

  /** The option dictionary after the first `n` tokens: each key, in order, set to the token after it. */
  function OptionsUpTo(args: seq<string>, n: nat): map<string, string>
    requires n <= |args|
  {
    if n == 0 then map[]
    else
      var m := OptionsUpTo(args, n - 1);
      if RoleAt(args, n - 1) == OptionKey then m[args[n - 1] := args[n]] else m
  }

  /** A key occurrence at position `j`, the last one among the first `n` tokens. */
  predicate LastKeyOccurrence(args: seq<string>, n: nat, key: string, j: nat)
    requires n <= |args|
  {
    && j < n && RoleAt(args, j) == OptionKey && args[j] == key
    && forall k :: j < k < n && RoleAt(args, k) == OptionKey ==> args[k] != key
  }

  /**
    The dictionary holds exactly the keys that occur as option keys, and a
    repeated key keeps the value of its last occurrence.
   */
  lemma {:induction false} OptionsUpToMeaning(args: seq<string>, n: nat, key: string)
    requires n <= |args|
    ensures key in OptionsUpTo(args, n) <==> exists j :: 0 <= j < n && RoleAt(args, j) == OptionKey && args[j] == key
    ensures forall j :: 0 <= j < n && LastKeyOccurrence(args, n, key, j) ==> OptionsUpTo(args, n)[key] == args[j + 1]
  {
    if n > 0 {
      OptionsUpToMeaning(args, n - 1, key);
      forall j | 0 <= j < n && LastKeyOccurrence(args, n, key, j)
        ensures OptionsUpTo(args, n)[key] == args[j + 1]
      {
        if j < n - 1 {
          assert LastKeyOccurrence(args, n - 1, key, j);
        }
      }
    }
  }

  /** Every token gets one role: the four kinds together account for all tokens. */
  lemma {:induction false} RolesPartition(args: seq<string>, n: nat)
    requires n <= |args|
    ensures |Pick(args, Positional, n)| + |Pick(args, Switch, n)| + |Pick(args, OptionKey, n)| + |Pick(args, OptionValue, n)| == n
  {
    if n > 0 {
      RolesPartition(args, n - 1);
    }
  }

  /** Keys and values come in pairs; only the token right before position `n` may be a key still waiting for its value. */
  lemma {:induction false} KeysAndValuesPair(args: seq<string>, n: nat)
    requires n <= |args|
    ensures |Pick(args, OptionKey, n)| == |Pick(args, OptionValue, n)| + (if n > 0 && RoleAt(args, n - 1) == OptionKey then 1 else 0)
  {
    if n > 0 {
      KeysAndValuesPair(args, n - 1);
    }
  }

  /** Switches all start with a dash and positional arguments never do. */
  lemma {:induction false} RolesAndDashes(args: seq<string>, n: nat)
    requires n <= |args|
    ensures forall s :: s in Pick(args, Switch, n) ==> IsDash(s)
    ensures forall s :: s in Pick(args, OptionKey, n) ==> IsDash(s)
    ensures forall s :: s in Pick(args, Positional, n) ==> !IsDash(s)
  {
    if n > 0 {
      RolesAndDashes(args, n - 1);
    }
  }

  /**
    Over the whole command line the tokens split into positional arguments,
    switches and complete key/value pairs:
    |positional| + |switches| + 2 * |keys| == |args|.
   */
  lemma TokenCount(args: seq<string>)
    ensures |Pick(args, OptionKey, |args|)| == |Pick(args, OptionValue, |args|)|
    ensures |Pick(args, Positional, |args|)| + |Pick(args, Switch, |args|)| + 2 * |Pick(args, OptionKey, |args|)| == |args|
  {
    RolesPartition(args, |args|);
    KeysAndValuesPair(args, |args|);
  }

  class ArgsMapper {
    var argsList: seq<string>
    var switchList: seq<string>
    var optionDictionary: map<string, string>

    /** Returns the stored value of `key`, or `defaultValue` when the key was not given. */
    function GetOption(key: string, defaultValue: Nullable<string>): (r: Nullable<string>)
      reads this
      ensures key in optionDictionary ==> r == Some(optionDictionary[key])
      ensures key !in optionDictionary ==> r == defaultValue
    {
      if key in optionDictionary then Some(optionDictionary[key]) else defaultValue
    }

    /** Classifies the tokens in one pass; the index moves past an option value together with its key. */
    constructor (args: seq<string>)
      ensures argsList == Pick(args, Positional, |args|)
      ensures switchList == Pick(args, Switch, |args|)
      ensures optionDictionary == OptionsUpTo(args, |args|)
    {
      argsList, switchList, optionDictionary := [], [], map[];
      new;
      var i := 0;
      while i < |args|
        invariant i <= |args|
        invariant i == |args| || RoleAt(args, i) != OptionValue
        invariant argsList == Pick(args, Positional, i)
        invariant switchList == Pick(args, Switch, i)
        invariant optionDictionary == OptionsUpTo(args, i)
      {
        var arg := args[i];
        if IsDash(arg) {
          if i + 1 < |args| {
            if IsDash(args[i + 1]) {
              switchList := switchList + [args[i]];
            } else {
              optionDictionary := optionDictionary[arg := args[i + 1]];
              i := i + 1;
            }
          } else {
            switchList := switchList + [args[i]];
          }
        } else {
          argsList := argsList + [arg];
        }
        i := i + 1;
      }
    }
  }

  /** After parsing, `GetOption` gives the value after the last occurrence of the key, or the default. */
  lemma GetOptionAfterParse(m: ArgsMapper, args: seq<string>, key: string, defaultValue: Nullable<string>)
    requires m.optionDictionary == OptionsUpTo(args, |args|)
    ensures (exists j :: 0 <= j < |args| && RoleAt(args, j) == OptionKey && args[j] == key) || m.GetOption(key, defaultValue) == defaultValue
    ensures forall j :: 0 <= j < |args| && LastKeyOccurrence(args, |args|, key, j) ==> m.GetOption(key, defaultValue) == Some(args[j + 1])
  {
    OptionsUpToMeaning(args, |args|, key);
  }
}
