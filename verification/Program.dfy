/**
  The command-line driver: early exits, the signing-mode token, the
  configuration option, the file selection (directory listing, single file,
  white list, black list) and the verdict of the batch.

  Exceptions that escape `Run` are the `Thrown` outcome: a white or black
  list file that exists but cannot be read or deserialised (that happens
  outside the filters' `try`), and a `-d` directory that does not exist
  (the listing is null and its `Count` is read).
 */
module Program {
  import opened Wrappers
  import opened Config
  import opened Host
  import opened Signing
  import opened Arguments

  // ---------------------------------------------------------------------
  // Signing-mode token
  // ---------------------------------------------------------------------

  function LowerChar(c: char): char
  {
    if 'A' <= c <= 'Z' then (c - 'A' + 'a') as char else c
  }

  /** `ToLower` on the letters the mode names use. */
  function Lower(s: string): (r: string)
    ensures |r| == |s| && forall i :: 0 <= i < |s| ==> r[i] == LowerChar(s[i])
  {
    if s == [] then [] else [LowerChar(s[0])] + Lower(s[1..])
  }

  /** The mode named by the first positional argument, or null for an unknown name. */
  function ModeOf(token: string): (r: Nullable<SigningType>)
    ensures r != Some(None)
  {
    var t := Lower(token);
    if t == "sha1" then Some(SHA1)
    else if t == "sha2" then Some(SHA2)
    else if t == "dual" then Some(Dual)
    else Null
  }

  /** Two tokens equal up to the case of ASCII letters. */
  predicate SameIgnoringCase(a: string, b: string)
  {
    |a| == |b| && forall i :: 0 <= i < |a| ==> LowerChar(a[i]) == LowerChar(b[i])
  }

  /**
    The mode names are matched without regard to case: a token names SHA1,
    SHA2 or Dual exactly when it spells "SHA1", "SHA2" or "Dual" in any mix
    of upper and lower case, and every other token names no mode.
   */
  lemma ModeOfIgnoresCase(token: string)
    ensures ModeOf(token) == Some(SHA1) <==> SameIgnoringCase(token, "SHA1")
    ensures ModeOf(token) == Some(SHA2) <==> SameIgnoringCase(token, "SHA2")
    ensures ModeOf(token) == Some(Dual) <==> SameIgnoringCase(token, "Dual")
    ensures ModeOf(token).Null? <==>
      !SameIgnoringCase(token, "SHA1") && !SameIgnoringCase(token, "SHA2") && !SameIgnoringCase(token, "Dual")
  {
    var t := Lower(token);
    assert Lower("SHA1") == "sha1" && Lower("SHA2") == "sha2" && Lower("Dual") == "dual";
    assert SameIgnoringCase(token, "SHA1") <==> t == "sha1";
    assert SameIgnoringCase(token, "SHA2") <==> t == "sha2";
    assert SameIgnoringCase(token, "Dual") <==> t == "dual";
  }

  // ---------------------------------------------------------------------
  // White and black lists
  // ---------------------------------------------------------------------

  /** `Any` over the patterns: stops at the first match; a pattern that throws ends the scan with the exception. */
  function AnyMatch(host: Host, file: string, patterns: seq<string>): Outcome<bool>
  {
    if patterns == [] then Ok(false)
    else
      match host.isMatch(file, patterns[0])
      case Match => Ok(true)
      case NoMatch => AnyMatch(host, file, patterns[1..])
      case Throws => Thrown
  }

  /** The files kept by `Where(...).ToList()`: those whose `Any` equals `keepMatching`, or the exception. */
  function KeepWhere(host: Host, files: seq<string>, patterns: seq<string>, keepMatching: bool): Outcome<seq<string>>
  {
    if files == [] then Ok([])
    else
      match AnyMatch(host, files[0], patterns)
      case Thrown => Thrown
      case Ok(m) =>
        match KeepWhere(host, files[1..], patterns, keepMatching)
        case Thrown => Thrown
        case Ok(rest) => Ok((if m == keepMatching then [files[0]] else []) + rest)
  }

  /** Whether `file` matches some pattern. */
  predicate Matches(host: Host, file: string, patterns: seq<string>)
  {
    exists j :: 0 <= j < |patterns| && host.isMatch(file, patterns[j]) == Match
  }

  /** No pattern throws on any of the files. */
  predicate NoneThrows(host: Host, files: seq<string>, patterns: seq<string>)
  {
    forall i, j :: 0 <= i < |files| && 0 <= j < |patterns| ==> host.isMatch(files[i], patterns[j]) != Throws
  }

  /** Without exceptions, `Any` is "some pattern matches". */
  lemma {:induction false} AnyMatchMeaning(host: Host, file: string, patterns: seq<string>)
    requires forall j :: 0 <= j < |patterns| ==> host.isMatch(file, patterns[j]) != Throws
    ensures AnyMatch(host, file, patterns) == Ok(Matches(host, file, patterns))
  {
    if patterns != [] {
      assert forall j :: 0 <= j < |patterns[1..]| ==> patterns[1..][j] == patterns[j + 1];
      AnyMatchMeaning(host, file, patterns[1..]);
      if host.isMatch(file, patterns[0]) == NoMatch {
        if Matches(host, file, patterns) {
          var j :| 0 <= j < |patterns| && host.isMatch(file, patterns[j]) == Match;
          assert patterns[1..][j - 1] == patterns[j];
        }
      }
    }
  }

  /** The rest of the files inherits the absence of throwing matches. */
  lemma NoneThrowsTail(host: Host, files: seq<string>, patterns: seq<string>)
    requires files != [] && NoneThrows(host, files, patterns)
    ensures NoneThrows(host, files[1..], patterns)
    ensures forall j :: 0 <= j < |patterns| ==> host.isMatch(files[0], patterns[j]) != Throws
  {
    assert forall i :: 0 <= i < |files[1..]| ==> files[1..][i] == files[i + 1];
  }

  /** Without a throwing match, `Where(...).ToList()` returns a list. */
  lemma {:induction false} KeepWhereOk(host: Host, files: seq<string>, patterns: seq<string>, keepMatching: bool)
    requires NoneThrows(host, files, patterns)
    ensures KeepWhere(host, files, patterns, keepMatching).Ok?
  {
    if files != [] {
      NoneThrowsTail(host, files, patterns);
      AnyMatchMeaning(host, files[0], patterns);
      KeepWhereOk(host, files[1..], patterns, keepMatching);
    }
  }

  /** The number of copies of one file `f` the filter keeps. */
  lemma {:induction false} KeepWhereCountOf(host: Host, files: seq<string>, patterns: seq<string>, keepMatching: bool, f: string)
    requires NoneThrows(host, files, patterns)
    ensures KeepWhere(host, files, patterns, keepMatching).Ok?
    ensures multiset(KeepWhere(host, files, patterns, keepMatching).value)[f] ==
      if Matches(host, f, patterns) == keepMatching then multiset(files)[f] else 0
  {
    KeepWhereOk(host, files, patterns, keepMatching);
    if files != [] {
      NoneThrowsTail(host, files, patterns);
      AnyMatchMeaning(host, files[0], patterns);
      KeepWhereCountOf(host, files[1..], patterns, keepMatching, f);
      var rest := KeepWhere(host, files[1..], patterns, keepMatching).value;
      var r := KeepWhere(host, files, patterns, keepMatching).value;
      var head := if Matches(host, files[0], patterns) == keepMatching then [files[0]] else [];
      assert r == head + rest;
      assert files == [files[0]] + files[1..];
      assert multiset(files)[f] == multiset([files[0]])[f] + multiset(files[1..])[f];
      assert multiset(r)[f] == multiset(head)[f] + multiset(rest)[f];
    }
  }

  /**
    Without a throwing match the filter keeps every file whose match result
    equals `keepMatching`, as often as it was given, and no other file.
   */
  lemma KeepWhereCounts(host: Host, files: seq<string>, patterns: seq<string>, keepMatching: bool)
    requires NoneThrows(host, files, patterns)
    ensures KeepWhere(host, files, patterns, keepMatching).Ok?
    ensures var kept := KeepWhere(host, files, patterns, keepMatching).value;
      forall f :: multiset(kept)[f] == (if Matches(host, f, patterns) == keepMatching then multiset(files)[f] else 0)
  {
    KeepWhereOk(host, files, patterns, keepMatching);
    forall f
      ensures multiset(KeepWhere(host, files, patterns, keepMatching).value)[f] ==
        if Matches(host, f, patterns) == keepMatching then multiset(files)[f] else 0
    {
      KeepWhereCountOf(host, files, patterns, keepMatching, f);
    }
  }

  /**
    Without exceptions the filter keeps exactly the files whose match result
    equals `keepMatching`, each as often as it was given, in their original
    order.
   */
  lemma KeepWhereExact(host: Host, files: seq<string>, patterns: seq<string>, keepMatching: bool)
    requires NoneThrows(host, files, patterns)
    ensures var r := KeepWhere(host, files, patterns, keepMatching);
      && r.Ok?
      && IsSubsequence(r.value, files)
      && forall f :: multiset(r.value)[f] == if Matches(host, f, patterns) == keepMatching then multiset(files)[f] else 0
  {
    KeepWhereCounts(host, files, patterns, keepMatching);
    KeepWhereSubsequence(host, files, patterns, keepMatching);
  }

  /** What a white or black list filter returns or throws. */
  function ListFilter(files: seq<string>, listPath: string, host: Host, keepMatching: bool): Outcome<seq<string>>
  {
    if !host.fileExists(listPath) then Ok(files)
    else
      match host.readPatterns(listPath)
      case Unparseable => Thrown
      case Patterns(list) =>
        if list.Null? || list.value == [] then Ok(files)
        else
          match KeepWhere(host, files, list.value, keepMatching)
          case Thrown => Ok(files)
          case Ok(kept) => Ok(kept)
  }

  /** The white list filter: keeps the files that match at least one pattern. */
  function WhiteListFilter(files: seq<string>, whiteListJsonPath: string, host: Host): Outcome<seq<string>>
  {
    ListFilter(files, whiteListJsonPath, host, true)
  }

  /** The black list filter: keeps the files that match no pattern. */
  function BlackListFilter(files: seq<string>, blackListJsonPath: string, host: Host): Outcome<seq<string>>
  {
    ListFilter(files, blackListJsonPath, host, false)
  }

  /**
    A list filter throws exactly when the list file exists but cannot be
    read or deserialised; it returns its input unchanged when the file is
    missing, when the list is null or empty and when a match throws;
    whatever it returns is a subsequence of its input.
   */
  lemma {:induction false} ListFilterFallbacks(files: seq<string>, listPath: string, host: Host, keepMatching: bool)
    ensures var r := ListFilter(files, listPath, host, keepMatching);
      var read := host.readPatterns(listPath);
      && (r.Thrown? <==> host.fileExists(listPath) && read.Unparseable?)
      && (!host.fileExists(listPath) ==> r == Ok(files))
      && ((host.fileExists(listPath) && read.Patterns? && (read.list.Null? || read.list.value == [])) ==> r == Ok(files))
      && ((host.fileExists(listPath) && read.Patterns? && read.list.Some? &&
           KeepWhere(host, files, read.list.value, keepMatching).Thrown?) ==> r == Ok(files))
      && (r.Ok? ==> IsSubsequence(r.value, files))
  {
    SubsequenceOfItself(files);
    if host.fileExists(listPath) && host.readPatterns(listPath).Patterns? {
      var list := host.readPatterns(listPath).list;
      if list.Some? && list.value != [] {
        KeepWhereSubsequence(host, files, list.value, keepMatching);
      }
    }
  }

  lemma {:induction false} SubsequenceOfItself(s: seq<string>)
    ensures IsSubsequence(s, s)
  {
    if s != [] {
      SubsequenceOfItself(s[1..]);
    }
  }

  /** The files `Where` keeps are a subsequence of the input, whether or not a match throws elsewhere. */
  lemma {:induction false} KeepWhereSubsequence(host: Host, files: seq<string>, patterns: seq<string>, keepMatching: bool)
    ensures var r := KeepWhere(host, files, patterns, keepMatching);
      r.Ok? ==> IsSubsequence(r.value, files)
  {
    if files != [] {
      KeepWhereSubsequence(host, files[1..], patterns, keepMatching);
      var r := KeepWhere(host, files, patterns, keepMatching);
      if r.Ok? {
        var rest := KeepWhere(host, files[1..], patterns, keepMatching).value;
        if r.value != rest {
          assert r.value[0] == files[0] && r.value[1..] == rest;
        }
      }
    }
  }

  /**
    With a readable, non-empty list and no throwing match, the white list
    keeps exactly the matching files and the black list exactly the others,
    in their original order.
   */
  lemma FiltersExact(files: seq<string>, listPath: string, host: Host)
    requires host.fileExists(listPath) && host.readPatterns(listPath).Patterns?
    requires host.readPatterns(listPath).list.Some? && host.readPatterns(listPath).list.value != []
    requires NoneThrows(host, files, host.readPatterns(listPath).list.value)
    ensures var patterns := host.readPatterns(listPath).list.value;
      var white := WhiteListFilter(files, listPath, host);
      var black := BlackListFilter(files, listPath, host);
      && white.Ok? && black.Ok?
      && IsSubsequence(white.value, files) && IsSubsequence(black.value, files)
      && (forall f :: multiset(white.value)[f] == if Matches(host, f, patterns) then multiset(files)[f] else 0)
      && (forall f :: multiset(black.value)[f] == if Matches(host, f, patterns) then 0 else multiset(files)[f])
  {
    var patterns := host.readPatterns(listPath).list.value;
    KeepWhereExact(host, files, patterns, true);
    KeepWhereExact(host, files, patterns, false);
  }

  // ---------------------------------------------------------------------
  // File selection and the run
  // ---------------------------------------------------------------------

  /** The `-f` file, when it is given and exists. */
  function SingleFile(options: map<string, string>, host: Host): seq<string>
  {
    if "-f" in options && host.fileExists(options["-f"]) then [options["-f"]] else []
  }

  /** The `-d` listing (null for a missing directory), or an empty list without `-d`. */
  function Listed(options: map<string, string>, cfg: Config, host: Host): Nullable<seq<string>>
  {
    if "-d" in options then host.listFiles(options["-d"], cfg.signingSettings.signExtensions) else Some([])
  }

  /**
    The files to sign: the `-d` listing (with the configuration in force
    after `-c`), then the `-f` file when it exists, then the white list,
    then the black list. A missing `-d` directory throws.
   */
  function SelectFiles(options: map<string, string>, cfg: Config, host: Host): Outcome<seq<string>>
  {
    var listed := Listed(options, cfg, host);
    if listed.Null? then Thrown
    else
      var withFile := listed.value + SingleFile(options, host);
      var white := if "-w" in options then WhiteListFilter(withFile, options["-w"], host) else Ok(withFile);
      if white.Thrown? then Thrown
      else if "-b" in options then BlackListFilter(white.value, options["-b"], host)
      else white
  }

  /**
    A missing `-d` directory throws. With no lists the selection is the
    listing followed by the `-f` file when it exists; with no `-d` either,
    it is that file alone or nothing. In
    every case the selection is a subsequence of the listing followed by
    the `-f` file: the lists only remove files and never reorder them.
   */
  lemma SelectFilesTarget(options: map<string, string>, cfg: Config, host: Host)
    ensures Listed(options, cfg, host).Null? ==> SelectFiles(options, cfg, host) == Thrown
    ensures "-d" !in options && "-w" !in options && "-b" !in options ==>
      SelectFiles(options, cfg, host) == Ok(SingleFile(options, host))
    ensures "-w" !in options && "-b" !in options && Listed(options, cfg, host).Some? ==>
      SelectFiles(options, cfg, host) == Ok(Listed(options, cfg, host).value + SingleFile(options, host))
    ensures var listed := Listed(options, cfg, host);
      listed.Some? && SelectFiles(options, cfg, host).Ok? ==>
        IsSubsequence(SelectFiles(options, cfg, host).value, listed.value + SingleFile(options, host))
  {
    var listed := Listed(options, cfg, host);
    if listed.Some? {
      var withFile := listed.value + SingleFile(options, host);
      if "-d" !in options {
        assert withFile == SingleFile(options, host);
      }
      SubsequenceOfItself(withFile);
      if "-w" in options {
        ListFilterFallbacks(withFile, options["-w"], host, true);
        var white := WhiteListFilter(withFile, options["-w"], host);
        if white.Ok? && "-b" in options {
          ListFilterFallbacks(white.value, options["-b"], host, false);
          var black := BlackListFilter(white.value, options["-b"], host);
          if black.Ok? {
            SubsequenceTransitive(black.value, white.value, withFile);
          }
        }
      } else if "-b" in options {
        ListFilterFallbacks(withFile, options["-b"], host, false);
      }
    }
  }

  lemma {:induction false} SubsequenceTransitive(a: seq<string>, b: seq<string>, c: seq<string>)
    requires IsSubsequence(a, b) && IsSubsequence(b, c)
    ensures IsSubsequence(a, c)
    decreases |c|
  {
    if a != [] {
      assert c != [];
      if b[0] == c[0] && IsSubsequence(b[1..], c[1..]) {
        if a[0] == b[0] && IsSubsequence(a[1..], b[1..]) {
          SubsequenceTransitive(a[1..], b[1..], c[1..]);
        } else {
          SubsequenceTransitive(a, b[1..], c[1..]);
        }
      } else {
        SubsequenceTransitive(a, b, c[1..]);
      }
    }
  }

  /** What a run returns (or throws), the configuration it leaves and what it did to the files. */
  datatype RunResult<D> = RunResult(exit: Outcome<bool>, config: Config, disk: D, log: seq<Invocation>)

  /**
    A run: null arguments, a help switch, no positional argument or an
    unknown mode name end it with `false` before anything is read or signed;
    otherwise `-c` replaces the configuration, the files are selected and
    signed, and the run returns whether no file failed.
   */
  function RunSpec<D>(args: Nullable<seq<string>>, cfg: Config, p: Platform<D>, d: D): RunResult<D>
  {
    if args.Null? then RunResult(Ok(false), cfg, d, [])
    else
      var a := args.value;
      var switches := Pick(a, Switch, |a|);
      var positional := Pick(a, Positional, |a|);
      var options := OptionsUpTo(a, |a|);
      if "-h" in switches || "--help" in switches || positional == [] || ModeOf(positional[0]).Null? then
        RunResult(Ok(false), cfg, d, [])
      else
        var mode := ModeOf(positional[0]).value;
        var config := ConfigAfter(options, cfg, p.host);
        match SelectFiles(options, config, p.host)
        case Thrown => RunResult(Thrown, config, d, [])
        case Ok(files) =>
          var b := SignAllSpec(p, config, mode, files, d);
          RunResult(Ok(Failures(b.outcomes) == []), config, b.disk, b.log)
  }

  /** The early exits: each returns false with the configuration and the files untouched. */
  lemma RunEarlyExits<D>(args: Nullable<seq<string>>, cfg: Config, p: Platform<D>, d: D)
    requires args.Some? ==>
      var a := args.value;
      || "-h" in Pick(a, Switch, |a|) || "--help" in Pick(a, Switch, |a|)
      || (forall i :: 0 <= i < |a| ==> RoleAt(a, i) != Positional)
      || (Pick(a, Positional, |a|) != [] && ModeOf(Pick(a, Positional, |a|)[0]).Null?)
    ensures RunSpec(args, cfg, p, d) == RunResult(Ok(false), cfg, d, [])
  {
    if args.Some? {
      NoPositional(args.value, |args.value|);
    }
  }

  lemma {:induction false} NoPositional(args: seq<string>, n: nat)
    requires n <= |args|
    ensures Pick(args, Positional, n) == [] <==> forall i :: 0 <= i < n ==> RoleAt(args, i) != Positional
  {
    if n > 0 {
      NoPositional(args, n - 1);
    }
  }

  /** The arguments get past the early exits: no help switch and a known mode name first. */
  predicate PastEarlyExits(a: seq<string>)
  {
    && "-h" !in Pick(a, Switch, |a|) && "--help" !in Pick(a, Switch, |a|)
    && Pick(a, Positional, |a|) != [] && ModeOf(Pick(a, Positional, |a|)[0]).Some?
  }

  /** The configuration in force after `-c`: the imported file, or the one in force before. */
  function ConfigAfter(options: map<string, string>, cfg: Config, host: Host): Config
  {
    if "-c" in options then ImportConfig(options["-c"], host.fileExists, host.readConfig) else cfg
  }

  /**
    Past the early exits, the run keeps the mode named by the first
    positional argument and the configuration `-c` selects; it throws when
    the selection throws, without signing anything; otherwise it returns
    true exactly when no selected file failed, that is when every file was
    trusted on entry or became trusted within its trials.
   */
  lemma RunVerdict<D>(a: seq<string>, cfg: Config, p: Platform<D>, d: D)
    requires PastEarlyExits(a)
    ensures var options := OptionsUpTo(a, |a|);
      var config := ConfigAfter(options, cfg, p.host);
      var mode := ModeOf(Pick(a, Positional, |a|)[0]).value;
      var selected := SelectFiles(options, config, p.host);
      var r := RunSpec(Some(a), cfg, p, d);
      && r.config == config
      && (selected.Thrown? ==> r.exit == Thrown && r.disk == d && r.log == [])
      && (selected.Ok? ==>
            var b := SignAllSpec(p, config, mode, selected.value, d);
            && r.disk == b.disk && r.log == b.log
            && r.exit == Ok(forall i :: 0 <= i < |b.outcomes| ==> !Failed(b.outcomes[i])))
  {
    var options := OptionsUpTo(a, |a|);
    var config := ConfigAfter(options, cfg, p.host);
    var mode := ModeOf(Pick(a, Positional, |a|)[0]).value;
    var selected := SelectFiles(options, config, p.host);
    if selected.Ok? {
      FailuresEmpty(SignAllSpec(p, config, mode, selected.value, d).outcomes);
    }
  }

  /** When every selected file is already trusted, the run signs nothing and returns true. */
  lemma RunOnTrustedFiles<D>(a: seq<string>, cfg: Config, p: Platform<D>, d: D)
    requires PastEarlyExits(a)
    requires var options := OptionsUpTo(a, |a|);
      var selected := SelectFiles(options, ConfigAfter(options, cfg, p.host), p.host);
      selected.Ok? && forall i :: 0 <= i < |selected.value| ==> IsTrustedFile(p, d, selected.value[i])
    ensures var r := RunSpec(Some(a), cfg, p, d);
      r.exit == Ok(true) && r.disk == d && r.log == []
  {
    var options := OptionsUpTo(a, |a|);
    var config := ConfigAfter(options, cfg, p.host);
    TrustedBatchIsNoOp(p, config, ModeOf(Pick(a, Positional, |a|)[0]).value, SelectFiles(options, config, p.host).value, d);
  }

  class Program {
    /** The signer the run creates for the selected mode. */
    var signer: Signer?

    constructor ()
      ensures signer == null
    {
      signer := null;
    }

    /**
      Parses the arguments, chooses the mode, applies `-c`, selects the
      files, signs them and returns whether none failed.
     */
    method Run<D>(args: Nullable<seq<string>>, store: ConfigStore, p: Platform<D>, d0: D)
      returns (exit: Outcome<bool>, d: D, log: seq<Invocation>)
      modifies this, store
      ensures var r := RunSpec(args, old(store.instance), p, d0);
        exit == r.exit && store.instance == r.config && d == r.disk && log == r.log
      ensures args.Some? && PastEarlyExits(args.value) ==>
        signer != null && signer.signingType == ModeOf(Pick(args.value, Positional, |args.value|)[0]).value
      ensures !(args.Some? && PastEarlyExits(args.value)) ==> signer == old(signer)
    {
      d, log := d0, [];
      if args.Null? {
        return Ok(false), d, log;
      }
      var mapper := new ArgsMapper(args.value);
      if "-h" in mapper.switchList || "--help" in mapper.switchList {
        return Ok(false), d, log;
      }
      if |mapper.argsList| == 0 {
        return Ok(false), d, log;
      }
      var mode := ModeOf(mapper.argsList[0]);
      if mode.Null? {
        return Ok(false), d, log;
      }
      var s := new Signer(mode.value);
      signer := s;

      var configPath := mapper.GetOption("-c", Null);
      if configPath != Null {
        store.SetConfig(configPath.value, p.host.fileExists, p.host.readConfig);
      }
      assert store.instance == ConfigAfter(mapper.optionDictionary, old(store.instance), p.host);

      var selected := SelectSignFiles(mapper, store.instance, p.host);
      if selected.Thrown? {
        return Thrown, d, log;
      }
      var errorList;
      errorList, d, log := s.SignAll(p, store.instance, selected.value, d0);
      SignFromStart(p, store.instance, mode.value, selected.value, d0);
      exit := Ok(errorList == []);
    }

    /** The file selection of a run, step by step: listing, single file, white list, black list. */
    method SelectSignFiles(mapper: ArgsMapper, cfg: Config, host: Host) returns (selected: Outcome<seq<string>>)
      ensures selected == SelectFiles(mapper.optionDictionary, cfg, host)
    {
      var signFileList: seq<string> := [];
      var directory := mapper.GetOption("-d", Null);
      if directory != Null {
        var listed := host.listFiles(directory.value, cfg.signingSettings.signExtensions);
        if listed.Null? {
          return Thrown;
        }
        signFileList := listed.value;
      }
      ghost var listing := signFileList;
      assert Listed(mapper.optionDictionary, cfg, host) == Some(listing);
      var file := mapper.GetOption("-f", Null);
      if file != Null {
        if host.fileExists(file.value) {
          signFileList := signFileList + [file.value];
        }
      }
      assert signFileList == listing + SingleFile(mapper.optionDictionary, host);
      var whiteList := mapper.GetOption("-w", Null);
      if whiteList != Null {
        var filtered := WhiteListFilter(signFileList, whiteList.value, host);
        if filtered.Thrown? {
          return Thrown;
        }
        signFileList := filtered.value;
      }
      var blackList := mapper.GetOption("-b", Null);
      if blackList != Null {
        var filtered := BlackListFilter(signFileList, blackList.value, host);
        if filtered.Thrown? {
          return Thrown;
        }
        signFileList := filtered.value;
      }
      selected := Ok(signFileList);
    }
  }
}
