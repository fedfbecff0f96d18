/**
  The signing engine: the trust check on a quote-stripped path, the
  signing-tool command line, one signing trial (one stage, or two in Dual
  mode), the bounded do-while retry per file and the batch over a file list.

  The functions `Trial`, `Attempts`, `SignOne` and `SignAllSpec` say what
  the engine does; the methods of class `Signer` do it step by step and
  are proved to agree with them.
 */
module Signing {
  import opened Wrappers
  import opened Config
  import opened Host

  lemma AppendAssociative<T>(a: seq<T>, b: seq<T>, c: seq<T>)
    ensures a + (b + c) == (a + b) + c
  {
  }

  function Max(a: int, b: int): int { if a < b then b else a }

  predicate StartsWith(s: string, prefix: string) { |prefix| <= |s| && s[..|prefix|] == prefix }

  predicate EndsWith(s: string, suffix: string) { |suffix| <= |s| && s[|s| - |suffix|..] == suffix }

  // ---------------------------------------------------------------------
  // Trust check
  // ---------------------------------------------------------------------

  /**
    The path handed to the trust check: one leading double quote removed if
    present, then one trailing double quote removed if present.
   */
  function StripQuotes(filename: string): (file: string)
    ensures var k := if |filename| > 0 && filename[0] == '"' then 1 else 0;
      && k + |file| <= |filename| <= k + |file| + 1
      && file == filename[k..k + |file|]
      && (|filename| == k + |file| + 1 <==> |filename| > k && filename[|filename| - 1] == '"')
  {
    var s := if |filename| > 0 && filename[0] == '"' then filename[1..] else filename;
    if |s| > 0 && s[|s| - 1] == '"' then s[..|s| - 1] else s
  }

  /** Quote stripping undoes the quoting of a path. */
  lemma StripQuotesOfQuoted(path: string)
    ensures StripQuotes("\"" + path + "\"") == path
  {
    var q := "\"" + path + "\"";
    assert q[0] == '"' && q[1..] == path + "\"";
  }

  /** A path with no quote at either end reaches the trust check unchanged. */
  lemma StripQuotesOfUnquoted(path: string)
    requires |path| > 0 ==> path[0] != '"' && path[|path| - 1] != '"'
    ensures StripQuotes(path) == path
  {
  }

  /** The trust check: an empty name is never trusted; otherwise the oracle decides on the stripped path. */
  function IsTrustedFile<D>(p: Platform<D>, d: D, filename: string): bool
  {
    filename != "" && p.verifyTrust(d, StripQuotes(filename))
  }

  // ---------------------------------------------------------------------
  // Signing-tool command line
  // ---------------------------------------------------------------------

  /** How string interpolation renders a possibly-null string. */
  function Text(s: Nullable<string>): string { if s.Some? then s.value else "" }

  /** One clause of the signing-tool argument string, in the order the builder appends them. */
  datatype Clause =
    | Header(storeName: string, subjectName: string, thumbprint: string)
    | Timestamp(url: string)
    | RfcTimestamp(url: string)
    | CrossCert(path: string)
    | AppendSignature
    | Description(name: string)
    | Target(path: string)

  function ClauseText(c: Clause): string
  {
    match c
    case Header(store, subject, thumbprint) =>
      "sign /v /s \"" + store + "\" /n \"" + subject + "\" /sha1 \"" + thumbprint + "\""
    case Timestamp(url) => " /t \"" + url + "\""
    case RfcTimestamp(url) => " /tr \"" + url + "\" /fd sha256 /td sha256"
    case CrossCert(path) => " /ac \"" + path + "\""
    case AppendSignature => " /as"
    case Description(name) => " /d " + name
    case Target(path) => " " + path
  }

  function Render(cs: seq<Clause>): string
  {
    if cs == [] then "" else ClauseText(cs[0]) + Render(cs[1..])
  }

  lemma {:induction false} RenderAppend(a: seq<Clause>, b: seq<Clause>)
    ensures Render(a + b) == Render(a) + Render(b)
  {
    if a == [] {
      assert a + b == b;
    } else {
      assert (a + b)[0] == a[0] && (a + b)[1..] == a[1..] + b;
      RenderAppend(a[1..], b);
    }
  }

  /** Position of the optional clauses in the argument string. */
  function OptionalRank(c: Clause): nat
  {
    match c
    case CrossCert(_) => 0
    case AppendSignature => 1
    case Description(_) => 2
    case _ => 3
  }

  /** The timestamp clause of a SHA1 stage (`/t`) or of a SHA2 stage (`/tr`). */
  function TimestampClause(cert: CertificateInformation, signingType: SigningType): Clause
  {
    if signingType == SHA1 then Timestamp(Text(cert.timestampUrl)) else RfcTimestamp(Text(cert.timestampUrl))
  }

  /**
    The clauses of the argument string for one stage. `extension` is
    `Path.GetExtension(signFile)`, `fileName` is `Path.GetFileName(signFile)`
    and `crossCertExists` is `File.Exists` of the certificate's cross-certificate path.
   */
  function ArgumentClauses(
    cert: CertificateInformation, signingType: SigningType, kernelModeExtensions: seq<string>,
    extension: string, crossCertExists: bool, fileName: string, signFile: string, isAppend: bool): seq<Clause>
  {
    var header := [Header(Text(cert.storeName), Text(cert.subjectName), Text(cert.thumbprint))];
    var timestamp := if signingType == SHA1 || signingType == SHA2 then [TimestampClause(cert, signingType)] else [];
    var crossCert := if extension in kernelModeExtensions && crossCertExists then [CrossCert(Text(cert.crossCertPath))] else [];
    var append := if isAppend then [AppendSignature] else [];
    var description := if extension == ".msi" then [Description(fileName)] else [];
    header + timestamp + crossCert + append + description + [Target(signFile)]
  }

  /**
    The layout of the clause list for a SHA1 or SHA2 stage: the certificate
    header, the digest's timestamp clause, one clause per optional part that
    applies, and the file path last.
   */
  lemma ArgumentClausesLayout(
    cert: CertificateInformation, signingType: SigningType, kernelModeExtensions: seq<string>,
    extension: string, crossCertExists: bool, fileName: string, signFile: string, isAppend: bool)
    requires signingType == SHA1 || signingType == SHA2
    ensures var cs := ArgumentClauses(cert, signingType, kernelModeExtensions, extension, crossCertExists, fileName, signFile, isAppend);
      && |cs| == 3 + (if extension in kernelModeExtensions && crossCertExists then 1 else 0)
                   + (if isAppend then 1 else 0) + (if extension == ".msi" then 1 else 0)
      && cs[0] == Header(Text(cert.storeName), Text(cert.subjectName), Text(cert.thumbprint))
      && cs[1] == TimestampClause(cert, signingType)
      && cs[|cs| - 1] == Target(signFile)
  {
  }

  /**
    `/ac` with the cross certificate appears exactly when the extension is a
    kernel-mode one and the cross-certificate file exists, `/as` exactly for
    an appended signature, `/d` with the file name exactly for `.msi`.
   */
  lemma ArgumentClausesOptional(
    cert: CertificateInformation, signingType: SigningType, kernelModeExtensions: seq<string>,
    extension: string, crossCertExists: bool, fileName: string, signFile: string, isAppend: bool)
    requires signingType == SHA1 || signingType == SHA2
    ensures var cs := ArgumentClauses(cert, signingType, kernelModeExtensions, extension, crossCertExists, fileName, signFile, isAppend);
      && (CrossCert(Text(cert.crossCertPath)) in cs <==> extension in kernelModeExtensions && crossCertExists)
      && (AppendSignature in cs <==> isAppend)
      && (Description(fileName) in cs <==> extension == ".msi")
  {
  }

  /** After the timestamp clause the clauses come in the order `/ac`, `/as`, `/d`, path. */
  lemma ArgumentClausesOrder(
    cert: CertificateInformation, signingType: SigningType, kernelModeExtensions: seq<string>,
    extension: string, crossCertExists: bool, fileName: string, signFile: string, isAppend: bool)
    requires signingType == SHA1 || signingType == SHA2
    ensures var cs := ArgumentClauses(cert, signingType, kernelModeExtensions, extension, crossCertExists, fileName, signFile, isAppend);
      forall i :: 2 <= i < |cs| - 1 ==> OptionalRank(cs[i]) < OptionalRank(cs[i + 1])
  {
  }

  /** The header every argument string starts with. */
  function HeaderText(cert: CertificateInformation): string
  {
    ClauseText(Header(Text(cert.storeName), Text(cert.subjectName), Text(cert.thumbprint)))
  }

  /** The timestamp part that follows the header: `/t` for SHA1, RFC 3161 `/tr` with sha256 digests for SHA2. */
  function TimestampText(cert: CertificateInformation, signingType: SigningType): string
  {
    if signingType == SHA1 then " /t \"" + Text(cert.timestampUrl) + "\""
    else " /tr \"" + Text(cert.timestampUrl) + "\" /fd sha256 /td sha256"
  }

  /**
    The process the signing tool runs as for one stage: the configured tool
    path and the rendered argument clauses, built from the certificate the
    configuration holds for `signingType`.
   */
  function GenerateProcessStartInfo(
    host: Host, cfg: Config, signingType: SigningType, signFile: string, isAppend: bool): (r: ProcessStartInfo)
    requires signingType == SHA1 || signingType == SHA2
  {
    var cert := cfg.CertInfo(signingType).value;
    var crossCertExists := cert.crossCertPath.Some? && host.fileExists(cert.crossCertPath.value);
    ProcessStartInfo(
      cfg.signingSettings.signToolPath,
      Render(ArgumentClauses(cert, signingType, cfg.signingSettings.kernelModeExtensions,
        host.extension(signFile), crossCertExists, host.fileName(signFile), signFile, isAppend)))
  }

  lemma PrefixOfConcat(a: string, b: string)
    ensures StartsWith(a + b, a)
  {
    assert (a + b)[..|a|] == a;
  }

  lemma SuffixOfConcat(a: string, b: string)
    ensures EndsWith(a + b, b)
  {
    assert (a + b)[|a + b| - |b|..] == b;
  }

  /** A rendered clause list starts with its first two clauses. */
  lemma RenderStart(cs: seq<Clause>)
    requires |cs| >= 2
    ensures StartsWith(Render(cs), ClauseText(cs[0]) + ClauseText(cs[1]))
  {
    var front, back := cs[..2], cs[2..];
    assert cs == front + back;
    RenderAppend(front, back);
    assert front[1..] == [cs[1]];
    assert Render([cs[1]]) == ClauseText(cs[1]) + Render([]);
    PrefixOfConcat(Render(front), Render(back));
  }

  lemma EndsWithAfter(a: string, b: string, suffix: string)
    requires EndsWith(b, suffix)
    ensures EndsWith(a + b, suffix)
  {
    assert (a + b)[|a + b| - |suffix|..] == b[|b| - |suffix|..];
  }

  /** A rendered clause list ends with its last clause. */
  lemma {:induction false} RenderEnd(cs: seq<Clause>)
    requires |cs| >= 1
    ensures EndsWith(Render(cs), ClauseText(cs[|cs| - 1]))
  {
    if |cs| == 1 {
      assert Render(cs) == ClauseText(cs[0]) + Render([]);
      SuffixOfConcat("", ClauseText(cs[0]));
      assert "" + ClauseText(cs[0]) == Render(cs);
    } else {
      RenderEnd(cs[1..]);
      assert cs[1..][|cs[1..]| - 1] == cs[|cs| - 1];
      EndsWithAfter(ClauseText(cs[0]), Render(cs[1..]), ClauseText(cs[|cs| - 1]));
    }
  }

  /**
    The tool is the configured path, and the arguments start with the
    certificate header and the digest's timestamp part.
   */
  lemma ArgumentsStart(host: Host, cfg: Config, signingType: SigningType, signFile: string, isAppend: bool)
    requires signingType == SHA1 || signingType == SHA2
    ensures var r := GenerateProcessStartInfo(host, cfg, signingType, signFile, isAppend);
      var cert := cfg.CertInfo(signingType).value;
      && r.fileName == cfg.signingSettings.signToolPath
      && StartsWith(r.arguments, HeaderText(cert) + TimestampText(cert, signingType))
  {
    var cert := cfg.CertInfo(signingType).value;
    var crossCertExists := cert.crossCertPath.Some? && host.fileExists(cert.crossCertPath.value);
    var cs := ArgumentClauses(cert, signingType, cfg.signingSettings.kernelModeExtensions,
      host.extension(signFile), crossCertExists, host.fileName(signFile), signFile, isAppend);
    ArgumentClausesLayout(cert, signingType, cfg.signingSettings.kernelModeExtensions,
      host.extension(signFile), crossCertExists, host.fileName(signFile), signFile, isAppend);
    RenderStart(cs);
    assert ClauseText(cs[0]) == HeaderText(cert);
    assert ClauseText(cs[1]) == TimestampText(cert, signingType);
  }

  /** The arguments end with the unquoted file path. */
  lemma ArgumentsEnd(host: Host, cfg: Config, signingType: SigningType, signFile: string, isAppend: bool)
    requires signingType == SHA1 || signingType == SHA2
    ensures EndsWith(GenerateProcessStartInfo(host, cfg, signingType, signFile, isAppend).arguments, " " + signFile)
  {
    var cert := cfg.CertInfo(signingType).value;
    var crossCertExists := cert.crossCertPath.Some? && host.fileExists(cert.crossCertPath.value);
    var cs := ArgumentClauses(cert, signingType, cfg.signingSettings.kernelModeExtensions,
      host.extension(signFile), crossCertExists, host.fileName(signFile), signFile, isAppend);
    ArgumentClausesLayout(cert, signingType, cfg.signingSettings.kernelModeExtensions,
      host.extension(signFile), crossCertExists, host.fileName(signFile), signFile, isAppend);
    RenderEnd(cs);
  }

  /**
    The optional clauses of the command line: `/ac` with the cross
    certificate exactly when the extension is a kernel-mode one and the
    cross-certificate file exists, `/as` exactly for an appended signature,
    `/d` with the file name exactly for the `.msi` extension.
   */
  lemma ArgumentsOptionalClauses(host: Host, cfg: Config, signingType: SigningType, signFile: string, isAppend: bool)
    requires signingType == SHA1 || signingType == SHA2
    ensures var cert := cfg.CertInfo(signingType).value;
      var ext := host.extension(signFile);
      var cs := ArgumentClauses(cert, signingType, cfg.signingSettings.kernelModeExtensions,
        ext, cert.crossCertPath.Some? && host.fileExists(cert.crossCertPath.value), host.fileName(signFile), signFile, isAppend);
      && GenerateProcessStartInfo(host, cfg, signingType, signFile, isAppend).arguments == Render(cs)
      && (CrossCert(Text(cert.crossCertPath)) in cs <==>
            ext in cfg.signingSettings.kernelModeExtensions && cert.crossCertPath.Some? && host.fileExists(cert.crossCertPath.value))
      && (AppendSignature in cs <==> isAppend)
      && (Description(host.fileName(signFile)) in cs <==> ext == ".msi")
  {
    var cert := cfg.CertInfo(signingType).value;
    ArgumentClausesOptional(cert, signingType, cfg.signingSettings.kernelModeExtensions, host.extension(signFile),
      cert.crossCertPath.Some? && host.fileExists(cert.crossCertPath.value), host.fileName(signFile), signFile, isAppend);
  }

  // ---------------------------------------------------------------------
  // Stages, trials and the effect of the signing tool
  // ---------------------------------------------------------------------

  /** One signing-tool invocation: digest, append flag, the process it ran and how long it was waited for. */
  datatype Stage = Stage(digest: SigningType, isAppend: bool)

  datatype Invocation = Invocation(stage: Stage, startInfo: ProcessStartInfo, timeoutMilliseconds: int)

  /** The invocation that signs `signFile` for `stage`. */
  function Invoke(host: Host, cfg: Config, stage: Stage, signFile: string): (inv: Invocation)
    requires stage.digest == SHA1 || stage.digest == SHA2
  {
    Invocation(stage, GenerateProcessStartInfo(host, cfg, stage.digest, signFile, stage.isAppend),
      cfg.signingSettings.signtoolProcessTimeoutMilliseconds)
  }

  /** The state after running the logged invocations in order; the process status plays no part. */
  function Replay<D>(p: Platform<D>, d: D, log: seq<Invocation>): D
  {
    if log == [] then d else Replay(p, p.runTool(d, log[0].startInfo, log[0].timeoutMilliseconds).disk, log[1..])
  }

  lemma {:induction false} ReplayAppend<D>(p: Platform<D>, d: D, a: seq<Invocation>, b: seq<Invocation>)
    ensures Replay(p, d, a + b) == Replay(p, Replay(p, d, a), b)
  {
    if a == [] {
      assert a + b == b;
    } else {
      assert (a + b)[0] == a[0] && (a + b)[1..] == a[1..] + b;
      ReplayAppend(p, p.runTool(d, a[0].startInfo, a[0].timeoutMilliseconds).disk, a[1..], b);
    }
  }

  /** The first stage of a trial: SHA1 for Dual mode, otherwise the mode's own digest; never appended. */
  function FirstStage(signingType: SigningType): Stage
    requires signingType != None
  {
    if signingType == Dual then Stage(SHA1, false) else Stage(signingType, false)
  }

  datatype TrialRun<D> = TrialRun(ok: bool, disk: D, log: seq<Invocation>)

  /** One signing trial: the first stage, then the appended SHA2 stage in Dual mode when the first made the file trusted. */
  function Trial<D>(p: Platform<D>, cfg: Config, signingType: SigningType, signFile: string, d: D): TrialRun<D>
    requires signingType != None
  {
    var first := Invoke(p.host, cfg, FirstStage(signingType), signFile);
    var d1 := p.runTool(d, first.startInfo, first.timeoutMilliseconds).disk;
    if signingType == Dual && IsTrustedFile(p, d1, signFile) then
      var second := Invoke(p.host, cfg, Stage(SHA2, true), signFile);
      var d2 := p.runTool(d1, second.startInfo, second.timeoutMilliseconds).disk;
      TrialRun(IsTrustedFile(p, d2, signFile), d2, [first, second])
    else
      TrialRun(IsTrustedFile(p, d1, signFile), d1, [first])
  }

  /** The outcome of a trial is the trust check in the state its invocations lead to. */
  lemma TrialEffect<D>(p: Platform<D>, cfg: Config, signingType: SigningType, signFile: string, d: D)
    requires signingType != None
    ensures var r := Trial(p, cfg, signingType, signFile, d);
      && r.disk == Replay(p, d, r.log)
      && r.ok == IsTrustedFile(p, r.disk, signFile)
  {
    var first := Invoke(p.host, cfg, FirstStage(signingType), signFile);
    var d1 := p.runTool(d, first.startInfo, first.timeoutMilliseconds).disk;
    assert Replay(p, d, [first]) == d1;
    if signingType == Dual && IsTrustedFile(p, d1, signFile) {
      var second := Invoke(p.host, cfg, Stage(SHA2, true), signFile);
      var d2 := p.runTool(d1, second.startInfo, second.timeoutMilliseconds).disk;
      assert Replay(p, d1, [second]) == d2;
      assert [first, second][0] == first && [first, second][1..] == [second];
    }
  }

  /**
    In SHA1 or SHA2 mode a trial is one invocation with the mode's digest
    and no append; in Dual mode the first is SHA1 without append, and the
    appended SHA2 stage runs exactly when the file is trusted after it.
   */
  lemma TrialStages<D>(p: Platform<D>, cfg: Config, signingType: SigningType, signFile: string, d: D)
    requires signingType != None
    ensures var r := Trial(p, cfg, signingType, signFile, d);
      && (|r.log| == 1 || |r.log| == 2)
      && r.log[0].stage == FirstStage(signingType)
      && (signingType != Dual ==> |r.log| == 1)
      && (signingType == Dual ==> (|r.log| == 2 <==> IsTrustedFile(p, Replay(p, d, r.log[..1]), signFile)))
      && (|r.log| == 2 ==> r.log[1].stage == Stage(SHA2, true))
  {
    var first := Invoke(p.host, cfg, FirstStage(signingType), signFile);
    var d1 := p.runTool(d, first.startInfo, first.timeoutMilliseconds).disk;
    assert Replay(p, d, [first]) == d1;
    if signingType == Dual && IsTrustedFile(p, d1, signFile) {
      var second := Invoke(p.host, cfg, Stage(SHA2, true), signFile);
      assert [first, second][..1] == [first];
    }
  }

  /**
    Every invocation of a trial is the one built for its own stage, on the
    trial's file, and is waited for as long as the configuration says.
   */
  lemma TrialInvocations<D>(p: Platform<D>, cfg: Config, signingType: SigningType, signFile: string, d: D)
    requires signingType != None
    ensures var r := Trial(p, cfg, signingType, signFile, d);
      forall k :: 0 <= k < |r.log| ==>
        && (r.log[k].stage.digest == SHA1 || r.log[k].stage.digest == SHA2)
        && r.log[k] == Invoke(p.host, cfg, r.log[k].stage, signFile)
        && r.log[k].timeoutMilliseconds == cfg.signingSettings.signtoolProcessTimeoutMilliseconds
  {
  }

  // ---------------------------------------------------------------------
  // Retry loop and batch
  // ---------------------------------------------------------------------

  /** What signing one file did: skipped as trusted, or the result of each trial in order. */
  datatype FileRun<D> = FileRun(alreadyTrusted: bool, results: seq<bool>, disk: D, log: seq<Invocation>)

  function Extend<D>(results: seq<bool>, log: seq<Invocation>, r: FileRun<D>): FileRun<D>
  {
    FileRun(r.alreadyTrusted, results + r.results, r.disk, log + r.log)
  }

  lemma ExtendTwice<D>(results: seq<bool>, log: seq<Invocation>, moreResults: seq<bool>, moreLog: seq<Invocation>, r: FileRun<D>)
    ensures Extend(results, log, Extend(moreResults, moreLog, r)) == Extend(results + moreResults, log + moreLog, r)
  {
    assert results + (moreResults + r.results) == (results + moreResults) + r.results;
    assert log + (moreLog + r.log) == (log + moreLog) + r.log;
  }

  /** The trials of one file in one mode, as a function of the state each starts from. */
  function TrialOf<D>(p: Platform<D>, cfg: Config, signingType: SigningType, signFile: string): D -> TrialRun<D>
    requires signingType != None
  {
    d => Trial(p, cfg, signingType, signFile, d)
  }

  /**
    The do-while retry loop entered after `trialCount` failed trials: one
    more trial, then another while it failed and the count stays below the
    trial limit. The loop only sees a trial's result, state and invocations,
    so it is stated for any trial function.
   */
  function Attempts<D>(trial: D -> TrialRun<D>, trialLimit: int, trialCount: nat, d: D): FileRun<D>
    decreases trialLimit - trialCount
  {
    var t := trial(d);
    if !t.ok && trialCount + 1 < trialLimit then
      Extend([false], t.log, Attempts(trial, trialLimit, trialCount + 1, t.disk))
    else
      FileRun(false, [t.ok], t.disk, t.log)
  }

  /** The results after a prepended one are the earlier results, shifted by one. */
  lemma PrependResult(b: bool, results: seq<bool>)
    ensures |[b] + results| == |results| + 1 && ([b] + results)[0] == b
    ensures forall k :: 1 <= k < |results| + 1 ==> ([b] + results)[k] == results[k - 1]
  {
  }

  /**
    The retry loop never reports a skipped file; at least one trial runs,
    even when the limit is not positive; every trial but the last failed;
    the last one succeeded or the count reached the limit.
   */
  lemma {:induction false} AttemptsCount<D>(trial: D -> TrialRun<D>, trialLimit: int, trialCount: nat, d: D)
    ensures var r := Attempts(trial, trialLimit, trialCount, d);
      && !r.alreadyTrusted
      && 1 <= |r.results| && trialCount + |r.results| <= Max(trialCount + 1, trialLimit)
      && (forall k :: 0 <= k < |r.results| - 1 ==> !r.results[k])
      && (r.results[|r.results| - 1] || trialCount + |r.results| >= trialLimit)
    decreases trialLimit - trialCount
  {
    var t := trial(d);
    if !t.ok && trialCount + 1 < trialLimit {
      var rest := Attempts(trial, trialLimit, trialCount + 1, t.disk);
      AttemptsCount(trial, trialLimit, trialCount + 1, t.disk);
      PrependResult(false, rest.results);
    }
  }

  /** Every trial ends in the state its invocations lead to, and its result is the trust check there. */
  ghost predicate TrialsTracked<D(!new)>(p: Platform<D>, trial: D -> TrialRun<D>, signFile: string)
  {
    forall d :: trial(d).disk == Replay(p, d, trial(d).log) && trial(d).ok == IsTrustedFile(p, trial(d).disk, signFile)
  }

  /** The trials of `Trial` are tracked, by its effect in every state. */
  lemma TrialOfTracked<D(!new)>(p: Platform<D>, cfg: Config, signingType: SigningType, signFile: string)
    requires signingType != None
    ensures TrialsTracked(p, TrialOf(p, cfg, signingType, signFile), signFile)
  {
    forall d {
      TrialEffect(p, cfg, signingType, signFile, d);
    }
  }

  /**
    The last result of the retry loop is the trust check on its final state,
    which is the state the logged invocations lead to.
   */
  lemma {:induction false} AttemptsEffect<D(!new)>(p: Platform<D>, trial: D -> TrialRun<D>, signFile: string, trialLimit: int, trialCount: nat, d: D)
    requires TrialsTracked(p, trial, signFile)
    ensures var r := Attempts(trial, trialLimit, trialCount, d);
      && |r.results| >= 1
      && r.results[|r.results| - 1] == IsTrustedFile(p, r.disk, signFile)
      && r.disk == Replay(p, d, r.log)
    decreases trialLimit - trialCount
  {
    var t := trial(d);
    if !t.ok && trialCount + 1 < trialLimit {
      var rest := Attempts(trial, trialLimit, trialCount + 1, t.disk);
      AttemptsEffect(p, trial, signFile, trialLimit, trialCount + 1, t.disk);
      PrependResult(false, rest.results);
      ReplayAppend(p, d, t.log, rest.log);
    }
  }

  /** From its start, the retry loop succeeds exactly when the file is trusted in the state its invocations lead to. */
  lemma AttemptsOutcome<D(!new)>(p: Platform<D>, trial: D -> TrialRun<D>, signFile: string, trialLimit: int, d: D)
    requires TrialsTracked(p, trial, signFile)
    ensures var r := Attempts(trial, trialLimit, 0, d);
      && !r.alreadyTrusted && |r.results| >= 1
      && r.results[|r.results| - 1] == IsTrustedFile(p, r.disk, signFile)
      && r.disk == Replay(p, d, r.log)
  {
    AttemptsCount(trial, trialLimit, 0, d);
    AttemptsEffect(p, trial, signFile, trialLimit, 0, d);
  }

  /**
    One pass of the retry loop's body: after the trial numbered
    `trialCount`, the attempts still to come are the next ones when the
    trial failed below the limit, and none otherwise.
   */
  lemma RetryStep<D>(trial: D -> TrialRun<D>, trialLimit: int, trialCount: nat,
                     d: D, results: seq<bool>, log: seq<Invocation>, t: TrialRun<D>)
    requires trialCount >= 1 && t == trial(d)
    ensures Extend(results, log, Attempts(trial, trialLimit, trialCount - 1, d)) ==
      if !t.ok && trialCount < trialLimit
      then Extend(results + [false], log + t.log, Attempts(trial, trialLimit, trialCount, t.disk))
      else FileRun(false, results + [t.ok], t.disk, log + t.log)
  {
    if !t.ok && trialCount < trialLimit {
      ExtendTwice(results, log, [false], t.log, Attempts(trial, trialLimit, trialCount, t.disk));
    }
  }

  /**
    The retry loop continued from its state after `trialCount` trials with
    these results and invocations: another trial while the last one failed
    below the limit, otherwise the run as it stands.
   */
  function Continue<D>(trial: D -> TrialRun<D>, trialLimit: int, trialCount: nat, results: seq<bool>, log: seq<Invocation>, d: D): FileRun<D>
    requires |results| >= 1
    decreases trialLimit - trialCount
  {
    if !results[|results| - 1] && trialCount < trialLimit then
      var t := trial(d);
      Continue(trial, trialLimit, trialCount + 1, results + [t.ok], log + t.log, t.disk)
    else FileRun(false, results, d, log)
  }

  /** Continuing the loop appends the attempts still to come to the trials so far. */
  lemma {:induction false} ContinueIsAttempts<D>(trial: D -> TrialRun<D>, trialLimit: int, trialCount: nat,
                                                 results: seq<bool>, log: seq<Invocation>, d: D)
    requires |results| >= 1
    ensures Continue(trial, trialLimit, trialCount, results, log, d) ==
      if !results[|results| - 1] && trialCount < trialLimit
      then Extend(results, log, Attempts(trial, trialLimit, trialCount, d))
      else FileRun(false, results, d, log)
    decreases trialLimit - trialCount
  {
    if !results[|results| - 1] && trialCount < trialLimit {
      var t := trial(d);
      ContinueIsAttempts(trial, trialLimit, trialCount + 1, results + [t.ok], log + t.log, t.disk);
      RetryStep(trial, trialLimit, trialCount + 1, d, results, log, t);
    }
  }

  /** The whole retry loop is the first trial, then the loop continued from it. */
  lemma AttemptsStart<D>(trial: D -> TrialRun<D>, trialLimit: int, d: D, t: TrialRun<D>)
    requires t == trial(d)
    ensures Attempts(trial, trialLimit, 0, d) == Continue(trial, trialLimit, 1, [t.ok], t.log, t.disk)
  {
    ContinueIsAttempts(trial, trialLimit, 1, [t.ok], t.log, t.disk);
  }

  /** Whether a file ended trusted: skipped as already trusted, or its last trial succeeded. */
  predicate Succeeded<D>(r: FileRun<D>)
  {
    r.alreadyTrusted || (|r.results| > 0 && r.results[|r.results| - 1])
  }

  /** Signing one file of the batch: skipped when already trusted, otherwise the retry loop. */
  function SignOne<D>(p: Platform<D>, cfg: Config, signingType: SigningType, signFile: string, d: D): FileRun<D>
    requires signingType != None
  {
    if IsTrustedFile(p, d, signFile) then FileRun(true, [], d, [])
    else Attempts(TrialOf(p, cfg, signingType, signFile), cfg.signingSettings.trialLimit, 0, d)
  }

  /** The retry loop from its start: between one and max(1, limit) trials, stopping at the first success. */
  lemma AttemptsFromStart<D>(trial: D -> TrialRun<D>, trialLimit: int, d: D)
    ensures var r := Attempts(trial, trialLimit, 0, d);
      && !r.alreadyTrusted
      && 1 <= |r.results| <= Max(1, trialLimit)
      && (forall k :: 0 <= k < |r.results| - 1 ==> !r.results[k])
      && (r.results[|r.results| - 1] || |r.results| == Max(1, trialLimit))
  {
    AttemptsCount(trial, trialLimit, 0, d);
  }

  /**
    A file the trust check accepts is skipped with no invocation; any other
    gets between one and max(1, trial limit) trials, stopping at the first
    success.
   */
  lemma SignOneTrials<D>(p: Platform<D>, cfg: Config, signingType: SigningType, signFile: string, d: D)
    requires signingType != None
    ensures var r := SignOne(p, cfg, signingType, signFile, d);
      && (r.alreadyTrusted <==> IsTrustedFile(p, d, signFile))
      && (r.alreadyTrusted ==> r.results == [] && r.log == [] && r.disk == d)
      && (!r.alreadyTrusted ==>
            && 1 <= |r.results| <= Max(1, cfg.signingSettings.trialLimit)
            && (forall k :: 0 <= k < |r.results| - 1 ==> !r.results[k])
            && (r.results[|r.results| - 1] || |r.results| == Max(1, cfg.signingSettings.trialLimit)))
  {
    if !IsTrustedFile(p, d, signFile) {
      AttemptsFromStart(TrialOf(p, cfg, signingType, signFile), cfg.signingSettings.trialLimit, d);
    }
  }

  /**
    The file counts as signed exactly when it is trusted in the state
    signing it left, and that state is the one its invocations lead to.
   */
  lemma SignOneEffect<D(!new)>(p: Platform<D>, cfg: Config, signingType: SigningType, signFile: string, d: D)
    requires signingType != None
    ensures var r := SignOne(p, cfg, signingType, signFile, d);
      && Succeeded(r) == IsTrustedFile(p, r.disk, signFile)
      && r.disk == Replay(p, d, r.log)
  {
    if !IsTrustedFile(p, d, signFile) {
      TrialOfTracked(p, cfg, signingType, signFile);
      AttemptsOutcome(p, TrialOf(p, cfg, signingType, signFile), signFile, cfg.signingSettings.trialLimit, d);
    }
  }

  /** With the configuration's defaults (a trial limit of 1) an untrusted file gets exactly one trial. */
  lemma DefaultConfigSingleTrial<D>(p: Platform<D>, signingType: SigningType, signFile: string, d: D)
    requires signingType != None
    ensures var r := SignOne(p, NewConfig(), signingType, signFile, d);
      !r.alreadyTrusted ==> |r.results| == 1
  {
    SignOneTrials(p, NewConfig(), signingType, signFile, d);
  }

  /** The trust check rejects `signFile` in every state, whatever it does for other files. */
  ghost predicate NeverTrusted<D(!new)>(p: Platform<D>, signFile: string)
  {
    forall d :: !IsTrustedFile(p, d, signFile)
  }

  /** Every trial fails after exactly one invocation. */
  ghost predicate TrialsFail<D(!new)>(trial: D -> TrialRun<D>)
  {
    forall d :: !trial(d).ok && |trial(d).log| == 1
  }

  /** When the file is never trusted, every trial on it stops after its first stage, having failed. */
  lemma NeverTrustedTrialsFail<D(!new)>(p: Platform<D>, cfg: Config, signingType: SigningType, signFile: string)
    requires signingType != None && NeverTrusted(p, signFile)
    ensures TrialsFail(TrialOf(p, cfg, signingType, signFile))
  {
    forall d ensures !TrialOf(p, cfg, signingType, signFile)(d).ok && |TrialOf(p, cfg, signingType, signFile)(d).log| == 1 {
      var t := Trial(p, cfg, signingType, signFile, d);
      TrialEffect(p, cfg, signingType, signFile, d);
      TrialStages(p, cfg, signingType, signFile, d);
      assert !IsTrustedFile(p, Replay(p, d, t.log[..1]), signFile);
    }
  }

  /**
    When every trial fails after one invocation, the retry loop runs until
    the count reaches the limit (at least once), every trial fails and each
    runs the signing tool once.
   */
  lemma {:induction false} AttemptsPersistentFailure<D(!new)>(trial: D -> TrialRun<D>, trialLimit: int, trialCount: nat, d: D)
    requires TrialsFail(trial)
    ensures var r := Attempts(trial, trialLimit, trialCount, d);
      && |r.results| == Max(1, trialLimit - trialCount)
      && (forall k :: 0 <= k < |r.results| ==> !r.results[k])
      && |r.log| == |r.results|
    decreases trialLimit - trialCount
  {
    var t := trial(d);
    if trialCount + 1 < trialLimit {
      var rest := Attempts(trial, trialLimit, trialCount + 1, t.disk);
      AttemptsPersistentFailure(trial, trialLimit, trialCount + 1, t.disk);
      PrependResult(false, rest.results);
    }
  }

  /**
    A file that never becomes trusted gets max(1, trial limit) failed
    trials, each running the signing tool once (Dual mode never reaches its
    appended stage).
   */
  lemma PersistentFailure<D(!new)>(p: Platform<D>, cfg: Config, signingType: SigningType, signFile: string, d: D)
    requires signingType != None && NeverTrusted(p, signFile)
    ensures var r := SignOne(p, cfg, signingType, signFile, d);
      && !r.alreadyTrusted && !Succeeded(r)
      && |r.results| == Max(1, cfg.signingSettings.trialLimit)
      && |r.log| == |r.results|
  {
    assert !IsTrustedFile(p, d, signFile);
    NeverTrustedTrialsFail(p, cfg, signingType, signFile);
    AttemptsCount(TrialOf(p, cfg, signingType, signFile), cfg.signingSettings.trialLimit, 0, d);
    AttemptsPersistentFailure(TrialOf(p, cfg, signingType, signFile), cfg.signingSettings.trialLimit, 0, d);
    var r := SignOne(p, cfg, signingType, signFile, d);
    assert !r.results[|r.results| - 1];
  }

  /** The record the batch keeps of one file. */
  datatype FileOutcome = FileOutcome(file: string, alreadyTrusted: bool, results: seq<bool>)

  predicate Failed(o: FileOutcome)
  {
    !o.alreadyTrusted && (|o.results| == 0 || !o.results[|o.results| - 1])
  }

  datatype Batch<D> = Batch(outcomes: seq<FileOutcome>, disk: D, log: seq<Invocation>)

  /** The batch: every file in input order, each starting from the state the previous one left. */
  function SignAllSpec<D>(p: Platform<D>, cfg: Config, signingType: SigningType, files: seq<string>, d: D): Batch<D>
    requires signingType != None
  {
    if files == [] then Batch([], d, [])
    else
      var r := SignOne(p, cfg, signingType, files[0], d);
      var rest := SignAllSpec(p, cfg, signingType, files[1..], r.disk);
      Batch([FileOutcome(files[0], r.alreadyTrusted, r.results)] + rest.outcomes, rest.disk, r.log + rest.log)
  }

  /** Outcomes that follow the tail of a file list, after one for its head, follow the whole list. */
  lemma OutcomesFollowFiles(first: FileOutcome, rest: seq<FileOutcome>, files: seq<string>)
    requires |files| >= 1 && first.file == files[0] && |rest| == |files| - 1
    requires forall i :: 0 <= i < |rest| ==> rest[i].file == files[1..][i]
    ensures forall i :: 0 <= i < |files| ==> ([first] + rest)[i].file == files[i]
  {
    forall i | 1 <= i < |files|
      ensures ([first] + rest)[i].file == files[i]
    {
      assert ([first] + rest)[i] == rest[i - 1] && files[1..][i - 1] == files[i];
    }
  }

  /** One outcome per file, in input order, and the final state is the one the logged invocations lead to. */
  lemma {:induction false} SignAllSpecShape<D(!new)>(p: Platform<D>, cfg: Config, signingType: SigningType, files: seq<string>, d: D)
    requires signingType != None
    ensures var b := SignAllSpec(p, cfg, signingType, files, d);
      && |b.outcomes| == |files|
      && (forall i :: 0 <= i < |files| ==> b.outcomes[i].file == files[i])
      && b.disk == Replay(p, d, b.log)
  {
    if files != [] {
      var r := SignOne(p, cfg, signingType, files[0], d);
      var rest := SignAllSpec(p, cfg, signingType, files[1..], r.disk);
      SignOneEffect(p, cfg, signingType, files[0], d);
      SignAllSpecShape(p, cfg, signingType, files[1..], r.disk);
      ReplayAppend(p, d, r.log, rest.log);
      OutcomesFollowFiles(FileOutcome(files[0], r.alreadyTrusted, r.results), rest.outcomes, files);
    }
  }

  /** A batch whose files are all trusted from the start signs nothing and reports nothing. */
  lemma {:induction false} TrustedBatchIsNoOp<D>(p: Platform<D>, cfg: Config, signingType: SigningType, files: seq<string>, d: D)
    requires signingType != None
    requires forall i :: 0 <= i < |files| ==> IsTrustedFile(p, d, files[i])
    ensures var b := SignAllSpec(p, cfg, signingType, files, d);
      && b.disk == d && b.log == []
      && (forall i :: 0 <= i < |b.outcomes| ==> b.outcomes[i].alreadyTrusted)
      && Failures(b.outcomes) == []
  {
    if files != [] {
      var rest := SignAllSpec(p, cfg, signingType, files[1..], d);
      assert SignOne(p, cfg, signingType, files[0], d) == FileRun(true, [], d, []);
      assert forall i :: 0 <= i < |files[1..]| ==> files[1..][i] == files[i + 1];
      TrustedBatchIsNoOp(p, cfg, signingType, files[1..], d);
      SkippedCons(FileOutcome(files[0], true, []), rest.outcomes);
    }
  }

  /** Prepending a skipped file keeps every outcome skipped and the failures unchanged. */
  lemma SkippedCons(first: FileOutcome, rest: seq<FileOutcome>)
    requires first.alreadyTrusted
    requires forall i :: 0 <= i < |rest| ==> rest[i].alreadyTrusted
    ensures forall i :: 0 <= i < |[first] + rest| ==> ([first] + rest)[i].alreadyTrusted
    ensures Failures([first] + rest) == Failures(rest)
  {
    assert ([first] + rest)[0] == first && ([first] + rest)[1..] == rest;
  }

  /** The files of the failed outcomes, in order. */
  function Failures(outcomes: seq<FileOutcome>): seq<string>
  {
    if outcomes == [] then []
    else (if Failed(outcomes[0]) then [outcomes[0].file] else []) + Failures(outcomes[1..])
  }

  /** The reported files are exactly the files of failed outcomes. */
  lemma {:induction false} FailuresMembership(outcomes: seq<FileOutcome>, f: string)
    ensures f in Failures(outcomes) <==> exists i :: 0 <= i < |outcomes| && Failed(outcomes[i]) && outcomes[i].file == f
  {
    if outcomes != [] {
      FailuresMembership(outcomes[1..], f);
      if exists i :: 0 <= i < |outcomes| && Failed(outcomes[i]) && outcomes[i].file == f {
        var i :| 0 <= i < |outcomes| && Failed(outcomes[i]) && outcomes[i].file == f;
        if i > 0 {
          assert outcomes[1..][i - 1] == outcomes[i];
        }
      }
      if exists i :: 0 <= i < |outcomes[1..]| && Failed(outcomes[1..][i]) && outcomes[1..][i].file == f {
        var i :| 0 <= i < |outcomes[1..]| && Failed(outcomes[1..][i]) && outcomes[1..][i].file == f;
        assert outcomes[i + 1] == outcomes[1..][i];
      }
    }
  }

  /** Nothing is reported exactly when no outcome failed. */
  lemma {:induction false} FailuresEmpty(outcomes: seq<FileOutcome>)
    ensures Failures(outcomes) == [] <==> forall i :: 0 <= i < |outcomes| ==> !Failed(outcomes[i])
  {
    if outcomes != [] {
      FailuresEmpty(outcomes[1..]);
      assert forall i :: 1 <= i < |outcomes| ==> outcomes[i] == outcomes[1..][i - 1];
    }
  }

  /** `a` is `b` with some elements removed, the rest kept in order. */
  predicate IsSubsequence<T(==)>(a: seq<T>, b: seq<T>)
    decreases |b|
  {
    a == [] || (b != [] && ((a[0] == b[0] && IsSubsequence(a[1..], b[1..])) || IsSubsequence(a, b[1..])))
  }

  /** The batch reports its failed files in input order, each at most as often as it was given. */
  lemma {:induction false} FailuresInInputOrder<D>(p: Platform<D>, cfg: Config, signingType: SigningType, files: seq<string>, d: D)
    requires signingType != None
    ensures IsSubsequence(Failures(SignAllSpec(p, cfg, signingType, files, d).outcomes), files)
  {
    if files != [] {
      var r := SignOne(p, cfg, signingType, files[0], d);
      var rest := SignAllSpec(p, cfg, signingType, files[1..], r.disk);
      FailuresInInputOrder(p, cfg, signingType, files[1..], r.disk);
      var outcomes := [FileOutcome(files[0], r.alreadyTrusted, r.results)] + rest.outcomes;
      assert outcomes[0].file == files[0] && outcomes[1..] == rest.outcomes;
      var errors := Failures(outcomes);
      if Failed(outcomes[0]) {
        assert errors == [files[0]] + Failures(rest.outcomes);
        assert errors[0] == files[0] && errors[1..] == Failures(rest.outcomes);
      } else {
        assert errors == Failures(rest.outcomes);
      }
    }
  }

  /** The batch from position `i` on: file `i`, then the rest from the state it left. */
  lemma SignAllSpecStep<D>(p: Platform<D>, cfg: Config, signingType: SigningType, files: seq<string>, i: nat, d: D)
    requires signingType != None && i < |files|
    ensures var rest := SignAllSpec(p, cfg, signingType, files[i..], d);
      var one := SignOne(p, cfg, signingType, files[i], d);
      var next := SignAllSpec(p, cfg, signingType, files[i + 1..], one.disk);
      && Failures(rest.outcomes) == (if Succeeded(one) then [] else [files[i]]) + Failures(next.outcomes)
      && rest.disk == next.disk
      && rest.log == one.log + next.log
  {
    var one := SignOne(p, cfg, signingType, files[i], d);
    var outcome := FileOutcome(files[i], one.alreadyTrusted, one.results);
    var next := SignAllSpec(p, cfg, signingType, files[i + 1..], one.disk);
    assert files[i..][0] == files[i] && files[i..][1..] == files[i + 1..];
    var outcomes := [outcome] + next.outcomes;
    assert outcomes[0] == outcome && outcomes[1..] == next.outcomes;
    assert Failed(outcome) == !Succeeded(one);
  }

  /** What the batch loop carries from one file to the next: the failures so far, the state, the invocations. */
  datatype Progress<D> = Progress(errors: seq<string>, disk: D, log: seq<Invocation>)

  /** The batch loop continued from file `i` with progress `acc`: each remaining file in turn. */
  function SignFrom<D>(p: Platform<D>, cfg: Config, signingType: SigningType, files: seq<string>, i: nat, acc: Progress<D>): Progress<D>
    requires signingType != None && i <= |files|
    decreases |files| - i
  {
    if i == |files| then acc
    else
      var one := SignOne(p, cfg, signingType, files[i], acc.disk);
      SignFrom(p, cfg, signingType, files, i + 1,
        Progress(if Succeeded(one) then acc.errors else acc.errors + [files[i]], one.disk, acc.log + one.log))
  }

  /** A trusted file leaves the batch loop's progress as it was. */
  lemma SignFromTrusted<D>(p: Platform<D>, cfg: Config, signingType: SigningType, files: seq<string>, i: nat, acc: Progress<D>)
    requires signingType != None && i < |files|
    requires IsTrustedFile(p, acc.disk, files[i])
    ensures SignFrom(p, cfg, signingType, files, i, acc) == SignFrom(p, cfg, signingType, files, i + 1, acc)
  {
    assert acc.log + [] == acc.log;
  }

  /** An untrusted file adds the retry loop's invocations, and itself as a failure when its last trial failed. */
  lemma SignFromUntrusted<D>(p: Platform<D>, cfg: Config, signingType: SigningType, files: seq<string>, i: nat, acc: Progress<D>, r: FileRun<D>)
    requires signingType != None && i < |files|
    requires !IsTrustedFile(p, acc.disk, files[i])
    requires r == Attempts(TrialOf(p, cfg, signingType, files[i]), cfg.signingSettings.trialLimit, 0, acc.disk)
    requires !r.alreadyTrusted && |r.results| >= 1
    ensures SignFrom(p, cfg, signingType, files, i, acc) ==
      SignFrom(p, cfg, signingType, files, i + 1,
        Progress(if r.results[|r.results| - 1] then acc.errors else acc.errors + [files[i]], r.disk, acc.log + r.log))
  {
    var one := SignOne(p, cfg, signingType, files[i], acc.disk);
    assert one == r;
    assert Succeeded(one) == r.results[|r.results| - 1];
  }

  /** Continuing the batch loop adds the failures, the final state and the invocations of the remaining files. */
  lemma {:induction false} SignFromIsSpec<D>(p: Platform<D>, cfg: Config, signingType: SigningType, files: seq<string>, i: nat, acc: Progress<D>)
    requires signingType != None && i <= |files|
    ensures var b := SignAllSpec(p, cfg, signingType, files[i..], acc.disk);
      SignFrom(p, cfg, signingType, files, i, acc) == Progress(acc.errors + Failures(b.outcomes), b.disk, acc.log + b.log)
    decreases |files| - i
  {
    if i == |files| {
      assert files[i..] == [];
      assert acc.errors + [] == acc.errors && acc.log + [] == acc.log;
    } else {
      var one := SignOne(p, cfg, signingType, files[i], acc.disk);
      var failed := if Succeeded(one) then [] else [files[i]];
      var next := SignAllSpec(p, cfg, signingType, files[i + 1..], one.disk);
      SignAllSpecStep(p, cfg, signingType, files, i, acc.disk);
      assert acc.errors + failed == if Succeeded(one) then acc.errors else acc.errors + [files[i]];
      SignFromIsSpec(p, cfg, signingType, files, i + 1, Progress(acc.errors + failed, one.disk, acc.log + one.log));
      AppendAssociative(acc.errors, failed, Failures(next.outcomes));
      AppendAssociative(acc.log, one.log, next.log);
    }
  }

  /** The batch loop run from the first file with nothing recorded yet gives the batch's failures, state and invocations. */
  lemma SignFromStart<D>(p: Platform<D>, cfg: Config, signingType: SigningType, files: seq<string>, d: D)
    requires signingType != None
    ensures var b := SignAllSpec(p, cfg, signingType, files, d);
      SignFrom(p, cfg, signingType, files, 0, Progress([], d, [])) == Progress(Failures(b.outcomes), b.disk, b.log)
  {
    SignFromIsSpec(p, cfg, signingType, files, 0, Progress([], d, []));
    assert files[0..] == files;
  }

  /** Two platforms with the same host, the same trust check and the same effect of every tool run. */
  ghost predicate SameEffect<D(!new)>(p: Platform<D>, q: Platform<D>)
  {
    && p.host == q.host
    && (forall d, f :: p.verifyTrust(d, f) == q.verifyTrust(d, f))
    && (forall d, si, t :: p.runTool(d, si, t).disk == q.runTool(d, si, t).disk)
  }

  /** The retry loop depends on its trial function only through the trials' values. */
  lemma {:induction false} AttemptsSameTrials<D(!new)>(trial: D -> TrialRun<D>, other: D -> TrialRun<D>, trialLimit: int, trialCount: nat, d: D)
    requires forall e :: trial(e) == other(e)
    ensures Attempts(trial, trialLimit, trialCount, d) == Attempts(other, trialLimit, trialCount, d)
    decreases trialLimit - trialCount
  {
    var t := trial(d);
    if !t.ok && trialCount + 1 < trialLimit {
      AttemptsSameTrials(trial, other, trialLimit, trialCount + 1, t.disk);
    }
  }

  /** How a signing-tool process ended (exited, or killed after the timeout) changes no trial. */
  lemma TrialStatusIrrelevant<D(!new)>(p: Platform<D>, q: Platform<D>, cfg: Config, signingType: SigningType, signFile: string)
    requires signingType != None && SameEffect(p, q)
    ensures forall d :: TrialOf(p, cfg, signingType, signFile)(d) == TrialOf(q, cfg, signingType, signFile)(d)
  {
    forall d ensures Trial(p, cfg, signingType, signFile, d) == Trial(q, cfg, signingType, signFile, d) {
    }
  }

  /** The batch is the same on two platforms that differ only in the status their tool runs report. */
  lemma {:induction false} StatusIrrelevant<D(!new)>(p: Platform<D>, q: Platform<D>, cfg: Config, signingType: SigningType, files: seq<string>, d: D)
    requires signingType != None && SameEffect(p, q)
    ensures SignAllSpec(p, cfg, signingType, files, d) == SignAllSpec(q, cfg, signingType, files, d)
  {
    if files != [] {
      assert IsTrustedFile(p, d, files[0]) == IsTrustedFile(q, d, files[0]);
      TrialStatusIrrelevant(p, q, cfg, signingType, files[0]);
      AttemptsSameTrials(TrialOf(p, cfg, signingType, files[0]), TrialOf(q, cfg, signingType, files[0]),
        cfg.signingSettings.trialLimit, 0, d);
      var r := SignOne(p, cfg, signingType, files[0], d);
      StatusIrrelevant(p, q, cfg, signingType, files[1..], r.disk);
    }
  }


  // ---------------------------------------------------------------------
  // The engine
  // ---------------------------------------------------------------------

  class Signer {
    const signingType: SigningType

    constructor (signingType: SigningType)
      ensures this.signingType == signingType
    {
      this.signingType := signingType;
    }

    /**
      Signs every file that the trust check does not accept, retrying each
      up to the trial limit, and returns the files that stayed untrusted.
     */
    method SignAll<D>(p: Platform<D>, cfg: Config, signFileList: seq<string>, d0: D)
      returns (errorFileList: seq<string>, d: D, log: seq<Invocation>)
      requires signingType != None
      ensures Progress(errorFileList, d, log) == SignFrom(p, cfg, signingType, signFileList, 0, Progress([], d0, []))
    {
      errorFileList, d, log := [], d0, [];
      for i := 0 to |signFileList|
        invariant SignFrom(p, cfg, signingType, signFileList, 0, Progress([], d0, [])) ==
          SignFrom(p, cfg, signingType, signFileList, i, Progress(errorFileList, d, log))
      {
        var signFile := signFileList[i];
        if !IsTrustedFile(p, d, signFile) {
          var isSign, fileLog;
          ghost var results;
          ghost var before := Progress(errorFileList, d, log);
          isSign, d, fileLog, results := RetrySigning(p, cfg, signFile, d);
          SignFromUntrusted(p, cfg, signingType, signFileList, i, before, FileRun(false, results, d, fileLog));
          log := log + fileLog;
          if !isSign {
            errorFileList := errorFileList + [signFile];
          }
        } else {
          SignFromTrusted(p, cfg, signingType, signFileList, i, Progress(errorFileList, d, log));
        }
      }
    }

    /**
      The do-while retry loop for one untrusted file: trials until one
      succeeds or the trial count reaches the trial limit, at least one.
     */
    method RetrySigning<D>(p: Platform<D>, cfg: Config, signFile: string, d0: D)
      returns (isSign: bool, d: D, log: seq<Invocation>, ghost results: seq<bool>)
      requires signingType != None
      ensures Attempts(TrialOf(p, cfg, signingType, signFile), cfg.signingSettings.trialLimit, 0, d0) == FileRun(false, results, d, log)
      ensures |results| >= 1 && isSign == results[|results| - 1]
    {
      ghost var trial := TrialOf(p, cfg, signingType, signFile);
      var limit := cfg.signingSettings.trialLimit;
      // the body of the do-while runs once before its condition is first tested
      var trialCount := 1;
      var trialLog;
      isSign, d, trialLog := SigningFile(p, cfg, signFile, d0);
      AttemptsStart(trial, limit, d0, TrialRun(isSign, d, trialLog));
      log, results := trialLog, [isSign];
      while !isSign && trialCount < limit
        invariant trialCount == |results| >= 1 && isSign == results[|results| - 1]
        invariant Attempts(trial, limit, 0, d0) == Continue(trial, limit, trialCount, results, log, d)
        decreases limit - trialCount
      {
        trialCount := trialCount + 1;
        isSign, d, trialLog := SigningFile(p, cfg, signFile, d);
        log := log + trialLog;
        results := results + [isSign];
      }
    }

    /** One trial of the current signing mode on `signFile`. */
    method SigningFile<D>(p: Platform<D>, cfg: Config, signFile: string, d0: D)
      returns (result: bool, d: D, log: seq<Invocation>)
      requires signingType != None
      ensures TrialRun(result, d, log) == Trial(p, cfg, signingType, signFile, d0)
    {
      var stage := FirstStage(signingType);
      var single := Invoke(p.host, cfg, stage, signFile);
      d := p.runTool(d0, single.startInfo, single.timeoutMilliseconds).disk;
      log := [single];
      result := IsTrustedFile(p, d, signFile);
      if signingType == Dual && result {
        var append := Invoke(p.host, cfg, Stage(SHA2, true), signFile);
        d := p.runTool(d, append.startInfo, append.timeoutMilliseconds).disk;
        log := log + [append];
        result := IsTrustedFile(p, d, signFile);
      }
    }
  }
}
