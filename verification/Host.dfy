/**
  What the signer sees of the machine it runs on, as inputs: file-system
  probes, path helpers, directory listing, JSON files, regular expressions,
  the trust check and the signing tool. The state of the files being signed
  is an abstract value of type `D`; only the trust check reads it and only a
  run of the signing tool changes it.
 */
module Host {
  import opened Wrappers
  import opened Config

  /** What `Regex.IsMatch(input, pattern)` does: answer, or throw for a malformed pattern. */
  datatype MatchResult = Match | NoMatch | Throws

  /** What reading and deserialising an existing white or black list file gives. */
  datatype PatternFile = Unparseable | Patterns(list: Nullable<seq<string>>)

  datatype Host = Host(
    fileExists: string -> bool,                               // File.Exists
    extension: string -> string,                              // Path.GetExtension
    fileName: string -> string,                               // Path.GetFileName
    listFiles: (string, seq<string>) -> Nullable<seq<string>>, // recursive listing; null for a missing directory
    readConfig: string -> ConfigFile,
    readPatterns: string -> PatternFile,
    isMatch: (string, string) -> MatchResult)

  /** The program and command line of one signing-tool process. */
  datatype ProcessStartInfo = ProcessStartInfo(fileName: string, arguments: string)

  /** How a started signing-tool process ended: on its own, or killed when the wait timed out. */
  datatype ProcessStatus = Exited | TimedOut

  datatype ToolRun<D> = ToolRun(disk: D, status: ProcessStatus)

  datatype Platform<!D> = Platform(
    host: Host,
    verifyTrust: (D, string) -> bool,            // WinVerifyTrust returned SUCCESS for the path
    runTool: (D, ProcessStartInfo, int) -> ToolRun<D>) // one signing-tool process, waited for up to the given milliseconds
}
