/**
  The configuration of a signing run: one certificate identity per digest
  and the signing policy (tool path, trial limit, timeout, extensions).
  The process-wide `Config.Instance` is the field of a `ConfigStore` object.
 */
module Config {
  import opened Wrappers

  /** The signing mode of a run; `None` is the enumeration's unset value. */
  datatype SigningType = None | SHA1 | SHA2 | Dual

  /** A certificate identity; every field is a string property that may be null. */
  datatype CertificateInformation = CertificateInformation(
    storeName: Nullable<string>,
    subjectName: Nullable<string>,
    thumbprint: Nullable<string>,
    timestampUrl: Nullable<string>,
    crossCertPath: Nullable<string>,
    pfxPath: Nullable<string>,
    pfxKey: Nullable<string>)

  datatype CertificateSettings = CertificateSettings(sha1: CertificateInformation, sha2: CertificateInformation)

  datatype SigningSettings = SigningSettings(
    signToolPath: string,
    signExtensions: seq<string>,
    kernelModeExtensions: seq<string>,
    trialLimit: int,
    signtoolProcessTimeoutMilliseconds: int)

  datatype Config = Config(certificateSettings: CertificateSettings, signingSettings: SigningSettings)
  {
    /** The certificate used for a digest: SHA1 and SHA2 have one each, every other mode gets null. */
    function CertInfo(signingType: SigningType): (r: Nullable<CertificateInformation>)
      ensures r.Some? <==> signingType == SHA1 || signingType == SHA2
    {
      if signingType == SHA1 then Some(certificateSettings.sha1)
      else if signingType == SHA2 then Some(certificateSettings.sha2)
      else Null
    }

    /** The certificates as a table keyed by digest, with the two fixed keys SHA1 and SHA2. */
    function CertificateTable(): map<SigningType, CertificateInformation>
    {
      map[SHA1 := certificateSettings.sha1, SHA2 := certificateSettings.sha2]
    }
  }

  /** `CertInfo` is the keyed lookup in `CertificateTable`, null for a missing key. */
  lemma CertInfoIsKeyedLookup(c: Config, t: SigningType)
    ensures t in c.CertificateTable() ==> c.CertInfo(t) == Some(c.CertificateTable()[t])
    ensures t !in c.CertificateTable() <==> c.CertInfo(t) == Null
    ensures c.CertificateTable().Keys == {SHA1, SHA2}
  {
  }

  /** A certificate entry whose properties were never set. */
  const UnsetCertificate := CertificateInformation(Null, Null, Null, Null, Null, Null, Null)

  /** The configuration the private constructor builds, with the property initialisers of `SigningSettings`. */
  function NewConfig(): (c: Config)
    ensures c.certificateSettings.sha1 == UnsetCertificate && c.certificateSettings.sha2 == UnsetCertificate
    ensures c.signingSettings.signExtensions == [] && c.signingSettings.kernelModeExtensions == []
    ensures c.signingSettings.signToolPath == "signtool.exe"
    ensures c.signingSettings.trialLimit == 1
    ensures c.signingSettings.signtoolProcessTimeoutMilliseconds == 10000
  {
    Config(
      CertificateSettings(UnsetCertificate, UnsetCertificate),
      SigningSettings("signtool.exe", [], [], 1, 10000))
  }

  /** What reading and deserialising an existing configuration file gives. */
  datatype ConfigFile = Unreadable | Parsed(config: Config)

  /**
    Loads a configuration file. `fileExists` is `File.Exists`, `read` the text
    read and deserialised; both failures fall back to the built-in defaults.
   */
  function ImportConfig(filePath: string, fileExists: string -> bool, read: string -> ConfigFile): (c: Config)
    ensures c == NewConfig() || (fileExists(filePath) && read(filePath) == Parsed(c))
    ensures !fileExists(filePath) ==> c == NewConfig()
    ensures fileExists(filePath) && read(filePath).Unreadable? ==> c == NewConfig()
    ensures fileExists(filePath) && read(filePath).Parsed? ==> c == read(filePath).config
  {
    if fileExists(filePath) then
      match read(filePath)
      case Unreadable => NewConfig()
      case Parsed(config) => config
    else
      NewConfig()
  }

  /** Holder of the process-wide configuration instance. */
  class ConfigStore {
    var instance: Config

    /** The static initialiser: the configuration file next to the executable. */
    constructor (defaultConfigurationFileName: string, fileExists: string -> bool, read: string -> ConfigFile)
      ensures instance == ImportConfig(defaultConfigurationFileName, fileExists, read)
    {
      instance := ImportConfig(defaultConfigurationFileName, fileExists, read);
    }

    /** Replaces the instance with the configuration loaded from `filePath`. */
    method SetConfig(filePath: string, fileExists: string -> bool, read: string -> ConfigFile)
      modifies this
      ensures instance == ImportConfig(filePath, fileExists, read)
    {
      instance := ImportConfig(filePath, fileExists, read);
    }
  }
}
