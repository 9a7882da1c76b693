/** The application configuration (internal/configapp/configapp.go): the records read
    from the YAML file, the two "is this transport configured" checks and the
    resolution of the rules directory. YAML loading itself is not modelled. */
module ConfigApp {
  import opened Wrappers
  import opened Errors

  /** Default name of the rules directory, next to the binary. */
  const RulesDirName: string := "rules"

  datatype MailConfiguration = MailConfiguration(fromEmail: string, sendto: string, subject: string)

  datatype MailGunConfig = MailGunConfig(domain: string, apiKey: string)

  datatype SmtpConfig = SmtpConfig(
    server: string,
    port: int,
    login: string,
    password: string,
    tls: bool,
    maxReportSize: int)

  datatype AppConfig = AppConfig(
    rulesDir: string,
    imagesToIgnore: seq<string>,
    containerNameToIgnore: seq<string>,
    smtpConfig: SmtpConfig,
    mailgunConfig: MailGunConfig,
    mailConfig: MailConfiguration,
    awsRegion: string,
    logGroup: string,
    debugLevel: string)

  /** Outcome of `os.Stat` on a path: it exists, it does not exist
      (`os.IsNotExist`), or the call failed for another reason. */
  datatype StatResult = Present | Missing | StatFailed

  predicate IsMailGunConfigured(c: AppConfig) {
    c.mailgunConfig.apiKey != "" && c.mailgunConfig.domain != ""
  }

  predicate IsSMTPConfigured(c: AppConfig) {
    c.smtpConfig.login != "" && c.smtpConfig.port != 0 &&
    c.smtpConfig.password != "" && c.smtpConfig.server != ""
  }

  /** GetRulesDir. `binDir` is `filepath.Abs(filepath.Dir(os.Args[0]))` (None when it
      fails), `sep` is `os.PathSeparator` and `stat` answers `os.Stat`. An explicit
      directory is returned as it is, without looking at the file system. */
  function GetRulesDir(c: AppConfig, binDir: Option<string>, sep: char,
                       stat: string -> StatResult): (r: Result<string, Error>)
    ensures c.rulesDir != "" ==> r == Ok(c.rulesDir)
    ensures c.rulesDir == "" && binDir.None? ==> r == Err(AbsolutePathFailed)
    ensures c.rulesDir == "" && binDir.Some? ==>
              var candidate := binDir.value + [sep] + RulesDirName;
              r == (if stat(candidate) == Missing then Err(RulesDirNotFound) else Ok(candidate))
    // the directory found is never the empty path, so LoadRules' empty-path check never fires
    ensures r.Ok? ==> r.value != ""
    ensures r.Err? ==> r.error in {AbsolutePathFailed, RulesDirNotFound}
  {
    if c.rulesDir != "" then Ok(c.rulesDir)
    else if binDir.None? then Err(AbsolutePathFailed)
    else
      var dirToCheck := binDir.value + [sep] + RulesDirName;
      if stat(dirToCheck) == Missing then Err(RulesDirNotFound) else Ok(dirToCheck)
  }
}
