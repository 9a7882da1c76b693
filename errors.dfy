/** The errors the core returns. The sentinels of internal/app/errors.go come first;
    the others stand for the wrapped `fmt.Errorf` errors of the core, one per call site. */
module Errors {

  datatype Error =
    // sentinels
    | NoRulesFolder
    | RulesDirNotFound
    | LogGroupNotFound
    // configapp.GetRulesDir
    | AbsolutePathFailed
    // App.LoadRules
    | GetRulesDirFailed(cause: Error)
    | StatRulesDirFailed
    | WalkRulesDirFailed
    // App.SendReport
    | ReadReportFailed
    | MailgunServiceFailed
    | MailgunSendFailed
    | SmtpServiceFailed
    | SmtpSendFailed
    // fetchAndProcessAllEvents / checkContextAndRateLimit
    | ContextCancelled
    | RateLimitWaitFailed
    | FilterLogEventsFailed
    // LogCheck
    | TimeRangeFailed
    // os.Exit(1) on a log-group listing failure: the process ends
    | ProcessExit
}
