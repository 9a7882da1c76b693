/** The App object of internal/app (app.go, logcheck.go): its construction, rule
    loading, report dispatch, the report writer and the LogCheck run. */
module App {
  import opened Wrappers
  import opened Errors
  import opened ConfigApp
  import opened Matchers
  import opened RuleFiles
  import opened Aggregation
  import opened Report
  import opened Fetch
  import opened Chunking
  import opened Mail

  /** FilterLogEvents and GetLogEvents calls per second. */
  const MaxEventsAPICallPerSecond: int := 25
  /** DescribeLogGroups calls per second. */
  const MaxLogGroupAPICallPerSecond: int := 10

  /** The parameters of a `rate.NewLimiter(rate.Limit(r), b)` token bucket. */
  datatype Limiter = Limiter(ratePerSecond: int, burst: int)

  /** The Mailgun half of SendReport: when Mailgun is configured, build the service and
      make one Send call, answered by `accepts(n)`. */
  function MailgunPlan(cfg: AppConfig, body: string, accepts: nat -> bool, n: nat): (r: (seq<Delivery>, Option<Error>))
    ensures |r.0| <= 1
  {
    var m := cfg.mailConfig;
    if !IsMailGunConfigured(cfg) then ([], None)
    else if !MailgunServiceAccepts(cfg.mailgunConfig.domain, cfg.mailgunConfig.apiKey) then ([], Some(MailgunServiceFailed))
    else
      var ok := accepts(n);
      ([Delivery(Mailgun, m.fromEmail, m.subject, body, m.sendto, ok)], if ok then None else Some(MailgunSendFailed))
  }

  /** The SMTP half: build the service on `server:port`, then one Send call. */
  function SmtpPlan(cfg: AppConfig, body: string, split: string -> Option<(string, string)>,
                    accepts: nat -> bool, n: nat): (r: (seq<Delivery>, Option<Error>))
    ensures |r.0| <= 1
  {
    var m := cfg.mailConfig;
    if !SmtpServiceAccepts(cfg.smtpConfig.login, cfg.smtpConfig.password,
                           SmtpAddress(cfg.smtpConfig.server, cfg.smtpConfig.port), split) then ([], Some(SmtpServiceFailed))
    else
      var ok := accepts(n);
      ([Delivery(Smtp, m.fromEmail, m.subject, body, m.sendto, ok)], if ok then None else Some(SmtpSendFailed))
  }

  /** What SendReport does for one report body (None when reading the report file
      fails): the Send calls it makes, in order, given the network's answers from the
      n-th call on, and the error it returns. */
  function SendReportPlan(cfg: AppConfig, body: Option<string>, split: string -> Option<(string, string)>,
                          accepts: nat -> bool, n: nat): (r: (seq<Delivery>, Option<Error>))
    ensures |r.0| <= 2
  {
    if body.None? then ([], Some(ReadReportFailed))
    else
      var viaMailgun := MailgunPlan(cfg, body.value, accepts, n);
      if viaMailgun.1.Some? || !IsSMTPConfigured(cfg) then viaMailgun
      else
        var viaSmtp := SmtpPlan(cfg, body.value, split, accepts, n + |viaMailgun.0|);
        (viaMailgun.0 + viaSmtp.0, viaSmtp.1)
  }

  /** The Send calls SendReport makes for a readable report, as a function of the body
      and of how many calls the network has answered before. */
  function ReportSends(cfg: AppConfig, split: string -> Option<(string, string)>, accepts: nat -> bool):
    (string, nat) -> seq<Delivery>
  {
    (body: string, n: nat) => SendReportPlan(cfg, Some(body), split, accepts, n).0
  }

  /** The Send calls for a list of reports sent one after the other from the n-th call
      on; the writer only logs SendReport's errors, so every report is attempted. */
  function DispatchAll(sends: (string, nat) -> seq<Delivery>, n: nat, bodies: seq<string>): seq<Delivery> {
    if bodies == [] then []
    else
      var before := DispatchAll(sends, n, bodies[..|bodies| - 1]);
      before + sends(bodies[|bodies| - 1], n + |before|)
  }

  class Application {
    const cfg: AppConfig
    const lastPeriodToWatch: int
    const eventsRateLimit: Limiter
    const logGroupRateLimit: Limiter
    /** The network behind both mail transports. */
    const mailer: Mailer
    var rules: seq<string>

    /** New: no rule is loaded yet, the two limiters get the API quotas. */
    constructor New(cfg: AppConfig, lastPeriodToWatch: int, mailer: Mailer)
      ensures this.cfg == cfg && this.lastPeriodToWatch == lastPeriodToWatch && this.mailer == mailer
      ensures eventsRateLimit == Limiter(MaxEventsAPICallPerSecond, MaxEventsAPICallPerSecond)
      ensures logGroupRateLimit == Limiter(MaxLogGroupAPICallPerSecond, MaxLogGroupAPICallPerSecond)
      ensures rules == []
    {
      this.cfg := cfg;
      this.lastPeriodToWatch := lastPeriodToWatch;
      this.mailer := mailer;
      eventsRateLimit := Limiter(MaxEventsAPICallPerSecond, MaxEventsAPICallPerSecond);
      logGroupRateLimit := Limiter(MaxLogGroupAPICallPerSecond, MaxLogGroupAPICallPerSecond);
      rules := [];
    }

    /** LoadRules. `binDir`, `sep` and `stat` are what GetRulesDir consults; `entries`
        is what filepath.Walk visits under the directory found. The lines found are
        appended to the rules already loaded, those read before a failing entry too. */
    method LoadRules(binDir: Option<string>, sep: char, stat: string -> StatResult, entries: seq<WalkEntry>)
      returns (err: Option<Error>)
      modifies this
      ensures var dir := GetRulesDir(cfg, binDir, sep, stat);
              (dir.Err? ==> err == Some(GetRulesDirFailed(dir.error)) && rules == old(rules)) &&
              (dir.Ok? && stat(dir.value) != Present ==> err == Some(StatRulesDirFailed) && rules == old(rules)) &&
              (dir.Ok? && stat(dir.value) == Present ==>
                 rules == old(rules) + Walk(entries).rules &&
                 err == (if Walk(entries).failed then Some(WalkRulesDirFailed) else None))
    {
      var dir := GetRulesDir(cfg, binDir, sep, stat);
      if dir.Err? {
        return Some(GetRulesDirFailed(dir.error));
      }
      if dir.value == "" {
        // ErrNoRulesFolder: GetRulesDir never yields the empty path
        assert false;
      }
      if stat(dir.value) != Present {
        return Some(StatRulesDirFailed);
      }
      err := WalkRulesDir(entries);
    }

    /** filepath.Walk over the rules directory: the callback loads every regular file,
        and the first entry it cannot open ends the walk with an error. */
    method WalkRulesDir(entries: seq<WalkEntry>) returns (err: Option<Error>)
      modifies this
      ensures rules == old(rules) + Walk(entries).rules
      ensures err == (if Walk(entries).failed then Some(WalkRulesDirFailed) else None)
    {
      ghost var start := rules;
      var failed := false;
      var i := 0;
      while i < |entries| && !failed
        invariant 0 <= i <= |entries|
        invariant rules == start + Walk(entries[..i]).rules
        invariant failed == Walk(entries[..i]).failed
      {
        var e := entries[i];
        ghost var w := Walk(entries[..i]).rules;
        assert entries[..i + 1] == entries[..i] + [e];
        WalkSnoc(entries[..i], e);
        failed := VisitEntry(e);
        if !failed {
          AppendAssociative(start, w, EntryRules(e));
        }
        i := i + 1;
      }
      if failed {
        WalkStopsAtFailure(entries, i);
        return Some(WalkRulesDirFailed);
      }
      assert entries[..i] == entries;
      return None;
    }

    /** The walk callback on one entry: a regular file is loaded, a directory skipped,
        and an entry that cannot be read is reported. */
    method VisitEntry(e: WalkEntry) returns (failed: bool)
      modifies this
      ensures failed == EntryFails(e)
      ensures rules == old(rules) + (if failed then [] else EntryRules(e))
    {
      match e {
        case Directory =>
          failed := false;
        case UnopenableFile =>
          failed := true;
        case UnreadableDirectory =>
          failed := true;
        case RegularFile(contents) =>
          AppendRuleFile(contents);
          failed := false;
      }
    }

    /** The walk callback on a regular file: every line `bufio.Scanner` yields with
        ScanLines is appended to the rules, blank lines included. */
    method AppendRuleFile(contents: string)
      modifies this
      ensures rules == old(rules) + ScanLines(contents)
    {
      var rest := contents;
      while rest != []
        invariant rules + ScanLines(rest) == old(rules) + ScanLines(contents)
        decreases |rest|
      {
        ScanLineIsFirstToken(rest);
        var token := ScanLine(rest);
        rules := rules + [token.0];
        rest := rest[token.1..];
      }
    }

    /** SendReport: Mailgun first when configured, a Mailgun failure returns before SMTP
        is tried, then SMTP when configured. */
    method SendReport(report: Option<string>, split: string -> Option<(string, string)>) returns (err: Option<Error>)
      modifies mailer
      ensures mailer.sent == old(mailer.sent) + SendReportPlan(cfg, report, split, mailer.accepts, |old(mailer.sent)|).0
      ensures err == SendReportPlan(cfg, report, split, mailer.accepts, |old(mailer.sent)|).1
    {
      if report.None? {
        return Some(ReadReportFailed);
      }
      var body := report.value;
      var m := cfg.mailConfig;
      if IsMailGunConfigured(cfg) {
        if !MailgunServiceAccepts(cfg.mailgunConfig.domain, cfg.mailgunConfig.apiKey) {
          return Some(MailgunServiceFailed);
        }
        var ok := mailer.Send(Mailgun, m.fromEmail, m.subject, body, m.sendto);
        if !ok {
          return Some(MailgunSendFailed);
        }
      }
      if IsSMTPConfigured(cfg) {
        var address := SmtpAddress(cfg.smtpConfig.server, cfg.smtpConfig.port);
        if !SmtpServiceAccepts(cfg.smtpConfig.login, cfg.smtpConfig.password, address, split) {
          return Some(SmtpServiceFailed);
        }
        var ok := mailer.Send(Smtp, m.fromEmail, m.subject, body, m.sendto);
        if !ok {
          return Some(SmtpSendFailed);
        }
      }
      return None;
    }

    /** collectLinesOfReportAndSendReport, fed the lines in the order the producer
        pushed them. The temporary report file is the list of strings written to it
        since it was created; reading it back gives their concatenation. The limit is
        the SMTP section's MaxReportSize. */
    method CollectLinesOfReportAndSendReport(lines: seq<string>, split: string -> Option<(string, string)>)
      modifies mailer
      ensures mailer.sent == old(mailer.sent) +
                DispatchAll(ReportSends(cfg, split, mailer.accepts), |old(mailer.sent)|,
                            ReportBodies(cfg.smtpConfig.maxReportSize, lines))
    {
      var maxReportSize := cfg.smtpConfig.maxReportSize;
      var emptyReport := true;
      var file: seq<string> := [];
      var sizeFile := 0;
      ghost var start := mailer.sent;
      ghost var st := Initial;
      for i := 0 to |lines|
        invariant st == Run(maxReportSize, lines[..i])
        invariant file == st.open && sizeFile == st.sizeFile && emptyReport == st.emptyReport
        invariant mailer.sent == start + DispatchAll(ReportSends(cfg, split, mailer.accepts), |start|, Bodies(st.flushed))
      {
        assert lines[..i + 1][..i] == lines[..i];
        var line := lines[i];
        emptyReport := false;
        file := file + [line];
        sizeFile := sizeFile + |line|;
        if sizeFile > maxReportSize {
          emptyReport := true;
          BodiesSnoc(st.flushed, file);
          SendChunk(Concat(file), split, start, Bodies(st.flushed));
          file := [];
          sizeFile := 0;
        }
        st := Receive(maxReportSize, st, line);
      }
      assert lines[..|lines|] == lines;
      if !emptyReport {
        SendChunk(Concat(file), split, start, Bodies(st.flushed));
      } else {
        assert Bodies(st.flushed) + [] == Bodies(st.flushed);
      }
    }

    /** One report sent by the writer; what SendReport returns is only logged. */
    method SendChunk(body: string, split: string -> Option<(string, string)>,
                     ghost start: seq<Delivery>, ghost bodies: seq<string>)
      requires mailer.sent == start + DispatchAll(ReportSends(cfg, split, mailer.accepts), |start|, bodies)
      modifies mailer
      ensures mailer.sent == start + DispatchAll(ReportSends(cfg, split, mailer.accepts), |start|, bodies + [body])
    {
      DispatchStep(ReportSends(cfg, split, mailer.accepts), start, mailer.sent,
                   DispatchAll(ReportSends(cfg, split, mailer.accepts), |start|, bodies), bodies, body);
      var _ := SendReport(Some(body), split);
    }

    /** LogCheck, sequentialised: the log group is looked up, the time range computed,
        the writer consumes every line the parser produced and the parser's error is
        returned once the writer is done. `lookup` and `steps` are the service's answers,
        `timeRange` GetTimeStampMsRangeofLastHour's (None when it fails). */
    method LogCheck(re: RegexEngine, decode: string -> Option<FluentDockerLog>, fmt: int -> string,
                    split: string -> Option<(string, string)>, lookup: seq<DescribeStep>,
                    timeRange: Option<(int, int)>, steps: seq<FetchStep>)
      returns (err: Option<Error>)
      requires AllCompile(re, cfg.imagesToIgnore) && AllCompile(re, cfg.containerNameToIgnore)
      requires LookupTerminates(cfg.logGroup, lookup)
      requires EndsListing(steps)
      modifies mailer
      ensures FindLogGroup(cfg.logGroup, lookup) == Exited ==> err == Some(ProcessExit) && mailer.sent == old(mailer.sent)
      ensures FindLogGroup(cfg.logGroup, lookup) == NotFound ==> err == Some(LogGroupNotFound) && mailer.sent == old(mailer.sent)
      ensures FindLogGroup(cfg.logGroup, lookup) == Found && timeRange.None? ==>
                err == Some(TimeRangeFailed) && mailer.sent == old(mailer.sent)
      ensures FindLogGroup(cfg.logGroup, lookup) == Found && timeRange.Some? ==>
                var env := Env(re, rules, cfg.imagesToIgnore, cfg.containerNameToIgnore, decode);
                var lines := if err.None? then ReportLines(fmt, ObserveAll(env, map[], ProcessedEvents(steps))) else [];
                err == StepError(steps[FirstStop(steps)]) &&
                mailer.sent == old(mailer.sent) +
                  DispatchAll(ReportSends(cfg, split, mailer.accepts), |old(mailer.sent)|,
                              ReportBodies(cfg.smtpConfig.maxReportSize, lines))
    {
      var found := FindLogGroup(cfg.logGroup, lookup);
      if found == Exited {
        return Some(ProcessExit);
      }
      if found == NotFound {
        return Some(LogGroupNotFound);
      }
      if timeRange.None? {
        return Some(TimeRangeFailed);
      }
      var env := Env(re, rules, cfg.imagesToIgnore, cfg.containerNameToIgnore, decode);
      var lines, _, e := ParseAllEventsWithFilter(env, fmt, steps);
      CollectLinesOfReportAndSendReport(lines, split);
      return e;
    }
  }

  lemma BodiesSnoc(chunks: seq<seq<string>>, c: seq<string>)
    ensures Bodies(chunks + [c]) == Bodies(chunks) + [Concat(c)]
  {
    assert (chunks + [c])[..|chunks|] == chunks;
  }

  /** One more report on top of the calls already made. */
  lemma DispatchStep(sends: (string, nat) -> seq<Delivery>, start: seq<Delivery>, sent: seq<Delivery>,
                     before: seq<Delivery>, bodies: seq<string>, b: string)
    requires before == DispatchAll(sends, |start|, bodies)
    requires sent == start + before
    ensures sent + sends(b, |sent|) == start + DispatchAll(sends, |start|, bodies + [b])
  {
    DispatchSnoc(sends, |start|, bodies, b);
    AppendAssociative(start, before, sends(b, |sent|));
  }

  lemma AppendAssociative<T>(a: seq<T>, b: seq<T>, c: seq<T>)
    ensures a + (b + c) == (a + b) + c
  {
  }

  lemma DispatchSnoc(sends: (string, nat) -> seq<Delivery>, n: nat, bodies: seq<string>, b: string)
    ensures DispatchAll(sends, n, bodies + [b]) ==
              DispatchAll(sends, n, bodies) + sends(b, n + |DispatchAll(sends, n, bodies)|)
  {
    assert (bodies + [b])[..|bodies|] == bodies;
  }

  // ---------------------------------------------------------------------------
  // What the dispatch promises.

  /** Mailgun is configured exactly when its service can be built, so the service
      error is never returned. */
  lemma MailgunConfiguredIffServiceBuilds(cfg: AppConfig)
    ensures IsMailGunConfigured(cfg) <==> MailgunServiceAccepts(cfg.mailgunConfig.domain, cfg.mailgunConfig.apiKey)
  {
  }

  /** SMTP counts as configured from its fields alone; the service can still refuse the
      address, and only because `server:port` does not split. */
  lemma SmtpConfiguredServiceRefusesOnlyAddress(cfg: AppConfig, split: string -> Option<(string, string)>)
    requires IsSMTPConfigured(cfg)
    ensures var a := SmtpAddress(cfg.smtpConfig.server, cfg.smtpConfig.port);
            SmtpServiceAccepts(cfg.smtpConfig.login, cfg.smtpConfig.password, a, split) <==>
              split(a).Some? && split(a).value.0 != "" && split(a).value.1 != ""
  {
  }

  /** A report that cannot be read sends nothing. */
  lemma UnreadableReportSendsNothing(cfg: AppConfig, split: string -> Option<(string, string)>, accepts: nat -> bool, n: nat)
    ensures SendReportPlan(cfg, None, split, accepts, n) == ([], Some(ReadReportFailed))
  {
  }

  /** With no transport configured nothing is sent and there is no error. */
  lemma NoTransportNoMail(cfg: AppConfig, body: string, split: string -> Option<(string, string)>, accepts: nat -> bool, n: nat)
    requires !IsMailGunConfigured(cfg) && !IsSMTPConfigured(cfg)
    ensures SendReportPlan(cfg, Some(body), split, accepts, n) == ([], None)
  {
  }

  /** A Mailgun refusal ends SendReport: one Mailgun call, no SMTP call. */
  lemma MailgunFailureSkipsSmtp(cfg: AppConfig, body: string, split: string -> Option<(string, string)>, accepts: nat -> bool, n: nat)
    requires IsMailGunConfigured(cfg) && !accepts(n)
    ensures var m := cfg.mailConfig;
            SendReportPlan(cfg, Some(body), split, accepts, n) ==
              ([Delivery(Mailgun, m.fromEmail, m.subject, body, m.sendto, false)], Some(MailgunSendFailed))
  {
  }

  /** SendReport makes at most one call per transport, Mailgun's first, each carrying the
      report from the configured sender to the configured recipient and answered by the
      network in call order. */
  lemma SendReportCalls(cfg: AppConfig, body: string, split: string -> Option<(string, string)>, accepts: nat -> bool, n: nat)
    ensures var ds := SendReportPlan(cfg, Some(body), split, accepts, n).0;
            var m := cfg.mailConfig;
            |ds| <= 2 &&
            (forall i :: 0 <= i < |ds| ==>
               ds[i] == Delivery(ds[i].transport, m.fromEmail, m.subject, body, m.sendto, accepts(n + i))) &&
            (|ds| == 2 ==> ds[0].transport == Mailgun && ds[1].transport == Smtp) &&
            (|ds| == 1 ==> (ds[0].transport == Mailgun <==> IsMailGunConfigured(cfg)))
  {
    var mg := MailgunPlan(cfg, body, accepts, n);
    if IsMailGunConfigured(cfg) && IsSMTPConfigured(cfg) && accepts(n) {
      var sm := SmtpPlan(cfg, body, split, accepts, n + 1);
      assert SendReportPlan(cfg, Some(body), split, accepts, n).0 == mg.0 + sm.0;
    }
  }

  /** SendReport succeeds iff every configured transport was called and took the report. */
  lemma SendReportSucceeds(cfg: AppConfig, body: string, split: string -> Option<(string, string)>, accepts: nat -> bool, n: nat)
    ensures var r := SendReportPlan(cfg, Some(body), split, accepts, n);
            r.1.None? <==>
              (forall i :: 0 <= i < |r.0| ==> r.0[i].accepted) &&
              (IsMailGunConfigured(cfg) <==> exists i :: 0 <= i < |r.0| && r.0[i].transport == Mailgun) &&
              (IsSMTPConfigured(cfg) <==> exists i :: 0 <= i < |r.0| && r.0[i].transport == Smtp)
  {
    var r := SendReportPlan(cfg, Some(body), split, accepts, n);
    var mg := MailgunPlan(cfg, body, accepts, n);
    if IsMailGunConfigured(cfg) {
      assert mg.0[0].transport == Mailgun && mg.0[0].accepted == accepts(n);
      if accepts(n) && IsSMTPConfigured(cfg) {
        var sm := SmtpPlan(cfg, body, split, accepts, n + 1);
        assert r.0 == mg.0 + sm.0;
        assert r.0[0] == mg.0[0];
        if sm.0 != [] {
          assert r.0[1] == sm.0[0];
          assert r.0[1].transport == Smtp;
        } else {
          assert r.0 == mg.0;
        }
      } else {
        assert r.0 == mg.0;
      }
    } else if IsSMTPConfigured(cfg) {
      var sm := SmtpPlan(cfg, body, split, accepts, n);
      assert r.0 == sm.0;
      if sm.0 != [] {
        assert r.0[0].transport == Smtp;
      }
    }
  }

  /** The Mailgun calls among some deliveries, by body. */
  function MailgunBodies(ds: seq<Delivery>): seq<string> {
    if ds == [] then []
    else MailgunBodies(ds[..|ds| - 1]) + (if ds[|ds| - 1].transport == Mailgun then [ds[|ds| - 1].body] else [])
  }

  lemma {:induction false} MailgunBodiesAppend(a: seq<Delivery>, b: seq<Delivery>)
    ensures MailgunBodies(a + b) == MailgunBodies(a) + MailgunBodies(b)
    decreases |b|
  {
    if b == [] {
      assert a + b == a;
    } else {
      var n := |b| - 1;
      assert (a + b)[..|a + b| - 1] == a + b[..n];
      assert (a + b)[|a + b| - 1] == b[n];
      MailgunBodiesAppend(a, b[..n]);
    }
  }

  lemma MailgunBodiesOfOneReport(cfg: AppConfig, body: string, split: string -> Option<(string, string)>, accepts: nat -> bool, n: nat)
    requires IsMailGunConfigured(cfg)
    ensures MailgunBodies(SendReportPlan(cfg, Some(body), split, accepts, n).0) == [body]
  {
    var mg := MailgunPlan(cfg, body, accepts, n).0;
    assert mg[..0] == [];
    assert MailgunBodies(mg) == [body];
    var plan := SendReportPlan(cfg, Some(body), split, accepts, n).0;
    if |plan| == 2 {
      var sm := SmtpPlan(cfg, body, split, accepts, n + 1).0;
      assert plan == mg + sm;
      MailgunBodiesAppend(mg, sm);
      assert sm[..0] == [];
    }
  }

  /** Reports whose Send calls each reach Mailgun once reach it once each, in order. */
  lemma {:induction false} MailgunBodiesOfDispatch(sends: (string, nat) -> seq<Delivery>, n: nat, bodies: seq<string>)
    requires forall b, k :: MailgunBodies(sends(b, k)) == [b]
    ensures MailgunBodies(DispatchAll(sends, n, bodies)) == bodies
  {
    if bodies != [] {
      var k := |bodies| - 1;
      var before := DispatchAll(sends, n, bodies[..k]);
      MailgunBodiesOfDispatch(sends, n, bodies[..k]);
      MailgunBodiesAppend(before, sends(bodies[k], n + |before|));
      assert bodies[..k] + [bodies[k]] == bodies;
    }
  }

  /** With Mailgun configured every report reaches Mailgun exactly once, in order,
      whatever the network answers. */
  lemma MailgunGetsEveryReport(cfg: AppConfig, split: string -> Option<(string, string)>,
                               accepts: nat -> bool, n: nat, bodies: seq<string>)
    requires IsMailGunConfigured(cfg)
    ensures MailgunBodies(DispatchAll(ReportSends(cfg, split, accepts), n, bodies)) == bodies
  {
    var sends := ReportSends(cfg, split, accepts);
    forall b, k: nat ensures MailgunBodies(sends(b, k)) == [b] {
      MailgunBodiesOfOneReport(cfg, b, split, accepts, k);
    }
    MailgunBodiesOfDispatch(sends, n, bodies);
  }

  /** With no transport configured the writer sends nothing at all. */
  lemma {:induction false} NoTransportNoDispatch(cfg: AppConfig, split: string -> Option<(string, string)>,
                                                 accepts: nat -> bool, n: nat, bodies: seq<string>)
    requires !IsMailGunConfigured(cfg) && !IsSMTPConfigured(cfg)
    ensures DispatchAll(ReportSends(cfg, split, accepts), n, bodies) == []
  {
    if bodies != [] {
      var k := |bodies| - 1;
      NoTransportNoDispatch(cfg, split, accepts, n, bodies[..k]);
      NoTransportNoMail(cfg, bodies[k], split, accepts, n);
    }
  }
}
