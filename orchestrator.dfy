/**
  The entry point of the job: three ordered startup checks, each fatal with
  exit status 1; then the five queries in a fixed order, the report, the
  subject line and one send. The run finishes with status 0 whether or not
  the mail was delivered.

  The clock is an input (`timestamp` for the report heading, `date` for the
  subject), and so are the transport and the SMTP session.
 */
module Orchestrator {
  import opened Values
  import opened IntText
  import opened Config
  import opened Client
  import opened Report
  import opened Notifier

  // Fixed query parameters. The two coordinates are given as the text that
  // str() makes of the floats 40.7128 and -74.0060.
  const IssNoradId := 25544
  const ObserverLat := "40.7128"
  const ObserverLng := "-74.006"
  const ObserverAlt := 10
  const PositionSeconds := 3
  const PassDays := 2
  const MinVisibilitySeconds := 300
  const MinElevationDegrees := 40
  const SearchRadiusDegrees := 70
  const CategoryId := 0

  const SubjectPrefix := "N2YO Daily Satellite Report - "

  /** The five section titles, in the order the report is built. */
  const SectionTitles := ["TLE Data (ISS)", "Positions Data (ISS)", "Visual Passes (ISS)", "Radio Passes (ISS)", "What's Up"]

  /** The five endpoint paths queried, in the same order as the titles. */
  function Endpoints(): (paths: seq<string>)
    ensures |paths| == |SectionTitles| == 5
  {
    var id := IntToString(IssNoradId);
    var alt := IntToString(ObserverAlt);
    var days := IntToString(PassDays);
    [ TlePath(id),
      PositionsPath(id, ObserverLat, ObserverLng, alt, IntToString(PositionSeconds)),
      VisualPassesPath(id, ObserverLat, ObserverLng, alt, days, IntToString(MinVisibilitySeconds)),
      RadioPassesPath(id, ObserverLat, ObserverLng, alt, days, IntToString(MinElevationDegrees)),
      WhatsUpPath(ObserverLat, ObserverLng, alt, IntToString(SearchRadiusDegrees), IntToString(CategoryId)) ]
  }

  /** str() of the integer query parameters. */
  lemma RenderedConstants()
    ensures IntToString(IssNoradId) == "25544"
    ensures IntToString(ObserverAlt) == "10"
    ensures IntToString(PositionSeconds) == "3"
    ensures IntToString(PassDays) == "2"
    ensures IntToString(MinVisibilitySeconds) == "300"
    ensures IntToString(MinElevationDegrees) == "40"
    ensures IntToString(SearchRadiusDegrees) == "70"
    ensures IntToString(CategoryId) == "0"
  {
    assert NatToString(2) == "2";
    assert NatToString(25) == "25";
    assert NatToString(255) == "255";
    assert NatToString(2554) == "2554";
    assert NatToString(1) == "1";
    assert NatToString(30) == "30";
    assert NatToString(4) == "4";
    assert NatToString(7) == "7";
  }

  // Each path with its rendered parameters filled in, one per lemma to keep each proof small.

  lemma TleText()
    ensures TlePath("25544") == "tle/25544"
  {
  }

  lemma PositionsText()
    ensures PositionsPath("25544", ObserverLat, ObserverLng, "10", "3") == "positions/25544/40.7128/-74.006/10/3/"
  {
  }

  lemma VisualPassesText()
    ensures VisualPassesPath("25544", ObserverLat, ObserverLng, "10", "2", "300") == "visualpasses/25544/40.7128/-74.006/10/2/300/"
  {
  }

  lemma RadioPassesText()
    ensures RadioPassesPath("25544", ObserverLat, ObserverLng, "10", "2", "40") == "radiopasses/25544/40.7128/-74.006/10/2/40/"
  {
  }

  lemma WhatsUpText()
    ensures WhatsUpPath(ObserverLat, ObserverLng, "10", "70", "0") == "above/40.7128/-74.006/10/70/0/"
  {
  }

  /**
    The paths the job queries, with NORAD id 25544, the observer at 40.7128,
    -74.006 and 10 m, 3 seconds of positions, 2 days of passes, at least 300
    seconds visible or 40 degrees high, and a 70-degree search radius over
    category 0.
   */
  lemma EndpointsFixed()
    ensures Endpoints() == [ "tle/25544",
                             "positions/25544/40.7128/-74.006/10/3/",
                             "visualpasses/25544/40.7128/-74.006/10/2/300/",
                             "radiopasses/25544/40.7128/-74.006/10/2/40/",
                             "above/40.7128/-74.006/10/70/0/" ]
  {
    RenderedConstants();
    TleText();
    PositionsText();
    VisualPassesText();
    RadioPassesText();
    WhatsUpText();
  }

  /** Which startup check stopped the run. */
  datatype Check = MissingApiKey | MissingReceiver | MissingSmtp

  /** How the process ends: exit(1) at a failed check, or a complete run with status 0. */
  datatype RunOutcome =
    | Exited(code: int, failed: Check)
    | Finished(code: int, sections: seq<Entry>, subject: string, body: string, delivered: bool)

  predicate SmtpComplete(s: Settings)
  {
    Truthy(s.smtpServer) && Truthy(s.smtpPort) && Truthy(s.smtpUsername) && Truthy(s.smtpPassword)
  }

  /** The report's entries: one query per endpoint, titled in order. */
  function CollectSections(apiKey: PyValue, transport: (string, int) -> Transport): (sections: seq<Entry>)
    ensures |sections| == 5
    ensures forall k :: 0 <= k < 5 ==>
              sections[k] == (SectionTitles[k], FetchApiData(apiKey, Endpoints()[k], transport))
  {
    var paths := Endpoints();
    seq(5, k requires 0 <= k < 5 => (SectionTitles[k], FetchApiData(apiKey, paths[k], transport)))
  }

  /**
    The __main__ block: the API key, then the receiver, then the four SMTP
    settings are checked, the first failure ending the run with status 1;
    otherwise the five sections are collected, rendered and sent, and the run
    ends with status 0 whatever send_email returned.
   */
  function Run(s: Settings, transport: (string, int) -> Transport, session: Envelope -> SmtpOutcome,
               timestamp: string, date: string, dumps: Json -> string, show: Json -> string): (r: RunOutcome)
    ensures r.Exited? <==> !(Truthy(s.apiKey) && Truthy(s.receiverEmail) && SmtpComplete(s))
    ensures r.Exited? ==> r.code == 1
    ensures r.Finished? ==> r.code == 0
    ensures !Truthy(s.apiKey) ==> r == Exited(1, MissingApiKey)
    ensures Truthy(s.apiKey) && !Truthy(s.receiverEmail) ==> r == Exited(1, MissingReceiver)
    ensures Truthy(s.apiKey) && Truthy(s.receiverEmail) && !SmtpComplete(s) ==> r == Exited(1, MissingSmtp)
    ensures r.Finished? ==> |r.sections| == 5 && forall k :: 0 <= k < 5 ==> r.sections[k].0 == SectionTitles[k]
    ensures r.Finished? ==> r.subject == SubjectPrefix + date
  {
    if !Truthy(s.apiKey) then
      Exited(1, MissingApiKey)
    else if !Truthy(s.receiverEmail) then
      Exited(1, MissingReceiver)
    else if !(Truthy(s.smtpServer) && Truthy(s.smtpPort) && Truthy(s.smtpUsername) && Truthy(s.smtpPassword)) then
      Exited(1, MissingSmtp)
    else
      var sections := CollectSections(s.apiKey, transport);
      var subject := SubjectPrefix + date;
      var body := RenderReport(sections, timestamp, dumps, show);
      var delivered := SendEmail(subject, body, s.receiverEmail, s.senderEmail,
                                 s.smtpServer, s.smtpPort, s.smtpUsername, s.smtpPassword, session);
      Finished(0, sections, subject, body, delivered)
  }

  /** A failed startup check ends the run before any query or mail: the outcome does not depend on transport or session. */
  lemma ExitBeforeAnyCall(s: Settings, t1: (string, int) -> Transport, t2: (string, int) -> Transport,
                          m1: Envelope -> SmtpOutcome, m2: Envelope -> SmtpOutcome,
                          timestamp: string, date: string, dumps: Json -> string, show: Json -> string)
    requires Run(s, t1, m1, timestamp, date, dumps, show).Exited?
    ensures Run(s, t2, m2, timestamp, date, dumps, show) == Run(s, t1, m1, timestamp, date, dumps, show)
  {
  }

  /**
    In a complete run every section holds the query of its endpoint with the
    configured key, and none is the missing-key failure: each failure
    carries the full URL with the key.
   */
  lemma FinishedSectionsQueried(s: Settings, transport: (string, int) -> Transport, session: Envelope -> SmtpOutcome,
                                timestamp: string, date: string, dumps: Json -> string, show: Json -> string)
    requires Truthy(s.apiKey) && Truthy(s.receiverEmail) && SmtpComplete(s)
    ensures var r := Run(s, transport, session, timestamp, date, dumps, show);
            forall k :: 0 <= k < 5 ==>
              && r.sections[k].1 == FetchApiData(s.apiKey, Endpoints()[k], transport)
              && (r.sections[k].1.Failure? ==> r.sections[k].1.url == Some(FullUrl(Endpoints()[k], s.apiKey)))
    ensures Run(s, transport, session, timestamp, date, dumps, show).body
         == RenderReport(Run(s, transport, session, timestamp, date, dumps, show).sections, timestamp, dumps, show)
  {
    var r := Run(s, transport, session, timestamp, date, dumps, show);
    assert r.sections == CollectSections(s.apiKey, transport);
    SectionsCarryUrl(s.apiKey, transport);
  }

  /** With a truthy key, every failed section carries the full URL of its endpoint. */
  lemma SectionsCarryUrl(apiKey: PyValue, transport: (string, int) -> Transport)
    requires Truthy(apiKey)
    ensures var sections := CollectSections(apiKey, transport);
            forall k :: 0 <= k < 5 && sections[k].1.Failure? ==> sections[k].1.url == Some(FullUrl(Endpoints()[k], apiKey))
  {
  }

  /**
    In a complete run the receiver and the SMTP settings are known truthy, so
    delivery hinges on the sender (which no startup check looks at) and on
    the session; the exit status is 0 either way.
   */
  lemma DeliveryOutcome(s: Settings, transport: (string, int) -> Transport, session: Envelope -> SmtpOutcome,
                        timestamp: string, date: string, dumps: Json -> string, show: Json -> string)
    requires Truthy(s.apiKey) && Truthy(s.receiverEmail) && SmtpComplete(s)
    ensures var r := Run(s, transport, session, timestamp, date, dumps, show);
            && r.code == 0
            && (r.delivered <==>
                  Truthy(s.senderEmail)
                  && session(Envelope(s.smtpServer, s.smtpPort, s.smtpUsername, s.smtpPassword,
                                      Message(r.subject, s.senderEmail, s.receiverEmail, r.body))).Delivered?)
  {
  }

  // ---------------------------------------------------------------------------
  // From the environment to the outcome

  /** Without N2YO_API_KEY in the environment the run stops at the first check. */
  lemma NoApiKeyExits(env: Environment, transport: (string, int) -> Transport, session: Envelope -> SmtpOutcome,
                      timestamp: string, date: string, dumps: Json -> string, show: Json -> string)
    requires "N2YO_API_KEY" !in env || env["N2YO_API_KEY"] == ""
    ensures Run(ResolveSettings(env), transport, session, timestamp, date, dumps, show) == Exited(1, MissingApiKey)
  {
    SettingNamesUpper();
  }

  /**
    SMTP_PORT set to "0" resolves to the integer 0, which is falsy: with the
    key and receiver present, the run stops at the SMTP check. Unreadable port
    text instead falls back to 587 and passes it.
   */
  lemma PortZeroExits(env: Environment, transport: (string, int) -> Transport, session: Envelope -> SmtpOutcome,
                      timestamp: string, date: string, dumps: Json -> string, show: Json -> string)
    requires "N2YO_API_KEY" in env && env["N2YO_API_KEY"] != ""
    requires "RECEIVER_EMAIL" in env && env["RECEIVER_EMAIL"] != ""
    requires "SMTP_PORT" in env && env["SMTP_PORT"] == "0"
    ensures Run(ResolveSettings(env), transport, session, timestamp, date, dumps, show) == Exited(1, MissingSmtp)
  {
    SettingNamesUpper();
    IntToStringRoundTrip(0);
    assert IntToString(0) == "0";
  }

  /** Any port text that int() rejects does not stop the run: it resolves to 587, which passes the SMTP check. */
  lemma UnreadablePortUsesDefault(env: Environment)
    requires "SMTP_PORT" in env && ParseInt(env["SMTP_PORT"]).None?
    ensures ResolveSettings(env).smtpPort == Int(DefaultSmtpPort)
    ensures Truthy(ResolveSettings(env).smtpPort)
  {
    ResolvedPort(env);
  }

  /**
    The startup checks never look at the sender. When SENDER_EMAIL is absent
    it falls back to the username, which the SMTP check makes truthy; so once
    the SMTP check passes, the sender is falsy only for a SENDER_EMAIL set to "".
   */
  lemma SenderGap(env: Environment)
    requires SmtpComplete(ResolveSettings(env))
    ensures !Truthy(ResolveSettings(env).senderEmail) <==> "SENDER_EMAIL" in env && env["SENDER_EMAIL"] == ""
  {
    ResolvedStrings(env);
  }

  /**
    When all five requests return a truthy payload that is not an error
    object, every section of the report is rendered as pretty-printed data.
   */
  lemma AllQueriesSucceed(s: Settings, transport: (string, int) -> Transport, session: Envelope -> SmtpOutcome,
                          timestamp: string, date: string, dumps: Json -> string, show: Json -> string)
    requires Truthy(s.apiKey) && Truthy(s.receiverEmail) && SmtpComplete(s)
    requires forall k :: 0 <= k < 5 ==>
               var o := transport(FullUrl(Endpoints()[k], s.apiKey), RequestTimeout);
               o.Ok? && JsonTruthy(o.body) && !(o.body.JObj? && "error" in o.body.fields)
    ensures var r := Run(s, transport, session, timestamp, date, dumps, show);
            forall k :: 0 <= k < 5 ==> Classify(r.sections[k].1, show).PrettyView?
  {
    FinishedSectionsQueried(s, transport, session, timestamp, date, dumps, show);
  }
}
