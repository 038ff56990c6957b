/**
 * The long-running variant, blocklist_scheduler.py: a first-start backup
 * once, an update cycle straight away, then one job registered with the
 * `schedule` library that repeats the cycle daily or weekly. Its update
 * cycle differs from update-blocklist.py: it skips (rather than exits) when
 * no countries are set, also accepts manual entries with a "/", backs up to
 * `.last-update.bak` after downloading, rewrites the configuration through
 * the YAML library, and restarts the container only when that rewrite
 * succeeded.
 */
module BlocklistScheduler {
  import opened Wrappers
  import opened PyStr
  import opened Environment
  import opened Feeds
  import opened Schedule

  const AdguardYaml := "/adguard/AdGuardHome.yaml"
  const TmpYaml := "/adguard/AdGuardHome.yaml.tmp"
  const FirstBackup := "/adguard/AdGuardHome.yaml.first-start.bak"
  const LastUpdateBackup := "/adguard/AdGuardHome.yaml.last-update.bak"

  /** The settings the module reads from the environment once, when it is loaded. */
  datatype Config = Config(
    countries: string,
    cronType: string,
    cronTime: string,
    cronDay: string,
    containerName: string,
    dockerApiUrl: string)

  function ConfigFromEnv(env: map<string, string>): (cfg: Config)
    ensures |cfg.cronType| == |Getenv(env, "BLOCKLIST_CRON_TYPE", "daily")|
    ensures |cfg.cronDay| == |Getenv(env, "BLOCKLIST_CRON_DAY", "mon")|
  {
    Config(
      Getenv(env, "BLOCK_COUNTRIES", ""),
      Lower(Getenv(env, "BLOCKLIST_CRON_TYPE", "daily")),
      Getenv(env, "BLOCKLIST_CRON_TIME", "06:00"),
      Lower(Getenv(env, "BLOCKLIST_CRON_DAY", "mon")),
      Getenv(env, "ADGUARD_CONTAINER_NAME", "adguardhome"),
      Getenv(env, "DOCKER_API_URL", "http://socket-proxy-adguard:2375"))
  }

  function ContainerRestart(cfg: Config): string {
    RestartUrl(cfg.dockerApiUrl, cfg.containerName)
  }

  /**
   * What `yaml.safe_load` followed by setting `disallowed_clients` and
   * `yaml.safe_dump` make of a configuration text: the dumped document, no
   * document at all (an empty file), or an exception from the parser.
   */
  datatype YamlRewrite = Dumped(text: string) | NoDocument | LoadError

  // ------------------------------------------------------------ backups

  /** `backup_first_start()` reads the configuration, and so raises, only when it has to write the backup. */
  predicate FirstStartRaises(files: map<string, string>) {
    FirstBackup !in files && AdguardYaml !in files
  }

  function FirstStartFiles(files: map<string, string>): (r: map<string, string>)
    ensures FirstBackup in files ==> r == files
    ensures FirstBackup !in files && AdguardYaml in files ==> r == files[FirstBackup := files[AdguardYaml]]
    ensures FirstStartRaises(files) ==> r == files
  {
    if FirstBackup !in files && AdguardYaml in files then files[FirstBackup := files[AdguardYaml]] else files
  }

  function FirstStartLog(files: map<string, string>): seq<Event> {
    if FirstBackup !in files && AdguardYaml in files then [Wrote(FirstBackup)] else []
  }

  method BackupFirstStart(h: Host) returns (raised: bool)
    modifies h
    ensures raised == FirstStartRaises(old(h.files))
    ensures h.files == FirstStartFiles(old(h.files))
    ensures h.log == old(h.log) + FirstStartLog(old(h.files))
  {
    raised := false;
    if FirstBackup !in h.files {
      if AdguardYaml !in h.files {
        return true;
      }
      h.WriteText(FirstBackup, h.files[AdguardYaml]);
    }
  }

  /** `backup_last_update()`: a copy of the configuration; raises when there is none. */
  method BackupLastUpdate(h: Host) returns (raised: bool)
    modifies h
    ensures raised == (AdguardYaml !in old(h.files))
    ensures raised ==> h.files == old(h.files) && h.log == old(h.log)
    ensures !raised ==> h.files == old(h.files)[LastUpdateBackup := old(h.files)[AdguardYaml]]
                        && h.log == old(h.log) + [Wrote(LastUpdateBackup)]
  {
    if AdguardYaml !in h.files {
      return true;
    }
    h.WriteText(LastUpdateBackup, h.files[AdguardYaml]);
    raised := false;
  }

  // ---------------------------------------------------- the YAML rewrite

  /**
   * `update_yaml_with_ips(ips)`: False without a configuration or without a
   * document in it; a parser exception escapes; otherwise the dumped document
   * replaces the configuration through the temporary file, and True.
   */
  method UpdateYamlWithIps(h: Host, ips: seq<string>, rewrite: (string, seq<string>) -> YamlRewrite)
    returns (success: bool, raised: bool)
    modifies h
    ensures AdguardYaml !in old(h.files) ==> !success && !raised
    ensures success ==> !raised
    ensures success <==> AdguardYaml in old(h.files) && rewrite(old(h.files)[AdguardYaml], ips).Dumped?
    ensures raised <==> AdguardYaml in old(h.files) && rewrite(old(h.files)[AdguardYaml], ips).LoadError?
    ensures success ==> h.files == (old(h.files) - {TmpYaml})[AdguardYaml := rewrite(old(h.files)[AdguardYaml], ips).text]
                        && h.log == old(h.log) + [Wrote(TmpYaml), Renamed(TmpYaml, AdguardYaml)]
    ensures !success ==> h.files == old(h.files) && h.log == old(h.log)
  {
    if AdguardYaml !in h.files {
      return false, false;
    }
    var data := rewrite(h.files[AdguardYaml], ips);
    if data.LoadError? {
      return false, true;
    }
    if data.NoDocument? {
      return false, false;
    }
    h.WriteText(TmpYaml, data.text);
    h.Replace(TmpYaml, AdguardYaml);
    assert h.files == (old(h.files) - {TmpYaml})[AdguardYaml := data.text];
    success, raised := true, false;
  }

  /** `restart_adguard_container()`: one POST to the Docker API; its response is only logged. */
  method RestartAdguardContainer(h: Host, cfg: Config)
    modifies h
    ensures h.files == old(h.files)
    ensures h.log == old(h.log) + [Posted(ContainerRestart(cfg))]
  {
    h.Post(RestartUrl(cfg.dockerApiUrl, cfg.containerName));
  }

  // --------------------------------------------------- update_blocklist

  /** How a cycle ends. */
  datatype CycleEnd =
    | Skipped            // no countries: nothing fetched, read or written
    | BackupRaised       // no configuration: the last-update backup raises
    | NotUpdated         // no document: `update_yaml_with_ips` returned False
    | LoadRaised         // the parser raised
    | Updated(text: string)

  /** The scheduler's list: the countries' lists in order, then the manual entries (three dots or a slash). */
  function Gathered(files: map<string, string>, cfg: Config, fetch: string -> Option<string>): seq<string> {
    Combined(CountryList(cfg.countries), fetch) + ManualIps(files, ThreeDotsOrSlash)
  }

  /** How the backup and the rewrite of `ips` end, the countries being set. */
  function Outcome(files: map<string, string>, ips: seq<string>,
                   rewrite: (string, seq<string>) -> YamlRewrite): (end: CycleEnd)
    ensures !end.Skipped?
    ensures end.BackupRaised? <==> AdguardYaml !in files
  {
    if AdguardYaml !in files then BackupRaised
    else
      match rewrite(files[AdguardYaml], ips)
      case Dumped(text) => Updated(text)
      case NoDocument => NotUpdated
      case LoadError => LoadRaised
  }

  function EndOf(files: map<string, string>, cfg: Config, fetch: string -> Option<string>,
                 rewrite: (string, seq<string>) -> YamlRewrite): (end: CycleEnd)
    ensures end.Skipped? <==> cfg.countries == ""
    ensures !end.Skipped? && !end.BackupRaised? ==> AdguardYaml in files
  {
    if cfg.countries == "" then Skipped else Outcome(files, Gathered(files, cfg, fetch), rewrite)
  }

  predicate Raises(end: CycleEnd) {
    end.BackupRaised? || end.LoadRaised?
  }

  /** The files after a cycle that ended with `end`. */
  function CycleFiles(files: map<string, string>, end: CycleEnd): map<string, string>
    requires end.Skipped? || end.BackupRaised? || AdguardYaml in files
  {
    match end
    case Skipped => files
    case BackupRaised => files
    case NotUpdated => files[LastUpdateBackup := files[AdguardYaml]]
    case LoadRaised => files[LastUpdateBackup := files[AdguardYaml]]
    case Updated(text) => (files[LastUpdateBackup := files[AdguardYaml]] - {TmpYaml})[AdguardYaml := text]
  }

  /** The effects after the downloads: the backup, the rewrite through the temporary file, the restart. */
  function TailLog(cfg: Config, end: CycleEnd): seq<Event> {
    match end
    case Skipped => []
    case BackupRaised => []
    case NotUpdated => [Wrote(LastUpdateBackup)]
    case LoadRaised => [Wrote(LastUpdateBackup)]
    case Updated(_) => [Wrote(LastUpdateBackup), Wrote(TmpYaml), Renamed(TmpYaml, AdguardYaml), Posted(ContainerRestart(cfg))]
  }

  /** The effects of a cycle that ended with `end`, in order. */
  function CycleLog(cfg: Config, end: CycleEnd): seq<Event> {
    if end.Skipped? then [] else Requests(CountryList(cfg.countries)) + TailLog(cfg, end)
  }

  /** The end of `update_blocklist()`: the last-update backup, the rewrite, and the restart only if it returned True. */
  method FinishCycle(h: Host, cfg: Config, ips: seq<string>, rewrite: (string, seq<string>) -> YamlRewrite)
    returns (raised: bool)
    modifies h
    ensures var end := Outcome(old(h.files), ips, rewrite);
            && raised == Raises(end)
            && h.files == CycleFiles(old(h.files), end)
            && h.log == old(h.log) + TailLog(cfg, end)
  {
    ghost var end := Outcome(h.files, ips, rewrite);
    raised := BackupLastUpdate(h);
    if raised {
      return;
    }
    ghost var log1 := h.log;
    var success;
    success, raised := UpdateYamlWithIps(h, ips, rewrite);
    if raised {
      return;
    }
    if success {
      RestartAdguardContainer(h, cfg);
      assert h.log == log1 + [Wrote(TmpYaml), Renamed(TmpYaml, AdguardYaml)] + [Posted(ContainerRestart(cfg))];
    }
  }

  method UpdateBlocklist(h: Host, cfg: Config, fetch: string -> Option<string>,
                         rewrite: (string, seq<string>) -> YamlRewrite)
    returns (raised: bool)
    modifies h
    ensures var end := EndOf(old(h.files), cfg, fetch, rewrite);
            && raised == Raises(end)
            && h.files == CycleFiles(old(h.files), end)
            && h.log == old(h.log) + CycleLog(cfg, end)
  {
    if cfg.countries == "" {
      return false;
    }
    var countries_list := CountryList(cfg.countries);
    var cidr_ips := DownloadCidrLists(h, countries_list, fetch);
    var manual_ips := ReadManualIps(h, ThreeDotsOrSlash);
    var combined_ips := cidr_ips + manual_ips;
    assert combined_ips == Gathered(old(h.files), cfg, fetch);
    assert EndOf(old(h.files), cfg, fetch, rewrite) == Outcome(h.files, combined_ips, rewrite);
    ghost var end := Outcome(h.files, combined_ips, rewrite);
    ghost var log1 := h.log;
    raised := FinishCycle(h, cfg, combined_ips, rewrite);
    LogRegroup(old(h.log), Requests(countries_list), TailLog(cfg, end));
    assert CycleLog(cfg, end) == Requests(countries_list) + TailLog(cfg, end);
  }

  lemma LogRegroup(a: seq<Event>, b: seq<Event>, c: seq<Event>)
    ensures a + b + c == a + (b + c)
  {
  }

  // --------------------------------------------------------------- main

  /**
   * `main()` up to the poll loop: the first-start backup, one cycle, then the
   * one job it registers, or None when an exception ends the process first.
   * A weekly job is registered under its full weekday name (`Register`), as
   * `schedule_job` evidently intends; as written its lookup of the
   * abbreviation fails (`RegisterAsWritten`).
   */
  method Run(h: Host, env: map<string, string>, fetch: string -> Option<string>,
             rewrite: (string, seq<string>) -> YamlRewrite)
    returns (job: Option<Registration>)
    modifies h
    ensures var cfg := ConfigFromEnv(env);
            var files1 := FirstStartFiles(old(h.files));
            var end := EndOf(files1, cfg, fetch, rewrite);
            if FirstStartRaises(old(h.files)) then
              job == None && h.files == old(h.files) && h.log == old(h.log)
            else
              && job == (if Raises(end) then None else Some(Register(ScheduleJob(cfg.cronType, cfg.cronTime, cfg.cronDay))))
              && h.files == CycleFiles(files1, end)
              && h.log == old(h.log) + FirstStartLog(old(h.files)) + CycleLog(cfg, end)
  {
    var cfg := ConfigFromEnv(env);
    var raised := BackupFirstStart(h);
    if raised {
      return None;
    }
    raised := UpdateBlocklist(h, cfg, fetch, rewrite);
    if raised {
      return None;
    }
    var spec := ScheduleJob(cfg.cronType, cfg.cronTime, cfg.cronDay);
    job := Some(Register(spec));
  }

  // ------------------------------------------------------------- lemmas

  lemma {:induction false} RequestsOnlyGet(countries: seq<string>, e: Event)
    requires e in Requests(countries)
    ensures e.Got?
  {
    if countries != [] {
      if e != Got(CidrUrl(countries[0])) {
        RequestsOnlyGet(countries[1..], e);
      }
    }
  }

  /** The container is restarted exactly when the configuration was rewritten. */
  lemma RestartIffUpdated(cfg: Config, end: CycleEnd)
    ensures Posted(ContainerRestart(cfg)) in CycleLog(cfg, end) <==> end.Updated?
  {
    var reqs := Requests(CountryList(cfg.countries));
    if Posted(ContainerRestart(cfg)) in reqs {
      RequestsOnlyGet(CountryList(cfg.countries), Posted(ContainerRestart(cfg)));
    }
    if end.Updated? {
      assert CycleLog(cfg, end)[|reqs| + 3] == Posted(ContainerRestart(cfg));
    } else if !end.Skipped? {
      assert CycleLog(cfg, end) == reqs + TailLog(cfg, end);
    }
  }

  /** Without countries a cycle fetches, reads and writes nothing. */
  lemma SkippedCycle(files: map<string, string>, cfg: Config, fetch: string -> Option<string>,
                     rewrite: (string, seq<string>) -> YamlRewrite)
    requires cfg.countries == ""
    ensures var end := EndOf(files, cfg, fetch, rewrite);
            !Raises(end) && CycleFiles(files, end) == files && CycleLog(cfg, end) == []
  {
  }

  /**
   * Whenever the configuration is rewritten, the last-update backup was written
   * first and holds the configuration as it was before the rewrite.
   */
  lemma BackupBeforeRewrite(files: map<string, string>, cfg: Config, ips: seq<string>,
                            rewrite: (string, seq<string>) -> YamlRewrite)
    requires Outcome(files, ips, rewrite).Updated?
    ensures var end := Outcome(files, ips, rewrite);
            var log := CycleLog(cfg, end);
            && CycleFiles(files, end)[LastUpdateBackup] == files[AdguardYaml]
            && CycleFiles(files, end)[AdguardYaml] == rewrite(files[AdguardYaml], ips).text
            && exists i, j :: 0 <= i < j < |log| && log[i] == Wrote(LastUpdateBackup) && log[j] == Renamed(TmpYaml, AdguardYaml)
  {
    var end := Outcome(files, ips, rewrite);
    var log := CycleLog(cfg, end);
    var n := |Requests(CountryList(cfg.countries))|;
    assert log[n] == Wrote(LastUpdateBackup) && log[n + 2] == Renamed(TmpYaml, AdguardYaml);
  }

  /** A missing configuration never reaches the rewrite: the last-update backup raises first. */
  lemma MissingConfigurationRaises(files: map<string, string>, cfg: Config, fetch: string -> Option<string>,
                                   rewrite: (string, seq<string>) -> YamlRewrite)
    requires cfg.countries != "" && AdguardYaml !in files
    ensures var end := EndOf(files, cfg, fetch, rewrite);
            Raises(end) && CycleFiles(files, end) == files && Wrote(TmpYaml) !in CycleLog(cfg, end)
  {
    var reqs := Requests(CountryList(cfg.countries));
    if Wrote(TmpYaml) in reqs {
      RequestsOnlyGet(CountryList(cfg.countries), Wrote(TmpYaml));
    }
  }

  /** No cycle writes, moves or removes the first-start backup. */
  lemma CycleKeepsFirstBackup(files: map<string, string>, end: CycleEnd)
    requires !end.Skipped? && !end.BackupRaised? ==> AdguardYaml in files
    ensures FirstBackup in CycleFiles(files, end) <==> FirstBackup in files
    ensures FirstBackup in files ==> CycleFiles(files, end)[FirstBackup] == files[FirstBackup]
  {
  }

  /** After `main` the first-start backup holds the configuration the scheduler started with, unless one existed already. */
  lemma FirstBackupAfterMain(files: map<string, string>, cfg: Config, fetch: string -> Option<string>,
                             rewrite: (string, seq<string>) -> YamlRewrite)
    requires !FirstStartRaises(files)
    ensures var files1 := FirstStartFiles(files);
            var after := CycleFiles(files1, EndOf(files1, cfg, fetch, rewrite));
            && FirstBackup in after
            && after[FirstBackup] == if FirstBackup in files then files[FirstBackup] else files[AdguardYaml]
  {
    var files1 := FirstStartFiles(files);
    CycleKeepsFirstBackup(files1, EndOf(files1, cfg, fetch, rewrite));
  }

  /** With nothing set, the job runs daily at 06:00: `schedule.every().day.at("06:00")`. */
  lemma DefaultSchedule()
    ensures var cfg := ConfigFromEnv(map[]);
            ScheduleJob(cfg.cronType, cfg.cronTime, cfg.cronDay) == ScheduleSpec(Daily, 6, 0)
    ensures var cfg := ConfigFromEnv(map[]);
            Register(ScheduleJob(cfg.cronType, cfg.cronTime, cfg.cronDay)) == Registration("day", "06:00")
  {
    var cfg := ConfigFromEnv(map[]);
    assert cfg.cronType == "daily";
    SixOClock();
  }

  lemma SixOClock()
    ensures ParseTime("06:00") == (6, 0)
    ensures ClockText(6, 0) == "06:00"
  {
    SixOClockText();
    ClockRoundTrip(6, 0);
  }

  lemma SixOClockText()
    ensures ClockText(6, 0) == "06:00"
  {
    assert Pad2(6) == "06" && Pad2(0) == "00";
  }
}
