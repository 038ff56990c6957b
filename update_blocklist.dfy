/**
 * One run of update-blocklist.py: check that AdGuardHome.yaml exists and that
 * `BLOCK_COUNTRIES` is set, back the configuration up, gather the blocked
 * networks, rewrite the `disallowed_clients` block through a temporary file,
 * and ask the Docker API to restart the AdGuard Home container.
 */
module UpdateBlocklist {
  import opened Wrappers
  import opened PyStr
  import opened Environment
  import opened Feeds
  import opened Patcher

  const AdguardYaml := "/adguard/AdGuardHome.yaml"
  const FirstBackup := "/adguard/AdGuardHome.yaml.first-start.bak"
  const LastCronBackup := "/adguard/AdGuardHome.yaml.last-cron.bak"
  const TmpYaml := "/adguard/AdGuardHome.yaml.tmp"

  // ------------------------------------------------------------ backups

  /** The files after `backup_files()`: the first-start copy only if there is none yet, the last-cron copy always. */
  function BackedUp(files: map<string, string>): (r: map<string, string>)
    requires AdguardYaml in files
    ensures FirstBackup in r && LastCronBackup in r
    ensures r[FirstBackup] == if FirstBackup in files then files[FirstBackup] else files[AdguardYaml]
    ensures r[LastCronBackup] == files[AdguardYaml]
    ensures forall p :: p in files && p != FirstBackup && p != LastCronBackup ==> p in r && r[p] == files[p]
    ensures forall p :: p in r ==> p in files || p == FirstBackup || p == LastCronBackup
  {
    var yaml := files[AdguardYaml];
    var first := if FirstBackup in files then files else files[FirstBackup := yaml];
    first[LastCronBackup := yaml]
  }

  function BackupLog(files: map<string, string>): seq<Event> {
    (if FirstBackup in files then [] else [Wrote(FirstBackup)]) + [Wrote(LastCronBackup)]
  }

  method BackupFiles(h: Host)
    requires AdguardYaml in h.files
    modifies h
    ensures h.files == BackedUp(old(h.files))
    ensures h.log == old(h.log) + BackupLog(old(h.files))
  {
    if FirstBackup !in h.files {
      h.WriteText(FirstBackup, h.files[AdguardYaml]);
    }
    h.WriteText(LastCronBackup, h.files[AdguardYaml]);
    assert h.log == old(h.log) + BackupLog(old(h.files));
  }

  // ------------------------------------------------------------ the patch

  /** The files after `update_yaml_with_ips(ips)`: the patched configuration in place, no temporary file left. */
  function Patched(files: map<string, string>, ips: seq<string>): map<string, string>
    requires AdguardYaml in files
  {
    (files - {TmpYaml})[AdguardYaml := Apply(files[AdguardYaml], ips)]
  }

  /** `update_yaml_with_ips(ips)`: patch the lines, write them to the temporary file, move it over the configuration. */
  method UpdateYamlWithIps(h: Host, ips: seq<string>)
    requires AdguardYaml in h.files
    modifies h
    ensures h.files == Patched(old(h.files), ips)
    ensures h.log == old(h.log) + [Wrote(TmpYaml), Renamed(TmpYaml, AdguardYaml)]
  {
    var lines := ReadLines(h.files[AdguardYaml]);
    var output_lines := PatchLines(lines, ips);
    h.WriteText(TmpYaml, Join(output_lines, "\n") + "\n");
    h.Replace(TmpYaml, AdguardYaml);
    assert h.files == Patched(old(h.files), ips);
  }

  /** `restart_adguard_container()`: one POST to the Docker API; its response is only logged. */
  method RestartAdguardContainer(h: Host, env: map<string, string>)
    modifies h
    ensures h.files == old(h.files)
    ensures h.log == old(h.log) + [Posted(ContainerRestart(env))]
  {
    var docker_api_url := Getenv(env, "DOCKER_API_URL", "http://socket-proxy-adguard:2375");
    var container_name := Getenv(env, "ADGUARD_CONTAINER_NAME", "adguardhome");
    h.Post(RestartUrl(docker_api_url, container_name));
  }

  function ContainerRestart(env: map<string, string>): string {
    RestartUrl(Getenv(env, "DOCKER_API_URL", "http://socket-proxy-adguard:2375"),
               Getenv(env, "ADGUARD_CONTAINER_NAME", "adguardhome"))
  }

  // ------------------------------------------------------------- main()

  function Countries(env: map<string, string>): string {
    Getenv(env, "BLOCK_COUNTRIES", "")
  }

  /** `main()` exits with status 1, before anything else, when the configuration is missing or no countries are set. */
  predicate ExitsEarly(files: map<string, string>, env: map<string, string>) {
    AdguardYaml !in files || Countries(env) == ""
  }

  /** `cidr_ips + manual_ips`: the countries' lists in order, then the manual entries (three dots only). */
  function BlockedIps(files: map<string, string>, env: map<string, string>, fetch: string -> Option<string>): seq<string> {
    Combined(CountryList(Countries(env)), fetch) + ManualIps(files, ThreeDots)
  }

  /** The files after a full run. */
  function AfterRun(files: map<string, string>, env: map<string, string>, fetch: string -> Option<string>): (r: map<string, string>)
    requires AdguardYaml in files
    ensures AdguardYaml in r && TmpYaml !in r && FirstBackup in r && LastCronBackup in r
    ensures r[LastCronBackup] == files[AdguardYaml]
    ensures r[FirstBackup] == if FirstBackup in files then files[FirstBackup] else files[AdguardYaml]
  {
    var backed := BackedUp(files);
    Patched(backed, BlockedIps(backed, env, fetch))
  }

  /** The effects of a full run, in order: backups, downloads, the patch, the restart. */
  function RunLog(files: map<string, string>, env: map<string, string>): seq<Event> {
    BackupLog(files) + Requests(CountryList(Countries(env)))
    + [Wrote(TmpYaml), Renamed(TmpYaml, AdguardYaml), Posted(ContainerRestart(env))]
  }

  method Run(h: Host, env: map<string, string>, fetch: string -> Option<string>) returns (status: int)
    modifies h
    ensures ExitsEarly(old(h.files), env) ==> status == 1 && h.files == old(h.files) && h.log == old(h.log)
    ensures !ExitsEarly(old(h.files), env) ==>
              && status == 0
              && h.files == AfterRun(old(h.files), env, fetch)
              && h.log == old(h.log) + RunLog(old(h.files), env)
  {
    if AdguardYaml !in h.files {
      return 1;
    }
    var countries := Getenv(env, "BLOCK_COUNTRIES", "");
    if countries == "" {
      return 1;
    }
    ghost var files0 := h.files;
    ghost var log0 := h.log;
    BackupFiles(h);
    var countries_list := CountryList(countries);
    var cidr_ips := DownloadCidrLists(h, countries_list, fetch);
    var manual_ips := ReadManualIps(h, ThreeDots);
    var combined_ips := cidr_ips + manual_ips;
    UpdateYamlWithIps(h, combined_ips);
    RestartAdguardContainer(h, env);
    RunLogSplit(files0, env, log0);
    status := 0;
  }

  lemma RunLogSplit(files: map<string, string>, env: map<string, string>, log0: seq<Event>)
    ensures log0 + BackupLog(files) + Requests(CountryList(Countries(env)))
            + [Wrote(TmpYaml), Renamed(TmpYaml, AdguardYaml)] + [Posted(ContainerRestart(env))]
            == log0 + RunLog(files, env)
  {
  }

  // ------------------------------------------------------------- lemmas

  /** The run's effect on the configuration: the old text patched with the gathered networks. */
  lemma RunPatchesConfiguration(files: map<string, string>, env: map<string, string>, fetch: string -> Option<string>)
    requires AdguardYaml in files
    ensures AfterRun(files, env, fetch)[AdguardYaml] == Apply(files[AdguardYaml], BlockedIps(files, env, fetch))
  {
    assert ManualIps(BackedUp(files), ThreeDots) == ManualIps(files, ThreeDots);
  }

  /** The restart always comes last, right after the temporary file replaced the configuration, and after both backups. */
  lemma RunOrder(files: map<string, string>, env: map<string, string>)
    ensures var log := RunLog(files, env);
            && |log| >= 4
            && log[|log| - 1] == Posted(ContainerRestart(env))
            && log[|log| - 2] == Renamed(TmpYaml, AdguardYaml)
            && log[|log| - 3] == Wrote(TmpYaml)
            && Wrote(LastCronBackup) in log[..|log| - 3]
            && (FirstBackup !in files ==> log[0] == Wrote(FirstBackup))
  {
    var log := RunLog(files, env);
    var b := BackupLog(files);
    assert log[..|log| - 3] == b + Requests(CountryList(Countries(env)));
    assert b[|b| - 1] == Wrote(LastCronBackup);
    assert log[|b| - 1] == b[|b| - 1];
  }

  /** No entry of the gathered list holds a "\n". */
  lemma BlockedIpsOneLine(files: map<string, string>, env: map<string, string>, fetch: string -> Option<string>)
    ensures NoNewlines(BlockedIps(files, env, fetch))
  {
    var cidr := Combined(CountryList(Countries(env)), fetch);
    var manual := ManualIps(files, ThreeDots);
    CombinedNoLineBreak(CountryList(Countries(env)), fetch);
    assert forall k :: 0 <= k < |cidr| ==> '\n' !in cidr[k] by {
      forall k | 0 <= k < |cidr| ensures '\n' !in cidr[k] {
        assert NoLineBreak(cidr[k]);
        assert IsLineBreak('\n');
      }
    }
    if ManualIpsFile in files {
      ManualEntriesNoNewline(ReadLines(files[ManualIpsFile]), ThreeDots);
    }
    var all := cidr + manual;
    forall k | 0 <= k < |all| ensures '\n' !in all[k] {
      if k < |cidr| {
        assert all[k] == cidr[k];
      } else {
        assert all[k] == manual[k - |cidr|];
      }
    }
  }

  /**
   * Running the script a second time with the same downloads and manual
   * entries leaves the configuration as the first run left it, and the
   * first-start backup as well; only the last-cron backup moves on.
   */
  lemma RunIdempotent(files: map<string, string>, env: map<string, string>, fetch: string -> Option<string>)
    requires AdguardYaml in files
    ensures var once := AfterRun(files, env, fetch);
            var twice := AfterRun(once, env, fetch);
            && twice[AdguardYaml] == once[AdguardYaml]
            && twice[FirstBackup] == once[FirstBackup]
            && twice[LastCronBackup] == once[AdguardYaml]
  {
    var once := AfterRun(files, env, fetch);
    var ips := BlockedIps(files, env, fetch);
    RunPatchesConfiguration(files, env, fetch);
    RunPatchesConfiguration(once, env, fetch);
    assert ManualIps(once, ThreeDots) == ManualIps(files, ThreeDots);
    assert BlockedIps(once, env, fetch) == ips;
    BlockedIpsOneLine(files, env, fetch);
    ApplyIdempotent(files[AdguardYaml], ips);
  }
}
