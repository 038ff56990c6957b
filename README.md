# adguard-cidre, modelled in Dafny

adguard-cidre keeps the `disallowed_clients` list of an AdGuard Home
configuration (`/adguard/AdGuardHome.yaml`) filled with the IPv4 networks of
chosen countries. The networks come from the per-country CIDR lists that the
cidre project publishes. Entries from `/adguard/manually_blocked_ips.conf` are
added after them. After writing, the tool asks the Docker API to restart the
AdGuard Home container. It comes in two forms:

- `update-blocklist.py` runs once, for example from cron. It checks that the
  configuration exists and that `BLOCK_COUNTRIES` is set, and exits with
  status 1 otherwise. It writes a first-start backup (only once) and a
  last-cron backup. It then downloads the lists, replaces the
  `disallowed_clients:` block line by line, moves the result into place
  through `AdGuardHome.yaml.tmp`, and restarts the container.
- `blocklist_scheduler.py` runs continuously. It writes the first-start
  backup once, runs one update cycle, and registers one daily or weekly job
  that repeats the cycle. Its cycle differs from the one-shot script:
  - it skips, rather than exits, when no countries are set;
  - it also accepts manual entries that contain a "/";
  - it writes `.last-update.bak` after downloading;
  - it rewrites the document with the YAML library;
  - it restarts the container only when that rewrite reports success.

The files are laid out as follows:

| file | module | what it holds |
|---|---|---|
| `wrappers.dfy` | `Wrappers` | `Option` |
| `pystr.dfy` | `PyStr` | the Python `str` operations the scripts use, with their exact whitespace and line-boundary sets |
| `environment.dfy` | `Environment` | the world the scripts touch: `os.getenv`, and a `Host` class whose fields are the files by path and a log of effects (file writes, renames, GET and POST requests) |
| `patcher.dfy` | `Patcher` | the line rewrite of `update_yaml_with_ips` |
| `feeds.dfy` | `Feeds` | the country list, the download loop and the manual-entry loop; both scripts use these |
| `schedule.dfy` | `Schedule` | `schedule_job`'s normalisation, including the subset of `int()` and `f"{n:02d}"` it relies on |
| `update_blocklist.dfy` | `UpdateBlocklist` | the one-shot script |
| `blocklist_scheduler.dfy` | `BlocklistScheduler` | the scheduler |

How the model is structured:

- Loops that build a list are methods with `while` loops. Each is proved
  equal to a recursive function over the rest of the input:
  - `Patcher.PatchLines` equals `PatchFrom`;
  - `Feeds.DownloadCidrLists` equals `Combined`;
  - `Feeds.ReadManualIps` equals `ManualEntries`.

  The properties are stated as lemmas about those functions.
- The steps of each script are methods over a `Host`. Their contracts give
  the new files and the new effect log as functions of the old ones. Lemmas
  about those functions state the ordering, the backup and the idempotence
  properties.

Three behaviours of the code that a reader might not expect:

- The code appends no missing key. A configuration without a
  `disallowed_clients:` line is written back as it was
  (`Patcher.NoKeyPassesThrough`).
- The code keeps the key line verbatim, including anything written after
  the colon on the same line (`Patcher.BlockReplaced`).
- The code does not range-check the time. "25:99" is kept as hour 25,
  minute 99 (`Schedule.OutOfRangeTimeKept`). Only text that `int()` rejects,
  or that does not split into exactly two parts, falls back to 06:00.

## Model

| member | source | states |
|---|---|---|
| PyStr.IsSpace | update-blocklist.py:75 | the characters `str.isspace()` holds for, which `lstrip()`, `rstrip()` and `strip()` remove |
| PyStr.IsLineBreak | update-blocklist.py:40 | the line boundaries of `str.splitlines()` |
| PyStr.LStrip | update-blocklist.py:75 | `lstrip()`: the text after the leading whitespace |
| PyStr.RStrip | update-blocklist.py:40 | `rstrip()`: the text before the trailing whitespace |
| PyStr.Strip | update-blocklist.py:53 | `strip()`: both at once |
| PyStr.LeadingSpace | update-blocklist.py:75-76 | the width of the indent: every character counted is whitespace and the next one (if any) is not |
| PyStr.TrailingSpace | update-blocklist.py:40 | the trailing run removed by `rstrip()`: all whitespace, and the character before it is not |
| PyStr.RStripChar | update-blocklist.py:81 | `rstrip("\n")` leaves a prefix, removes only "\n" characters, and leaves no "\n" at the end |
| PyStr.Lower | blocklist_scheduler.py:26 | lowercasing keeps the length |
| PyStr.Find | update-blocklist.py:137 | the first position of the separator, or the length when there is none |
| PyStr.Split | update-blocklist.py:137 | `split(",")` never returns an empty list, and no piece holds a comma |
| PyStr.SplitJoin | update-blocklist.py:137 | joining the pieces of `split` with the separator gives back the original text |
| PyStr.SplitTwo | blocklist_scheduler.py:126 | splitting `a:b`, with no ":" in `a` or `b`, gives exactly `[a, b]` |
| PyStr.BreakAt | update-blocklist.py:40 | the first line boundary of `splitlines` in the text |
| PyStr.SplitLines | update-blocklist.py:40 | no line of `splitlines()` holds a line boundary, and the result is empty exactly for empty text |
| PyStr.LineEnd | update-blocklist.py:40 | a boundary is one character or "\r\n", and it ends after the line it follows |
| PyStr.LineEnds | update-blocklist.py:40 | one boundary per line: "\r\n", a single boundary character, or nothing after the last line |
| PyStr.SplitLinesRoundTrip | update-blocklist.py:40 | each line followed by its boundary gives back the text: `splitlines()` loses nothing but the boundaries |
| PyStr.SplitLinesJoin | update-blocklist.py:40 | for text separated by "\n" only and not ending with one, `"\n".join(s.splitlines()) == s` |
| PyStr.LineLength | update-blocklist.py:65-66 | a line read from a file ends at its first "\n" or at the end of the text |
| PyStr.ReadLines | update-blocklist.py:65-66 | every line read is non-empty, holds "\n" only as its last character, and every line but the last has one |
| PyStr.ReadLinesConcat | update-blocklist.py:65-66 | the lines read from a file, put together, are the file's text |
| PyStr.LeadingSpaceAppend | update-blocklist.py:94 | text added after a non-blank line does not change its indent |
| PyStr.LeadingSpacePrefix | update-blocklist.py:85 | whitespace put in front of text adds exactly its length to the indent |
| PyStr.StripEmptyIff | update-blocklist.py:94 | a line is blank exactly when it is all whitespace |
| PyStr.StripIdempotent | update-blocklist.py:53 | stripping a stripped entry changes nothing |
| PyStr.StripLineHasNoNewline | update-blocklist.py:52-53 | a stripped file line holds no "\n" |
| Environment.Host.constructor | update-blocklist.py:14-18 | a host starts with the given files and no effects |
| Environment.Host.WriteText | update-blocklist.py:25 | writing a file sets that path and nothing else, and logs the write |
| Environment.Host.Replace | update-blocklist.py:107 | a rename removes the source, puts its content at the target, and logs the rename |
| Environment.Host.Get | update-blocklist.py:38-39 | a GET returns the outcome for the URL, changes no file, and logs the request |
| Environment.Host.Post | update-blocklist.py:118 | a POST changes no file and logs the request |
| Patcher.Indent | update-blocklist.py:75-76 | the line's leading whitespace |
| Patcher.IsKeyLine | update-blocklist.py:78 | the left-stripped line starts with `disallowed_clients:` |
| Patcher.IsBlank | update-blocklist.py:94 | `line.strip() == ""` |
| Patcher.EndsBlock | update-blocklist.py:94 | inside a block: a blank line, or one indented no deeper than the key |
| Patcher.EntryLine | update-blocklist.py:85 | the item line written for one entry: key indent, two spaces, "- ", entry |
| Patcher.Entries | update-blocklist.py:85-88 | one item line per entry, in order |
| Patcher.Emit | update-blocklist.py:81 | a line as appended to the output: `rstrip("\n")` |
| Patcher.PatchFrom | update-blocklist.py:74-101 | the loop's output from a given line on, in a given loop state: key lines emit themselves and the entries and open a block; lines inside a block are dropped until one ends it; every other line is emitted |
| Patcher.Patch | update-blocklist.py:68-101 | the loop's output from the first line, outside a block |
| Patcher.Render | update-blocklist.py:104-105 | the text written to the temporary file: the lines joined by "\n", plus a final "\n" |
| Patcher.Apply | update-blocklist.py:63-107 | the configuration's new text as a function of its old text and the entries |
| Patcher.PatchLines | update-blocklist.py:68-101 | the loop's output lines are exactly `Patch(lines, ips)` |
| Patcher.StepKey | update-blocklist.py:78-89 | one pass of the loop on a key line: emitted, then the entries, then inside a block |
| Patcher.StepDrop | update-blocklist.py:97-99 | one pass of the loop on a line inside the block: dropped |
| Patcher.StepEmit | update-blocklist.py:94-101 | one pass of the loop on any other line: emitted, and the loop is outside a block |
| Patcher.LoopTests | update-blocklist.py:75-94 | the loop's string tests are the key-line, indent and end-of-block predicates |
| Patcher.PassThrough | update-blocklist.py:100-101 | lines before the first key line come out unchanged, without their "\n" |
| Patcher.DropBlock | update-blocklist.py:91-99 | a block's deeper-indented, non-blank lines are dropped |
| Patcher.KeyFirst | update-blocklist.py:78-89 | a key line starts a new block from any state |
| Patcher.BoundaryFirst | update-blocklist.py:94-96 | the line ending a block is kept, and the loop is outside a block again |
| Patcher.BlockReplaced | update-blocklist.py:78-96 | the key line is kept verbatim and followed by one `indent + "  - " + ip` line per entry; the old block is gone; the line that ends it (a blank line or one indented no deeper than the key) and everything after it are processed as usual |
| Patcher.BlockAtEnd | update-blocklist.py:78-99 | a block that runs to the end of the file is replaced up to the end |
| Patcher.KeyInsideBlock | update-blocklist.py:78-89 | a key line inside a block is patched as well and starts its own block |
| Patcher.NoKeyLinesUnchanged | update-blocklist.py:74-101 | without a key line every line passes through |
| Patcher.EmitLine | update-blocklist.py:81 | `rstrip("\n")` on a file line removes exactly its terminator |
| Patcher.RenderCons | update-blocklist.py:105 | the written text is the first line, "\n", then the rest |
| Patcher.RenderEmitAll | update-blocklist.py:104-105 | writing the unchanged lines gives back the file, with a final "\n" added if it had none |
| Patcher.RenderEmitLine | update-blocklist.py:104-105 | appending one read line in front keeps the read-back equal to the text |
| Patcher.TerminatedAppend | update-blocklist.py:105 | a final "\n" is added only at the end of the text |
| Patcher.NoKeyPassesThrough | update-blocklist.py:63-107 | a configuration without the key comes out as it was (plus a final "\n" if it had none); nothing is appended |
| Patcher.RenderReadBack | update-blocklist.py:104-105 | reading back the written file yields the output lines, each with its "\n" |
| Patcher.LineLengthOf | update-blocklist.py:105 | a written line without "\n" is read back up to its terminator |
| Patcher.EntriesNoNewline | update-blocklist.py:85 | item lines built from entries without "\n" hold no "\n" |
| Patcher.PatchOutputNoNewline | update-blocklist.py:81-101 | no output line holds a "\n" when the entries hold none |
| Patcher.TerminateAppend | update-blocklist.py:105 | terminating two runs of lines is terminating each |
| Patcher.TerminateCons | update-blocklist.py:105 | terminating a line followed by more lines |
| Patcher.StartsWithKeyNewlines | update-blocklist.py:78 | trailing "\n"s do not turn a line into a key line or out of one |
| Patcher.NewlinesAfterText | update-blocklist.py:94 | trailing "\n"s do not change a non-blank line's indent or blankness |
| Patcher.NewlinesAfterBlank | update-blocklist.py:94 | a blank line stays blank with trailing "\n"s |
| Patcher.TrailingNewlinesIrrelevant | update-blocklist.py:75-94 | the loop treats a line with trailing "\n"s as the line without them |
| Patcher.ReadBackSameLine | update-blocklist.py:81-94 | a line written and read back is classified as before and emitted as before |
| Patcher.SameClass | update-blocklist.py:75-94 | trailing "\n"s change neither the key test, nor the end-of-block test, nor the key's indent |
| Patcher.EmitAgain | update-blocklist.py:81 | `rstrip("\n")` undoes the appended terminator |
| Patcher.EntryDropped | update-blocklist.py:85-99 | an item line written under the key is dropped as part of the block when read back |
| Patcher.EntriesDropped | update-blocklist.py:85-99 | the whole written item block is dropped when read back inside the block |
| Patcher.PatchFixpoint | update-blocklist.py:68-101 | the loop applied to its own output (read back) gives the same output |
| Patcher.ApplyIdempotent | update-blocklist.py:63-107 | patching a patched configuration again with the same entries changes nothing |
| Feeds.StrippedNonBlank | update-blocklist.py:137 | the comprehension: each piece stripped, blank ones dropped, order kept |
| Feeds.CountryList | update-blocklist.py:137 | the codes of a `BLOCK_COUNTRIES` value: its comma-separated pieces, filtered as above |
| Feeds.CidrUrl | update-blocklist.py:35 | the list URL of one country, with the code lowercased |
| Feeds.ListEntries | update-blocklist.py:40 | the entries of a downloaded list: `r.text.strip().splitlines()` |
| Feeds.Contribution | update-blocklist.py:37-44 | one country's entries, or none when its download failed |
| Feeds.Combined | update-blocklist.py:32-45 | all contributions, in country order |
| Feeds.Requests | update-blocklist.py:34-38 | one GET of each country's list URL, in country order |
| Feeds.Accepts | update-blocklist.py:55 | a stripped line is kept when non-empty with exactly three dots (the scheduler, blocklist_scheduler.py:66, also keeps any line with a "/") |
| Feeds.ManualEntries | update-blocklist.py:52-56 | the stripped lines that are accepted, in file order |
| Feeds.ManualIps | update-blocklist.py:47-61 | the manual entries of the file, or none when it does not exist |
| Feeds.StrippedNonBlankShape | update-blocklist.py:137 | every kept piece is non-empty, comma-free and stripped |
| Feeds.CountryListShape | update-blocklist.py:137 | every country code is non-empty, comma-free and without surrounding whitespace |
| Feeds.StrippedNonBlankAppend | update-blocklist.py:137 | filtering two runs of pieces is filtering each |
| Feeds.CountryListComma | update-blocklist.py:137 | the codes of `a,b` are the codes of `a` followed by those of `b` |
| Feeds.CountryListSingle | update-blocklist.py:137 | a value without comma gives its stripped self, or nothing when blank |
| Feeds.CountryListOnlyBlanks | blocklist_scheduler.py:113 | a value of only commas and spaces gives no country at all (the run still goes ahead) |
| Feeds.DownloadCidrLists | update-blocklist.py:32-45 | the loop returns `Combined(countries)`, requests one URL per country in order, and writes no file |
| Feeds.DownloadOne | update-blocklist.py:35-44 | one country: a GET of its list URL, and its entries, or none when the request or its status failed; no file changes |
| Feeds.CombinedStep | update-blocklist.py:34-44 | one pass of the download loop adds that country's contribution |
| Feeds.ContributionOf | update-blocklist.py:37-44 | a successful download contributes its stripped lines; a failed one contributes nothing |
| Feeds.RequestsStep | update-blocklist.py:35-38 | one pass of the download loop makes that country's request |
| Feeds.CombinedAppend | update-blocklist.py:32-45 | the list for two runs of countries is the two lists one after the other |
| Feeds.FailedCountrySkipped | update-blocklist.py:43-44 | a failed country is skipped, and the countries around it still contribute |
| Feeds.FailedAlone | update-blocklist.py:43-44 | a failed country alone gives an empty list |
| Feeds.CombinedNoLineBreak | update-blocklist.py:40 | no downloaded entry holds a line boundary |
| Feeds.ReadManualIps | update-blocklist.py:47-61 | the loop returns the stripped lines that pass the rule, in file order, or nothing without the file |
| Feeds.ManualStep | update-blocklist.py:52-56 | one pass of the reading loop keeps the stripped line exactly when it passes |
| Feeds.ManualEntriesExactly | update-blocklist.py:52-56 | an entry is kept exactly when some line strips to it and it passes the rule |
| Feeds.SlashRuleKeepsMore | blocklist_scheduler.py:66 | the scheduler keeps every entry the one-shot script keeps |
| Feeds.ManualEntriesNoNewline | update-blocklist.py:52-56 | no manual entry holds a "\n" |
| Schedule.IsIntSpace | blocklist_scheduler.py:126 | the whitespace `int()` skips: the `isspace()` characters except U+001C to U+001F |
| Schedule.IntLeading | blocklist_scheduler.py:126 | the run of leading whitespace `int()` skips: all skipped characters, and the next one is not |
| Schedule.IntTrailing | blocklist_scheduler.py:126 | the same at the end of the text |
| Schedule.IntStrip | blocklist_scheduler.py:126 | the text `int()` reads a number from |
| Schedule.IsDigitGroup | blocklist_scheduler.py:126 | the digits `int()` accepts: ASCII digits, a single "_" allowed between two of them |
| Schedule.DigitsValue | blocklist_scheduler.py:126 | the value of such digits, underscores skipped |
| Schedule.ParseInt | blocklist_scheduler.py:126 | `int(x)`: skipped whitespace, an optional sign, then a digit group; anything else is the ValueError (None) |
| Schedule.Decimal | blocklist_scheduler.py:132 | the decimal digits of a natural number |
| Schedule.Pad2 | blocklist_scheduler.py:132 | `f"{n:02d}"`: a sign for negative values, zero-filled to two characters otherwise |
| Schedule.ClockText | blocklist_scheduler.py:132 | `f"{hour:02d}:{minute:02d}"` |
| Schedule.ParseTime | blocklist_scheduler.py:125-129 | exactly two ":"-separated parts that both parse, or (6, 0) |
| Schedule.DigitChar | blocklist_scheduler.py:132 | the digit character of a value below ten is a digit of that value |
| Schedule.DayOf | blocklist_scheduler.py:135-139 | the day is always one of the seven abbreviations, and is either "mon" or a prefix of the setting |
| Schedule.ScheduleJob | blocklist_scheduler.py:124-145 | exactly one job per call; weekly exactly when the type is "weekly" (any other type is daily), with the day from `DayOf`; the hour and minute are the parsed time |
| Schedule.AllDigitsGroup | blocklist_scheduler.py:126 | plain digits are a number `int()` accepts |
| Schedule.DecimalDigits | blocklist_scheduler.py:132 | the decimal text of a number is all digits and reads back as that number |
| Schedule.LeadingZero | blocklist_scheduler.py:126 | a leading zero does not change the value `int()` reads |
| Schedule.DigitsUnstripped | blocklist_scheduler.py:126 | digits have no whitespace for `int()` to skip |
| Schedule.Unpadded | blocklist_scheduler.py:126 | text that starts and ends with a character `int()` does not skip is read whole |
| Schedule.LeadingAgrees | blocklist_scheduler.py:126 | without U+001C to U+001F, `int()` skips the same leading run as `lstrip()` |
| Schedule.TrailingAgrees | blocklist_scheduler.py:126 | the same for the trailing run and `rstrip()` |
| Schedule.IntStripAgrees | blocklist_scheduler.py:126 | without U+001C to U+001F, `int()` ignores exactly what `strip()` removes |
| Schedule.SeparatorRejected | blocklist_scheduler.py:126 | `int()` rejects any text that starts with U+001C (such as "\x1c07"): that character is not skipped |
| Schedule.SeparatorNotSkipped | blocklist_scheduler.py:126-129 | so a time whose hour starts with U+001C (such as "\x1c07:30") falls back to 06:00 |
| Schedule.NegativeParses | blocklist_scheduler.py:126-132 | a negative number's padded text reads back as that number |
| Schedule.OneDigitParses | blocklist_scheduler.py:126-132 | a zero-padded single digit reads back as its value |
| Schedule.ManyDigitsParse | blocklist_scheduler.py:126-132 | an unpadded number reads back as itself |
| Schedule.Pad2Parses | blocklist_scheduler.py:126-132 | `int(f"{n:02d}") == n` for every integer |
| Schedule.Pad2TwoDigits | blocklist_scheduler.py:132 | an hour or minute from 0 to 99 is shown as exactly two digits |
| Schedule.Pad2NoColon | blocklist_scheduler.py:132 | the padded text holds no ":" |
| Schedule.ClockRoundTrip | blocklist_scheduler.py:126-132 | parsing the registered time text gives back the hour and minute, in every branch |
| Schedule.TwoDigitText | blocklist_scheduler.py:132 | a two-digit value is shown as its two digits |
| Schedule.LateClockText | blocklist_scheduler.py:132 | 25 and 99 are shown as "25:99" |
| Schedule.OutOfRangeTimeKept | blocklist_scheduler.py:126 | "25:99" is kept as (25, 99): there is no range check |
| Schedule.NoColonFallsBack | blocklist_scheduler.py:125-129 | a time with a single part falls back to 06:00 |
| Schedule.BadPartFallsBack | blocklist_scheduler.py:125-129 | a part that `int()` rejects makes the time fall back to 06:00 |
| Schedule.SpacesAndPlus | blocklist_scheduler.py:126 | `int()` accepts surrounding spaces and a "+" sign |
| Schedule.MinusLeadingZero | blocklist_scheduler.py:126 | `int()` accepts a "-" sign followed by leading zeros |
| Schedule.TrailingUnderscore | blocklist_scheduler.py:126 | a number never ends with "_" |
| Schedule.UnderscoreBetweenDigits | blocklist_scheduler.py:126 | "1_5" reads as 15 |
| Schedule.UnderscoreAtEnd | blocklist_scheduler.py:126 | "1_" is rejected |
| Schedule.UnderscoreAtStart | blocklist_scheduler.py:126 | "_1" is rejected |
| Schedule.DayPrefixKept | blocklist_scheduler.py:136-137 | a valid three-letter start of the day setting is the day used |
| Schedule.TuesdayIsTue | blocklist_scheduler.py:28 | "Tuesday", lowercased and cut to three letters, is "tue" |
| Schedule.UnknownDayIsMonday | blocklist_scheduler.py:137-139 | an unknown day falls back to Monday |
| Schedule.IsJobUnit | blocklist_scheduler.py:132-144 | the job properties `schedule_job` can reach: `day` and the seven full weekday names of the `schedule` library |
| Schedule.RegisterAsWritten | blocklist_scheduler.py:131-145 | the registration as written: `every().day`, or the property named by the three-letter day, which fails (None) unless the job object has it; whatever it registers is a real property at the formatted time |
| Schedule.WeeklyNeverRegisters | blocklist_scheduler.py:140 | as written, no weekly schedule registers: no abbreviation is a property of the job object |
| Schedule.WeekdayName | blocklist_scheduler.py:140 | the full weekday property behind an abbreviation, which starts with that abbreviation |
| Schedule.Register | blocklist_scheduler.py:131-145 | the intended registration: always a real property, `day` exactly for daily jobs, the chosen weekday for weekly ones, at the formatted time |
| Schedule.RegisterIntended | blocklist_scheduler.py:131-145 | the intended registration agrees with the code wherever the code succeeds, and its weekday cut to three letters is the chosen day again |
| Schedule.NormaliseFixpoint | blocklist_scheduler.py:124-145 | normalising the settings of a normalised schedule gives the same schedule |
| UpdateBlocklist.ExitsEarly | update-blocklist.py:127-133 | `main` exits with status 1 when the configuration is missing or `BLOCK_COUNTRIES` is empty |
| UpdateBlocklist.BlockedIps | update-blocklist.py:137-141 | the CIDR entries in country order, then the manual entries with three dots |
| UpdateBlocklist.Patched | update-blocklist.py:103-107 | the files after the patch: the configuration replaced by its patched text, no temporary file left |
| UpdateBlocklist.RunLog | update-blocklist.py:135-145 | the run's effects in order: backups, downloads, temporary write, rename, restart |
| UpdateBlocklist.BackedUp | update-blocklist.py:22-30 | an existing first-start backup is kept, a missing one becomes the configuration; the last-cron backup is the configuration; no other file changes |
| UpdateBlocklist.BackupFiles | update-blocklist.py:22-30 | the files become `BackedUp`, and the writes are logged (the first-start one only when it was missing) |
| UpdateBlocklist.UpdateYamlWithIps | update-blocklist.py:63-107 | the configuration becomes `Apply(old text, ips)` and the temporary file is gone: written, then renamed |
| UpdateBlocklist.RestartAdguardContainer | update-blocklist.py:111-124 | one POST to `DOCKER_API_URL/containers/ADGUARD_CONTAINER_NAME/restart` (with their defaults), and no file changes |
| UpdateBlocklist.AfterRun | update-blocklist.py:126-145 | after a run the configuration exists, the temporary file does not, and both backups hold what `BackedUp` says |
| UpdateBlocklist.Run | update-blocklist.py:126-145 | status 1 and no effect at all when the configuration is missing or `BLOCK_COUNTRIES` is empty; otherwise status 0, the files are `AfterRun`, and the effects are the backups, the downloads, the write, the rename and the restart, in that order |
| UpdateBlocklist.RunLogSplit | update-blocklist.py:135-145 | the effects of the steps, one after the other, are the run's effects |
| UpdateBlocklist.RunPatchesConfiguration | update-blocklist.py:137-143 | the new configuration is the old one patched with the CIDR entries in country order, then the manual entries |
| UpdateBlocklist.RunOrder | update-blocklist.py:135-145 | the restart is the last effect, right after the rename and the write of the temporary file; the last-cron backup comes before them, and a missing first-start backup is written first of all |
| UpdateBlocklist.BlockedIpsOneLine | update-blocklist.py:137-141 | no gathered entry holds a "\n" |
| UpdateBlocklist.RunIdempotent | update-blocklist.py:126-145 | a second run with the same downloads leaves the configuration and the first-start backup as the first run left them, and its last-cron backup is the first run's result |
| BlocklistScheduler.ConfigFromEnv | blocklist_scheduler.py:25-31 | the settings are read once; type and day are lowercased and keep their length |
| BlocklistScheduler.FirstStartRaises | blocklist_scheduler.py:33-36 | the first-start backup raises when it is missing and so is the configuration |
| BlocklistScheduler.FirstStartLog | blocklist_scheduler.py:33-36 | the write of the first-start backup, only when it was missing and the configuration exists |
| BlocklistScheduler.Gathered | blocklist_scheduler.py:113-116 | the CIDR entries in country order, then the manual entries with three dots or a "/" |
| BlocklistScheduler.CycleFiles | blocklist_scheduler.py:108-122 | the files after a cycle for each way it ends: unchanged when skipped or when the backup raised; the backup written otherwise; the dumped document in place when updated |
| BlocklistScheduler.TailLog | blocklist_scheduler.py:118-122 | the effects after the downloads: the backup write, then the temporary write, the rename and the restart when updated |
| BlocklistScheduler.CycleLog | blocklist_scheduler.py:108-122 | nothing when skipped; otherwise the downloads followed by those effects |
| BlocklistScheduler.FirstStartFiles | blocklist_scheduler.py:33-38 | an existing first-start backup is never overwritten; a missing one becomes the configuration; a missing configuration changes nothing |
| BlocklistScheduler.BackupFirstStart | blocklist_scheduler.py:33-38 | raises exactly when the backup must be written but there is no configuration; otherwise the files become `FirstStartFiles` |
| BlocklistScheduler.BackupLastUpdate | blocklist_scheduler.py:40-42 | raises, with no effect, when there is no configuration; otherwise the backup is set to the configuration |
| BlocklistScheduler.UpdateYamlWithIps | blocklist_scheduler.py:74-94 | False with no effect without a configuration or a document; a parser exception escapes with no effect; otherwise True, the dumped document replaces the configuration, and the temporary file is gone |
| BlocklistScheduler.RestartAdguardContainer | blocklist_scheduler.py:96-106 | one POST to the restart URL from the settings, and no file changes |
| BlocklistScheduler.Outcome | blocklist_scheduler.py:118-122 | the backup raises exactly when there is no configuration |
| BlocklistScheduler.EndOf | blocklist_scheduler.py:108-122 | a cycle is skipped exactly when `BLOCK_COUNTRIES` is empty, and gets past the backup only with a configuration |
| BlocklistScheduler.FinishCycle | blocklist_scheduler.py:118-122 | the backup, then the rewrite, then the restart only when the rewrite returned True |
| BlocklistScheduler.UpdateBlocklist | blocklist_scheduler.py:108-122 | the files and effects of the cycle as `EndOf` decides: downloads, manual entries, backup, rewrite, restart |
| BlocklistScheduler.Run | blocklist_scheduler.py:147-153 | the first-start backup, one cycle, then the intended registration (`Schedule.Register`) of the job from the settings; no job when an exception ends the process first |
| BlocklistScheduler.RequestsOnlyGet | blocklist_scheduler.py:44-57 | the downloads make only GET requests |
| BlocklistScheduler.RestartIffUpdated | blocklist_scheduler.py:120-122 | the container is restarted exactly when the configuration was rewritten |
| BlocklistScheduler.SkippedCycle | blocklist_scheduler.py:109-111 | with no countries a cycle fetches, reads, backs up, patches and restarts nothing |
| BlocklistScheduler.BackupBeforeRewrite | blocklist_scheduler.py:118-122 | when the configuration is rewritten, the last-update backup was written first and holds the configuration as it was before |
| BlocklistScheduler.MissingConfigurationRaises | blocklist_scheduler.py:118-120 | without a configuration the backup raises, so the rewrite's own existence check is never reached and no temporary file is written |
| BlocklistScheduler.CycleKeepsFirstBackup | blocklist_scheduler.py:108-122 | no cycle writes, moves or removes the first-start backup |
| BlocklistScheduler.FirstBackupAfterMain | blocklist_scheduler.py:147-152 | after the first cycle the first-start backup is the starting configuration, unless a backup existed already |
| BlocklistScheduler.DefaultSchedule | blocklist_scheduler.py:26-28 | with nothing set the job is `every().day.at("06:00")` |
| BlocklistScheduler.SixOClock | blocklist_scheduler.py:126-132 | "06:00" reads as (6, 0) and is registered as "06:00" |
| BlocklistScheduler.SixOClockText | blocklist_scheduler.py:132 | 6 and 0 are shown as "06:00" |

## Left out

- HTTP: `requests.get` and `requests.post` are not modelled as network calls.
  - A download is a function from URL to the body of a successful response,
    or None for a transport error or an error status. The same URL always
    gives the same outcome within a run.
  - The per-country outcomes are therefore given by that function, not as a
    list of outcomes.
  - The restart request is logged as an effect. Its response status only
    reaches the log, so it is not modelled.
- `yaml.safe_load`/`yaml.safe_dump` in the scheduler's `update_yaml_with_ips`
  are one opaque function. It maps the configuration text and the entries to
  a dumped document, to "no document", or to an exception (a parse error, or a
  document that is not a mapping and so cannot take the new key). What the
  YAML library does to the rest of the document (key order, comments,
  formatting) is not modelled.
- The `schedule` library is modelled only by the names of its job
  properties (`day`, `monday` … `sunday`). Left out: its validation of the
  time text given to `.at()`, the `run_pending`/`sleep(10)` poll loop, and the
  later cycles it triggers. The model stops at the one job `main` registers.
- BlocklistScheduler.Run: registers a weekly job under its full weekday name,
  as intended (`Schedule.Register`). As written, every weekly setting fails:
  the code looks up the three-letter day, which the job object does not have.
  `main` then ends with AttributeError after the first cycle, and no job is
  ever registered (`Schedule.WeeklyNeverRegisters`; see Findings). A daily
  job registers the same in both.
- entrypoint.py is not part of this model.
- Logging is left out; no function in the core branches on a logged value.
- Atomicity and failure of file writes and of the rename are left out. A
  write always succeeds; the rename is a single step.
- Files are Unicode text. Text-mode newline translation (a "\r\n" read as
  "\n") and encodings are left out. `readlines` splits after each "\n" of
  the decoded text.
- Whitespace for `strip()`, `lstrip()` and `rstrip()` is the exact set for
  which Python's `str.isspace()` holds. Line boundaries are those of
  `str.splitlines()`. `int()` skips its own, smaller set
  (`Schedule.IsIntSpace`).
- PyStr.Lower: lowercases ASCII letters only. The settings it is applied to
  are ASCII keywords.
- Schedule.ParseInt: accepts ASCII digits only. Python's `int()` also reads
  other Unicode decimal digits.
- Schedule.ParseInt: has no digit limit. Since Python 3.11, `int()` raises
  ValueError for more than 4300 digits by default. Such a time text would
  fall back to 06:00 in the code, but is read as its value here.
- Exceptions on the one-shot script's paths are not modelled, since `main`
  has checked the configuration first. The scheduler's escaping exceptions
  are modelled as a `raised` result that ends the process.
- Excluding countries and appending a missing `disallowed_clients:` key are
  not done by the code, so they are not part of the model.

## Findings

| source | as written | input that shows it | evidently intended | confidence | as-written member | corrected member |
|---|---|---|---|---|---|---|
| blocklist_scheduler.py:140 | `getattr(schedule.every(), day)` looks up the three-letter day, but the `schedule` library's job object names its weekday properties in full (`monday` … `sunday`), so the lookup raises AttributeError and `main` ends without a job | `BLOCKLIST_CRON_TYPE=weekly`, any `BLOCKLIST_CRON_DAY` (the day becomes "mon", "tue", …) | look up the full weekday name of the chosen day | medium: not executed; rests on the library's property names | Schedule.RegisterAsWritten, with Schedule.WeeklyNeverRegisters | Schedule.Register, with Schedule.RegisterIntended |
