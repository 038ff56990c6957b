/**
 * Where the blocked networks come from, shared by both scripts: the country
 * codes of `BLOCK_COUNTRIES`, the per-country CIDR lists downloaded from the
 * cidre repository, and the manually blocked entries of
 * `manually_blocked_ips.conf`.
 */
module Feeds {
  import opened Wrappers
  import opened PyStr
  import opened Environment

  const CidrBaseUrl := "https://raw.githubusercontent.com/vulnebify/cidre/main/output/cidr/ipv4"
  const ManualIpsFile := "/adguard/manually_blocked_ips.conf"

  // ------------------------------------------------------------- countries

  /** `[c.strip() for c in pieces if c.strip()]`. */
  function StrippedNonBlank(pieces: seq<string>): seq<string> {
    if pieces == [] then []
    else (if Strip(pieces[0]) != "" then [Strip(pieces[0])] else []) + StrippedNonBlank(pieces[1..])
  }

  /** The country codes of a `BLOCK_COUNTRIES` value: its comma-separated, stripped, non-blank pieces. */
  function CountryList(raw: string): seq<string> {
    StrippedNonBlank(Split(raw, ','))
  }

  /** Every code is non-empty, has no comma and no surrounding whitespace. */
  predicate CodesShaped(codes: seq<string>) {
    forall k :: 0 <= k < |codes| ==> codes[k] != "" && ',' !in codes[k] && Strip(codes[k]) == codes[k]
  }

  lemma {:induction false} StrippedNonBlankShape(pieces: seq<string>)
    requires forall k :: 0 <= k < |pieces| ==> ',' !in pieces[k]
    ensures CodesShaped(StrippedNonBlank(pieces))
  {
    if pieces != [] {
      var p := pieces[0];
      var rest := StrippedNonBlank(pieces[1..]);
      StrippedNonBlankShape(pieces[1..]);
      var s := Strip(p);
      if s != "" {
        StripIdempotent(p);
        forall j | 0 <= j < |s| ensures s[j] != ',' {
          assert s[j] == p[LeadingSpace(p) + j];
        }
        assert StrippedNonBlank(pieces) == [s] + rest;
      } else {
        assert StrippedNonBlank(pieces) == [] + rest;
      }
    }
  }

  lemma CountryListShape(raw: string)
    ensures CodesShaped(CountryList(raw))
  {
    StrippedNonBlankShape(Split(raw, ','));
  }

  lemma {:induction false} StrippedNonBlankAppend(a: seq<string>, b: seq<string>)
    ensures StrippedNonBlank(a + b) == StrippedNonBlank(a) + StrippedNonBlank(b)
    decreases |a|
  {
    if a == [] {
      assert a + b == b;
    } else {
      assert (a + b)[0] == a[0] && (a + b)[1..] == a[1..] + b;
      StrippedNonBlankAppend(a[1..], b);
    }
  }

  /** A comma splits the country list in two: the codes before it, then the codes after it. */
  lemma CountryListComma(a: string, b: string)
    requires ',' !in a
    ensures CountryList(a + "," + b) == CountryList(a) + CountryList(b)
  {
    var s := a + "," + b;
    assert s[|a|] == ',';
    assert forall j :: 0 <= j < |a| ==> s[j] == a[j];
    assert Find(s, ',') == |a|;
    assert s[..|a|] == a && s[|a| + 1..] == b;
    assert Find(a, ',') == |a|;
    assert Split(s, ',') == [a] + Split(b, ',');
    StrippedNonBlankAppend([a], Split(b, ','));
  }

  /** A piece without a comma is one code, or none when it is blank. */
  lemma CountryListSingle(a: string)
    requires ',' !in a
    ensures CountryList(a) == if Strip(a) == "" then [] else [Strip(a)]
  {
    assert Find(a, ',') == |a|;
    assert Split(a, ',') == [a];
    assert [a][1..] == [];
    assert StrippedNonBlank([a]) == (if Strip(a) != "" then [Strip(a)] else []) + StrippedNonBlank([]);
    AppendEmpty(if Strip(a) == "" then [] else [Strip(a)]);
  }

  /** A value made only of commas and blanks names no country, although it is not empty. */
  lemma CountryListOnlyBlanks()
    ensures CountryList(" , ") == []
  {
    assert " , " == " " + "," + " ";
    CountryListComma(" ", " ");
    assert LeadingSpace(" ") == 1;
    StripEmptyIff(" ");
    CountryListSingle(" ");
  }

  // --------------------------------------------------------- CIDR lists

  /** `f"{CIDR_BASE_URL}/{code.lower()}.cidr"`. */
  function CidrUrl(code: string): string {
    CidrBaseUrl + "/" + Lower(code) + ".cidr"
  }

  /** The entries of a downloaded list: `r.text.strip().splitlines()`. */
  function ListEntries(body: string): seq<string> {
    SplitLines(Strip(body))
  }

  /** What one country contributes: its list's entries, or nothing when the download failed. */
  function Contribution(code: string, fetch: string -> Option<string>): seq<string> {
    match fetch(CidrUrl(code))
    case Some(body) => ListEntries(body)
    case None => []
  }

  /** `download_cidr_lists(countries)`: the contributions, in country order. */
  function Combined(countries: seq<string>, fetch: string -> Option<string>): seq<string> {
    if countries == [] then [] else Contribution(countries[0], fetch) + Combined(countries[1..], fetch)
  }

  /** The requests made for `countries`, in order. */
  function Requests(countries: seq<string>): seq<Event> {
    if countries == [] then [] else [Got(CidrUrl(countries[0]))] + Requests(countries[1..])
  }

  /** The loop of `download_cidr_lists` (update-blocklist.py 32-45, blocklist_scheduler.py 44-57). */
  method DownloadCidrLists(h: Host, countries: seq<string>, fetch: string -> Option<string>)
    returns (combined_ips: seq<string>)
    modifies h
    ensures combined_ips == Combined(countries, fetch)
    ensures h.files == old(h.files) && h.log == old(h.log) + Requests(countries)
  {
    combined_ips := [];
    var i := 0;
    while i < |countries|
      invariant 0 <= i <= |countries|
      invariant combined_ips + Combined(countries[i..], fetch) == Combined(countries, fetch)
      invariant h.files == old(h.files)
      invariant h.log + Requests(countries[i..]) == old(h.log) + Requests(countries)
    {
      var code := countries[i];
      ghost var before := combined_ips;
      RequestsStep(countries, i, h.log);
      var ips := DownloadOne(h, code, fetch);
      combined_ips := combined_ips + ips;
      CombinedStep(countries, i, fetch, before, combined_ips);
      i := i + 1;
    }
  }

  /** The body of the loop for one country: its entries, or none when the request or its status failed. */
  method DownloadOne(h: Host, code: string, fetch: string -> Option<string>) returns (ips: seq<string>)
    modifies h
    ensures ips == Contribution(code, fetch)
    ensures h.files == old(h.files) && h.log == old(h.log) + [Got(CidrUrl(code))]
  {
    var url := CidrBaseUrl + "/" + Lower(code) + ".cidr";
    var r := h.Get(url, fetch);
    ips := [];
    if r.Some? {
      ips := ListEntries(r.value);
    }
    ContributionOf(code, fetch, r, [], ips);
  }

  /** One pass of the download loop: what country `i` contributes. */
  lemma CombinedStep(countries: seq<string>, i: nat, fetch: string -> Option<string>, before: seq<string>, after: seq<string>)
    requires i < |countries|
    requires before + Combined(countries[i..], fetch) == Combined(countries, fetch)
    requires after == before + Contribution(countries[i], fetch)
    ensures after + Combined(countries[i + 1..], fetch) == Combined(countries, fetch)
  {
    assert countries[i..][0] == countries[i] && countries[i..][1..] == countries[i + 1..];
    AppendAssoc(before, Contribution(countries[i], fetch), Combined(countries[i + 1..], fetch));
  }

  /** The body of the loop appends the entries of a successful download, and nothing otherwise. */
  lemma ContributionOf(code: string, fetch: string -> Option<string>, r: Option<string>,
                       before: seq<string>, after: seq<string>)
    requires r == fetch(CidrUrl(code))
    requires after == if r.Some? then before + ListEntries(r.value) else before
    ensures after == before + Contribution(code, fetch)
  {
    if r.None? {
      AppendEmpty(before);
    }
  }

  /** One pass of the download loop: the request made for country `i`. */
  lemma RequestsStep(countries: seq<string>, i: nat, log: seq<Event>)
    requires i < |countries|
    ensures log + Requests(countries[i..]) == log + [Got(CidrUrl(countries[i]))] + Requests(countries[i + 1..])
  {
    assert countries[i..][0] == countries[i] && countries[i..][1..] == countries[i + 1..];
  }

  /** The lists of two runs of countries are the two lists one after the other. */
  lemma {:induction false} CombinedAppend(a: seq<string>, b: seq<string>, fetch: string -> Option<string>)
    ensures Combined(a + b, fetch) == Combined(a, fetch) + Combined(b, fetch)
    decreases |a|
  {
    if a == [] {
      assert a + b == b;
    } else {
      var c := Contribution(a[0], fetch);
      assert (a + b)[0] == a[0] && (a + b)[1..] == a[1..] + b;
      calc {
        Combined(a + b, fetch);
        c + Combined(a[1..] + b, fetch);
        { CombinedAppend(a[1..], b, fetch); }
        c + (Combined(a[1..], fetch) + Combined(b, fetch));
        { AppendAssoc(c, Combined(a[1..], fetch), Combined(b, fetch)); }
        c + Combined(a[1..], fetch) + Combined(b, fetch);
      }
    }
  }

  /** A country whose download fails is skipped; the countries around it are unaffected. */
  lemma FailedCountrySkipped(a: seq<string>, code: string, b: seq<string>, fetch: string -> Option<string>)
    requires fetch(CidrUrl(code)) == None
    ensures Combined(a + [code] + b, fetch) == Combined(a, fetch) + Combined(b, fetch)
  {
    CombinedAppend(a + [code], b, fetch);
    CombinedAppend(a, [code], fetch);
    FailedAlone(code, fetch);
    AppendEmpty(Combined(a, fetch));
  }

  lemma AppendAssoc(a: seq<string>, b: seq<string>, c: seq<string>)
    ensures a + (b + c) == a + b + c
  {
  }

  lemma AppendEmpty(s: seq<string>)
    ensures s + [] == s
  {
  }

  /** A failed download contributes nothing. */
  lemma FailedAlone(code: string, fetch: string -> Option<string>)
    requires fetch(CidrUrl(code)) == None
    ensures Combined([code], fetch) == []
  {
    assert [code][1..] == [];
  }

  /** Entries come one per line of a list, so none of them holds a line break. */
  lemma {:induction false} CombinedNoLineBreak(countries: seq<string>, fetch: string -> Option<string>)
    ensures forall k :: 0 <= k < |Combined(countries, fetch)| ==> NoLineBreak(Combined(countries, fetch)[k])
  {
    if countries != [] {
      CombinedNoLineBreak(countries[1..], fetch);
    }
  }

  // ------------------------------------------------------- manual entries

  /** The two scripts' tests for a manual entry: three dots, or (the scheduler's) three dots or a slash. */
  datatype ManualRule = ThreeDots | ThreeDotsOrSlash

  predicate Accepts(rule: ManualRule, entry: string) {
    entry != "" && (Count(entry, '.') == 3 || (rule == ThreeDotsOrSlash && '/' in entry))
  }

  /** The stripped lines that pass the rule, in file order. */
  function ManualEntries(lines: seq<string>, rule: ManualRule): seq<string> {
    if lines == [] then []
    else
      var entry := Strip(lines[0]);
      (if Accepts(rule, entry) then [entry] else []) + ManualEntries(lines[1..], rule)
  }

  /** `read_manual_ips()` on the files of the host: no file means no entries. */
  function ManualIps(files: map<string, string>, rule: ManualRule): seq<string> {
    if ManualIpsFile in files then ManualEntries(ReadLines(files[ManualIpsFile]), rule) else []
  }

  /** `read_manual_ips` (update-blocklist.py 47-61, blocklist_scheduler.py 59-72). */
  method ReadManualIps(h: Host, rule: ManualRule) returns (valid_ips: seq<string>)
    ensures valid_ips == ManualIps(h.files, rule)
  {
    if ManualIpsFile !in h.files {
      return [];
    }
    var lines := ReadLines(h.files[ManualIpsFile]);
    valid_ips := [];
    var i := 0;
    while i < |lines|
      invariant 0 <= i <= |lines|
      invariant valid_ips + ManualEntries(lines[i..], rule) == ManualEntries(lines, rule)
    {
      ManualStep(lines, i, rule, valid_ips);
      var line := Strip(lines[i]);
      if line != "" && (Count(line, '.') == 3 || (rule == ThreeDotsOrSlash && '/' in line)) {
        valid_ips := valid_ips + [line];
      } else {
        assert valid_ips + [] == valid_ips;
      }
      i := i + 1;
    }
  }

  /** One pass of the reading loop: line `i`, stripped, is kept exactly when it passes the rule. */
  lemma ManualStep(lines: seq<string>, i: nat, rule: ManualRule, done: seq<string>)
    requires i < |lines|
    ensures done + ManualEntries(lines[i..], rule)
            == done + (if Accepts(rule, Strip(lines[i])) then [Strip(lines[i])] else []) + ManualEntries(lines[i + 1..], rule)
  {
    assert lines[i..][0] == lines[i] && lines[i..][1..] == lines[i + 1..];
  }

  /** Exactly the stripped lines that pass the rule are kept. */
  lemma {:induction false} ManualEntriesExactly(lines: seq<string>, rule: ManualRule, entry: string)
    ensures entry in ManualEntries(lines, rule)
            <==> exists j :: 0 <= j < |lines| && entry == Strip(lines[j]) && Accepts(rule, entry)
  {
    if lines != [] {
      var rest := lines[1..];
      ManualEntriesExactly(rest, rule, entry);
      if exists j :: 0 <= j < |lines| && entry == Strip(lines[j]) && Accepts(rule, entry) {
        var j :| 0 <= j < |lines| && entry == Strip(lines[j]) && Accepts(rule, entry);
        if j > 0 {
          assert rest[j - 1] == lines[j];
        }
      }
      if entry in ManualEntries(rest, rule) {
        var j :| 0 <= j < |rest| && entry == Strip(rest[j]) && Accepts(rule, entry);
        assert lines[j + 1] == rest[j];
      }
    }
  }

  /** The scheduler's rule keeps at least what the other script's rule keeps. */
  lemma SlashRuleKeepsMore(lines: seq<string>, entry: string)
    ensures entry in ManualEntries(lines, ThreeDots) ==> entry in ManualEntries(lines, ThreeDotsOrSlash)
  {
    ManualEntriesExactly(lines, ThreeDots, entry);
    ManualEntriesExactly(lines, ThreeDotsOrSlash, entry);
  }

  /** Entries read from a file's lines hold no "\n". */
  lemma {:induction false} ManualEntriesNoNewline(lines: seq<string>, rule: ManualRule)
    requires forall k :: 0 <= k < |lines| ==> LineShaped(lines[k])
    ensures forall k :: 0 <= k < |ManualEntries(lines, rule)| ==> '\n' !in ManualEntries(lines, rule)[k]
  {
    if lines != [] {
      ManualEntriesNoNewline(lines[1..], rule);
      StripLineHasNoNewline(lines[0]);
    }
  }
}
