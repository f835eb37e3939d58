/** What the name and the files of a recording folder say about it
    (file_management/folder_information.py): the stimulus window, the protocol type,
    the recording date and the culture year. Reading the yaml and info files is an
    input: a folder's files are given as a map from file name to its dictionary, a
    missing name standing for FileNotFoundError; the regular-expression match of a
    folder name is a parameter. */
module FolderInformation {
  import opened Results

  /** A loaded info or yaml file: its numeric entries. */
  type Info = map<string, real>

  /** `d[k]`, or the KeyError of a missing key. */
  function Get(d: Info, k: string): Result<real> {
    if k in d then Ok(d[k]) else Err(KeyError(k))
  }

  // ---- stimulus_time --------------------------------------------------------------

  /** `stimulus_time(folder)` given the protocol description, `None` when the folder
      holds no description (then `'pre_stimulus' in None` raises TypeError). The start
      comes from `pre_stimulus`, else `pulse_start`; the duration from
      `stimulus_duration`, else `pulse_duration`; a start or duration found under
      neither name leaves its variable unbound when the end is computed, the start
      being read first. */
  function StimulusTime(d: Option<Info>): Result<(real, real)> {
    if d.None? then Err(TypeError)
    else
      var info := d.value;
      var start := if "pre_stimulus" in info then Some(info["pre_stimulus"])
                   else if "pulse_start" in info then Some(info["pulse_start"]) else None;
      var duration := if "stimulus_duration" in info then Some(info["stimulus_duration"])
                      else if "pulse_duration" in info then Some(info["pulse_duration"]) else None;
      if start.None? then Err(UnboundLocalError("t_start"))
      else if duration.None? then Err(UnboundLocalError("duration"))
      else Ok((start.value, start.value + duration.value))
  }

  /** The window lasts the stimulus duration; the newer key names win over the older
      ones; and a description without a start or without a duration is an error. */
  lemma StimulusTimeMeaning(info: Info)
    ensures StimulusTime(Some(info)).Ok? <==>
            ("pre_stimulus" in info || "pulse_start" in info) &&
            ("stimulus_duration" in info || "pulse_duration" in info)
    ensures StimulusTime(Some(info)).Ok? ==>
            var (s, e) := StimulusTime(Some(info)).value;
            s == (if "pre_stimulus" in info then info["pre_stimulus"] else info["pulse_start"]) &&
            e - s == (if "stimulus_duration" in info then info["stimulus_duration"] else info["pulse_duration"])
    ensures "pre_stimulus" !in info && "pulse_start" !in info ==>
            StimulusTime(Some(info)) == Err(UnboundLocalError("t_start"))
  {
  }

  // ---- protocol -------------------------------------------------------------------

  /** `sub in s` for strings. */
  predicate Contains(s: string, sub: string) {
    |sub| <= |s| && (s[..|sub|] == sub || Contains(s[1..], sub))
  }

  /** The class of a current-pulses protocol from its trial count, pulse duration and
      current range, checked in this order; fewer than ten trials, or no class that
      fits, gives the empty string. */
  function PulseClass(ntrials: real, duration: real, imax: real, imin: real): (r: string)
    ensures r in {"short pulses", "normal pulses", "weak pulses", "strong pulses", ""}
  {
    if ntrials < 10.0 then ""
    else if duration < 0.03 then "short pulses"
    else if imin < -0.000000002 && imax > 0.000000002 then "normal pulses"
    else if imin > -0.000000001 && imax < 0.000000001 then "weak pulses"
    else if imax > 0.000000010 then "strong pulses"
    else ""
  }

  /** What each class says about the recording: short pulses are classified by their
      duration alone; strong pulses are strong in one direction only, since a range
      wide on both sides is normal; a weak protocol stays within one nanoampere. */
  lemma PulseClassMeaning(ntrials: real, duration: real, imax: real, imin: real)
    ensures ntrials < 10.0 ==> PulseClass(ntrials, duration, imax, imin) == ""
    ensures PulseClass(ntrials, duration, imax, imin) == "short pulses" <==> ntrials >= 10.0 && duration < 0.03
    ensures PulseClass(ntrials, duration, imax, imin) == "strong pulses" ==>
              imax > 0.000000010 && imin >= -0.000000002 && duration >= 0.03
    ensures PulseClass(ntrials, duration, imax, imin) == "weak pulses" ==>
              -0.000000001 < imin && imax < 0.000000001
    ensures ntrials >= 10.0 && duration >= 0.03 && imin < -0.000000002 && imax > 0.000000002 ==>
              PulseClass(ntrials, duration, imax, imin) == "normal pulses"
  {
  }

  /** An old-format protocol (a symmetric range `±amplitude`) is never classified as
      strong pulses: an amplitude above 10 nA is already normal. */
  lemma OldFormatNeverStrong(ntrials: real, duration: real, amplitude: real)
    ensures PulseClass(ntrials, duration, amplitude, -amplitude) != "strong pulses"
    ensures ntrials >= 10.0 && duration >= 0.03 ==>
            (PulseClass(ntrials, duration, amplitude, -amplitude) == "normal pulses" <==> amplitude > 0.000000002)
  {
  }

  /** The trial count, duration and current range of a current-pulses folder: from
      `pulses.yaml`, or, when that file is missing, from the older
      `current_pulses.info` with the range `±amplitude`. A missing key raises KeyError,
      a missing info file FileNotFoundError. */
  function PulseInfo(files: map<string, Info>): Result<(real, real, real, real)> {
    if "pulses.yaml" in files then
      var info := files["pulses.yaml"];
      match Get(info, "ntrials")
      case Err(e) => Err(e)
      case Ok(n) =>
        match Get(info, "stimulus_duration")
        case Err(e) => Err(e)
        case Ok(d) =>
          match Get(info, "I_max")
          case Err(e) => Err(e)
          case Ok(imax) =>
            match Get(info, "I_min")
            case Err(e) => Err(e)
            case Ok(imin) => Ok((n, d, imax, imin))
    else if "current_pulses.info" in files then
      var info := files["current_pulses.info"];
      match Get(info, "ntrials")
      case Err(e) => Err(e)
      case Ok(n) =>
        match Get(info, "pulse_duration")
        case Err(e) => Err(e)
        case Ok(d) =>
          match Get(info, "amplitude")
          case Err(e) => Err(e)
          case Ok(a) => Ok((n, d, a, -a))
    else Err(FileNotFoundError)
  }

  /** `protocol(folder)` for a folder whose last path component is `name` and whose
      files are `files`: the type comes from the first of these name patterns that
      occurs, the current-pulses ones being classified further from their files. */
  function Protocol(name: string, files: map<string, Info>): Result<string> {
    if Contains(name, "current_pulses") || Contains(name, "Current pulses") then
      match PulseInfo(files)
      case Err(e) => Err(e)
      case Ok((n, d, imax, imin)) => Ok(PulseClass(n, d, imax, imin))
    else if Contains(name, "merged_pulses") then Ok("merged pulses")
    else if Contains(name, "random_current") then
      if "random_current.yaml" !in files then Ok("")
      else
        var info := files["random_current.yaml"];
        match Get(info, "I_max")
        case Err(e) => Err(e)
        case Ok(_) =>
          match Get(info, "I_min")
          case Err(e) => Err(e)
          case Ok(imin) => Ok(if imin < 0.0 then "random current" else "positive random current")
    else if Contains(name, "random_pulses") then Ok("random pulses")
    else if Contains(name, "long_pulses") then Ok("long pulses")
    else Ok("")
  }

  /** The order of the name patterns decides: a current-pulses name is never another
      type; a merged or random name is recognised only when no earlier pattern occurs;
      a name with none of the patterns has no type. */
  lemma ProtocolOrder(name: string, files: map<string, Info>)
    ensures Contains(name, "current_pulses") && Protocol(name, files).Ok? ==>
            Protocol(name, files).value in {"short pulses", "normal pulses", "weak pulses", "strong pulses", ""}
    ensures Protocol(name, files) == Ok("merged pulses") <==>
            !Contains(name, "current_pulses") && !Contains(name, "Current pulses") && Contains(name, "merged_pulses")
    ensures Protocol(name, files) == Ok("random pulses") <==>
            !Contains(name, "current_pulses") && !Contains(name, "Current pulses") &&
            !Contains(name, "merged_pulses") && !Contains(name, "random_current") && Contains(name, "random_pulses")
    ensures !Contains(name, "current_pulses") && !Contains(name, "Current pulses") && !Contains(name, "merged_pulses") &&
            !Contains(name, "random_current") && !Contains(name, "random_pulses") && !Contains(name, "long_pulses") ==>
            Protocol(name, files) == Ok("")
  {
  }

  /** A random-current folder is "random current" exactly when its lowest current is
      negative, and has no type when its yaml file is missing. */
  lemma RandomCurrentSign(name: string, files: map<string, Info>)
    requires !Contains(name, "current_pulses") && !Contains(name, "Current pulses")
    requires !Contains(name, "merged_pulses") && Contains(name, "random_current")
    ensures "random_current.yaml" !in files ==> Protocol(name, files) == Ok("")
    ensures "random_current.yaml" in files && "I_max" in files["random_current.yaml"] &&
            "I_min" in files["random_current.yaml"] ==>
            (Protocol(name, files) == Ok("random current") <==> files["random_current.yaml"]["I_min"] < 0.0) &&
            (Protocol(name, files) == Ok("positive random current") <==> files["random_current.yaml"]["I_min"] >= 0.0)
  {
  }

  /** An entry of a folder: a sub-directory with its name and files, or a plain file. */
  datatype Entry = Directory(name: string, files: map<string, Info>) | File

  /** `protocols(folder)`: the protocol of every sub-directory, in order, without the
      empty ones; the first error raised by a protocol is raised. */
  function Protocols(entries: seq<Entry>): Result<seq<string>> {
    if |entries| == 0 then Ok([])
    else
      var first := if entries[0].Directory? then Protocol(entries[0].name, entries[0].files) else Ok("");
      match first
      case Err(e) => Err(e)
      case Ok(p) =>
        match Protocols(entries[1..])
        case Err(e) => Err(e)
        case Ok(rest) => Ok(if |p| > 0 then [p] + rest else rest)
  }

  /** The list has no empty string, each entry is the protocol of a sub-directory, and
      every sub-directory with a type contributes its type. */
  lemma {:induction false} ProtocolsMeaning(entries: seq<Entry>)
    requires Protocols(entries).Ok?
    ensures forall p :: p in Protocols(entries).value ==> |p| > 0
    ensures forall p :: p in Protocols(entries).value ==>
              exists k :: 0 <= k < |entries| && entries[k].Directory? && Protocol(entries[k].name, entries[k].files) == Ok(p)
    ensures forall k :: 0 <= k < |entries| && entries[k].Directory? ==>
              Protocol(entries[k].name, entries[k].files).Ok? &&
              (|Protocol(entries[k].name, entries[k].files).value| > 0 ==>
                 Protocol(entries[k].name, entries[k].files).value in Protocols(entries).value)
  {
    if |entries| > 0 {
      ProtocolsMeaning(entries[1..]);
      var r := Protocols(entries).value;
      forall p | p in r
        ensures exists k :: 0 <= k < |entries| && entries[k].Directory? && Protocol(entries[k].name, entries[k].files) == Ok(p)
      {
        if p !in Protocols(entries[1..]).value {
          assert entries[0].Directory? && Protocol(entries[0].name, entries[0].files) == Ok(p);
        } else {
          var k :| 0 <= k < |entries[1..]| && entries[1..][k].Directory? &&
                   Protocol(entries[1..][k].name, entries[1..][k].files) == Ok(p);
          assert entries[k + 1] == entries[1..][k];
        }
      }
      forall k | 0 <= k < |entries| && entries[k].Directory?
        ensures Protocol(entries[k].name, entries[k].files).Ok? &&
                (|Protocol(entries[k].name, entries[k].files).value| > 0 ==>
                   Protocol(entries[k].name, entries[k].files).value in r)
      {
        if k > 0 {
          assert entries[k] == entries[1..][k - 1];
        }
      }
    }
  }

  // ---- recording_date ---------------------------------------------------------------

  /** A `datetime.datetime` down to the second. */
  datatype DateTime = DateTime(year: int, month: int, day: int, hour: int, minute: int, second: int)

  predicate LeapYear(y: int) {
    y % 4 == 0 && (y % 100 != 0 || y % 400 == 0)
  }

  function DaysInMonth(y: int, m: int): int {
    if m == 2 then (if LeapYear(y) then 29 else 28)
    else if m in {4, 6, 9, 11} then 30
    else 31
  }

  /** The values `datetime.datetime` accepts; any other raises ValueError. */
  predicate ValidDateTime(d: DateTime) {
    1 <= d.year <= 9999 && 1 <= d.month <= 12 && 1 <= d.day <= DaysInMonth(d.year, d.month) &&
    0 <= d.hour < 24 && 0 <= d.minute < 60 && 0 <= d.second < 60
  }

  /** Chronological order. */
  predicate NotAfter(a: DateTime, b: DateTime) {
    a.year < b.year || (a.year == b.year &&
    (a.month < b.month || (a.month == b.month &&
    (a.day < b.day || (a.day == b.day &&
    (a.hour < b.hour || (a.hour == b.hour &&
    (a.minute < b.minute || (a.minute == b.minute && a.second <= b.second)))))))))
  }

  lemma NotAfterTotal(a: DateTime, b: DateTime)
    ensures NotAfter(a, b) || NotAfter(b, a)
  {
  }

  lemma NotAfterTransitive(a: DateTime, b: DateTime, c: DateTime)
    requires NotAfter(a, b) && NotAfter(b, c)
    ensures NotAfter(a, c)
  {
  }

  /** The six numbers `d.m.y h.m.s` of a folder name, as found by the regular
      expression, or `None` where it finds none. */
  type Groups = (nat, nat, nat, nat, nat, nat)

  /** The date the six numbers stand for: `day.month.year`, or `year.month.day` when the
      first number is above 2000; `None` where `datetime` refuses the values. */
  function DateOf(g: Groups): (r: Option<DateTime>)
    ensures r.Some? ==> ValidDateTime(r.value)
    ensures r.Some? ==> r.value.month == g.1 && r.value.hour == g.3 && r.value.minute == g.4 && r.value.second == g.5
    ensures r.Some? && g.0 > 2000 ==> r.value.year == g.0 && r.value.day == g.2
    ensures r.Some? && g.0 <= 2000 ==> r.value.year == g.2 && r.value.day == g.0
    ensures r.Some? <==> ValidDateTime(DateTime(if g.0 > 2000 then g.0 else g.2, g.1,
                                                if g.0 > 2000 then g.2 else g.0, g.3, g.4, g.5))
  {
    var (day, year) := if g.0 > 2000 then (g.2, g.0) else (g.0, g.2);
    var d := DateTime(year, g.1, day, g.3, g.4, g.5);
    if ValidDateTime(d) then Some(d) else None
  }

  /** A folder: its name and its sub-directories (plain files play no part here). */
  datatype Folder = Folder(name: string, subfolders: seq<Folder>)

  /** The earliest of a non-empty list of dates. */
  function Earliest(ds: seq<DateTime>): (r: DateTime)
    requires |ds| > 0
    ensures r in ds && forall d :: d in ds ==> NotAfter(r, d)
  {
    if |ds| == 1 then ds[0]
    else
      var rest := Earliest(ds[1..]);
      NotAfterTotal(ds[0], rest);
      forall d | d in ds[1..] ensures NotAfter(ds[0], rest) ==> NotAfter(ds[0], d) {
        if NotAfter(ds[0], rest) { NotAfterTransitive(ds[0], rest, d); }
      }
      if NotAfter(ds[0], rest) then ds[0] else rest
  }

  /** The dates found for a list of folders, in order, `None` ones left out. */
  function Dates(parse: string -> Option<Groups>, fs: seq<Folder>): seq<DateTime>
    decreases fs
  {
    if |fs| == 0 then []
    else
      var d := RecordingDate(parse, fs[0]);
      (if d.Some? then [d.value] else []) + Dates(parse, fs[1..])
  }

  /** `recording_date(folder)`: the date in the folder's name; when the name holds none,
      or none `datetime` accepts, the earliest date found in its sub-directories, or
      `None` where there is none. */
  function RecordingDate(parse: string -> Option<Groups>, f: Folder): Option<DateTime>
    decreases f
  {
    var named := if parse(f.name).Some? then DateOf(parse(f.name).value) else None;
    if named.Some? then named
    else
      var ds := Dates(parse, f.subfolders);
      if |ds| > 0 then Some(Earliest(ds)) else None
  }

  lemma {:induction false} DatesMeaning(parse: string -> Option<Groups>, fs: seq<Folder>)
    ensures forall d :: d in Dates(parse, fs) ==> exists k :: 0 <= k < |fs| && RecordingDate(parse, fs[k]) == Some(d)
    ensures forall k :: 0 <= k < |fs| && RecordingDate(parse, fs[k]).Some? ==> RecordingDate(parse, fs[k]).value in Dates(parse, fs)
  {
    if |fs| > 0 {
      DatesMeaning(parse, fs[1..]);
      forall d | d in Dates(parse, fs)
        ensures exists k :: 0 <= k < |fs| && RecordingDate(parse, fs[k]) == Some(d)
      {
        if d !in Dates(parse, fs[1..]) {
          assert RecordingDate(parse, fs[0]) == Some(d);
        } else {
          var k :| 0 <= k < |fs[1..]| && RecordingDate(parse, fs[1..][k]) == Some(d);
          assert fs[k + 1] == fs[1..][k];
        }
      }
      forall k | 0 <= k < |fs| && RecordingDate(parse, fs[k]).Some?
        ensures RecordingDate(parse, fs[k]).value in Dates(parse, fs)
      {
        if k > 0 {
          assert fs[k] == fs[1..][k - 1];
        }
      }
    }
  }

  /** A date in the name wins; otherwise the result is the date of some sub-directory
      and no sub-directory has an earlier one; it is `None` exactly when neither the
      name nor any sub-directory gives a date. */
  lemma RecordingDateMeaning(parse: string -> Option<Groups>, f: Folder)
    ensures parse(f.name).Some? && DateOf(parse(f.name).value).Some? ==>
              RecordingDate(parse, f) == DateOf(parse(f.name).value)
    ensures (parse(f.name).None? || DateOf(parse(f.name).value).None?) && RecordingDate(parse, f).Some? ==>
              (exists k :: 0 <= k < |f.subfolders| && RecordingDate(parse, f.subfolders[k]) == RecordingDate(parse, f)) &&
              forall k :: 0 <= k < |f.subfolders| && RecordingDate(parse, f.subfolders[k]).Some? ==>
                NotAfter(RecordingDate(parse, f).value, RecordingDate(parse, f.subfolders[k]).value)
    ensures RecordingDate(parse, f).None? <==>
              (parse(f.name).None? || DateOf(parse(f.name).value).None?) &&
              forall k :: 0 <= k < |f.subfolders| ==> RecordingDate(parse, f.subfolders[k]).None?
  {
    DatesMeaning(parse, f.subfolders);
  }

  // ---- the culture year of read_lab_notes --------------------------------------------

  /** The year of the culture date: a two-digit year is read in the 2000s. */
  function CultureYear(year: nat): (r: nat)
    ensures r >= 100
    ensures year >= 100 ==> r == year
    ensures year < 100 ==> r - 2000 == year
  {
    if year < 100 then year + 2000 else year
  }

  /** `info['culture']` of `read_lab_notes`: the date `day/month/year` of the lab notes
      (`g`), `None` when the notes have none or `datetime.date` refuses it. It is also
      `None` when the folder has no recording date (`recorded`): the date is stored, but
      the number of days since the culture then reads the unbound `start_date`, and the
      bare `except` resets the culture to `None`. */
  function CultureDate(g: Option<(nat, nat, nat)>, recorded: Option<DateTime>): (r: Option<DateTime>)
    ensures r.Some? <==> recorded.Some? && g.Some? &&
                         ValidDateTime(DateTime(CultureYear(g.value.2), g.value.1, g.value.0, 0, 0, 0))
    ensures r.Some? ==> r.value.year == CultureYear(g.value.2) && r.value.year >= 100
    ensures r.Some? ==> r.value.month == g.value.1 && r.value.day == g.value.0
  {
    if g.None? || recorded.None? then None
    else
      var d := DateTime(CultureYear(g.value.2), g.value.1, g.value.0, 0, 0, 0);
      if ValidDateTime(d) then Some(d) else None
  }
}
