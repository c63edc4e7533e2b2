/** The service's start-up configuration check: required appsettings
    values, then the seed rows of the ApplicationSettings table; any error
    aborts start-up. */
module ConfigurationValidator {
  import opened Common

  /** The appsettings values as the configuration holds them: each is the
      key's text, `None` when the key is absent. */
  datatype RawAppSettings = RawAppSettings(
    host: Option<string>, port: Option<string>, hubPath: Option<string>,
    intervalSeconds: Option<string>, systemUsageIntervalSeconds: Option<string>,
    connectionString: Option<string>)

  /** The appsettings values the checks test, with the three integers
      converted; a missing text is `None`. */
  datatype AppSettings = AppSettings(
    host: Option<string>, port: int, hubPath: Option<string>,
    intervalSeconds: int, systemUsageIntervalSeconds: int, connectionString: Option<string>)

  /** `configuration.GetValue<int>(key, 0)`: an absent key gives the
      default 0 and a present text is converted to a 32-bit integer.
      `None` is the `InvalidOperationException` the conversion throws for
      a text that is not one. */
  function GetValueInt(text: Option<string>): (r: Option<int>)
    ensures text.None? ==> r == Some(0)
    ensures r.Some? ==> InInt32(r.value)
  {
    if text.None? then Some(0) else ParseInt32(text.value)
  }

  /** What `ValidateAppSettings` reads, or `None` when one of its three
      integer reads throws. */
  function ReadAppSettings(raw: RawAppSettings): (r: Option<AppSettings>)
    ensures r.None? <==> GetValueInt(raw.port).None? || GetValueInt(raw.intervalSeconds).None?
                         || GetValueInt(raw.systemUsageIntervalSeconds).None?
    ensures r.Some? ==> && r.value.host == raw.host && r.value.hubPath == raw.hubPath
                        && r.value.connectionString == raw.connectionString
                        && Some(r.value.port) == GetValueInt(raw.port)
                        && Some(r.value.intervalSeconds) == GetValueInt(raw.intervalSeconds)
                        && Some(r.value.systemUsageIntervalSeconds) == GetValueInt(raw.systemUsageIntervalSeconds)
  {
    match (GetValueInt(raw.port), GetValueInt(raw.intervalSeconds), GetValueInt(raw.systemUsageIntervalSeconds))
    case (Some(port), Some(interval), Some(systemInterval)) =>
      Some(AppSettings(raw.host, port, raw.hubPath, interval, systemInterval, raw.connectionString))
    case _ => None
  }

  /** What reading the ApplicationSettings table gave: its (category, key)
      rows, or the name of the exception that stopped the read. */
  datatype SettingsRead = Rows(rows: seq<(string, string)>) | ReadFailed(exceptionName: string)

  datatype ValidationError =
    | MissingHost | InvalidPort | MissingHubPath | InvalidInterval | InvalidSystemUsageInterval
    | MissingConnectionString | EmptySettingsTable
    | MissingDatabaseSetting(key: string) | ConflictingDatabaseSetting(key: string)
    | DatabaseValidationFailed(exceptionName: string)
  {
    function Message(): string
    {
      match this
      case MissingHost => "Missing required setting: Server:Host"
      case InvalidPort => "Invalid or missing setting: Server:Port (must be 1-65535)"
      case MissingHubPath => "Missing required setting: Server:HubPath"
      case InvalidInterval => "Invalid or missing setting: Monitor:IntervalSeconds (must be > 0)"
      case InvalidSystemUsageInterval => "Invalid or missing setting: Monitor:SystemUsageIntervalSeconds (must be > 0)"
      case MissingConnectionString => "Missing required connection string: ConnectionStrings:DatabaseConnection"
      case EmptySettingsTable => "ApplicationSettings table is empty (expected seed data)."
      case MissingDatabaseSetting(key) => "Missing required database setting: " + key
      case ConflictingDatabaseSetting(key) =>
        "Configuration conflict: " + key + " must not be stored in the database (belongs in appsettings.json)."
      case DatabaseValidationFailed(name) => "Failed to validate database ApplicationSettings: " + name
    }
  }

  const RequiredKeys: seq<string> := [
    "Appearance.ThemeColor", "Appearance.Opacity", "DataCollection.ProcessKeywords",
    "DataCollection.TopProcessCount", "DataCollection.DataRetentionDays", "System.StartWithWindows"]

  const DisallowedKeys: seq<string> := [
    "System.SignalRPort", "System.WebPort", "DataCollection.SystemInterval", "DataCollection.ProcessInterval"]

  predicate ValidPort(port: int) { 1 <= port <= 65535 }

  /** The "Category.Key" names of the rows. */
  function KeyNames(rows: seq<(string, string)>): seq<string>
  {
    seq(|rows|, i requires 0 <= i < |rows| => rows[i].0 + "." + rows[i].1)
  }

  /** Membership in the key set, which compares ignoring case. */
  predicate KeySetContains(names: seq<string>, key: string)
  {
    exists i :: 0 <= i < |names| && EqualsIgnoreCase(names[i], key)
  }

  // ---------------------------------------------------------------------
  // The checks as functions on the error list

  /** The list after one rule: e appended when the rule failed. */
  function Step(errs: seq<ValidationError>, failed: bool, e: ValidationError): (r: seq<ValidationError>)
    ensures forall x :: x in r <==> x in errs || (failed && x == e)
    ensures |errs| <= |r| <= |errs| + 1 && errs <= r
  {
    if failed then errs + [e] else errs
  }

  /** The list after the six appsettings checks, in source order. */
  function AppendAppSettingsErrors(errs: seq<ValidationError>, cfg: AppSettings): seq<ValidationError>
  {
    var e1 := Step(errs, IsNullOrWhiteSpace(cfg.host), MissingHost);
    var e2 := Step(e1, !ValidPort(cfg.port), InvalidPort);
    var e3 := Step(e2, IsNullOrWhiteSpace(cfg.hubPath), MissingHubPath);
    var e4 := Step(e3, cfg.intervalSeconds <= 0, InvalidInterval);
    var e5 := Step(e4, cfg.systemUsageIntervalSeconds <= 0, InvalidSystemUsageInterval);
    Step(e5, IsNullOrWhiteSpace(cfg.connectionString), MissingConnectionString)
  }

  /** The list after one check per required key: an error for each key
      absent from the key set, in list order. */
  function AppendMissingKeys(errs: seq<ValidationError>, required: seq<string>, names: seq<string>): seq<ValidationError>
  {
    if required == [] then errs
    else
      var key := required[|required| - 1];
      Step(AppendMissingKeys(errs, required[..|required| - 1], names), !KeySetContains(names, key), MissingDatabaseSetting(key))
  }

  /** The list after one check per disallowed key: an error for each key
      present in the key set, in list order. */
  function AppendConflicts(errs: seq<ValidationError>, disallowed: seq<string>, names: seq<string>): seq<ValidationError>
  {
    if disallowed == [] then errs
    else
      var key := disallowed[|disallowed| - 1];
      Step(AppendConflicts(errs, disallowed[..|disallowed| - 1], names), KeySetContains(names, key), ConflictingDatabaseSetting(key))
  }

  function AppendDatabaseErrors(errs: seq<ValidationError>, read: SettingsRead): seq<ValidationError>
  {
    match read
    case ReadFailed(name) => errs + [DatabaseValidationFailed(name)]
    case Rows(rows) =>
      if |rows| == 0 then errs + [EmptySettingsTable]
      else
        var names := KeyNames(rows);
        AppendConflicts(AppendMissingKeys(errs, RequiredKeys, names), DisallowedKeys, names)
  }

  /** Everything the start-up check reports, starting from no errors. */
  function ConfigurationErrors(cfg: AppSettings, read: SettingsRead): seq<ValidationError>
  {
    AppendDatabaseErrors(AppendAppSettingsErrors([], cfg), read)
  }

  /** How `ValidateConfiguration` ends: it returns, it logs the errors and
      throws, or an integer read throws first, before any error is logged
      and before the database is read. */
  datatype StartupOutcome = Passed | Failed(errors: seq<ValidationError>) | ReadThrew

  function Startup(raw: RawAppSettings, read: SettingsRead): (r: StartupOutcome)
    ensures r.ReadThrew? <==> ReadAppSettings(raw).None?
    ensures r.Passed? <==> ReadAppSettings(raw).Some? && ConfigurationErrors(ReadAppSettings(raw).value, read) == []
    ensures r.Failed? ==> r.errors != [] && r.errors == ConfigurationErrors(ReadAppSettings(raw).value, read)
  {
    match ReadAppSettings(raw)
    case None => ReadThrew
    case Some(cfg) =>
      var errors := ConfigurationErrors(cfg, read);
      if errors == [] then Passed else Failed(errors)
  }

  // ---------------------------------------------------------------------
  // The imperative check

  /** The shared error list the checks append to. */
  class ErrorList {
    var errors: seq<ValidationError>

    constructor()
      ensures errors == []
    {
      errors := [];
    }

    method Add(e: ValidationError)
      modifies this
      ensures errors == old(errors) + [e]
    {
      errors := errors + [e];
    }

    /** Appends e when the rule failed. */
    method Check(failed: bool, e: ValidationError)
      modifies this
      ensures errors == Step(old(errors), failed, e)
    {
      if failed {
        Add(e);
      }
    }

    /** `ValidateAppSettings`: the six checks in source order; `threw`
        when an integer read throws, which ends the checks there. */
    method ValidateAppSettings(raw: RawAppSettings) returns (threw: bool)
      modifies this
      ensures threw <==> ReadAppSettings(raw).None?
      ensures !threw ==> errors == AppendAppSettingsErrors(old(errors), ReadAppSettings(raw).value)
    {
      ghost var start := errors;
      Check(IsNullOrWhiteSpace(raw.host), MissingHost);
      var port := GetValueInt(raw.port);
      if port.None? {
        return true;
      }
      Check(port.value < 1 || port.value > 65535, InvalidPort);
      Check(IsNullOrWhiteSpace(raw.hubPath), MissingHubPath);
      var intervalSeconds := GetValueInt(raw.intervalSeconds);
      if intervalSeconds.None? {
        return true;
      }
      Check(intervalSeconds.value <= 0, InvalidInterval);
      var systemUsageIntervalSeconds := GetValueInt(raw.systemUsageIntervalSeconds);
      if systemUsageIntervalSeconds.None? {
        return true;
      }
      Check(systemUsageIntervalSeconds.value <= 0, InvalidSystemUsageInterval);
      Check(IsNullOrWhiteSpace(raw.connectionString), MissingConnectionString);
      ghost var cfg := AppSettings(raw.host, port.value, raw.hubPath, intervalSeconds.value,
                                   systemUsageIntervalSeconds.value, raw.connectionString);
      assert ReadAppSettings(raw) == Some(cfg);
      assert errors == AppendAppSettingsErrors(start, cfg);
      return false;
    }

    /** `ValidateDatabaseSettings`: a failed read is one error; an empty
        table is one error and ends validation; otherwise each required key
        missing and each disallowed key present is one error. */
    method ValidateDatabaseSettings(read: SettingsRead)
      modifies this
      ensures errors == AppendDatabaseErrors(old(errors), read)
    {
      if read.ReadFailed? {
        Add(DatabaseValidationFailed(read.exceptionName));
        return;
      }
      var settings := read.rows;
      if |settings| == 0 {
        Add(EmptySettingsTable);
        return;
      }
      var keySet := KeyNames(settings);
      CheckRequiredKeys(keySet);
      CheckDisallowedKeys(keySet);
    }

    /** The loop over the required keys of `ValidateDatabaseSettings`. */
    method CheckRequiredKeys(keySet: seq<string>)
      modifies this
      ensures errors == AppendMissingKeys(old(errors), RequiredKeys, keySet)
    {
      ghost var start := errors;
      for i := 0 to |RequiredKeys|
        invariant errors == AppendMissingKeys(start, RequiredKeys[..i], keySet)
      {
        PrefixOfPrefix(RequiredKeys, i);
        Check(!KeySetContains(keySet, RequiredKeys[i]), MissingDatabaseSetting(RequiredKeys[i]));
      }
      assert RequiredKeys[..|RequiredKeys|] == RequiredKeys;
    }

    /** The loop over the disallowed keys of `ValidateDatabaseSettings`. */
    method CheckDisallowedKeys(keySet: seq<string>)
      modifies this
      ensures errors == AppendConflicts(old(errors), DisallowedKeys, keySet)
    {
      ghost var start := errors;
      for i := 0 to |DisallowedKeys|
        invariant errors == AppendConflicts(start, DisallowedKeys[..i], keySet)
      {
        PrefixOfPrefix(DisallowedKeys, i);
        Check(KeySetContains(keySet, DisallowedKeys[i]), ConflictingDatabaseSetting(DisallowedKeys[i]));
      }
      assert DisallowedKeys[..|DisallowedKeys|] == DisallowedKeys;
    }
  }

  /** `ValidateConfiguration`: runs both checks on a fresh list and fails
      (throws, in the service) iff any error was recorded; an integer read
      that throws escapes at once. */
  method ValidateConfiguration(raw: RawAppSettings, read: SettingsRead) returns (outcome: StartupOutcome)
    ensures outcome == Startup(raw, read)
  {
    var list := new ErrorList();
    var threw := list.ValidateAppSettings(raw);
    if threw {
      return ReadThrew;
    }
    list.ValidateDatabaseSettings(read);
    var errors := list.errors;
    outcome := if |errors| > 0 then Failed(errors) else Passed;
  }

  // ---------------------------------------------------------------------
  // Properties

  /** Each appsettings check contributes its error exactly when it fails,
      and nothing else is reported. */
  lemma AppSettingsErrorsExact(cfg: AppSettings)
    ensures var r := AppendAppSettingsErrors([], cfg);
      && |r| <= 6
      && (MissingHost in r <==> IsNullOrWhiteSpace(cfg.host))
      && (InvalidPort in r <==> !ValidPort(cfg.port))
      && (MissingHubPath in r <==> IsNullOrWhiteSpace(cfg.hubPath))
      && (InvalidInterval in r <==> cfg.intervalSeconds <= 0)
      && (InvalidSystemUsageInterval in r <==> cfg.systemUsageIntervalSeconds <= 0)
      && (MissingConnectionString in r <==> IsNullOrWhiteSpace(cfg.connectionString))
      && (forall e :: e in r ==> !e.MissingDatabaseSetting? && !e.ConflictingDatabaseSetting?)
  {
    ChecksExact(IsNullOrWhiteSpace(cfg.host), !ValidPort(cfg.port), IsNullOrWhiteSpace(cfg.hubPath),
                cfg.intervalSeconds <= 0, cfg.systemUsageIntervalSeconds <= 0, IsNullOrWhiteSpace(cfg.connectionString));
  }

  /** The list the six checks build, with their outcomes as inputs. */
  function Checks(c1: bool, c2: bool, c3: bool, c4: bool, c5: bool, c6: bool): seq<ValidationError>
  {
    Step(Step(Step(Step(Step(Step([], c1, MissingHost), c2, InvalidPort), c3, MissingHubPath),
                    c4, InvalidInterval), c5, InvalidSystemUsageInterval), c6, MissingConnectionString)
  }

  lemma ChecksMember(c1: bool, c2: bool, c3: bool, c4: bool, c5: bool, c6: bool, x: ValidationError)
    ensures x in Checks(c1, c2, c3, c4, c5, c6) <==>
      || (c1 && x == MissingHost) || (c2 && x == InvalidPort) || (c3 && x == MissingHubPath)
      || (c4 && x == InvalidInterval) || (c5 && x == InvalidSystemUsageInterval)
      || (c6 && x == MissingConnectionString)
  {
  }

  /** The six checks' errors, with the outcomes of the checks as inputs. */
  lemma ChecksExact(c1: bool, c2: bool, c3: bool, c4: bool, c5: bool, c6: bool)
    ensures var r := Checks(c1, c2, c3, c4, c5, c6);
      && |r| <= 6
      && (MissingHost in r <==> c1) && (InvalidPort in r <==> c2) && (MissingHubPath in r <==> c3)
      && (InvalidInterval in r <==> c4) && (InvalidSystemUsageInterval in r <==> c5)
      && (MissingConnectionString in r <==> c6)
      && (forall e :: e in r ==> !e.MissingDatabaseSetting? && !e.ConflictingDatabaseSetting?)
  {
    var r := Checks(c1, c2, c3, c4, c5, c6);
    ChecksMember(c1, c2, c3, c4, c5, c6, MissingHost);
    ChecksMember(c1, c2, c3, c4, c5, c6, InvalidPort);
    ChecksMember(c1, c2, c3, c4, c5, c6, MissingHubPath);
    ChecksMember(c1, c2, c3, c4, c5, c6, InvalidInterval);
    ChecksMember(c1, c2, c3, c4, c5, c6, InvalidSystemUsageInterval);
    ChecksMember(c1, c2, c3, c4, c5, c6, MissingConnectionString);
    forall e | e in r ensures !e.MissingDatabaseSetting? && !e.ConflictingDatabaseSetting? {
      ChecksMember(c1, c2, c3, c4, c5, c6, e);
    }
  }

  /** A missing port reads as 0, which is out of range: start-up fails
      with that error whatever the database holds. */
  lemma MissingPortIsError(raw: RawAppSettings, read: SettingsRead)
    requires raw.port.None?
    requires GetValueInt(raw.intervalSeconds).Some? && GetValueInt(raw.systemUsageIntervalSeconds).Some?
    ensures var r := Startup(raw, read); r.Failed? && InvalidPort in r.errors
  {
    var cfg := ReadAppSettings(raw).value;
    AppSettingsErrorsExact(cfg);
    DatabaseOnlyAppends(AppendAppSettingsErrors([], cfg), read);
  }

  /** A port that is not a number makes the read throw: start-up aborts
      with no validation error, whatever else is configured. */
  lemma NonNumericPortThrows(raw: RawAppSettings, read: SettingsRead)
    requires raw.port == Some("abc")
    ensures Startup(raw, read) == ReadThrew
  {
    assert GetValueInt(raw.port).None?;
  }

  /** So does a number too large for 32 bits. */
  lemma OverflowingIntervalThrows(raw: RawAppSettings, read: SettingsRead)
    requires raw.intervalSeconds == Some("99999999999")
    ensures Startup(raw, read) == ReadThrew
  {
    var t := raw.intervalSeconds.value;
    assert t == Nines(11);
    NinesValue(11);
    assert TrimNumberWhite(t) == t;
  }

  /** A run of k nines. */
  function Nines(k: nat): (r: string)
    ensures |r| == k && AllDigits(r)
  {
    if k == 0 then [] else Nines(k - 1) + ['9']
  }

  function Pow10(k: nat): nat
  {
    if k == 0 then 1 else 10 * Pow10(k - 1)
  }

  /** k nines are one less than the k-th power of ten. */
  lemma {:induction false} NinesValue(k: nat)
    ensures DigitsValue(Nines(k)) == Pow10(k) - 1
  {
    if k > 0 {
      NinesValue(k - 1);
      assert Nines(k)[..k - 1] == Nines(k - 1);
    }
  }

  /** Each required key gives one error iff it is missing. */
  lemma {:induction false} MissingKeysExact(errs: seq<ValidationError>, required: seq<string>, names: seq<string>, key: string)
    ensures var r := AppendMissingKeys(errs, required, names);
      && (MissingDatabaseSetting(key) in r <==> MissingDatabaseSetting(key) in errs || (key in required && !KeySetContains(names, key)))
      && (forall e :: e in r ==> e in errs || e.MissingDatabaseSetting?)
      && (forall e :: e in errs ==> e in r)
      && |errs| <= |r| <= |errs| + |required|
  {
    if required != [] {
      var init := required[..|required| - 1];
      MissingKeysExact(errs, init, names, key);
      assert required == init + [required[|required| - 1]];
    }
  }

  /** Each disallowed key gives one error iff it is present. */
  lemma {:induction false} ConflictsExact(errs: seq<ValidationError>, disallowed: seq<string>, names: seq<string>, key: string)
    ensures var r := AppendConflicts(errs, disallowed, names);
      && (ConflictingDatabaseSetting(key) in r <==> ConflictingDatabaseSetting(key) in errs || (key in disallowed && KeySetContains(names, key)))
      && (forall e :: e in r ==> e in errs || e.ConflictingDatabaseSetting?)
      && (forall e :: e in errs ==> e in r)
      && |errs| <= |r| <= |errs| + |disallowed|
  {
    if disallowed != [] {
      var init := disallowed[..|disallowed| - 1];
      ConflictsExact(errs, init, names, key);
      assert disallowed == init + [disallowed[|disallowed| - 1]];
    }
  }

  /** An empty table yields the one error and none of the per-key checks. */
  lemma EmptyTableSkipsKeyChecks(cfg: AppSettings)
    ensures var r := ConfigurationErrors(cfg, Rows([]));
      r == AppendAppSettingsErrors([], cfg) + [EmptySettingsTable]
      && forall e :: e in r ==> !e.MissingDatabaseSetting? && !e.ConflictingDatabaseSetting?
  {
    AppSettingsErrorsExact(cfg);
  }

  /** For a non-empty table: the required keys missing and the disallowed
      keys present (ignoring case), and nothing else. */
  lemma DatabaseErrorsExact(rows: seq<(string, string)>, key: string)
    requires |rows| > 0
    ensures var r := AppendDatabaseErrors([], Rows(rows));
      && (MissingDatabaseSetting(key) in r <==> key in RequiredKeys && !KeySetContains(KeyNames(rows), key))
      && (ConflictingDatabaseSetting(key) in r <==> key in DisallowedKeys && KeySetContains(KeyNames(rows), key))
      && EmptySettingsTable !in r
      && |r| <= |RequiredKeys| + |DisallowedKeys|
  {
    KeyChecksExact(RequiredKeys, DisallowedKeys, KeyNames(rows), key);
  }

  lemma KeyChecksExact(required: seq<string>, disallowed: seq<string>, names: seq<string>, key: string)
    ensures var r := AppendConflicts(AppendMissingKeys([], required, names), disallowed, names);
      && (MissingDatabaseSetting(key) in r <==> key in required && !KeySetContains(names, key))
      && (ConflictingDatabaseSetting(key) in r <==> key in disallowed && KeySetContains(names, key))
      && EmptySettingsTable !in r
      && |r| <= |required| + |disallowed|
  {
    MissingKeysExact([], required, names, key);
    var m := AppendMissingKeys([], required, names);
    ConflictsExact(m, disallowed, names, key);
    var r := AppendConflicts(m, disallowed, names);
    assert MissingDatabaseSetting(key) in r <==> MissingDatabaseSetting(key) in m;
    assert ConflictingDatabaseSetting(key) !in m;
  }

  /** A complete configuration with all seed rows and no conflicts passes. */
  lemma CompleteConfigurationPasses(cfg: AppSettings, rows: seq<(string, string)>)
    requires !IsNullOrWhiteSpace(cfg.host) && ValidPort(cfg.port) && !IsNullOrWhiteSpace(cfg.hubPath)
    requires cfg.intervalSeconds > 0 && cfg.systemUsageIntervalSeconds > 0 && !IsNullOrWhiteSpace(cfg.connectionString)
    requires |rows| > 0
    requires forall k :: k in RequiredKeys ==> KeySetContains(KeyNames(rows), k)
    requires forall k :: k in DisallowedKeys ==> !KeySetContains(KeyNames(rows), k)
    ensures ConfigurationErrors(cfg, Rows(rows)) == []
  {
    var names := KeyNames(rows);
    NoMissingKeys(RequiredKeys, names);
    NoConflicts(DisallowedKeys, names);
  }

  lemma {:induction false} NoMissingKeys(required: seq<string>, names: seq<string>)
    requires forall k :: k in required ==> KeySetContains(names, k)
    ensures AppendMissingKeys([], required, names) == []
  {
    if required != [] {
      NoMissingKeys(required[..|required| - 1], names);
    }
  }

  lemma {:induction false} NoConflicts(disallowed: seq<string>, names: seq<string>)
    requires forall k :: k in disallowed ==> !KeySetContains(names, k)
    ensures AppendConflicts([], disallowed, names) == []
  {
    if disallowed != [] {
      NoConflicts(disallowed[..|disallowed| - 1], names);
    }
  }

  /** The start-up check fails whenever appsettings are incomplete, whatever
      the database holds. */
  lemma BadAppSettingsFail(cfg: AppSettings, read: SettingsRead)
    requires IsNullOrWhiteSpace(cfg.host) || !ValidPort(cfg.port) || IsNullOrWhiteSpace(cfg.hubPath)
             || cfg.intervalSeconds <= 0 || cfg.systemUsageIntervalSeconds <= 0
             || IsNullOrWhiteSpace(cfg.connectionString)
    ensures ConfigurationErrors(cfg, read) != []
  {
    AppSettingsErrorsExact(cfg);
    var a := AppendAppSettingsErrors([], cfg);
    assert a != [];
    DatabaseOnlyAppends(a, read);
  }

  /** The database check never removes an error already recorded. */
  lemma DatabaseOnlyAppends(errs: seq<ValidationError>, read: SettingsRead)
    ensures var r := AppendDatabaseErrors(errs, read); |errs| <= |r| && forall e :: e in errs ==> e in r
  {
    if read.Rows? && |read.rows| > 0 {
      var names := KeyNames(read.rows);
      MissingKeysExact(errs, RequiredKeys, names, "");
      var m := AppendMissingKeys(errs, RequiredKeys, names);
      ConflictsExact(m, DisallowedKeys, names, "");
    }
  }
}
