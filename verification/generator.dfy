/** `createCommits`: select a configuration by name, validate it, make sure the
    tracking file exists, sample the dates and run the allocation loop. Any
    failure aborts the run before a single commit is made.

    The tracking file is `None` when absent and `Some(n)` when it holds `n`. */
module Generator {
  import opened Basics
  import opened Constants
  import opened Draws
  import opened Validation
  import opened Sampler
  import opened Driver

  datatype RunError =
    | UnknownConfig(name: string)
    | InvalidConfig(configError: ConfigError)

  /** What a successful run produced: the validated configuration, the sampled dates
      in shuffled order, and the final loop state. */
  datatype Summary = Summary(config: Config, dates: seq<int>, state: RunState)

  /** The members every plain object inherits from `Object.prototype`. */
  const InheritedNames: set<string> := {
    "constructor", "__proto__", "__defineGetter__", "__defineSetter__",
    "__lookupGetter__", "__lookupSetter__", "hasOwnProperty", "isPrototypeOf",
    "propertyIsEnumerable", "toString", "toLocaleString", "valueOf" }

  /** An object with none of the configuration fields, as an inherited member is. */
  const NoFields := RawConfig(None, None, None, None, None)

  /** `config[name]` on the presets object: an own preset first, then an inherited
      member, which is truthy but carries no configuration field. */
  function Lookup(presets: map<string, RawConfig>, name: string): (r: Option<RawConfig>)
    ensures name in presets ==> r == Some(presets[name])
    ensures r.None? <==> name !in presets && name !in InheritedNames
    ensures r.Some? && name !in presets ==> FirstMissing(r.value) == Some(StartDate)
  {
    if name in presets then Some(presets[name])
    else if name in InheritedNames then Some(NoFields)
    else None
  }

  /** `initializeFile`: create the tracking file holding 0 when it does not exist. */
  function InitializeFile(file: Option<int>): (f: Option<int>)
    ensures f.Some?
    ensures file.None? ==> f == Some(0)
    ensures file.Some? ==> f == file
  {
    if file.None? then Some(0) else file
  }

  method CreateCommits(presets: map<string, RawConfig>, name: string, dryRun: bool, today: int,
                       file: Option<int>, shuffleRand: Stream, dayRand: Stream, timeRand: Stream)
    returns (r: Result<Summary, RunError>, fileAfter: Option<int>)
    requires ValidStream(shuffleRand) && ValidStream(dayRand) && ValidStream(timeRand)
    // an unknown name or an invalid configuration aborts with the tracking file untouched
    ensures name !in presets && name !in InheritedNames ==>
              r == Failure(UnknownConfig(name)) && fileAfter == file
    // an inherited member passes the lookup and then lacks the first required field
    ensures name !in presets && name in InheritedNames ==>
              r == Failure(InvalidConfig(MissingField(StartDate))) && fileAfter == file
    ensures name in presets && Validate(presets[name], today, AllowFutureDates).Failure? ==>
              r == Failure(InvalidConfig(Validate(presets[name], today, AllowFutureDates).error))
              && fileAfter == file
    // sampling never fails on a validated configuration
    ensures r.Success? <==> name in presets && Validate(presets[name], today, AllowFutureDates).Success?
    ensures r.Success? ==>
      var c, dates, st := r.value.config, r.value.dates, r.value.state;
      var plan := Plan(c.minPerDay, c.maxPerDay, c.total, dryRun);
      && c == Validate(presets[name], today, AllowFutureDates).value.config
      // the final state is that of the allocation loop over the sampled dates
      && st == Run(dates, InitializeFile(file).value, plan, dayRand, timeRand)
      // min(totalCommits, days in range) distinct dates, none in the future
      && |dates| == Min(c.total, c.end - c.start + 1)
      && Distinct(dates)
      && (forall d :: d in dates ==> c.start <= d <= c.end && d <= today)
      // never more than the total; exactly the total unless the drawn counts fall short
      && st.commitCount == Min(c.total, IssuedFrom(dayRand, plan, 0, |dates|))
      && st.commitCount <= c.total
      // the tracking file exists afterwards and counts the real commits
      && fileAfter == Some(InitializeFile(file).value + (if dryRun then 0 else st.commitCount))
      && (dryRun ==> st.units == [])
      && (!dryRun ==> |st.units| == st.commitCount)
      // no day receives more than maxCommitsPerDay commits
      && (!dryRun ==> forall x :: multiset(DatesOf(st.units))[x] <= Max0(c.maxPerDay))
  {
    var selected := Lookup(presets, name);
    if selected.None? {
      return Failure(UnknownConfig(name)), file;
    }
    var checked := Validate(selected.value, today, AllowFutureDates);
    if checked.Failure? {
      return Failure(InvalidConfig(checked.error)), file;
    }
    var c := checked.value.config;
    ValidatedIsSound(selected.value, today, AllowFutureDates);
    var initialized := InitializeFile(file);
    var sampled := GetRandomDates(Some(Day(c.start)), Some(Day(c.end)), c.total, shuffleRand);
    // both dates are present and the total is at least 1
    assert sampled.Success?;
    var dates := sampled.value;
    var plan := Plan(c.minPerDay, c.maxPerDay, c.total, dryRun);
    var st := Run(dates, initialized.value, plan, dayRand, timeRand);
    RunCount(dates, initialized.value, plan, dayRand, timeRand);
    RunEffects(dates, initialized.value, plan, dayRand, timeRand);
    if !dryRun {
      RunPerDayBound(dates, initialized.value, plan, dayRand, timeRand);
    }
    return Success(Summary(c, dates, st)), Some(st.counter);
  }
}
