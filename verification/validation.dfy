/** Configuration records and their validation (`validateConfig`).

    A date is a day ordinal; `today` is the ordinal of the current day. The
    program parses "YYYY-MM-DD" to local midnight and compares it with the
    current instant, so a date lies after "now" exactly when its ordinal is
    greater than `today`. */
module Validation {
  import opened Basics

  /** A date field as written: a parsable calendar day, non-empty text that does not
      parse, or the empty string (which is falsy and does not parse either). */
  datatype DateInput = Day(ordinal: int) | Unparsable | Blank

  /** The five required fields, in the order they are checked. */
  datatype Field = StartDate | EndDate | MinCommitsPerDay | MaxCommitsPerDay | TotalCommits

  const RequiredFields: seq<Field> := [StartDate, EndDate, MinCommitsPerDay, MaxCommitsPerDay, TotalCommits]

  /** A configuration record as selected by name; any field may be missing. */
  datatype RawConfig = RawConfig(
    startDate: Option<DateInput>,
    endDate: Option<DateInput>,
    minCommitsPerDay: Option<int>,
    maxCommitsPerDay: Option<int>,
    totalCommits: Option<int>)

  /** A configuration that passed validation. */
  datatype Config = Config(start: int, end: int, minPerDay: int, maxPerDay: int, total: int)

  /** Success of validation, with whether the future-dates warning is printed. */
  datatype Verdict = Verdict(config: Config, futureWarning: bool)

  /** One error per `throw` of the validator. */
  datatype ConfigError =
    | MissingField(field: Field)
    | InvalidDateFormat
    | EndBeforeStart
    | StartInFuture
    | EndInFuture
    | MinAboveMax
    | TotalBelowOne

  predicate Present(raw: RawConfig, f: Field) {
    match f
    case StartDate => raw.startDate.Some?
    case EndDate => raw.endDate.Some?
    case MinCommitsPerDay => raw.minCommitsPerDay.Some?
    case MaxCommitsPerDay => raw.maxCommitsPerDay.Some?
    case TotalCommits => raw.totalCommits.Some?
  }

  /** The loop over the required fields from position `i` on: the first one, in
      checking order, that is missing. */
  function FirstMissingFrom(raw: RawConfig, i: nat): (r: Option<Field>)
    requires i <= |RequiredFields|
    ensures r.None? <==> forall j :: i <= j < |RequiredFields| ==> Present(raw, RequiredFields[j])
    ensures r.Some? ==> exists j :: i <= j < |RequiredFields| && RequiredFields[j] == r.value
                                    && !Present(raw, RequiredFields[j])
                                    && forall k :: i <= k < j ==> Present(raw, RequiredFields[k])
    decreases |RequiredFields| - i
  {
    if i == |RequiredFields| then None
    else if !Present(raw, RequiredFields[i]) then Some(RequiredFields[i])
    else FirstMissingFrom(raw, i + 1)
  }

  function FirstMissing(raw: RawConfig): Option<Field> {
    FirstMissingFrom(raw, 0)
  }

  /** Every field is present and both dates parse. */
  predicate Complete(raw: RawConfig) {
    && raw.startDate.Some? && raw.startDate.value.Day?
    && raw.endDate.Some? && raw.endDate.value.Day?
    && raw.minCommitsPerDay.Some? && raw.maxCommitsPerDay.Some? && raw.totalCommits.Some?
  }

  function Fields(raw: RawConfig): Config
    requires Complete(raw)
  {
    Config(raw.startDate.value.ordinal, raw.endDate.value.ordinal,
           raw.minCommitsPerDay.value, raw.maxCommitsPerDay.value, raw.totalCommits.value)
  }

  /** The semantic rules a complete configuration must meet, independent of their checking order. */
  predicate Acceptable(c: Config, today: int, allowFuture: bool) {
    && c.start <= c.end
    && (allowFuture || c.end <= today)
    && c.minPerDay <= c.maxPerDay
    && c.total >= 1
  }

  /** `validateConfig`: the checks run in the program's order and the first failing one is reported. */
  function Validate(raw: RawConfig, today: int, allowFuture: bool): (r: Result<Verdict, ConfigError>)
    // Missing fields are reported before anything else, the first missing one in order.
    ensures FirstMissing(raw).Some? ==> r == Failure(MissingField(FirstMissing(raw).value))
    // Unparsable dates come next.
    ensures FirstMissing(raw).None? && !Complete(raw) ==> r == Failure(InvalidDateFormat)
    // Success exactly when every rule holds; the result carries the fields unchanged.
    ensures r.Success? <==> Complete(raw) && Acceptable(Fields(raw), today, allowFuture)
    ensures r.Success? ==> r.value.config == Fields(raw)
    // The warning is printed for future dates, and it is never an error.
    ensures r.Success? ==> (r.value.futureWarning <==> r.value.config.start > today || r.value.config.end > today)
    ensures r.Success? && r.value.futureWarning ==> allowFuture
  {
    match FirstMissing(raw)
    case Some(f) => Failure(MissingField(f))
    case None =>
      if !Complete(raw) then Failure(InvalidDateFormat)
      else
        var c := Fields(raw);
        if c.end < c.start then Failure(EndBeforeStart)
        else if !allowFuture && c.start > today then Failure(StartInFuture)
        else if !allowFuture && c.end > today then Failure(EndInFuture)
        else if c.minPerDay > c.maxPerDay then Failure(MinAboveMax)
        else if c.total < 1 then Failure(TotalBelowOne)
        else Success(Verdict(c, c.start > today || c.end > today))
  }

  /** Which error a complete configuration gets: the rules' priority order.
      Each error is reported exactly when its rule fails and every earlier rule holds. */
  lemma ErrorPriority(raw: RawConfig, today: int, allowFuture: bool)
    requires Complete(raw)
    ensures var c := Fields(raw); var r := Validate(raw, today, allowFuture);
      && (r == Failure(EndBeforeStart) <==> c.end < c.start)
      && (r == Failure(StartInFuture) <==> c.start <= c.end && !allowFuture && c.start > today)
      && (r == Failure(EndInFuture) <==> c.start <= c.end && !allowFuture && c.start <= today < c.end)
      && (r == Failure(MinAboveMax) <==> c.start <= c.end && (allowFuture || c.end <= today)
                                          && c.minPerDay > c.maxPerDay)
      && (r == Failure(TotalBelowOne) <==> c.start <= c.end && (allowFuture || c.end <= today)
                                            && c.minPerDay <= c.maxPerDay && c.total < 1)
  {
  }

  /** A validated configuration always has a non-empty, ordered date range, sane bounds
      and at least one commit to make. */
  lemma ValidatedIsSound(raw: RawConfig, today: int, allowFuture: bool)
    requires Validate(raw, today, allowFuture).Success?
    ensures var c := Validate(raw, today, allowFuture).value.config;
      c.start <= c.end && c.minPerDay <= c.maxPerDay && c.total >= 1
      && (!allowFuture ==> c.end <= today)
  {
  }

  /** With future dates allowed, the current day can change the warning but never the verdict. */
  lemma VerdictIndependentOfToday(raw: RawConfig, today1: int, today2: int)
    ensures Validate(raw, today1, true).Success? <==> Validate(raw, today2, true).Success?
    ensures Validate(raw, today1, true).Failure? ==>
              Validate(raw, today1, true) == Validate(raw, today2, true)
  {
  }

  /** Allowing future dates only ever turns rejections into acceptances. */
  lemma AllowingFutureIsWeaker(raw: RawConfig, today: int)
    ensures Validate(raw, today, false).Success? ==> Validate(raw, today, true).Success?
    ensures Validate(raw, today, false).Success? ==>
              Validate(raw, today, false).value.config == Validate(raw, today, true).value.config
  {
  }

  /** The built-in "test" preset: today - 7 through today (eight days), 1 to 3 commits a day, 10 in all. */
  function TestPreset(today: int): RawConfig {
    RawConfig(Some(Day(today - 7)), Some(Day(today)), Some(1), Some(3), Some(10))
  }

  /** The "test" preset passes validation on every day, with no future-dates warning. */
  lemma TestPresetValidates(today: int)
    ensures Validate(TestPreset(today), today, false) ==
              Success(Verdict(Config(today - 7, today, 1, 3, 10), false))
  {
  }
}
