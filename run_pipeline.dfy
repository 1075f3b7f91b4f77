/** Input validation of the pipeline's command line (`run_pipeline.py`):
    the as-of date must be a YYYY-MM-DD date inside August 2024 and not in
    the future, and the forward window must be positive.

    Dates are day numbers (`date.toordinal()`, so 2024-08-01 is 739099).
    `strptime` is the parameter `parse`, which tells a string that does not
    match the format apart from one that matches it but names no real day;
    `datetime.now()` is the parameter `now`. */
module RunPipeline {
  import opened Wrappers
  import opened Strings
  import opened PriceTable

  /** 2024-08-01 and 2024-08-31. */
  const MIN_DATE: Day := 739099
  const MAX_DATE: Day := 739129

  const SECONDS_PER_DAY: nat := 86400
  type SecondOfDay = s: nat | s < SECONDS_PER_DAY

  /** A `datetime`: a day and the seconds since its midnight. */
  datatype Moment = Moment(day: Day, second: SecondOfDay)

  /** What `datetime.strptime(s, "%Y-%m-%d")` does: a day (at midnight),
      the "does not match format" `ValueError`, or another `ValueError`
      (a matching string that names no real day, such as 2024-02-30). */
  datatype ParseOutcome = Parsed(day: Day) | FormatMismatch | OtherParseError(message: string)

  /** The parsed midnight lies after `now`. */
  predicate AfterMoment(day: Day, now: Moment)
  {
    day * SECONDS_PER_DAY > now.day * SECONDS_PER_DAY + now.second
  }

  /** A midnight lies after `now` exactly when its day does: the time of
      day of `now` never matters. */
  lemma AfterMomentIsAfterDay(day: Day, now: Moment)
    ensures AfterMoment(day, now) <==> day > now.day
  {
    if day > now.day {
      assert day * SECONDS_PER_DAY >= (now.day + 1) * SECONDS_PER_DAY;
    } else {
      assert day * SECONDS_PER_DAY <= now.day * SECONDS_PER_DAY;
    }
  }

  /** `validate_date`. */
  function ValidateDate(s: string, parse: string -> ParseOutcome, now: Moment): (r: Result<string>)
    ensures r.Ok? ==> r.value == s
    ensures r.Err? ==> r.error.kind == ValueError
  {
    match parse(s)
    case FormatMismatch => Err(Error(ValueError, "Invalid date format: " + s + ". Use YYYY-MM-DD format."))
    case OtherParseError(message) => Err(Error(ValueError, message))
    case Parsed(day) =>
      if day < MIN_DATE then
        Err(Error(ValueError, "Date too early: " + s + ". News and fundamental data only available from 2024-08-01"))
      else if day > MAX_DATE then
        Err(Error(ValueError, "Date too late: " + s + ". News and fundamental data only available until 2024-08-31"))
      else if AfterMoment(day, now) then
        Err(Error(ValueError, "Future date not allowed: " + s))
      else Ok(s)
  }

  /** A date is accepted, unchanged, exactly when it parses to a day of
      August 2024 (both ends included) that is not after today. */
  lemma AcceptedIffInWindow(s: string, parse: string -> ParseOutcome, now: Moment)
    ensures ValidateDate(s, parse, now).Ok? <==>
              parse(s).Parsed? && MIN_DATE <= parse(s).day <= MAX_DATE && parse(s).day <= now.day
  {
    if parse(s).Parsed? {
      AfterMomentIsAfterDay(parse(s).day, now);
    }
  }

  /** The checks run in order: too early, then too late, then in the
      future; so a date after August 2024 is "too late" whatever today is. */
  lemma RejectionsInOrder(s: string, parse: string -> ParseOutcome, now: Moment)
    requires parse(s).Parsed?
    ensures var d := parse(s).day;
            var r := ValidateDate(s, parse, now);
            && (d < MIN_DATE ==> r == Err(Error(ValueError, "Date too early: " + s + ". News and fundamental data only available from 2024-08-01")))
            && (d > MAX_DATE ==> r == Err(Error(ValueError, "Date too late: " + s + ". News and fundamental data only available until 2024-08-31")))
            && (MIN_DATE <= d <= MAX_DATE && d > now.day ==> r == Err(Error(ValueError, "Future date not allowed: " + s)))
  {
    AfterMomentIsAfterDay(parse(s).day, now);
  }

  /** A string that does not match the format is reported as such, naming
      the expected format; any other parse error is passed on unchanged. */
  lemma UnparseableRejected(s: string, parse: string -> ParseOutcome, now: Moment)
    requires !parse(s).Parsed?
    ensures parse(s).FormatMismatch? ==>
              ValidateDate(s, parse, now) == Err(Error(ValueError, "Invalid date format: " + s + ". Use YYYY-MM-DD format."))
    ensures parse(s).OtherParseError? ==> ValidateDate(s, parse, now) == Err(Error(ValueError, parse(s).message))
  {
  }

  /** `if forward_days <= 0: raise ValueError(...)`. */
  function CheckForwardDays(forwardDays: int): (r: Result<nat>)
    ensures r.Ok? <==> forwardDays > 0
    ensures r.Ok? ==> r.value == forwardDays
    ensures r.Err? ==> r == Err(Error(ValueError, "Forward days must be positive, got: " + IntToString(forwardDays)))
  {
    if forwardDays <= 0 then Err(Error(ValueError, "Forward days must be positive, got: " + IntToString(forwardDays)))
    else Ok(forwardDays)
  }

  /** The validated inputs of `main`: the date is checked before the
      forward window. */
  function ValidateInputs(dateString: string, forwardDays: int, parse: string -> ParseOutcome, now: Moment): (r: Result<(string, nat)>)
    ensures ValidateDate(dateString, parse, now).Err? ==> r == Err(ValidateDate(dateString, parse, now).error)
    ensures r.Ok? <==> ValidateDate(dateString, parse, now).Ok? && forwardDays > 0
    ensures r.Ok? ==> r.value == (dateString, forwardDays)
  {
    var asOf :- ValidateDate(dateString, parse, now);
    var forward :- CheckForwardDays(forwardDays);
    Ok((asOf, forward))
  }
}
