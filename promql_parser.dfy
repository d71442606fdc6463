/** The PromQL subset parser: a query string becomes a `Query` by slicing at
    the first `(`, the last `)`, the first `[`/`]` and `{`/`}`. */
module PromqlParser {
  import opened Wrappers
  import opened GoInts
  import opened GoStrings
  import opened Assoc

  datatype Aggregation = Aggregation(operation: string, byLabels: seq<string>, withoutLabels: seq<string>)

  /** A parsed query. `range` and `offset` are `time.Duration` nanoseconds. */
  datatype Query = Query(
    metricName: string,
    labels: map<string, string>,
    functionName: string,
    range: int,
    offset: int,
    aggregation: Option<Aggregation>)

  datatype ParseError =
    | EmptyQuery
    | InvalidFunctionSyntax
    | MissingCloseParen
    | InvalidFunctionArgument(cause: ParseError)
    | MissingCloseBracket
    | MissingCloseBrace
    | InvalidLabelSelector(pair: string)
    | EmptyDuration
    | InvalidNumber(text: string)
    | InvalidGoDuration(text: string)
    | InvalidRangeDuration(cause: ParseError)
    | InvalidAggregationSyntax
      /** A slice expression whose upper bound lies before its lower bound:
          a runtime panic in Go, here an error value. */
    | SlicePanic

  /** An error that stands for a Go panic, also when an outer step has
      wrapped it: in Go the panic leaves the parser at once. */
  predicate Panicked(e: ParseError)
  {
    match e
    case SlicePanic => true
    case InvalidFunctionArgument(cause) => Panicked(cause)
    case InvalidRangeDuration(cause) => Panicked(cause)
    case _ => false
  }

  /** `time.ParseDuration`, which the parser falls back on; the model takes it
      as a parameter. */
  type GoParseDuration = string -> Option<int>

  function PlainQuery(name: string): Query {
    Query(name, map[], "", 0, 0, None)
  }

  /** `Parser.Parse`. */
  function Parse(query: string, goParse: GoParseDuration): (r: Result<Query, ParseError>)
    ensures r == Failure(EmptyQuery) <==> AllSpace(query)
    ensures r.Success? ==> r.value.offset == 0 && r.value.aggregation == None
    ensures !AllSpace(query) && '(' in TrimSpace(query) && ')' in TrimSpace(query) ==>
      r == ParseFunction(TrimSpace(query), goParse)
    ensures !AllSpace(query) && !('(' in TrimSpace(query) && ')' in TrimSpace(query)) && '{' in TrimSpace(query) ==>
      r == ParseMetricWithLabels(TrimSpace(query))
  {
    var q := TrimSpace(query);
    TrimSpaceEmpty(query);
    if q == "" then Failure(EmptyQuery)
    else if '(' in q && ')' in q then ParseFunction(q, goParse)
    else if '{' !in q then Success(PlainQuery(q))
    else ParseMetricWithLabels(q)
  }

  /** `parseFunction`: the name before the first `(`, the argument up to the
      last `)`. */
  function ParseFunction(query: string, goParse: GoParseDuration): (r: Result<Query, ParseError>)
    ensures r.Failure? ==> r.error != EmptyQuery
    ensures '(' in query ==>
      (r == Failure(MissingCloseParen) <==> LastIndex(query, ')') <= Index(query, '('))
    ensures r.Success? ==>
      exists p, rest :: query == p + "(" + rest && '(' !in p && r.value.functionName == TrimSpace(p)
    ensures '(' !in query ==> r == Failure(InvalidFunctionSyntax)
    ensures '(' in query && Index(query, '(') < LastIndex(query, ')') ==>
      r == FunctionCall(query, Index(query, '('), LastIndex(query, ')'), goParse)
  {
    var open := Index(query, '(');
    if open == -1 then Failure(InvalidFunctionSyntax)
    else
      var close := LastIndex(query, ')');
      if close == -1 || close <= open then Failure(MissingCloseParen)
      else FunctionCall(query, open, close, goParse)
  }

  /** The part of `parseFunction` after both parentheses are found. */
  function FunctionCall(query: string, open: nat, close: nat, goParse: GoParseDuration): (r: Result<Query, ParseError>)
    requires open < close < |query| && query[open] == '(' && '(' !in query[..open]
    ensures r.Failure? ==> r.error.InvalidFunctionArgument?
    ensures r.Success? ==>
      exists p, rest :: query == p + "(" + rest && '(' !in p && r.value.functionName == TrimSpace(p)
    ensures r.Success? ==> r.value.offset == 0 && r.value.aggregation == None
    ensures var arg := ParseMetricWithRange(TrimSpace(query[open + 1..close]), goParse);
      (r.Success? <==> arg.Success?)
      && (r.Failure? ==> r.error == InvalidFunctionArgument(arg.error))
      && (r.Success? ==> r.value == Query(arg.value.0.metricName, arg.value.0.labels,
            TrimSpace(query[..open]), arg.value.1, 0, None))
  {
    var funcName := TrimSpace(query[..open]);
    var arg := TrimSpace(query[open + 1..close]);
    match ParseMetricWithRange(arg, goParse)
    case Failure(e) => Failure(InvalidFunctionArgument(e))
    case Success(mr) =>
      var p, rest := query[..open], query[open + 1..];
      assert query == p + "(" + rest;
      Success(Query(mr.0.metricName, mr.0.labels, funcName, mr.1, 0, None))
  }

  /** `parseMetricWithRange`: a metric selector with an optional `[duration]`. */
  function ParseMetricWithRange(query: string, goParse: GoParseDuration): (r: Result<(Query, int), ParseError>)
    ensures '[' !in query ==> r.Success? ==> r.value.1 == 0
    ensures '[' in query && ']' !in query ==> r == Failure(MissingCloseBracket)
    ensures '[' !in query ==> var m := ParseMetricWithLabels(query);
      (r.Success? <==> m.Success?)
      && (r.Failure? ==> r.error == m.error)
      && (r.Success? ==> r.value == (m.value, 0))
    ensures '[' in query && ']' in query && Index(query, ']') < Index(query, '[') ==> r == Failure(SlicePanic)
    ensures '[' in query && ']' in query && Index(query, '[') < Index(query, ']') ==>
      r == RangedMetric(TrimSpace(query[..Index(query, '[')]), TrimSpace(query[Index(query, '[') + 1..Index(query, ']')]), goParse)
  {
    var rangeStart := Index(query, '[');
    if rangeStart == -1 then
      var m := ParseMetricWithLabels(query);
      if m.Failure? then Failure(m.error) else Success((m.value, 0))
    else
      var rangeEnd := Index(query, ']');
      if rangeEnd == -1 then Failure(MissingCloseBracket)
      else if rangeEnd < rangeStart then Failure(SlicePanic)
      else RangedMetric(TrimSpace(query[..rangeStart]), TrimSpace(query[rangeStart + 1..rangeEnd]), goParse)
  }

  /** The part of `parseMetricWithRange` after both brackets are found: the
      selector's error comes first, then the duration's. */
  function RangedMetric(metricPart: string, rangePart: string, goParse: GoParseDuration): (r: Result<(Query, int), ParseError>)
    ensures var m := ParseMetricWithLabels(metricPart);
      var d := ParseDuration(rangePart, goParse);
      (r.Success? <==> m.Success? && d.Success?)
      && (m.Failure? ==> r == Failure(m.error))
      && (m.Success? && d.Failure? ==> r == Failure(InvalidRangeDuration(d.error)))
      && (r.Success? ==> r.value == (m.value, d.value))
  {
    match ParseMetricWithLabels(metricPart)
    case Failure(e) => Failure(e)
    case Success(q) =>
      match ParseDuration(rangePart, goParse)
      case Failure(e) => Failure(InvalidRangeDuration(e))
      case Success(d) => Success((q, d))
  }

  /** `parseMetricWithLabels`: a name with an optional `{…}` selector. */
  function ParseMetricWithLabels(query: string): (r: Result<Query, ParseError>)
    ensures r.Failure? ==> r.error != EmptyQuery
    ensures '{' !in query ==> r == Success(PlainQuery(TrimSpace(query)))
    ensures '{' in query && '}' !in query ==> r == Failure(MissingCloseBrace)
    ensures r.Success? ==> r.value.functionName == "" && r.value.range == 0 && r.value.aggregation == None
    ensures '{' in query && '}' in query && Index(query, '}') < Index(query, '{') ==> r == Failure(SlicePanic)
    ensures '{' in query && '}' in query && Index(query, '{') < Index(query, '}') ==>
      var labels := LabelsOf(TrimSpace(query[Index(query, '{') + 1..Index(query, '}')]));
      (r.Success? <==> labels.Success?)
      && (r.Failure? ==> r.error == labels.error)
      && (r.Success? ==> r.value.metricName == TrimSpace(query[..Index(query, '{')]) && r.value.labels == labels.value)
  {
    var labelStart := Index(query, '{');
    if labelStart == -1 then Success(PlainQuery(TrimSpace(query)))
    else
      var labelEnd := Index(query, '}');
      if labelEnd == -1 then Failure(MissingCloseBrace)
      else if labelEnd < labelStart then Failure(SlicePanic)
      else
        var metricName := TrimSpace(query[..labelStart]);
        var selector := TrimSpace(query[labelStart + 1..labelEnd]);
        match LabelsOf(selector)
        case Failure(e) => Failure(e)
        case Success(labels) => Success(Query(metricName, labels, "", 0, 0, None))
  }

  /** Surrounding double quotes are removed only when present at both ends. */
  function Unquote(v: string): (r: string)
    ensures |v| >= 2 && v[0] == '"' && v[|v| - 1] == '"' ==> v == "\"" + r + "\""
    ensures !(|v| >= 2 && v[0] == '"' && v[|v| - 1] == '"') ==> r == v
  {
    if |v| >= 2 && v[0] == '"' && v[|v| - 1] == '"' then v[1..|v| - 1] else v
  }

  /** A piece the selector accepts: blank, or holding an `=`. */
  predicate ValidPair(pair: string) {
    AllSpace(pair) || '=' in pair
  }

  /** One comma-separated piece of a label selector: blank pieces are
      skipped, a piece without `=` is an error, otherwise `key=value` split at
      the first `=` and trimmed. */
  function PairEntry(pair: string): (r: Result<Entry<string>, ParseError>)
    ensures r == Success(Skip) <==> AllSpace(pair)
    ensures r.Success? <==> ValidPair(pair)
    ensures r.Failure? ==> r.error == InvalidLabelSelector(TrimSpace(pair))
  {
    var p := TrimSpace(pair);
    TrimSpaceEmpty(pair);
    if p == "" then Success(Skip)
    else
      var eq := Index(p, '=');
      TrimSpaceKeeps(pair, '=');
      if eq == -1 then Failure(InvalidLabelSelector(p))
      else Success(Put(TrimSpace(p[..eq]), Unquote(TrimSpace(p[eq + 1..]))))
  }

  /** Whenever the trimmed piece reads `k=v` with no `=` in `k`, the entry
      is key `k` and value `v`, each trimmed and the value unquoted. */
  lemma PairEntryShape(pair: string, k: string, v: string)
    requires TrimSpace(pair) == k + "=" + v && '=' !in k
    ensures PairEntry(pair) == Success(Put(TrimSpace(k), Unquote(TrimSpace(v))))
  {
    var p := TrimSpace(pair);
    var eq := Index(p, '=');
    assert p[|k|] == '=' && p[..|k|] == k;
    assert eq == |k|;
    assert p[eq + 1..] == v;
  }

  /** The position of the first piece that is not valid, or the number of
      pieces when all are valid. */
  function FirstInvalid(pairs: seq<string>): (i: nat)
    ensures i <= |pairs|
    ensures forall j :: 0 <= j < i ==> ValidPair(pairs[j])
    ensures i < |pairs| ==> !ValidPair(pairs[i])
  {
    if pairs == [] || !ValidPair(pairs[0]) then 0 else 1 + FirstInvalid(pairs[1..])
  }

  /** The entries of all pieces, or the error of the first invalid piece. */
  function PairEntries(pairs: seq<string>): (r: Result<seq<Entry<string>>, ParseError>)
    ensures r.Success? <==> FirstInvalid(pairs) == |pairs|
    ensures r.Success? ==> |r.value| == |pairs|
    ensures r.Success? ==> forall i :: 0 <= i < |pairs| ==> r.value[i] == PairEntry(pairs[i]).value
    ensures r.Failure? ==> FirstInvalid(pairs) < |pairs|
    ensures r.Failure? ==> r.error == InvalidLabelSelector(TrimSpace(pairs[FirstInvalid(pairs)]))
  {
    if pairs == [] then Success([])
    else
      match PairEntry(pairs[0])
      case Failure(e) => Failure(e)
      case Success(e) =>
        match PairEntries(pairs[1..])
        case Failure(e2) =>
          Failure(e2)
        case Success(es) => Success([e] + es)
  }

  /** `parseLabels` as a function of the selector text. */
  function LabelsOf(selector: string): (r: Result<map<string, string>, ParseError>)
    ensures selector == "" ==> r == Success(map[])
    ensures selector != "" ==> (r.Success? <==> FirstInvalid(Split(selector, ',')) == |Split(selector, ',')|)
    ensures r.Failure? ==> var pairs := Split(selector, ',');
      FirstInvalid(pairs) < |pairs| && r.error == InvalidLabelSelector(TrimSpace(pairs[FirstInvalid(pairs)]))
  {
    if selector == "" then Success(map[])
    else
      match PairEntries(Split(selector, ','))
      case Failure(e) => Failure(e)
      case Success(es) => Success(Assign(es))
  }

  /** A later pair for the same key overwrites an earlier one. */
  lemma LabelsLaterPairWins(selector: string, i: nat)
    requires selector != "" && LabelsOf(selector).Success?
    requires i < |Split(selector, ',')| && PairEntry(Split(selector, ',')[i]).value.Put?
    requires forall j :: i < j < |Split(selector, ',')| ==>
      !PutsKey(PairEntry(Split(selector, ',')[j]).value, PairEntry(Split(selector, ',')[i]).value.key)
    ensures var e := PairEntry(Split(selector, ',')[i]).value;
      e.key in LabelsOf(selector).value && LabelsOf(selector).value[e.key] == e.value
  {
    AssignLastWins(PairEntries(Split(selector, ',')).value, i);
  }

  /** The entries of the first `n` pieces, all of which are valid. */
  function EntriesUpTo(pairs: seq<string>, n: nat): (r: seq<Entry<string>>)
    requires n <= |pairs|
    requires n <= FirstInvalid(pairs)
    ensures |r| == n
  {
    if n == 0 then []
    else
      assert ValidPair(pairs[n - 1]);
      EntriesUpTo(pairs, n - 1) + [PairEntry(pairs[n - 1]).value]
  }

  /** Entry `j` of the prefix is the entry of piece `j`. */
  lemma {:induction false} EntriesUpToAt(pairs: seq<string>, n: nat, j: nat)
    requires n <= |pairs| && n <= FirstInvalid(pairs) && j < n
    ensures ValidPair(pairs[j]) && EntriesUpTo(pairs, n)[j] == PairEntry(pairs[j]).value
  {
    var init, e := EntriesUpTo(pairs, n - 1), PairEntry(pairs[n - 1]);
    assert ValidPair(pairs[n - 1]);
    assert EntriesUpTo(pairs, n) == init + [e.value];
    if j < n - 1 {
      EntriesUpToAt(pairs, n - 1, j);
    }
  }

  lemma EntriesUpToAll(pairs: seq<string>)
    requires FirstInvalid(pairs) == |pairs|
    ensures PairEntries(pairs).Success? && EntriesUpTo(pairs, |pairs|) == PairEntries(pairs).value
  {
    forall j | 0 <= j < |pairs|
      ensures EntriesUpTo(pairs, |pairs|)[j] == PairEntries(pairs).value[j]
    {
      EntriesUpToAt(pairs, |pairs|, j);
    }
  }

  lemma PairEntryBlank(pair: string)
    requires TrimSpace(pair) == ""
    ensures PairEntry(pair) == Success(Skip) && ValidPair(pair)
  {
  }

  lemma PairEntryPut(pair: string, eq: int)
    requires eq == Index(TrimSpace(pair), '=') && eq >= 0
    ensures var p := TrimSpace(pair);
      PairEntry(pair) == Success(Put(TrimSpace(p[..eq]), Unquote(TrimSpace(p[eq + 1..]))))
      && ValidPair(pair)
  {
  }

  /** A valid piece extends the map by its own entry. */
  lemma AssignStep(pairs: seq<string>, i: nat)
    requires i < |pairs| && ValidPair(pairs[i]) && i <= FirstInvalid(pairs)
    ensures i + 1 <= FirstInvalid(pairs)
    ensures var e := PairEntry(pairs[i]).value;
      Assign(EntriesUpTo(pairs, i + 1))
        == if e.Put? then Assign(EntriesUpTo(pairs, i))[e.key := e.value] else Assign(EntriesUpTo(pairs, i))
  {
    AssignSnoc(EntriesUpTo(pairs, i), PairEntry(pairs[i]).value);
  }

  /** The first invalid piece decides the error. */
  lemma LabelsFailAt(selector: string, i: nat)
    requires selector != ""
    requires i < |Split(selector, ',')| && !ValidPair(Split(selector, ',')[i])
    requires i <= FirstInvalid(Split(selector, ','))
    ensures LabelsOf(selector) == Failure(InvalidLabelSelector(TrimSpace(Split(selector, ',')[i])))
  {
  }

  /** The body of the `parseLabels` loop for one piece: trim, split at the
      first `=`, trim both sides and strip surrounding quotes from the value. */
  method ParsePair(pair: string) returns (r: Result<Entry<string>, ParseError>)
    ensures r == PairEntry(pair)
  {
    var p := TrimSpace(pair);
    if p == "" {
      PairEntryBlank(pair);
      return Success(Skip);
    }
    var eq := Index(p, '=');
    if eq == -1 {
      return Failure(InvalidLabelSelector(p));
    }
    var key := TrimSpace(p[..eq]);
    var value := TrimSpace(p[eq + 1..]);
    ghost var raw := value;
    if |value| >= 2 && value[0] == '"' && value[|value| - 1] == '"' {
      value := value[1..|value| - 1];
    }
    assert value == Unquote(raw);
    PairEntryPut(pair, eq);
    return Success(Put(key, value));
  }

  /** `parseLabels`: fills the label map pair by pair, skipping blank
      pieces, and stops at the first piece without `=`. */
  method ParseLabels(selector: string) returns (r: Result<map<string, string>, ParseError>)
    ensures r == LabelsOf(selector)
  {
    var labels: map<string, string> := map[];
    if selector == "" {
      return Success(labels);
    }
    var pairs := Split(selector, ',');
    var i := 0;
    while i < |pairs|
      invariant 0 <= i <= |pairs|
      invariant i <= FirstInvalid(pairs)
      invariant labels == Assign(EntriesUpTo(pairs, i))
    {
      var entry := ParsePair(pairs[i]);
      if entry.Failure? {
        LabelsFailAt(selector, i);
        return Failure(entry.error);
      }
      AssignStep(pairs, i);
      if entry.value.Put? {
        labels := labels[entry.value.key := entry.value.value];
      }
      i := i + 1;
    }
    EntriesUpToAll(pairs);
    return Success(labels);
  }

  /** `time.Duration(n) * unit` for a count written before a one-letter unit. */
  function Scaled(text: string, unit: int): (r: Result<int, ParseError>)
    requires text != []
    ensures r.Success? <==> Atoi(text[..|text| - 1]).Some?
    ensures r.Success? ==> InInt64(r.value)
    ensures r.Success? && InInt64(Atoi(text[..|text| - 1]).value * unit) ==>
      r.value == Atoi(text[..|text| - 1]).value * unit
  {
    var digits := text[..|text| - 1];
    match Atoi(digits)
    case None => Failure(InvalidNumber(digits))
    case Some(v) => Success(Wrap64(v * unit))
  }

  /** `parseDuration`: `s`, `m`, `h`, `d` suffixes tested in that order, then
      Go's own duration syntax. */
  function ParseDuration(duration: string, goParse: GoParseDuration): (r: Result<int, ParseError>)
    ensures r == Failure(EmptyDuration) <==> AllSpace(duration)
  {
    var d := TrimSpace(duration);
    TrimSpaceEmpty(duration);
    if d == "" then Failure(EmptyDuration)
    else if HasSuffix(d, "s") then Scaled(d, Second)
    else if HasSuffix(d, "m") then Scaled(d, Minute)
    else if HasSuffix(d, "h") then Scaled(d, Hour)
    else if HasSuffix(d, "d") then InDays(d)
    else
      match goParse(d)
      case None => Failure(InvalidGoDuration(d))
      case Some(v) => Success(v)
  }

  /** The `d` suffix: `time.Duration(n*24) * time.Hour`, both products
      in `int64`. */
  function InDays(text: string): (r: Result<int, ParseError>)
    requires text != []
    ensures r.Success? <==> Atoi(text[..|text| - 1]).Some?
    ensures r.Success? ==> InInt64(r.value)
  {
    var digits := text[..|text| - 1];
    match Atoi(digits)
    case None => Failure(InvalidNumber(digits))
    case Some(v) => Success(Wrap64(Wrap64(v * 24) * Hour))
  }

  function UnitOf(u: char): (r: int)
    requires u in "smhd"
    ensures Second <= r
  {
    if u == 's' then Second else if u == 'm' then Minute else if u == 'h' then Hour else Day
  }

  /** Text that is already trimmed and ends in `s`, `m` or `h` is scaled by
      that unit. */
  lemma UnitSuffix(d: string, goParse: GoParseDuration)
    requires d != [] && TrimSpace(d) == d && d[|d| - 1] in "smh"
    ensures ParseDuration(d, goParse) == Scaled(d, UnitOf(d[|d| - 1]))
  {
  }

  lemma ScaledCount(d: string, n: nat, unit: int)
    requires d != [] && Atoi(d[..|d| - 1]) == Some(n)
    requires 0 < unit && n * unit <= MaxInt64
    ensures Scaled(d, unit) == Success(n * unit)
  {
  }

  /** A count followed by a unit letter is already trimmed, and its digits
      read back as the count. */
  lemma CountThenUnit(d: string, digits: string, u: char)
    requires d == digits + [u] && digits != [] && AllDigits(digits) && !IsSpace(u)
    requires DigitsValue(digits) <= MaxInt64
    ensures d != [] && TrimSpace(d) == d && d[|d| - 1] == u
    ensures Atoi(d[..|d| - 1]) == Some(DigitsValue(digits))
  {
    assert d[0] == digits[0] && IsDigit(d[0]);
    TrimSpaceNoOp(d);
    assert d[..|d| - 1] == digits;
    AtoiDigits(digits);
  }

  /** Text that is already trimmed and ends in `d` after a count of days
      is that many 24-hour days. */
  lemma DaySuffix(d: string, days: nat, goParse: GoParseDuration)
    requires d != [] && TrimSpace(d) == d && d[|d| - 1] == 'd'
    requires Atoi(d[..|d| - 1]) == Some(days) && days * Day <= MaxInt64
    ensures ParseDuration(d, goParse) == Success(days * Day)
  {
    DayBranch(d, goParse);
    DaysInRange(days);
  }

  /** Trimmed text ending in `d` takes the day branch. */
  lemma DayBranch(d: string, goParse: GoParseDuration)
    requires d != [] && TrimSpace(d) == d && d[|d| - 1] == 'd'
    ensures ParseDuration(d, goParse) == InDays(d)
  {
  }

  lemma DaysInRange(days: nat)
    requires days * Day <= MaxInt64
    ensures Wrap64(Wrap64(days * 24) * Hour) == days * Day
  {
    var hours := days * 24;
    assert hours * Hour == days * Day;
    assert InInt64(hours) && InInt64(hours * Hour);
  }

  /** A decimal count followed by one of the four unit letters is that many
      units, whatever `time.ParseDuration` does. */
  lemma DurationWithUnit(digits: string, u: char, goParse: GoParseDuration)
    requires digits != [] && AllDigits(digits) && u in "smhd"
    requires DigitsValue(digits) * UnitOf(u) <= MaxInt64
    ensures ParseDuration(digits + [u], goParse) == Success(DigitsValue(digits) * UnitOf(u))
  {
    var d, n, unit := digits + [u], DigitsValue(digits), UnitOf(u);
    AtMostScaled(n, unit);
    CountThenUnit(d, digits, u);
    DurationOfCount(d, n, u, goParse);
  }

  lemma AtMostScaled(n: nat, unit: int)
    requires 1 <= unit
    ensures n <= n * unit
  {
  }

  lemma DurationOfCount(d: string, n: nat, u: char, goParse: GoParseDuration)
    requires d != [] && TrimSpace(d) == d && d[|d| - 1] == u && Atoi(d[..|d| - 1]) == Some(n)
    requires u in "smhd" && n * UnitOf(u) <= MaxInt64
    ensures ParseDuration(d, goParse) == Success(n * UnitOf(u))
  {
    if u == 'd' {
      DaySuffix(d, n, goParse);
    } else {
      UnitSuffix(d, goParse);
      ScaledCount(d, n, UnitOf(u));
    }
  }

  /** Worked case: `5m` is five minutes. */
  lemma DurationFiveMinutes(goParse: GoParseDuration)
    ensures ParseDuration("5m", goParse) == Success(300 * Second)
  {
    assert "5" + ['m'] == "5m" && DigitsValue("5") == 5;
    DurationWithUnit("5", 'm', goParse);
  }

  /** Worked case: `5ms` is rejected, because the `s` suffix is tried first
      and `5m` is not a number. */
  lemma DurationMillisRejected(goParse: GoParseDuration)
    ensures ParseDuration("5ms", goParse) == Failure(InvalidNumber("5m"))
  {
    var d := "5ms";
    TrimSpaceNoOp(d);
    assert HasSuffix(d, "s");
    assert d[..|d| - 1] == "5m";
    assert "5m"[1] == 'm' && !IsDigit('m');
    assert Atoi("5m") == None;
  }

  /** The `by (…)` clause after the last `)`. */
  function ByClause(query: string, closeParen: nat): (r: Result<string, ParseError>)
    requires closeParen < |query|
  {
    if closeParen < |query| - 1 then ByClauseText(TrimSpace(query[closeParen + 1..]))
    else Success("")
  }

  /** The text between the parentheses of `by (…)`, when the trimmed rest of
      the query starts with `by`. */
  function ByClauseText(remaining: string): (r: Result<string, ParseError>)
    ensures ')' !in remaining ==> r == Success("")
  {
    if HasPrefix(remaining, "by") then
      var byStart := Index(remaining, '(');
      var byEnd := Index(remaining, ')');
      if byStart != -1 && byEnd != -1 then
        if byEnd < byStart + 1 then Failure(SlicePanic)
        else Success(TrimSpace(remaining[byStart + 1..byEnd]))
      else Success("")
    else Success("")
  }

  /** Nothing after the last `)` holds a `)`, so no `by` clause is ever found. */
  lemma ByClauseAlwaysEmpty(query: string)
    requires ')' in query
    ensures ByClause(query, LastIndex(query, ')')) == Success("")
  {
    var close := LastIndex(query, ')');
    if close < |query| - 1 {
      NoByClauseAfter(query, close);
    } else {
      NoByClauseAtEnd(query, close);
    }
  }

  lemma NoByClauseAfter(query: string, close: nat)
    requires close < |query| - 1 && ')' !in query[close + 1..]
    ensures ByClause(query, close) == Success("")
  {
    TrimSpaceKeeps(query[close + 1..], ')');
  }

  lemma NoByClauseAtEnd(query: string, close: nat)
    requires close == |query| - 1
    ensures ByClause(query, close) == Success("")
  {
  }

  /** The grouping labels of a `by` clause: its comma-separated pieces,
      trimmed; none for an empty clause. */
  function GroupingLabels(byClause: string): (r: seq<string>)
    ensures byClause == "" ==> r == []
    ensures byClause != "" ==> |r| == |Split(byClause, ',')|
  {
    if byClause == "" then []
    else
      var parts := Split(byClause, ',');
      seq(|parts|, i requires 0 <= i < |parts| => TrimSpace(parts[i]))
  }

  /** `ParseAggregation`: `op(inner) by (…)`; the operation is the trimmed
      text before the first `(` and the inner query, the text between the
      first `(` and the last `)`, is parsed as a whole. */
  function ParseAggregation(query: string, goParse: GoParseDuration): (r: Result<Query, ParseError>)
    ensures r.Success? ==> r.value.aggregation.Some? && r.value.aggregation.value.withoutLabels == []
    ensures '(' !in TrimSpace(query) ==> r == Failure(InvalidAggregationSyntax)
    ensures '(' in TrimSpace(query) && ')' !in TrimSpace(query) ==> r == Failure(MissingCloseParen)
    ensures var q := TrimSpace(query);
      '(' in q && ')' in q && LastIndex(q, ')') < Index(q, '(') ==> r == Failure(SlicePanic)
    ensures var q := TrimSpace(query);
      '(' in q && Index(q, '(') < LastIndex(q, ')') ==>
        var inner := Parse(TrimSpace(q[Index(q, '(') + 1..LastIndex(q, ')')]), goParse);
        (r.Success? <==> inner.Success?)
        && (r.Failure? ==> r.error == inner.error)
        && (r.Success? ==> r.value == inner.value.(aggregation := Some(Aggregation(TrimSpace(q[..Index(q, '(')]), [], []))))
  {
    var q := TrimSpace(query);
    var open := Index(q, '(');
    if open == -1 then Failure(InvalidAggregationSyntax)
    else
      var close := LastIndex(q, ')');
      if close == -1 then Failure(MissingCloseParen)
      else if close < open then Failure(SlicePanic)
      else AggregationAt(q, open, close, goParse)
  }

  /** `ParseAggregation` once both parentheses are found: the inner query's
      result under the operation name, with no grouping labels. */
  function AggregationAt(q: string, open: nat, close: nat, goParse: GoParseDuration): (r: Result<Query, ParseError>)
    requires open < close < |q| && q[open] == '(' && '(' !in q[..open] && close == LastIndex(q, ')')
    ensures var inner := Parse(TrimSpace(q[open + 1..close]), goParse);
      (r.Success? <==> inner.Success?)
      && (r.Failure? ==> r.error == inner.error)
      && (r.Success? ==> r.value == inner.value.(aggregation := Some(Aggregation(TrimSpace(q[..open]), [], []))))
  {
    AggregatedNeverGroups(Parse(TrimSpace(q[open + 1..close]), goParse), q, open, close);
    Aggregated(Parse(TrimSpace(q[open + 1..close]), goParse), q, open, close)
  }

  /** The part of `ParseAggregation` after the inner query is parsed. */
  function Aggregated(inner: Result<Query, ParseError>, q: string, open: nat, close: nat): (r: Result<Query, ParseError>)
    requires open < close < |q| && q[open] == '(' && '(' !in q[..open]
    ensures r.Success? ==> r.value.aggregation.Some? && r.value.aggregation.value.withoutLabels == []
    ensures r.Success? ==>
      exists p, rest :: q == p + "(" + rest && '(' !in p && r.value.aggregation.value.operation == TrimSpace(p)
    ensures inner.Failure? ==> r == Failure(inner.error)
    ensures inner.Success? && ByClause(q, close).Success? ==> r.Success?
    ensures r.Success? ==> inner.Success? && ByClause(q, close).Success?
    ensures r.Success? ==>
      r.value == inner.value.(aggregation := Some(Aggregation(TrimSpace(q[..open]), GroupingLabels(ByClause(q, close).value), [])))
  {
    var byClause := ByClause(q, close);
    if inner.Failure? then Failure(inner.error)
    else if byClause.Failure? then Failure(byClause.error)
    else
      SplitAtOpen(q, open);
      Success(inner.value.(aggregation := Some(Aggregation(TrimSpace(q[..open]), GroupingLabels(byClause.value), []))))
  }

  lemma SplitAtOpen(q: string, open: nat)
    requires open < |q| && q[open] == '('
    ensures q == q[..open] + "(" + q[open + 1..]
  {
  }

  /** The `by` clause is looked for after the last `)`, where no `)` can
      follow, so an aggregation never carries grouping labels. */
  lemma AggregatedNeverGroups(inner: Result<Query, ParseError>, q: string, open: nat, close: nat)
    requires open < close < |q| && q[open] == '(' && '(' !in q[..open]
    requires close == LastIndex(q, ')')
    ensures Aggregated(inner, q, open, close).Success? ==>
      Aggregated(inner, q, open, close).value.aggregation.value.byLabels == []
    ensures Aggregated(inner, q, open, close).Success? <==> inner.Success?
    ensures inner.Failure? ==> Aggregated(inner, q, open, close) == Failure(inner.error)
    ensures inner.Success? ==>
      Aggregated(inner, q, open, close) == Success(inner.value.(aggregation := Some(Aggregation(TrimSpace(q[..open]), [], []))))
  {
    ByClauseAlwaysEmpty(q);
  }

  /** A query with no `(`…`)` pair and no `{` is a bare metric name. */
  lemma ParsePlainName(query: string, goParse: GoParseDuration)
    requires !AllSpace(query)
    requires !('(' in TrimSpace(query) && ')' in TrimSpace(query)) && '{' !in TrimSpace(query)
    ensures Parse(query, goParse) == Success(PlainQuery(TrimSpace(query)))
  {
  }

  /** `name{selector}` with no brace in the name and no `}` in the selector
      is the trimmed name with the labels of the trimmed selector. */
  lemma SelectorQuery(name: string, selector: string)
    requires '{' !in name && '}' !in name && '}' !in selector
    ensures var labels := LabelsOf(TrimSpace(selector));
      ParseMetricWithLabels(name + "{" + selector + "}")
        == if labels.Success? then Success(Query(TrimSpace(name), labels.value, "", 0, 0, None))
           else Failure(labels.error)
  {
    var q := name + "{" + selector + "}";
    var close := |name| + 1 + |selector|;
    assert q[..|name|] == name && q[|name| + 1..close] == selector;
    assert q[..close] == name + "{" + selector;
    IndexAt(q, '{', |name|);
    IndexAt(q, '}', close);
  }

  /** `metric[range]` with no bracket in the metric and no `]` in the range
      is the metric's selector with the range's duration. */
  lemma RangeQuery(metric: string, range: string, goParse: GoParseDuration)
    requires '[' !in metric && ']' !in metric && ']' !in range
    ensures var m := ParseMetricWithLabels(TrimSpace(metric));
      var d := ParseDuration(TrimSpace(range), goParse);
      ParseMetricWithRange(metric + "[" + range + "]", goParse)
        == if m.Failure? then Failure(m.error)
           else if d.Failure? then Failure(InvalidRangeDuration(d.error))
           else Success((m.value, d.value))
  {
    var q := metric + "[" + range + "]";
    var close := |metric| + 1 + |range|;
    assert q[..|metric|] == metric && q[|metric| + 1..close] == range;
    assert q[..close] == metric + "[" + range;
    IndexAt(q, '[', |metric|);
    IndexAt(q, ']', close);
  }

  /** `f(arg)` with no `(` in `f` is the function `f` applied to the range
      selector `arg`, whatever parentheses `arg` holds. */
  lemma CallQuery(f: string, arg: string, goParse: GoParseDuration)
    requires '(' !in f
    ensures var a := ParseMetricWithRange(TrimSpace(arg), goParse);
      ParseFunction(f + "(" + arg + ")", goParse)
        == if a.Failure? then Failure(InvalidFunctionArgument(a.error))
           else Success(Query(a.value.0.metricName, a.value.0.labels, TrimSpace(f), a.value.1, 0, None))
  {
    var q := f + "(" + arg + ")";
    var close := |f| + 1 + |arg|;
    assert q[..|f|] == f && q[|f| + 1..close] == arg;
    IndexAt(q, '(', |f|);
    LastIndexAt(q, ')', close);
  }

  /* Worked case: `rate(http_requests_total{service="api"}[5m])`. Each
     step below peels one pair of delimiters with the general lemmas above;
     the facts about the literal pieces are kept in lemmas of their own,
     because solving them all at once is costly. */

  lemma PairServiceApiText()
    ensures TrimSpace("service=\"api\"") == "service" + "=" + "\"api\"" && '=' !in "service"
    ensures TrimSpace("service") == "service"
  {
    TrimSpaceNoOp("service=\"api\"");
    TrimSpaceNoOp("service");
  }

  lemma ValueApiText()
    ensures Unquote(TrimSpace("\"api\"")) == "api"
  {
    TrimSpaceNoOp("\"api\"");
  }

  /** The piece `service="api"` is the label `service` with its value
      unquoted. */
  lemma PairServiceApi()
    ensures PairEntry("service=\"api\"") == Success(Put("service", "api"))
  {
    PairServiceApiText();
    ValueApiText();
    PairEntryShape("service=\"api\"", "service", "\"api\"");
  }

  /** The selector `service="api"` is one label. */
  lemma LabelsServiceApi()
    ensures LabelsOf("service=\"api\"") == Success(map["service" := "api"])
  {
    SplitNone("service=\"api\"", ',');
    PairServiceApi();
    assert [Put("service", "api")][..0] == [];
  }

  lemma SelectorExampleText()
    ensures "http_requests_total" + "{service=\"api\"}" == "http_requests_total" + "{" + "service=\"api\"" + "}"
    ensures '{' !in "http_requests_total" && '}' !in "http_requests_total" && '}' !in "service=\"api\""
  {
  }

  lemma SelectorExampleTrimmed()
    ensures TrimSpace("http_requests_total") == "http_requests_total"
    ensures TrimSpace("service=\"api\"") == "service=\"api\""
  {
    TrimSpaceNoOp("http_requests_total");
    TrimSpaceNoOp("service=\"api\"");
  }

  /** A name followed by a one-label selector. */
  lemma SelectorExample()
    ensures ParseMetricWithLabels("http_requests_total" + "{service=\"api\"}")
      == Success(Query("http_requests_total", map["service" := "api"], "", 0, 0, None))
  {
    SelectorExampleText();
    SelectorExampleTrimmed();
    SelectorQuery("http_requests_total", "service=\"api\"");
    LabelsServiceApi();
  }

  lemma RangeExampleText(metric: string)
    requires metric == "http_requests_total" + "{service=\"api\"}"
    ensures metric + "[5m]" == metric + "[" + "5m" + "]"
    ensures '[' !in metric && ']' !in metric && ']' !in "5m"
  {
  }

  lemma RangeExampleTrimmed(metric: string)
    requires metric == "http_requests_total" + "{service=\"api\"}"
    ensures TrimSpace("5m") == "5m" && TrimSpace(metric) == metric
  {
    TrimSpaceNoOp(metric);
    TrimSpaceNoOp("5m");
  }

  /** A `}` before the `{` is a slice panic. */
  lemma SelectorPanics(goParse: GoParseDuration)
    ensures Parse("a}b{", goParse) == Failure(SlicePanic)
  {
    var q := "a}b{";
    TrimSpaceNoOp(q);
    IndexAt(q, '{', 3);
    IndexAt(q, '}', 1);
  }

  /** A `]` before the `[` is a slice panic. */
  lemma RangePanics(goParse: GoParseDuration)
    ensures ParseMetricWithRange("x]y[", goParse) == Failure(SlicePanic)
  {
    IndexAt("x]y[", '[', 3);
    IndexAt("x]y[", ']', 1);
  }

  lemma ArgumentPanicsText(arg: string)
    requires arg == "x]y["
    ensures '(' !in "rate" && TrimSpace(arg) == arg
  {
    TrimSpaceNoOp(arg);
  }

  lemma ArgumentPanicsTrimmed(query: string)
    requires query == "rate" + "(" + "x]y[" + ")"
    ensures TrimSpace(query) == query && !AllSpace(query)
    ensures '(' in query && ')' in query
  {
    TrimSpaceNoOp(query);
    assert query[4] == '(' && query[|query| - 1] == ')';
  }

  /** The same panic inside a function argument. The panic keeps the call
      from returning, so the wrapping is only the model's. */
  lemma ArgumentPanics(goParse: GoParseDuration)
    ensures Parse("rate" + "(" + "x]y[" + ")", goParse) == Failure(InvalidFunctionArgument(SlicePanic))
  {
    var arg := "x]y[";
    ArgumentPanicsText(arg);
    ArgumentPanicsTrimmed("rate" + "(" + arg + ")");
    CallQuery("rate", arg, goParse);
    RangePanics(goParse);
  }

  /** The selector above with a five-minute range. */
  lemma RangeExample(goParse: GoParseDuration)
    ensures ParseMetricWithRange("http_requests_total" + "{service=\"api\"}" + "[5m]", goParse)
      == Success((Query("http_requests_total", map["service" := "api"], "", 0, 0, None), 300 * Second))
  {
    var metric := "http_requests_total" + "{service=\"api\"}";
    RangeExampleText(metric);
    RangeExampleTrimmed(metric);
    RangeQuery(metric, "5m", goParse);
    SelectorExample();
    DurationFiveMinutes(goParse);
  }

  lemma RateExampleText(arg: string)
    requires arg == "http_requests_total" + "{service=\"api\"}" + "[5m]"
    ensures "rate(" + "http_requests_total" + "{service=\"api\"}" + "[5m])" == "rate" + "(" + arg + ")"
    ensures '(' !in "rate" && TrimSpace("rate") == "rate" && TrimSpace(arg) == arg
  {
    TrimSpaceNoOp("rate");
    TrimSpaceNoOp(arg);
  }

  lemma RateExampleTrimmed(query: string)
    requires query == "rate" + "(" + "http_requests_total" + "{service=\"api\"}" + "[5m]" + ")"
    ensures TrimSpace(query) == query && !AllSpace(query)
    ensures '(' in query && ')' in query
  {
    TrimSpaceNoOp(query);
    assert query[4] == '(' && query[|query| - 1] == ')';
  }

  /** A whole query, `rate` over a labelled selector with a range, parses
      to its metric name, labels, function and range. */
  lemma RateExample(goParse: GoParseDuration)
    ensures Parse("rate(" + "http_requests_total" + "{service=\"api\"}" + "[5m])", goParse)
      == Success(Query("http_requests_total", map["service" := "api"], "rate", 300 * Second, 0, None))
  {
    var arg := "http_requests_total" + "{service=\"api\"}" + "[5m]";
    RateExampleText(arg);
    RateExampleTrimmed("rate" + "(" + arg + ")");
    CallQuery("rate", arg, goParse);
    RangeExample(goParse);
  }

  /** Parsing trims first: surrounding white space never changes the result. */
  lemma ParseTrims(query: string, goParse: GoParseDuration)
    ensures Parse(TrimSpace(query), goParse) == Parse(query, goParse)
  {
    TrimSpaceIdempotent(query);
  }
}
