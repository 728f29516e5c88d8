/** The batch data validator (`DataValidator` in data-validator.js): the
    structural check of a sample record against the ten required fields,
    and the quality scan of a whole batch for empty values, malformed months
    and out-of-range numbers. */
module DataValidator {
  import opened Wrappers
  import opened JsValues
  import opened KeyNormalisation

  /** `this.requiredFields`. */
  const RequiredFields: seq<string> :=
    ["ic_name", "month", "adh", "weighted_sph", "email_sph", "phone_sph", "chat_sph",
     "tnps", "qa_score", "call_refusals"]

  /** The required fields are already lower case, so `field.toLowerCase()`
      in the missing-field check leaves them unchanged. */
  lemma RequiredFieldsAreLowerCase()
    ensures forall i :: 0 <= i < |RequiredFields| ==> ToLower(RequiredFields[i]) == RequiredFields[i]
  {
    forall i | 0 <= i < |RequiredFields|
      ensures ToLower(RequiredFields[i]) == RequiredFields[i]
    {
      ToLowerIdentity(RequiredFields[i]);
    }
  }

  // ---------------------------------------------------------------------
  // validateDataStructure

  /** `Object.keys(sample).map(normalise)`. */
  function SampleKeys(sample: Record): (keys: seq<string>)
    ensures |keys| == |sample|
    ensures forall i :: 0 <= i < |sample| ==> keys[i] == NormalizeKey(sample[i].key)
  {
    seq(|sample|, i requires 0 <= i < |sample| => NormalizeKey(sample[i].key))
  }

  /** The elements of `xs` that are not in `excluded`, in the order of `xs`. */
  function FilterOut(xs: seq<string>, excluded: seq<string>): (r: seq<string>)
    ensures |r| <= |xs|
    ensures forall x :: x in r <==> x in xs && x !in excluded
    decreases |xs|
  {
    if xs == [] then []
    else
      var n := |xs| - 1;
      assert xs == xs[..n] + [xs[n]];
      FilterOut(xs[..n], excluded) + (if xs[n] in excluded then [] else [xs[n]])
  }

  /** What validateDataStructure returns. */
  datatype StructureReport = StructureReport(missing: seq<string>, extra: seq<string>, valid: bool)

  /** The required fields absent from the sample and the sample's keys that
      are not required, both compared after normalisation. */
  lemma StructureReportMeaning(sample: Record)
    ensures var keys := SampleKeys(sample);
      var missing, extra := FilterOut(RequiredFields, keys), FilterOut(keys, RequiredFields);
      && (forall f :: f in missing <==> f in RequiredFields && f !in keys)
      && (forall k :: k in extra <==> k in keys && k !in RequiredFields)
      && (forall x :: !(x in missing && x in extra))
      && |missing| <= |RequiredFields| == 10
  {
  }

  /** A list of required fields is fully present exactly when nothing of
      it is filtered out. */
  lemma FilterOutEmpty(xs: seq<string>, keys: seq<string>)
    ensures FilterOut(xs, keys) == [] <==> forall i :: 0 <= i < |xs| ==> xs[i] in keys
  {
    var r := FilterOut(xs, keys);
    if r != [] {
      assert r[0] in xs && r[0] !in keys;
    } else {
      forall i | 0 <= i < |xs|
        ensures xs[i] in keys
      {
        assert xs[i] !in r;
      }
    }
  }

  /** Extra fields never make a sample invalid: adding properties to a valid
      sample keeps it valid. */
  lemma AddingFieldsKeepsValidity(sample: Record, more: Record)
    requires FilterOut(RequiredFields, SampleKeys(sample)) == []
    ensures FilterOut(RequiredFields, SampleKeys(sample + more)) == []
  {
    FilterOutEmpty(RequiredFields, SampleKeys(sample));
    FilterOutEmpty(RequiredFields, SampleKeys(sample + more));
    forall i | 0 <= i < |RequiredFields|
      ensures RequiredFields[i] in SampleKeys(sample + more)
    {
      var k :| 0 <= k < |sample| && SampleKeys(sample)[k] == RequiredFields[i];
      assert SampleKeys(sample + more)[k] == RequiredFields[i];
    }
  }

  /** The normalised keys are already lower case, so `key.toLowerCase()` in
      the extra-field check leaves them unchanged. */
  lemma SampleKeysAreLowerCase(sample: Record)
    ensures forall j :: 0 <= j < |sample| ==> ToLower(SampleKeys(sample)[j]) == SampleKeys(sample)[j]
  {
    forall j | 0 <= j < |sample|
      ensures ToLower(SampleKeys(sample)[j]) == SampleKeys(sample)[j]
    {
      NormalizedForm(sample[j].key);
      ToLowerIdentity(SampleKeys(sample)[j]);
    }
  }

  /** One `forEach` of validateDataStructure: the names of `names` whose
      lower-case form is not among `others`, in order. */
  method Unmatched(names: seq<string>, others: seq<string>) returns (unmatched: seq<string>)
    requires forall i :: 0 <= i < |names| ==> ToLower(names[i]) == names[i]
    ensures unmatched == FilterOut(names, others)
  {
    unmatched := [];
    for i := 0 to |names|
      invariant unmatched == FilterOut(names[..i], others)
    {
      var name := names[i];
      if ToLower(name) !in others {
        unmatched := unmatched + [name];
      }
      assert names[..i + 1][..i] == names[..i];
    }
    assert names[..|names|] == names;
  }

  /** validateDataStructure(sample, sourceName), without its console output. */
  method ValidateDataStructure(sample: Record) returns (report: StructureReport)
    ensures report.missing == FilterOut(RequiredFields, SampleKeys(sample))
    ensures report.extra == FilterOut(SampleKeys(sample), RequiredFields)
    ensures report.valid <==> report.missing == []
  {
    var sampleKeys := SampleKeys(sample);
    RequiredFieldsAreLowerCase();
    var missing := Unmatched(RequiredFields, sampleKeys);
    SampleKeysAreLowerCase(sample);
    var extra := Unmatched(sampleKeys, RequiredFields);
    report := StructureReport(missing, extra, |missing| == 0);
  }

  // ---------------------------------------------------------------------
  // validateDataQuality

  /** One entry of the `issues` list (the source formats each as a message;
      `record` is the 1-based record number of the message). */
  datatype Issue =
    | EmptyValue(record: nat, key: string)
    | InvalidMonth(record: nat, month: string)
    | OutOfRange(record: nat, field: string, value: real, min: real, max: real)

  /** The counters of the `stats` object. */
  datatype Stats = Stats(totalRecords: nat, nullValues: nat, invalidDates: nat, outOfRangeValues: nat)

  /** What validateDataQuality returns. */
  datatype QualityReport = QualityReport(stats: Stats, issues: seq<Issue>, valid: bool)

  /** validateDataQuality returns a report, or throws a TypeError when a
      record's truthy `month` is not a string (`record.month.match` is not a
      function); `record` is the 1-based number of that record. */
  datatype QualityOutcome = Checked(report: QualityReport) | MonthTypeError(record: nat)

  /** `value === null || value === undefined || value === ''`. */
  predicate IsEmptyValue(v: Value) {
    v == Null || v == Undefined || v == Str("")
  }

  /** The empty-value issues of record number `n`, one per empty entry, in
      key order. */
  function EmptyIssues(n: nat, entries: Record): (issues: seq<Issue>)
    ensures forall i :: 0 <= i < |issues| ==> issues[i].EmptyValue? && issues[i].record == n
    decreases |entries|
  {
    if entries == [] then []
    else
      var last := |entries| - 1;
      EmptyIssues(n, entries[..last])
        + (if IsEmptyValue(entries[last].value) then [EmptyValue(n, entries[last].key)] else [])
  }

  /** A key is reported empty exactly when some entry with that key holds
      `null`, `undefined` or the empty string; non-required keys included. */
  lemma {:induction false} EmptyIssuesMeaning(n: nat, entries: Record)
    ensures forall key :: EmptyValue(n, key) in EmptyIssues(n, entries) <==>
      exists i :: 0 <= i < |entries| && entries[i].key == key && IsEmptyValue(entries[i].value)
    decreases |entries|
  {
    if entries != [] {
      var last := |entries| - 1;
      EmptyIssuesMeaning(n, entries[..last]);
      assert forall i :: 0 <= i < last ==> entries[..last][i] == entries[i];
    }
  }

  /** `/^\d{4}-\d{2}$/`: four digits, a dash, two digits, nothing else. No
      range of months is checked. */
  predicate IsMonthFormat(s: string) {
    |s| == 7 && IsDigit(s[0]) && IsDigit(s[1]) && IsDigit(s[2]) && IsDigit(s[3])
    && s[4] == '-' && IsDigit(s[5]) && IsDigit(s[6])
  }

  datatype MonthCheck = MonthAccepted | MonthMalformed(month: string) | MonthNotString

  /** The month test `record.month && !record.month.match(...)`. */
  function CheckMonth(v: Value): MonthCheck {
    if !Truthy(v) then MonthAccepted
    else match v
      case Str(s) => if IsMonthFormat(s) then MonthAccepted else MonthMalformed(s)
      case _ => MonthNotString
  }

  /** A non-empty string month is flagged exactly when it is not in the
      format; a truthy month of any other type throws. */
  lemma CheckMonthMeaning(v: Value)
    ensures CheckMonth(v).MonthMalformed? <==> v.Str? && v.s != "" && !IsMonthFormat(v.s)
    ensures CheckMonth(v).MonthMalformed? ==> CheckMonth(v).month == v.s
    ensures CheckMonth(v).MonthNotString? <==> Truthy(v) && !v.Str?
  {
  }

  /** The month format is checked, a month is not: "2024-13" passes, an
      empty month is left to the empty-value count, a short one is flagged
      and a numeric one throws. */
  lemma MonthExamples()
    ensures CheckMonth(Str("2024-01")) == MonthAccepted
    ensures CheckMonth(Str("2024-13")) == MonthAccepted
    ensures CheckMonth(Str("")) == MonthAccepted
    ensures CheckMonth(Undefined) == MonthAccepted
    ensures CheckMonth(Str("2024-1")) == MonthMalformed("2024-1")
    ensures CheckMonth(Str("2024-01 ")) == MonthMalformed("2024-01 ")
    ensures CheckMonth(Num(202401.0)) == MonthNotString
  {
  }

  /** One line of the `numericChecks` table. */
  datatype RangeCheck = RangeCheck(field: string, min: real, max: real)

  const NumericChecks: seq<RangeCheck> := [
    RangeCheck("adh", 0.0, 100.0), RangeCheck("qa_score", 0.0, 100.0),
    RangeCheck("tnps", -100.0, 100.0), RangeCheck("weighted_sph", 0.0, 1000.0),
    RangeCheck("email_sph", 0.0, 50.0), RangeCheck("phone_sph", 0.0, 50.0),
    RangeCheck("chat_sph", 0.0, 50.0), RangeCheck("call_refusals", 0.0, 100.0)]

  /** The issue one range check raises on a record, if any: only for a value
      that parses to a number strictly outside the bounds. */
  function RangeIssue(n: nat, r: Record, check: RangeCheck): (issues: seq<Issue>)
    ensures |issues| <= 1
  {
    match ParseFloat(Get(r, check.field))
    case Some(x) =>
      if x < check.min || x > check.max then [OutOfRange(n, check.field, x, check.min, check.max)] else []
    case None => []
  }

  /** A check raises an issue exactly when the field's value parses to a
      number strictly outside the bounds: the bounds themselves pass, and
      so does a value that does not parse. */
  lemma RangeIssueMeaning(n: nat, r: Record, check: RangeCheck)
    ensures var x := ParseFloat(Get(r, check.field));
      && (RangeIssue(n, r, check) != [] <==> x.Some? && (x.value < check.min || x.value > check.max))
      && (RangeIssue(n, r, check) != [] ==>
            RangeIssue(n, r, check) == [OutOfRange(n, check.field, x.value, check.min, check.max)])
  {
  }

  /** The range issues of record number `n` for `checks`, in table order. */
  function RangeIssues(n: nat, r: Record, checks: seq<RangeCheck>): (issues: seq<Issue>)
    ensures forall i :: 0 <= i < |issues| ==> issues[i].OutOfRange? && issues[i].record == n
    decreases |checks|
  {
    if checks == [] then []
    else
      var last := |checks| - 1;
      RangeIssues(n, r, checks[..last]) + RangeIssue(n, r, checks[last])
  }

  lemma RangeIssuesStep(n: nat, r: Record, checks: seq<RangeCheck>, c: nat)
    requires c < |checks|
    ensures RangeIssues(n, r, checks[..c + 1]) == RangeIssues(n, r, checks[..c]) + RangeIssue(n, r, checks[c])
  {
    assert checks[..c + 1][..c] == checks[..c];
  }

  /** The month issue of record number `n`, if any. */
  function MonthIssues(n: nat, r: Record): (issues: seq<Issue>)
    ensures forall i :: 0 <= i < |issues| ==> issues[i].InvalidMonth? && issues[i].record == n
  {
    match CheckMonth(Get(r, "month"))
    case MonthMalformed(s) => [InvalidMonth(n, s)]
    case _ => []
  }

  /** All issues of record number `n` in the order the scan raises them:
      empty values, then the month, then the ranges. */
  function RecordIssues(n: nat, r: Record, checks: seq<RangeCheck>): seq<Issue> {
    EmptyIssues(n, r) + MonthIssues(n, r) + RangeIssues(n, r, checks)
  }

  /** A record whose month makes the scan throw: a truthy month that is not
      a string, which CheckMonth reports as MonthNotString. */
  predicate BadMonth(r: Record) {
    var month := Get(r, "month");
    Truthy(month) && !month.Str?
  }

  /** The index of the first record whose month throws, if any. The scan
      visits the records in order, so this is where validateDataQuality
      throws, and the issues gathered before it are lost. */
  function FirstBadMonth(data: seq<Record>): (k: Option<nat>)
    ensures k.Some? ==> k.value < |data| && BadMonth(data[k.value])
    ensures k.Some? ==> forall j :: 0 <= j < k.value ==> !BadMonth(data[j])
    ensures k.None? ==> forall j :: 0 <= j < |data| ==> !BadMonth(data[j])
  {
    if data == [] then None
    else if BadMonth(data[0]) then Some(0)
    else match FirstBadMonth(data[1..])
      case None => None
      case Some(k) => Some(k + 1)
  }

  /** The issues of all records in order, record number `i + 1` for
      `data[i]`, with the range checks `checks`. */
  function AllIssues(data: seq<Record>, checks: seq<RangeCheck>): seq<Issue>
    decreases |data|
  {
    if data == [] then []
    else
      var last := |data| - 1;
      AllIssues(data[..last], checks) + RecordIssues(last + 1, data[last], checks)
  }

  /** BadMonth is the month test's throwing case. */
  lemma BadMonthThrows(r: Record)
    ensures BadMonth(r) <==> CheckMonth(Get(r, "month")) == MonthNotString
  {
    CheckMonthMeaning(Get(r, "month"));
  }

  /** One record past a prefix that does not throw: the longer prefix
      throws exactly when that record does, and then so does the batch,
      at that record. */
  lemma FirstBadMonthStep(data: seq<Record>, index: nat)
    requires index < |data| && FirstBadMonth(data[..index]).None?
    ensures FirstBadMonth(data[..index + 1]).None? <==> !BadMonth(data[index])
    ensures BadMonth(data[index]) ==> FirstBadMonth(data) == Some(index)
  {
    forall j | 0 <= j < index
      ensures !BadMonth(data[j])
    {
      assert data[..index][j] == data[j];
    }
    var next := data[..index + 1];
    forall j | 0 <= j <= index
      ensures next[j] == data[j]
    {
    }
    if BadMonth(data[index]) {
      FirstBadIs(next, index);
      FirstBadIs(data, index);
    } else {
      NoBadMonth(next);
    }
  }

  /** The first throwing record is the one no throwing record precedes. */
  lemma FirstBadIs(data: seq<Record>, index: nat)
    requires index < |data| && BadMonth(data[index])
    requires forall j :: 0 <= j < index ==> !BadMonth(data[j])
    ensures FirstBadMonth(data) == Some(index)
  {
  }

  /** A batch without a throwing record has no first one. */
  lemma NoBadMonth(data: seq<Record>)
    requires forall j :: 0 <= j < |data| ==> !BadMonth(data[j])
    ensures FirstBadMonth(data).None?
  {
  }

  /** One record more adds its issues. */
  lemma AllIssuesStep(data: seq<Record>, checks: seq<RangeCheck>, index: nat)
    requires index < |data|
    ensures AllIssues(data[..index + 1], checks) == AllIssues(data[..index], checks) + RecordIssues(index + 1, data[index], checks)
  {
    assert data[..index + 1][..index] == data[..index];
  }

  datatype IssueKind = EmptyKind | MonthKind | RangeKind

  function KindOf(issue: Issue): IssueKind {
    match issue
    case EmptyValue(_, _) => EmptyKind
    case InvalidMonth(_, _) => MonthKind
    case OutOfRange(_, _, _, _, _) => RangeKind
  }

  /** The number of issues of one kind. */
  function CountKind(issues: seq<Issue>, kind: IssueKind): nat
    decreases |issues|
  {
    if issues == [] then 0
    else
      var last := |issues| - 1;
      CountKind(issues[..last], kind) + (if KindOf(issues[last]) == kind then 1 else 0)
  }

  /** Appending one issue raises the count of its own kind by one. */
  lemma CountAppend(issues: seq<Issue>, x: Issue)
    ensures forall kind :: CountKind(issues + [x], kind) == CountKind(issues, kind) + (if KindOf(x) == kind then 1 else 0)
  {
    assert (issues + [x])[..|issues|] == issues;
  }

  /** The counters agree with the issue list. */
  predicate Tallies(stats: Stats, issues: seq<Issue>) {
    && stats.nullValues == CountKind(issues, EmptyKind)
    && stats.invalidDates == CountKind(issues, MonthKind)
    && stats.outOfRangeValues == CountKind(issues, RangeKind)
  }

  /** `issues.length < data.length * 0.1`: the tolerance counts issues, not
      records with issues. */
  function WithinTolerance(issueCount: nat, recordCount: nat): (ok: bool)
    ensures ok <==> 10 * issueCount < recordCount
  {
    (issueCount as real) < (recordCount as real) * 0.1
  }

  /** The result of validateDataQuality(data) with the range table
      `checks` (the source's is NumericChecks). */
  function DataQuality(data: seq<Record>, checks: seq<RangeCheck>): (q: QualityOutcome)
    ensures q.Checked? ==> q.report.stats.totalRecords == |data| && Tallies(q.report.stats, q.report.issues)
    ensures q.Checked? ==> (q.report.valid <==> 10 * |q.report.issues| < |data|)
  {
    match FirstBadMonth(data)
    case Some(k) => MonthTypeError(k + 1)
    case None =>
      var issues := AllIssues(data, checks);
      var stats := Stats(|data|, CountKind(issues, EmptyKind), CountKind(issues, MonthKind),
                         CountKind(issues, RangeKind));
      Checked(QualityReport(stats, issues, WithinTolerance(|issues|, |data|)))
  }

  /** validateDataQuality throws exactly when some record's month is truthy
      and not a string, and it names the first such record. */
  lemma QualityThrowsAtFirstBadMonth(data: seq<Record>, checks: seq<RangeCheck>)
    ensures DataQuality(data, checks).MonthTypeError? <==> exists i :: 0 <= i < |data| && BadMonth(data[i])
    ensures DataQuality(data, checks).MonthTypeError? ==>
      var k := DataQuality(data, checks).record;
      && 1 <= k <= |data| && BadMonth(data[k - 1])
      && forall j :: 0 <= j < k - 1 ==> !BadMonth(data[j])
  {
  }

  /** Every issue is counted by exactly one counter. */
  lemma {:induction false} CountsAddUp(issues: seq<Issue>)
    ensures |issues| == CountKind(issues, EmptyKind) + CountKind(issues, MonthKind) + CountKind(issues, RangeKind)
    decreases |issues|
  {
    if issues != [] {
      CountsAddUp(issues[..|issues| - 1]);
    }
  }

  /** The reported issue count is the sum of the three counters. */
  lemma IssueCountIsSumOfStats(data: seq<Record>)
    requires DataQuality(data, NumericChecks).Checked?
    ensures var r := DataQuality(data, NumericChecks).report;
      |r.issues| == r.stats.nullValues + r.stats.invalidDates + r.stats.outOfRangeValues
  {
    CountsAddUp(DataQuality(data, NumericChecks).report.issues);
  }

  /** The tolerance in figures: an empty batch is invalid, 100 records with
      10 issues are invalid and with 9 issues valid. */
  lemma ToleranceExamples()
    ensures DataQuality([], NumericChecks) == Checked(QualityReport(Stats(0, 0, 0, 0), [], false))
    ensures !WithinTolerance(10, 100) && WithinTolerance(9, 100)
  {
  }

  // The scan itself

  /** The first loop of a record: one empty-value issue per empty entry. */
  method CheckEmptyValues(n: nat, record: Record, stats0: Stats, issues0: seq<Issue>)
    returns (stats: Stats, issues: seq<Issue>)
    requires Tallies(stats0, issues0)
    ensures Tallies(stats, issues) && stats.totalRecords == stats0.totalRecords
    ensures issues == issues0 + EmptyIssues(n, record)
  {
    stats, issues := stats0, issues0;
    for k := 0 to |record|
      invariant Tallies(stats, issues) && stats.totalRecords == stats0.totalRecords
      invariant issues == issues0 + EmptyIssues(n, record[..k])
    {
      var entry := record[k];
      ghost var added := if IsEmptyValue(entry.value) then [EmptyValue(n, entry.key)] else [];
      if entry.value == Null || entry.value == Undefined || entry.value == Str("") {
        CountAppend(issues, EmptyValue(n, entry.key));
        stats := stats.(nullValues := stats.nullValues + 1);
        issues := issues + [EmptyValue(n, entry.key)];
      } else {
        assert issues + added == issues;
      }
      assert record[..k + 1][..k] == record[..k];
      assert EmptyIssues(n, record[..k + 1]) == EmptyIssues(n, record[..k]) + added;
      AppendAssociates(issues0, EmptyIssues(n, record[..k]), added);
    }
    assert record[..|record|] == record;
  }

  /** The third loop of a record: one issue per range check it fails. */
  method CheckRanges(n: nat, record: Record, checks: seq<RangeCheck>, stats0: Stats, issues0: seq<Issue>)
    returns (stats: Stats, issues: seq<Issue>)
    requires Tallies(stats0, issues0)
    ensures Tallies(stats, issues) && stats.totalRecords == stats0.totalRecords
    ensures issues == issues0 + RangeIssues(n, record, checks)
  {
    stats, issues := stats0, issues0;
    for c := 0 to |checks|
      invariant Tallies(stats, issues) && stats.totalRecords == stats0.totalRecords
      invariant issues == issues0 + RangeIssues(n, record, checks[..c])
    {
      stats, issues := CheckRange(n, record, checks[c], stats, issues);
      RangeIssuesStep(n, record, checks, c);
      AppendAssociates(issues0, RangeIssues(n, record, checks[..c]), RangeIssue(n, record, checks[c]));
    }
    assert checks[..|checks|] == checks;
  }

  /** One range check of the third loop. */
  method CheckRange(n: nat, record: Record, check: RangeCheck, stats0: Stats, issues0: seq<Issue>)
    returns (stats: Stats, issues: seq<Issue>)
    requires Tallies(stats0, issues0)
    ensures Tallies(stats, issues) && stats.totalRecords == stats0.totalRecords
    ensures issues == issues0 + RangeIssue(n, record, check)
  {
    stats, issues := stats0, issues0;
    var value := ParseFloat(Get(record, check.field));
    if value.Some? && (value.value < check.min || value.value > check.max) {
      var issue := OutOfRange(n, check.field, value.value, check.min, check.max);
      CountAppend(issues, issue);
      stats := stats.(outOfRangeValues := stats.outOfRangeValues + 1);
      issues := issues + [issue];
    } else {
      assert issues0 + RangeIssue(n, record, check) == issues0;
    }
  }

  /** The second step of a record: the month test, which throws for a
      truthy month that is not a string. */
  method CheckMonthField(n: nat, record: Record, stats0: Stats, issues0: seq<Issue>)
    returns (stats: Stats, issues: seq<Issue>, threw: bool)
    requires Tallies(stats0, issues0)
    ensures threw <==> BadMonth(record)
    ensures Tallies(stats, issues) && stats.totalRecords == stats0.totalRecords
    ensures issues == issues0 + MonthIssues(n, record)
  {
    stats, issues, threw := stats0, issues0, false;
    var month := Get(record, "month");
    if Truthy(month) {
      if !month.Str? {
        threw := true;
      } else if !IsMonthFormat(month.s) {
        var issue := InvalidMonth(n, month.s);
        CountAppend(issues, issue);
        stats := stats.(invalidDates := stats.invalidDates + 1);
        issues := issues + [issue];
      }
    }
  }

  /** The body of the record loop of validateDataQuality for record number
      `n`: its empty values, its month and its ranges, in that order. It
      reports `threw` when the month throws, before the ranges are checked. */
  method CheckRecord(n: nat, record: Record, checks: seq<RangeCheck>, stats0: Stats, issues0: seq<Issue>)
    returns (stats: Stats, issues: seq<Issue>, threw: bool)
    requires Tallies(stats0, issues0)
    ensures threw <==> BadMonth(record)
    ensures !threw ==> Tallies(stats, issues) && stats.totalRecords == stats0.totalRecords
    ensures !threw ==> issues == issues0 + RecordIssues(n, record, checks)
  {
    stats, issues := CheckEmptyValues(n, record, stats0, issues0);
    stats, issues, threw := CheckMonthField(n, record, stats, issues);
    if threw {
      return;
    }
    stats, issues := CheckRanges(n, record, checks, stats, issues);
    AppendAssociates(issues0, EmptyIssues(n, record), MonthIssues(n, record));
    AppendAssociates(issues0, EmptyIssues(n, record) + MonthIssues(n, record), RangeIssues(n, record, checks));
  }

  /** Appending two lists one by one appends their concatenation. */
  lemma AppendAssociates<T>(a: seq<T>, b: seq<T>, c: seq<T>)
    ensures a + b + c == a + (b + c)
  {
  }

  /** validateDataQuality(data), without its console output. */
  method ValidateDataQuality(data: seq<Record>) returns (outcome: QualityOutcome)
    ensures outcome == DataQuality(data, NumericChecks)
  {
    outcome := CheckBatch(data, NumericChecks);
  }

  /** The record loop of validateDataQuality with the range table `checks`:
      it stops at the first record whose month throws. */
  method CheckBatch(data: seq<Record>, checks: seq<RangeCheck>) returns (outcome: QualityOutcome)
    ensures outcome == DataQuality(data, checks)
  {
    var issues: seq<Issue> := [];
    var stats := Stats(|data|, 0, 0, 0);
    for index := 0 to |data|
      invariant FirstBadMonth(data[..index]).None?
      invariant issues == AllIssues(data[..index], checks)
      invariant Tallies(stats, issues) && stats.totalRecords == |data|
    {
      var threw;
      stats, issues, threw := CheckRecord(index + 1, data[index], checks, stats, issues);
      FirstBadMonthStep(data, index);
      if threw {
        return MonthTypeError(index + 1);
      }
      AllIssuesStep(data, checks, index);
    }
    assert data[..|data|] == data;
    outcome := Checked(QualityReport(stats, issues, (|issues| as real) < (|data| as real) * 0.1));
  }
}
