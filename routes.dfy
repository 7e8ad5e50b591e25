/**
 * The dataset-creation route: it names the backing store after the current
 * time and the dataset name, derives the persisted dataset row from the
 * request, commits the row, and only then hands DGL-KE specifications to
 * their loader, refusing every other specification. `CreateDatasetDispatching`
 * is the route its STIX test expects, which hands STIX specifications to the
 * STIX loader.
 */
module Routes {
  import opened Wrappers
  import opened Text
  import opened Models
  import opened Store
  import Dglke
  import StixRecords
  import StixLoader

  // ---------------------------------------------------------------------------
  // The backing-store path

  /** A `datetime` value as `datetime.now()` returns it; the clock itself is an input. */
  datatype DateTime = DateTime(year: nat, month: nat, day: nat, hour: nat, minute: nat, second: nat, microsecond: nat)

  predicate ValidDateTime(t: DateTime)
  {
    && 1 <= t.year <= 9999 && 1 <= t.month <= 12 && 1 <= t.day <= 31
    && t.hour < 24 && t.minute < 60 && t.second < 60 && t.microsecond < 1000000
  }

  /** `YYYY-MM-DD`. */
  function DateString(t: DateTime): string
  {
    ZeroPad(t.year, 4) + "-" + ZeroPad(t.month, 2) + "-" + ZeroPad(t.day, 2)
  }

  /** `.ffffff`, or nothing when the microseconds are zero. */
  function Fraction(t: DateTime): string
  {
    if t.microsecond == 0 then "" else "." + ZeroPad(t.microsecond, 6)
  }

  /** `HH:MM:SS` followed by the fraction. */
  function TimeString(t: DateTime): string
  {
    ZeroPad(t.hour, 2) + ":" + ZeroPad(t.minute, 2) + ":" + ZeroPad(t.second, 2) + Fraction(t)
  }

  /** `str(datetime)`: the date and the time separated by one space. */
  function DateTimeString(t: DateTime): string
  {
    DateString(t) + " " + TimeString(t)
  }

  /** `get_timestamp_str()` at the instant `now`: `str(now)` with every space replaced by `_`. */
  function TimestampStr(now: DateTime): (r: string)
    ensures |r| == |DateTimeString(now)|
    ensures ' ' !in r
  {
    ReplaceChar(DateTimeString(now), ' ', '_')
  }

  /** `f"{get_timestamp_str()}_{dataset_create.name}"`. */
  function KuzuPath(now: DateTime, name: string): (r: string)
    ensures |r| == |TimestampStr(now)| + 1 + |name|
    ensures r[..|TimestampStr(now)|] == TimestampStr(now) && r[|TimestampStr(now)|] == '_'
    ensures r[|r| - |name|..] == name
  {
    TimestampStr(now) + "_" + name
  }

  /** Equal concatenations with equally long heads have equal heads and equal tails. */
  lemma SplitConcat<T>(a1: seq<T>, b1: seq<T>, a2: seq<T>, b2: seq<T>)
    requires a1 + b1 == a2 + b2 && |a1| == |a2|
    ensures a1 == a2 && b1 == b2
  {
    assert a1 == (a1 + b1)[..|a1|] && a2 == (a2 + b2)[..|a2|];
    assert b1 == (a1 + b1)[|a1|..] && b2 == (a2 + b2)[|a2|..];
  }

  /** A string of digits and the given separators holds no space and no `_`. */
  predicate PlainText(s: string)
  {
    forall i :: 0 <= i < |s| ==> IsDigit(s[i]) || s[i] == '-' || s[i] == ':' || s[i] == '.'
  }

  lemma PlainConcat(a: string, b: string)
    requires PlainText(a) && PlainText(b)
    ensures PlainText(a + b)
  {
    forall i | 0 <= i < |a + b| ensures IsDigit((a + b)[i]) || (a + b)[i] in "-:." {
      if i >= |a| { assert (a + b)[i] == b[i - |a|]; }
    }
  }

  /** On a valid instant the date is 10 characters, the time 8 or 15, and neither holds a space or `_`. */
  lemma FieldWidths(t: DateTime)
    requires ValidDateTime(t)
    ensures |DateString(t)| == 10 && PlainText(DateString(t))
    ensures |TimeString(t)| == (if t.microsecond == 0 then 8 else 15) && PlainText(TimeString(t))
  {
    ZeroPadFixedWidth(t.year, t.year, 4);
    ZeroPadFixedWidth(t.month, t.month, 2);
    ZeroPadFixedWidth(t.day, t.day, 2);
    ZeroPadFixedWidth(t.hour, t.hour, 2);
    ZeroPadFixedWidth(t.minute, t.minute, 2);
    ZeroPadFixedWidth(t.second, t.second, 2);
    ZeroPadFixedWidth(t.microsecond, t.microsecond, 6);
    PlainConcat(ZeroPad(t.year, 4), "-");
    PlainConcat(ZeroPad(t.year, 4) + "-", ZeroPad(t.month, 2));
    PlainConcat(ZeroPad(t.year, 4) + "-" + ZeroPad(t.month, 2), "-");
    PlainConcat(ZeroPad(t.year, 4) + "-" + ZeroPad(t.month, 2) + "-", ZeroPad(t.day, 2));
    PlainConcat(ZeroPad(t.hour, 2), ":");
    PlainConcat(ZeroPad(t.hour, 2) + ":", ZeroPad(t.minute, 2));
    PlainConcat(ZeroPad(t.hour, 2) + ":" + ZeroPad(t.minute, 2), ":");
    PlainConcat(ZeroPad(t.hour, 2) + ":" + ZeroPad(t.minute, 2) + ":", ZeroPad(t.second, 2));
    if t.microsecond != 0 {
      PlainConcat(".", ZeroPad(t.microsecond, 6));
    }
    PlainConcat(ZeroPad(t.hour, 2) + ":" + ZeroPad(t.minute, 2) + ":" + ZeroPad(t.second, 2), Fraction(t));
  }

  /** Replacing a character that does not occur changes nothing. */
  lemma ReplaceAbsent(s: string, a: char, b: char)
    requires a !in s
    ensures ReplaceChar(s, a, b) == s
  {
    var r := ReplaceChar(s, a, b);
    forall i | 0 <= i < |s| ensures r[i] == s[i] {
      assert s[i] in s;
    }
  }

  /**
   * The timestamp holds no space; on a valid instant the only character the
   * replacement touches is the separator between date and time, and the
   * timestamp is 19 characters, or 26 when the microseconds are not zero.
   */
  lemma TimestampShape(now: DateTime)
    ensures ' ' !in TimestampStr(now)
    ensures ValidDateTime(now) ==>
              && TimestampStr(now) == DateString(now) + "_" + TimeString(now)
              && |TimestampStr(now)| == (if now.microsecond == 0 then 19 else 26)
  {
    var r := TimestampStr(now);
    forall i | 0 <= i < |r| ensures r[i] != ' ' {
    }
    if ValidDateTime(now) {
      FieldWidths(now);
      var date, time := DateString(now), TimeString(now);
      ReplaceConcat(date + " ", time, ' ', '_');
      ReplaceConcat(date, " ", ' ', '_');
      ReplaceAbsent(date, ' ', '_');
      ReplaceAbsent(time, ' ', '_');
      assert ReplaceChar(" ", ' ', '_') == "_";
    }
  }

  /** Distinct valid instants give distinct timestamps. */
  lemma TimestampInjective(t1: DateTime, t2: DateTime)
    requires ValidDateTime(t1) && ValidDateTime(t2)
    requires TimestampStr(t1) == TimestampStr(t2)
    ensures t1 == t2
  {
    TimestampShape(t1);
    TimestampShape(t2);
    FieldWidths(t1);
    FieldWidths(t2);
    SplitConcat(DateString(t1) + "_", TimeString(t1), DateString(t2) + "_", TimeString(t2));
    SplitConcat(DateString(t1), "_", DateString(t2), "_");
    DateInjective(t1, t2);
    TimeInjective(t1, t2);
  }

  lemma DateInjective(t1: DateTime, t2: DateTime)
    requires ValidDateTime(t1) && ValidDateTime(t2)
    requires DateString(t1) == DateString(t2)
    ensures t1.year == t2.year && t1.month == t2.month && t1.day == t2.day
  {
    ZeroPadFixedWidth(t1.year, t2.year, 4);
    ZeroPadFixedWidth(t1.month, t2.month, 2);
    ZeroPadFixedWidth(t1.day, t2.day, 2);
    var y1, m1, d1 := ZeroPad(t1.year, 4), ZeroPad(t1.month, 2), ZeroPad(t1.day, 2);
    var y2, m2, d2 := ZeroPad(t2.year, 4), ZeroPad(t2.month, 2), ZeroPad(t2.day, 2);
    SplitConcat(y1 + "-" + m1 + "-", d1, y2 + "-" + m2 + "-", d2);
    SplitConcat(y1 + "-" + m1, "-", y2 + "-" + m2, "-");
    SplitConcat(y1 + "-", m1, y2 + "-", m2);
    SplitConcat(y1, "-", y2, "-");
  }

  lemma TimeInjective(t1: DateTime, t2: DateTime)
    requires ValidDateTime(t1) && ValidDateTime(t2)
    requires TimeString(t1) == TimeString(t2)
    ensures t1.hour == t2.hour && t1.minute == t2.minute && t1.second == t2.second
    ensures t1.microsecond == t2.microsecond
  {
    FieldWidths(t1);
    FieldWidths(t2);
    ZeroPadFixedWidth(t1.hour, t2.hour, 2);
    ZeroPadFixedWidth(t1.minute, t2.minute, 2);
    ZeroPadFixedWidth(t1.second, t2.second, 2);
    ZeroPadFixedWidth(t1.microsecond, t2.microsecond, 6);
    var h1, n1, s1 := ZeroPad(t1.hour, 2), ZeroPad(t1.minute, 2), ZeroPad(t1.second, 2);
    var h2, n2, s2 := ZeroPad(t2.hour, 2), ZeroPad(t2.minute, 2), ZeroPad(t2.second, 2);
    SplitConcat(h1 + ":" + n1 + ":" + s1, Fraction(t1), h2 + ":" + n2 + ":" + s2, Fraction(t2));
    SplitConcat(h1 + ":" + n1 + ":", s1, h2 + ":" + n2 + ":", s2);
    SplitConcat(h1 + ":" + n1, ":", h2 + ":" + n2, ":");
    SplitConcat(h1 + ":", n1, h2 + ":", n2);
    SplitConcat(h1, ":", h2, ":");
    if t1.microsecond != 0 {
      SplitConcat(".", ZeroPad(t1.microsecond, 6), ".", ZeroPad(t2.microsecond, 6));
    }
  }

  /** Character 19 of the path is the `_` before the name, or the `.` of a fraction. */
  lemma PathSeparator(t: DateTime, name: string)
    requires ValidDateTime(t)
    ensures |KuzuPath(t, name)| > 19
    ensures KuzuPath(t, name)[19] == if t.microsecond == 0 then '_' else '.'
  {
    TimestampShape(t);
    FieldWidths(t);
    var date, time := DateString(t), TimeString(t);
    var p := KuzuPath(t, name);
    assert p == date + "_" + time + "_" + name;
    if t.microsecond == 0 {
      assert p[19] == (date + "_" + time + "_")[19];
    } else {
      var hms := ZeroPad(t.hour, 2) + ":" + ZeroPad(t.minute, 2) + ":" + ZeroPad(t.second, 2);
      assert time == hms + ("." + ZeroPad(t.microsecond, 6));
      assert |hms| == 8;
      assert time[8] == '.';
      assert p[19] == (date + "_" + time)[19] == time[8];
    }
  }

  /**
   * The store path determines both the instant and the dataset name: two
   * requests get the same path only with the same name at the same
   * microsecond.
   */
  lemma KuzuPathInjective(t1: DateTime, name1: string, t2: DateTime, name2: string)
    requires ValidDateTime(t1) && ValidDateTime(t2)
    requires KuzuPath(t1, name1) == KuzuPath(t2, name2)
    ensures t1 == t2 && name1 == name2
  {
    TimestampShape(t1);
    TimestampShape(t2);
    PathSeparator(t1, name1);
    PathSeparator(t2, name2);
    assert |TimestampStr(t1)| == |TimestampStr(t2)|;
    SplitConcat(TimestampStr(t1) + "_", name1, TimestampStr(t2) + "_", name2);
    SplitConcat(TimestampStr(t1), "_", TimestampStr(t2), "_");
    TimestampInjective(t1, t2);
  }

  // ---------------------------------------------------------------------------
  // The dataset row

  /** `str(type(specifications))`. */
  function SpecificationsClass(s: Specifications): (r: string)
    ensures |r| > 19 && r[..19] == "<class 'app.models."
    ensures r[19] == if s.Dglke? then 'D' else 'S'
  {
    match s
    case Dglke(_) => "<class 'app.models.DglkeDatasetSpecifications'>"
    case Stix(_) => "<class 'app.models.StixDatasetSpecifications'>"
  }

  /** The recorded class names the variant of the specification. */
  lemma SpecificationsClassNamesVariant(a: Specifications, b: Specifications)
    ensures SpecificationsClass(a) == SpecificationsClass(b) <==> a.Dglke? == b.Dglke?
  {
    if a.Dglke? != b.Dglke? {
      assert SpecificationsClass(a)[19] != SpecificationsClass(b)[19];
    }
  }

  /** `sampling.ratio if sampling and isinstance(sampling, DatasetRatioSampling) else None`. */
  function SamplingRatio(s: Option<DatasetSampling>): Option<real>
  {
    if s.Some? && s.value.DatasetRatioSampling? then Some(s.value.ratio) else None
  }

  /** `sampling.count if sampling and isinstance(sampling, DatasetCountSampling) else None`. */
  function SamplingCount(s: Option<DatasetSampling>): Option<int>
  {
    if s.Some? && s.value.DatasetCountSampling? then Some(s.value.count) else None
  }

  /**
   * The row `Dataset.model_validate(dataset_create, update=...)` builds.
   * `dumpJson` stands for `model_dump_json`.
   */
  function DeriveDataset(c: DatasetCreate, ownerId: int, now: DateTime, dumpJson: Specifications -> string): (r: Dataset)
    ensures r.name == c.name && r.ownerId == ownerId
    ensures r.kuzuPath == KuzuPath(now, c.name)
    ensures ValidDatasetCreate(c) ==> ValidDataset(r)
    ensures SamplingOf(r) == c.sampling
  {
    Dataset(
      c.name,
      KuzuPath(now, c.name),
      ownerId,
      SpecificationsClass(c.specifications),
      dumpJson(c.specifications),
      SamplingRatio(c.sampling),
      SamplingCount(c.sampling))
  }

  /** The request's sampling policy, read back from the row's two fields. */
  function SamplingOf(d: Dataset): Option<DatasetSampling>
  {
    if d.samplingRatio.Some? then Some(DatasetRatioSampling(d.samplingRatio.value))
    else if d.samplingCount.Some? then Some(DatasetCountSampling(d.samplingCount.value))
    else None
  }

  /**
   * The row's `sampling_ratio` is set iff the request samples by ratio, and
   * then holds that ratio; likewise `sampling_count` for count sampling; so
   * at most one is set, and neither when the request does not sample.
   */
  lemma DerivedSampling(c: DatasetCreate, ownerId: int, now: DateTime, dumpJson: Specifications -> string)
    ensures var d := DeriveDataset(c, ownerId, now, dumpJson);
            && (d.samplingRatio.Some? <==> c.sampling.Some? && c.sampling.value.DatasetRatioSampling?)
            && (d.samplingRatio.Some? ==> d.samplingRatio.value == c.sampling.value.ratio)
            && (d.samplingCount.Some? <==> c.sampling.Some? && c.sampling.value.DatasetCountSampling?)
            && (d.samplingCount.Some? ==> d.samplingCount.value == c.sampling.value.count)
            && !(d.samplingRatio.Some? && d.samplingCount.Some?)
            && (SamplingRequested(d) <==> c.sampling.Some?)
  {
  }

  /**
   * The row keeps the request's name and a valid request yields a valid row;
   * the sampling policy can be read back from the row, and a row with at
   * most one sampling field set is what its read-back policy derives.
   */
  lemma DerivedRoundTrip(c: DatasetCreate, ownerId: int, now: DateTime, dumpJson: Specifications -> string, d: Dataset)
    ensures var r := DeriveDataset(c, ownerId, now, dumpJson);
            && r.name == c.name
            && (ValidDatasetCreate(c) ==> ValidDataset(r))
            && SamplingOf(r) == c.sampling
    ensures !(d.samplingRatio.Some? && d.samplingCount.Some?) ==>
              SamplingRatio(SamplingOf(d)) == d.samplingRatio && SamplingCount(SamplingOf(d)) == d.samplingCount
  {
  }

  // ---------------------------------------------------------------------------
  // The route

  /** The metadata database session: the dataset rows committed so far. */
  class Session {
    var committed: seq<Dataset>

    constructor ()
      ensures committed == []
    {
      committed := [];
    }

    /** `session.add(dataset)`, `session.commit()`, `session.refresh(dataset)`. */
    method Commit(d: Dataset)
      modifies this
      ensures committed == old(committed) + [d]
    {
      committed := committed + [d];
    }
  }

  /** Why the route raises. */
  datatype RouteError =
    | NotSupported               // ValueError("Specifications not supported")
    | IngestFailed(error: IngestError)

  /**
   * `create_dataset`: the row is committed first, whatever follows; DGL-KE
   * specifications then run the DGL-KE loader against `conn` (the inputs
   * after `dumpJson` are the loader's own, see `Dglke.Plan`), and a STIX
   * specification raises without issuing any statement.
   */
  method CreateDataset(session: Session, conn: Connection, c: DatasetCreate, ownerId: int, now: DateTime,
                       dumpJson: Specifications -> string, kg: Dglke.KgData, slugify: string -> string,
                       perm: seq<nat>, fracSize: nat, pathIsDir: bool)
    returns (r: Result<Dataset, RouteError>)
    requires c.specifications.Dglke? ==>
               Dglke.WellFormed(kg) && Dglke.SamplerInputs(DeriveDataset(c, ownerId, now, dumpJson), kg, perm, fracSize)
    modifies session, conn
    ensures session.committed == old(session.committed) + [DeriveDataset(c, ownerId, now, dumpJson)]
    ensures c.specifications.Stix? ==> conn.log == old(conn.log) && r == Failure(NotSupported)
    ensures c.specifications.Dglke? ==>
              var d := DeriveDataset(c, ownerId, now, dumpJson);
              var run := Dglke.Plan(d, c.specifications.dglke, kg, slugify, perm, fracSize, pathIsDir);
              && conn.log == old(conn.log) + run.statements
              && r == (if run.status == Done then Success(d) else Failure(IngestFailed(run.status.error)))
  {
    var dataset := DeriveDataset(c, ownerId, now, dumpJson);
    session.Commit(dataset);
    if c.specifications.Dglke? {
      var status := Dglke.Instantiate(conn, dataset, c.specifications.dglke, kg, slugify, perm, fracSize, pathIsDir);
      if status.Aborted? {
        return Failure(IngestFailed(status.error));
      }
      return Success(dataset);
    } else {
      return Failure(NotSupported);
    }
  }

  /**
   * `create_dataset` as its STIX test expects it: a STIX specification is
   * handed to the STIX loader (the one with the intended key list, see
   * `StixLoader.CorrectedPlan`) instead of being refused. `catalog` and
   * `objs` stand for the stix2 class registry and the parse of the
   * specification's file content; `perm` and `fracSize` are the sampler's
   * draw for whichever loader runs.
   */
  method CreateDatasetDispatching(session: Session, conn: Connection, c: DatasetCreate, ownerId: int, now: DateTime,
                                  dumpJson: Specifications -> string, kg: Dglke.KgData, slugify: string -> string,
                                  catalog: StixRecords.Catalog, objs: seq<StixRecords.StixObject>,
                                  perm: seq<nat>, fracSize: nat, pathIsDir: bool)
    returns (r: Result<Dataset, RouteError>)
    requires c.specifications.Dglke? ==>
               Dglke.WellFormed(kg) && Dglke.SamplerInputs(DeriveDataset(c, ownerId, now, dumpJson), kg, perm, fracSize)
    requires c.specifications.Stix? ==>
               && StixRecords.Bundle(catalog, objs)
               && StixLoader.SamplerInputs(DeriveDataset(c, ownerId, now, dumpJson),
                                           |StixRecords.NodeRecords(catalog, objs)|, perm, fracSize)
    modifies session, conn
    ensures session.committed == old(session.committed) + [DeriveDataset(c, ownerId, now, dumpJson)]
    ensures c.specifications.Dglke? ==>
              var d := DeriveDataset(c, ownerId, now, dumpJson);
              var run := Dglke.Plan(d, c.specifications.dglke, kg, slugify, perm, fracSize, pathIsDir);
              && conn.log == old(conn.log) + run.statements
              && r == (if run.status == Done then Success(d) else Failure(IngestFailed(run.status.error)))
    ensures c.specifications.Stix? ==>
              var d := DeriveDataset(c, ownerId, now, dumpJson);
              var run := StixLoader.CorrectedPlan(catalog, objs, d, perm, fracSize, pathIsDir);
              && conn.log == old(conn.log) + run.statements
              && r == (if run.status == Done then Success(d) else Failure(IngestFailed(run.status.error)))
  {
    var dataset := DeriveDataset(c, ownerId, now, dumpJson);
    session.Commit(dataset);
    var status;
    if c.specifications.Dglke? {
      status := Dglke.Instantiate(conn, dataset, c.specifications.dglke, kg, slugify, perm, fracSize, pathIsDir);
    } else {
      status := StixLoader.InstantiateKeepingRetained(conn, catalog, objs, dataset, perm, fracSize, pathIsDir);
    }
    if status.Aborted? {
      return Failure(IngestFailed(status.error));
    }
    return Success(dataset);
  }

  /**
   * A STIX request without sampling, on a fresh path, whose bundle holds at
   * least one node object: `CreateDataset` refuses it with `NotSupported`,
   * while the dispatching route's STIX run completes, so that route answers
   * with the committed row.
   */
  lemma StixRequestAccepted(c: DatasetCreate, ownerId: int, now: DateTime, dumpJson: Specifications -> string,
                            catalog: StixRecords.Catalog, objs: seq<StixRecords.StixObject>, perm: seq<nat>, fracSize: nat)
    requires c.specifications.Stix? && c.sampling.None?
    requires StixRecords.Bundle(catalog, objs) && StixRecords.NodeObjects(objs) != []
    requires StixLoader.SamplerInputs(DeriveDataset(c, ownerId, now, dumpJson),
                                      |StixRecords.NodeRecords(catalog, objs)|, perm, fracSize)
    ensures var d := DeriveDataset(c, ownerId, now, dumpJson);
            StixLoader.CorrectedPlan(catalog, objs, d, perm, fracSize, false).status == Done
  {
    var d := DeriveDataset(c, ownerId, now, dumpJson);
    DerivedSampling(c, ownerId, now, dumpJson);
    StixLoader.UnsampledCorrectedPlan(catalog, objs, d, perm, fracSize);
  }
}
