/**
 * The report pipeline (Pipeline.py): an ordered list of filters that
 * `execute` applies, one after the other, to a report changed in place.
 * A filter is a tag naming one of the two filters the file defines.
 */
module Pipelines {

  /** The two filters: `double_data` and `update_header`. */
  datatype Filter = DoubleData | UpdateHeader

  /** The contents of a report: its header text and its data list. */
  datatype ReportValue = ReportValue(header: string, data: seq<int>)

  const UpdatedHeader: string := "this is the updated report"
  const OriginalHeader: string := "this is the original report"

  /** Every element doubled (`[x*2 for x in data]`). */
  function Doubled(data: seq<int>): (r: seq<int>)
    ensures |r| == |data|
  {
    seq(|data|, k requires 0 <= k < |data| => data[k] * 2)
  }

  /** What one filter does to a report. */
  function ApplyFilter(f: Filter, r: ReportValue): (out: ReportValue)
    ensures f.DoubleData? ==>
              out.header == r.header && |out.data| == |r.data|
              && forall k :: 0 <= k < |r.data| ==> out.data[k] == 2 * r.data[k]
    ensures f.UpdateHeader? ==> out.header == UpdatedHeader && out.data == r.data
  {
    match f
    case DoubleData => r.(data := Doubled(r.data))
    case UpdateHeader => r.(header := UpdatedHeader)
  }

  /** The filters applied left to right: the last filter of the list is applied last. */
  function ApplyAll(fs: seq<Filter>, r: ReportValue): (out: ReportValue)
    ensures fs == [] ==> out == r
    ensures |out.data| == |r.data|
    ensures UpdateHeader in fs ==> out.header == UpdatedHeader
    ensures UpdateHeader !in fs ==> out.header == r.header
  {
    if fs == [] then r
    else ApplyFilter(fs[|fs| - 1], ApplyAll(fs[..|fs| - 1], r))
  }

  /** Running `a` then `b` is running `a + b`: execution is the composition of the filters in list order. */
  lemma {:induction false} ApplyAllAppend(a: seq<Filter>, b: seq<Filter>, r: ReportValue)
    ensures ApplyAll(a + b, r) == ApplyAll(b, ApplyAll(a, r))
    decreases |b|
  {
    if b == [] {
      assert a + b == a;
    } else {
      var init := b[..|b| - 1];
      assert (a + b)[..|a + b| - 1] == a + init;
      ApplyAllAppend(a, init, r);
    }
  }

  /** The first filter runs first, on the unchanged report, and each filter runs once. */
  lemma ApplyAllFirst(fs: seq<Filter>, r: ReportValue)
    requires fs != []
    ensures ApplyAll(fs, r) == ApplyAll(fs[1..], ApplyFilter(fs[0], r))
  {
    assert fs == [fs[0]] + fs[1..];
    ApplyAllAppend([fs[0]], fs[1..], r);
    assert [fs[0]][..0] == [];
  }

  /** No filters, no change. */
  lemma ApplyAllEmpty(r: ReportValue)
    ensures ApplyAll([], r) == r
  {
  }

  /** `double_data` keeps the header and the length, and doubles every element. */
  lemma DoubleDataEffect(r: ReportValue)
    ensures ApplyFilter(DoubleData, r).header == r.header
    ensures |ApplyFilter(DoubleData, r).data| == |r.data|
    ensures forall k :: 0 <= k < |r.data| ==> ApplyFilter(DoubleData, r).data[k] == 2 * r.data[k]
  {
  }

  /** `update_header` sets the fixed header, keeps the data, and is idempotent. */
  lemma UpdateHeaderEffect(r: ReportValue)
    ensures ApplyFilter(UpdateHeader, r).header == UpdatedHeader
    ensures ApplyFilter(UpdateHeader, r).data == r.data
    ensures ApplyFilter(UpdateHeader, ApplyFilter(UpdateHeader, r)) == ApplyFilter(UpdateHeader, r)
  {
  }

  /** The demonstration pipeline, were it executed on the demonstration report. */
  lemma DemoExecution()
    ensures ApplyAll([DoubleData, UpdateHeader], ReportValue(OriginalHeader, [1, 2, 3]))
            == ReportValue(UpdatedHeader, [2, 4, 6])
  {
    var fs := [DoubleData, UpdateHeader];
    assert fs[..1] == [DoubleData] && [DoubleData][..0] == [];
    assert Doubled([1, 2, 3]) == [2, 4, 6];
  }

  /** The report dictionary, whose two entries the filters reassign. */
  class Report {
    var header: string
    var data: seq<int>

    constructor(header: string, data: seq<int>)
      ensures this.header == header && this.data == data
    {
      this.header := header;
      this.data := data;
    }

    function Value(): ReportValue
      reads this
    {
      ReportValue(header, data)
    }

    /** double_data(report) */
    method DoubleData()
      modifies this
      ensures Value() == ApplyFilter(Filter.DoubleData, old(Value()))
    {
      data := Doubled(data);
    }

    /** update_header(report) */
    method UpdateHeader()
      modifies this
      ensures Value() == ApplyFilter(Filter.UpdateHeader, old(Value()))
    {
      header := UpdatedHeader;
    }
  }

  /** Calling the filter a tag names. */
  method RunFilter(f: Filter, report: Report)
    modifies report
    ensures report.Value() == ApplyFilter(f, old(report.Value()))
  {
    match f
    case DoubleData => report.DoubleData();
    case UpdateHeader => report.UpdateHeader();
  }

  class Pipeline {
    var filters: seq<Filter>

    /** A new pipeline has no filters. */
    constructor()
      ensures filters == []
    {
      filters := [];
    }

    /** add(fs): the given filters are appended, in their order. */
    method Add(fs: seq<Filter>)
      modifies this
      ensures filters == old(filters) + fs
    {
      filters := filters + fs;
    }

    /** execute(report): every filter, once each, in list order, on the same report. */
    method Execute(report: Report)
      modifies report
      ensures report.Value() == ApplyAll(filters, old(report.Value()))
    {
      for i := 0 to |filters|
        invariant report.Value() == ApplyAll(filters[..i], old(report.Value()))
      {
        assert filters[..i + 1][..i] == filters[..i];
        RunFilter(filters[i], report);
      }
      assert filters[..|filters|] == filters;
    }
  }

  /**
   * The module-level script: a pipeline holding [double_data, update_header]
   * and the demonstration report. The script never calls execute, so the
   * report it prints is the original one.
   */
  method DemoScript() returns (pipeline: Pipeline, report: Report)
    ensures fresh(pipeline) && fresh(report)
    ensures pipeline.filters == [DoubleData, UpdateHeader]
    ensures report.Value() == ReportValue(OriginalHeader, [1, 2, 3])
  {
    pipeline := new Pipeline();
    pipeline.Add([DoubleData, UpdateHeader]);
    report := new Report(OriginalHeader, [1, 2, 3]);
  }

  /** Executing the demonstration pipeline on the demonstration report. */
  method DemoRun() returns (header: string, data: seq<int>)
    ensures header == UpdatedHeader && data == [2, 4, 6]
  {
    var pipeline, report := DemoScript();
    pipeline.Execute(report);
    DemoExecution();
    header, data := report.header, report.data;
  }
}
