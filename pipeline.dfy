/**
 * The `HealthcareETL` object: it holds the raw records once extracted and
 * the processed records once transformed, and each stage refuses to run
 * before the stage it depends on (the source raises `ValueError`; here the
 * stage returns a `Failure`).
 */
module Pipeline {
  import opened Wrappers
  import opened Records
  import opened Transform
  import opened Analytics
  import opened Extracts

  datatype StageError =
    | NoDataToTransform   // transform_data before extract_data
    | NoProcessedData     // analytics or extracts before transform_data
    | EmptyProcessedData  // the high-risk share divides by the row count

  datatype PipelineOutput = PipelineOutput(analytics: Metrics, extracts: TableauExtracts)

  class HealthcareETL {
    var rawData: Option<seq<RawRecord>>
    var processedData: Option<seq<Derived>>
    /** The raw records the processed data were last transformed from. */
    ghost var transformedFrom: seq<RawRecord>

    /**
     * Processed data only ever come from raw data: they are the transform of
     * the records extracted at the time, which a later extraction may have
     * replaced.
     */
    ghost predicate Valid()
      reads this
    {
      processedData.Some? ==> rawData.Some? && processedData.value == Transform.Transform(transformedFrom)
    }

    constructor ()
      ensures Valid()
      ensures rawData == None && processedData == None
    {
      rawData := None;
      processedData := None;
      transformedFrom := [];
    }

    /** Stores the extracted records; the records are a parameter here. */
    method ExtractData(records: seq<RawRecord>) returns (raw: seq<RawRecord>)
      requires Valid()
      modifies this`rawData
      ensures Valid()
      ensures rawData == Some(records) && raw == records
    {
      rawData := Some(records);
      raw := records;
    }

    /**
     * Fails without changing anything when nothing was extracted; otherwise
     * the processed data become the transform of the raw data, which stay
     * as they were.
     */
    method TransformData() returns (r: Result<seq<Derived>, StageError>)
      requires Valid()
      modifies this`processedData, this`transformedFrom
      ensures Valid()
      ensures old(rawData).None? <==> r.Failure?
      ensures r.Failure? ==> r.error == NoDataToTransform && processedData == old(processedData)
      ensures r.Success? ==> r.value == Transform.Transform(rawData.value) && processedData == Some(r.value)
      ensures r.Success? ==> transformedFrom == rawData.value
    {
      if rawData.None? {
        return Failure(NoDataToTransform);
      }
      var df := Transform.Transform(rawData.value);
      processedData := Some(df);
      transformedFrom := rawData.value;
      r := Success(df);
    }

    /**
     * The metrics of the processed data; fails when nothing was transformed
     * and when there are no rows (the high-risk share divides by zero).
     */
    method GenerateAnalytics() returns (r: Result<Metrics, StageError>)
      requires Valid()
      ensures processedData.None? ==> r == Failure(NoProcessedData)
      ensures processedData == Some([]) ==> r == Failure(EmptyProcessedData)
      ensures processedData.Some? && processedData.value != [] ==>
                r == Success(Summarize(processedData.value))
      ensures r.Success? ==> r.value.totalAdmissions == |transformedFrom| > 0
    {
      match processedData
      case None => r := Failure(NoProcessedData);
      case Some(df) =>
        if df == [] {
          r := Failure(EmptyProcessedData);
        } else {
          r := Success(Summarize(df));
        }
    }

    /** The three Tableau tables; fails when nothing was transformed. */
    method CreateTableauExtracts() returns (r: Result<TableauExtracts, StageError>)
      requires Valid()
      ensures processedData.None? <==> r.Failure?
      ensures r.Failure? ==> r.error == NoProcessedData
      ensures r.Success? ==> r.value == BuildExtracts(processedData.value)
      ensures r.Success? ==> r.value == BuildExtracts(Transform.Transform(transformedFrom))
    {
      match processedData
      case None => r := Failure(NoProcessedData);
      case Some(df) => r := Success(BuildExtracts(df));
    }

    /**
     * Extract, transform, analytics, extracts, in that order: whatever state
     * the object was in, it ends holding the records and their transform,
     * and the output is the metrics and tables of that transform; only an
     * empty record set fails.
     */
    method RunFullPipeline(records: seq<RawRecord>) returns (r: Result<PipelineOutput, StageError>)
      requires Valid()
      modifies this
      ensures Valid()
      ensures rawData == Some(records) && processedData == Some(Transform.Transform(records))
      ensures transformedFrom == records
      ensures r.Failure? <==> records == []
      ensures r.Failure? ==> r.error == EmptyProcessedData
      ensures r.Success? ==>
                r.value == PipelineOutput(Summarize(Transform.Transform(records)), BuildExtracts(Transform.Transform(records)))
    {
      var _ := ExtractData(records);
      var df := TransformData();
      assert df.Success?;
      var analytics := GenerateAnalytics();
      if analytics.Failure? {
        return Failure(analytics.error);
      }
      var extracts := CreateTableauExtracts();
      assert extracts.Success?;
      r := Success(PipelineOutput(analytics.value, extracts.value));
    }

    /**
     * Transforming twice over the same raw data gives the same records and
     * leaves the same processed data.
     */
    method TransformTwice() returns (first: Result<seq<Derived>, StageError>, second: Result<seq<Derived>, StageError>)
      requires Valid()
      modifies this`processedData, this`transformedFrom
      ensures Valid()
      ensures first == second
      ensures first.Success? <==> rawData.Some?
      ensures first.Success? ==> processedData == Some(first.value)
    {
      first := TransformData();
      second := TransformData();
    }
  }
}
