/** The job-metadata registry behind `slidesService`
    (backend/src/services/slides/index.ts): a map from a job id to the
    parameters and creation time of the job. */
module Service {
  import opened Protocol

  /** The path a client opens to subscribe to a job's events. */
  const StreamPath := "/ws/slides?slidesId="

  datatype StreamInfo = StreamInfo(params: StartParams, createdAt: int)

  datatype StartResult = StartResult(slidesId: string, stream: string)

  /** The stream address of a job: the subscription path with the id appended.
      The id is recovered from the address by dropping the fixed path, so two
      jobs never share an address. */
  function StreamUrl(slidesId: string): (url: string)
    ensures |url| == |StreamPath| + |slidesId|
    ensures url[..|StreamPath|] == StreamPath && url[|StreamPath|..] == slidesId
  {
    StreamPath + slidesId
  }

  lemma StreamUrlInjective(a: string, b: string)
    requires StreamUrl(a) == StreamUrl(b)
    ensures a == b
  {
    assert a == StreamUrl(a)[|StreamPath|..];
  }

  class SlidesService {
    var activeStreams: map<string, StreamInfo>

    constructor ()
      ensures activeStreams == map[]
    {
      activeStreams := map[];
    }

    /** `slidesService.start`: records the job under the fresh id `freshId` (the
        uuid) with its parameters and the time `now`, and answers with the id and
        its stream address. The parameters are not validated. The answer is a
        function of the fresh id alone. The part of the generation run that
        executes before `start` answers is modelled by
        `Generator.StartGeneration`. */
    method Start(params: StartParams, freshId: string, now: int) returns (r: StartResult)
      requires freshId !in activeStreams
      modifies this
      ensures r == StartResult(freshId, StreamUrl(freshId))
      ensures activeStreams == old(activeStreams)[freshId := StreamInfo(params, now)]
      ensures GetStreamInfo(freshId) == Some(StreamInfo(params, now))
    {
      var stream := StreamUrl(freshId);
      activeStreams := activeStreams[freshId := StreamInfo(params, now)];
      r := StartResult(freshId, stream);
    }

    /** `slidesService.getStreamInfo`: the record of a live job, nothing for an id
        never started or already cleaned up. */
    function GetStreamInfo(slidesId: string): (r: Option<StreamInfo>)
      reads this
      ensures r.Some? <==> slidesId in activeStreams
      ensures r.Some? ==> r.value == activeStreams[slidesId]
    {
      if slidesId in activeStreams then Some(activeStreams[slidesId]) else None
    }

    /** `slidesService.cleanup`: forgets `slidesId` and nothing else; idempotent,
        and a no-op on an unknown id. */
    method Cleanup(slidesId: string)
      modifies this
      ensures activeStreams == old(activeStreams) - {slidesId}
      ensures GetStreamInfo(slidesId) == None
      ensures slidesId !in old(activeStreams) ==> activeStreams == old(activeStreams)
    {
      activeStreams := activeStreams - {slidesId};
    }
  }
}
