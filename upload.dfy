/** The client-streaming sample upload: the handler counts the samples as
    they arrive and numbers each one. It never answers the call. */
module WaterUpload {

  /** One uploaded sample, as the client parsed it from text. */
  datatype Sample = Sample(pHLevel: real, temperature: real, dissolvedOxygen: real)

  /** A sample as the handler takes it in, with the number it reports it under. */
  datatype Received = Received(number: nat, sample: Sample)

  /** The state of one `uploadWaterQualitySample` call. */
  class UploadSession {
    var sampleCount: nat
    var received: seq<Received>

    /** The count is the number of samples taken in, and the k-th sample
        (from 1) is reported as number k. */
    ghost predicate Valid()
      reads this
    {
      |received| == sampleCount &&
      forall i :: 0 <= i < |received| ==> received[i].number == i + 1
    }

    constructor ()
      ensures Valid() && sampleCount == 0 && received == []
    {
      sampleCount, received := 0, [];
    }

    /** The 'data' handler: pre-increments the count and reports the sample
        under the new count. */
    method OnData(sample: Sample)
      requires Valid()
      modifies this
      ensures Valid()
      ensures sampleCount == old(sampleCount) + 1
      ensures received == old(received) + [Received(sampleCount, sample)]
    {
      sampleCount := sampleCount + 1;
      received := received + [Received(sampleCount, sample)];
    }

    /** The 'end' handler only logs: the count is kept and no reply is sent. */
    method OnEnd()
      requires Valid()
      ensures sampleCount == old(sampleCount) && received == old(received)
    {
    }

    /** The 'error' handler only logs the error's message. */
    method OnError(message: string)
      requires Valid()
      ensures sampleCount == old(sampleCount) && received == old(received)
    {
    }
  }

  /** What the client side of an upload call can deliver. */
  datatype UploadEvent = Data(sample: Sample) | End | Error(message: string)

  /** The samples of the 'data' events, in arrival order. */
  function DataSamples(events: seq<UploadEvent>): (samples: seq<Sample>)
    ensures |samples| <= |events|
  {
    if events == [] then []
    else (if events[0].Data? then [events[0].sample] else []) + DataSamples(events[1..])
  }

  lemma {:induction false} DataSamplesSnoc(events: seq<UploadEvent>, e: UploadEvent)
    ensures DataSamples(events + [e]) == DataSamples(events) + (if e.Data? then [e.sample] else [])
  {
    if events != [] {
      assert (events + [e])[1..] == events[1..] + [e];
      DataSamplesSnoc(events[1..], e);
    }
  }

  /** One upload call driven by `events`: after n 'data' events the count is n,
      the k-th sample is reported as number k, and 'end' and 'error' events
      change nothing. */
  method UploadWaterQualitySample(events: seq<UploadEvent>) returns (sampleCount: nat, received: seq<Received>)
    ensures sampleCount == |DataSamples(events)|
    ensures |received| == sampleCount
    ensures forall k :: 0 <= k < |received| ==> received[k] == Received(k + 1, DataSamples(events)[k])
  {
    var session := new UploadSession();
    var i := 0;
    while i < |events|
      invariant 0 <= i <= |events|
      invariant session.Valid()
      invariant session.sampleCount == |DataSamples(events[..i])|
      invariant forall k :: 0 <= k < |session.received| ==> session.received[k].sample == DataSamples(events[..i])[k]
    {
      DataSamplesSnoc(events[..i], events[i]);
      assert events[..i + 1] == events[..i] + [events[i]];
      match events[i] {
        case Data(sample) => session.OnData(sample);
        case End => session.OnEnd();
        case Error(message) => session.OnError(message);
      }
      i := i + 1;
    }
    assert events[..i] == events;
    sampleCount, received := session.sampleCount, session.received;
  }

  /** Three samples then the client's end leave a count of three; an upload
      with no samples leaves a count of zero. */
  lemma CountsOfSmallUploads(s1: Sample, s2: Sample, s3: Sample)
    ensures |DataSamples([Data(s1), Data(s2), Data(s3), End])| == 3
    ensures |DataSamples([End])| == 0
  {
    var events := [Data(s1), Data(s2), Data(s3), End];
    assert events[1..] == [Data(s2), Data(s3), End];
    assert events[1..][1..] == [Data(s3), End];
    assert events[1..][1..][1..] == [End];
    assert DataSamples([End][1..]) == [];
    assert DataSamples(events[1..][1..][1..]) == [];
    assert DataSamples(events[1..][1..]) == [s3];
    assert DataSamples(events[1..]) == [s2, s3];
  }
}
