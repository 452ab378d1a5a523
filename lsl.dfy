/** The part of the data-distribution bus the streamer uses: stream
    descriptions, and an outlet that records every sample pushed to it. */
module Lsl {
  import opened Devices

  /** One `channel` child of a stream description; `name` is its `label` value. */
  datatype Channel = Channel(name: string, unit: string, kind: string)

  /** A `StreamInfo` with its `manufacturer` value and `channels` children. */
  datatype StreamInfo = StreamInfo(
    name: string,
    kind: string,
    channelCount: nat,
    nominalRate: nat,
    format: string,
    sourceId: string,
    manufacturer: string,
    channels: seq<Channel>)

  /** What one `push_sample` call sends: a list of values, or one element as it is. */
  datatype Sample<T> = Values(values: seq<T>) | Single(value: T)

  /** One `push_sample(sample)` (no timestamp: the outlet stamps it with its own
      clock) or `push_sample(sample, timestamp)`. */
  datatype Push<T> = Push(sample: Sample<T>, timestamp: Option<int>)

  /** A `StreamOutlet`: its description, its chunk size and the log of pushes. */
  class Outlet<T> {
    const info: StreamInfo
    const chunkSize: nat
    var pushes: seq<Push<T>>

    constructor (info: StreamInfo, chunkSize: nat)
      ensures this.info == info && this.chunkSize == chunkSize
      ensures pushes == []
    {
      this.info := info;
      this.chunkSize := chunkSize;
      pushes := [];
    }

    method PushSample(sample: Sample<T>, timestamp: Option<int>)
      modifies this
      ensures pushes == old(pushes) + [Push(sample, timestamp)]
    {
      pushes := pushes + [Push(sample, timestamp)];
    }
  }
}
