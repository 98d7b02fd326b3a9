/**
  The channel registry: the module-level list `channels` (grabber.py:12), which
  the three resolvers append to (lines 105, 130, 154) and `build_xml_tv` reads
  once at the end of the run (line 194).
*/
module Registry {

  /**
    One appended tuple `(channel_name, channel_id, category, stream_title,
    stream_desc, stream_image_url)`: the first three come from the configuration,
    the last three from the platform page.
  */
  datatype ChannelRecord = ChannelRecord(
    name: string,
    id: string,
    category: string,
    title: string,
    description: string,
    imageUrl: string)

  /** The shared list. It only ever grows. */
  class Channels {
    var records: seq<ChannelRecord>

    constructor ()
      ensures records == []
    {
      records := [];
    }

    /** `channels.append(record)`. */
    method Append(record: ChannelRecord)
      modifies this
      ensures records == old(records) + [record]
    {
      records := records + [record];
    }
  }
}
