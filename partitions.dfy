/** Partitions of a topic: how a partition is created (its identity, paths,
    optional message deduplicator, initial counters and optional first
    segment) and how a consumer's offset record names its file. */
module Partitions {
  import opened Base
  import opened Deduplication

  /** A point in time, in microseconds since the Unix epoch. */
  type Timestamp = uint64

  /** How long the messages of a partition are kept. */
  datatype IggyExpiry = ServerDefault | ExpireDuration(duration: Duration) | NeverExpire

  datatype ConsumerKind = Consumer | ConsumerGroup

  /** The stored offset of one consumer (or consumer group) and the file it is kept in. */
  datatype ConsumerOffset = ConsumerOffset(kind: ConsumerKind, consumerId: uint32, offset: uint64, path: string)

  predicate IsDigit(c: char)
  {
    '0' <= c <= '9'
  }

  function DigitChar(d: nat): (c: char)
    requires d < 10
    ensures IsDigit(c) && c as int - '0' as int == d
  {
    ('0' as int + d) as char
  }

  /** The decimal form of `n`, as Rust's `Display` writes an unsigned integer:
      digits only, with no leading zero unless `n` is 0. */
  function Decimal(n: nat): (s: string)
    ensures |s| > 0
    ensures forall i :: 0 <= i < |s| ==> IsDigit(s[i])
    ensures s[0] == '0' ==> n == 0 && s == "0"
    decreases n
  {
    if n < 10 then [DigitChar(n)] else Decimal(n / 10) + [DigitChar(n % 10)]
  }

  /** The number a string of decimal digits denotes. */
  function ParseDecimal(s: string): nat
    decreases |s|
  {
    if s == [] then 0
    else
      var last := s[|s| - 1];
      ParseDecimal(s[..|s| - 1]) * 10 + (if IsDigit(last) then last as int - '0' as int else 0)
  }

  /** Reading back the decimal form of `n` gives `n`. */
  lemma {:induction false} ParseDecimalOfDecimal(n: nat)
    ensures ParseDecimal(Decimal(n)) == n
    decreases n
  {
    if n >= 10 {
      var s := Decimal(n);
      assert s[..|s| - 1] == Decimal(n / 10);
      ParseDecimalOfDecimal(n / 10);
    }
  }

  /** `ConsumerOffset::new`: the record keeps its kind, consumer ID and offset,
      and its path is `path`, a slash, then the canonical decimal form of the
      consumer ID; the part after the slash is all digits (so the slash is the
      last one) and reads back as the consumer ID. */
  function NewConsumerOffset(kind: ConsumerKind, consumerId: uint32, offset: uint64, path: string): (r: ConsumerOffset)
    ensures r.kind == kind && r.consumerId == consumerId && r.offset == offset
    ensures r.path == path + "/" + Decimal(consumerId)
    ensures |r.path| > |path| + 1 && r.path[..|path|] == path && r.path[|path|] == '/'
    ensures forall i :: |path| < i < |r.path| ==> IsDigit(r.path[i])
    ensures ParseDecimal(r.path[|path| + 1..]) == consumerId
  {
    var name := Decimal(consumerId);
    ParseDecimalOfDecimal(consumerId);
    assert (path + "/" + name)[|path| + 1..] == name;
    ConsumerOffset(kind, consumerId, offset, path + "/" + name)
  }

  /** Two consumers of the same kind under the same directory never share a file. */
  lemma ConsumerOffsetPathsDistinct(kind: ConsumerKind, id1: uint32, id2: uint32, offset1: uint64, offset2: uint64, path: string)
    requires id1 != id2
    ensures NewConsumerOffset(kind, id1, offset1, path).path != NewConsumerOffset(kind, id2, offset2, path).path
  {
  }

  /** The message deduplication section of the server configuration. */
  datatype MessageDeduplicationConfig = MessageDeduplicationConfig(enabled: bool, maxEntries: uint64, expiry: Duration)

  /** The capacity bound and time to live a deduplicator is built with. */
  datatype DeduplicatorSettings = DeduplicatorSettings(maxEntries: Option<uint64>, ttl: Option<Duration>)

  /** Whether a partition gets a deduplicator, and with which settings: none
      when deduplication is disabled; otherwise a capacity bound unless
      `maxEntries` is 0 and a time to live unless the expiry is zero. */
  function DeduplicatorSettingsOf(config: MessageDeduplicationConfig): (r: Option<DeduplicatorSettings>)
    ensures r.Some? <==> config.enabled
    ensures r.Some? ==> (r.value.maxEntries.None? <==> config.maxEntries == 0)
    ensures r.Some? && r.value.maxEntries.Some? ==> r.value.maxEntries.value == config.maxEntries
    ensures r.Some? ==> (r.value.ttl.None? <==> config.expiry == 0)
    ensures r.Some? && r.value.ttl.Some? ==> r.value.ttl.value == config.expiry
  {
    match config.enabled
    case true =>
      Some(DeduplicatorSettings(
        if config.maxEntries > 0 then Some(config.maxEntries) else None,
        if config.expiry == 0 then None else Some(config.expiry)))
    case false => None
  }

  /** The directories of one partition, as the configuration's path helpers give them. */
  datatype PartitionPaths = PartitionPaths(
    partition: string,
    offsets: string,
    consumerOffsets: string,
    consumerGroupOffsets: string)

  /** The part of the server configuration a partition uses: its deduplication
      settings and the path helpers, given here as one function of the stream,
      topic and partition IDs. */
  datatype SystemConfig = SystemConfig(
    messageDeduplication: MessageDeduplicationConfig,
    partitionPaths: (uint32, uint32, uint32) -> PartitionPaths)

  /** A segment of a partition's log, identified by its partition and the
      offset of its first message. */
  datatype Segment = Segment(
    streamId: uint32,
    topicId: uint32,
    partitionId: uint32,
    startOffset: uint64,
    messageExpiry: IggyExpiry)

  class Partition {
    var streamId: uint32
    var topicId: uint32
    var partitionId: uint32
    var partitionPath: string
    var offsetsPath: string
    var consumerOffsetsPath: string
    var consumerGroupOffsetsPath: string
    var currentOffset: uint64
    var messageDeduplicator: MessageDeduplicator?
    var unsavedMessagesCount: uint32
    var unsavedMessagesSize: uint64
    var shouldIncrementOffset: bool
    var createdAt: Timestamp
    var avgTimestampDelta: Duration
    var messageExpiry: IggyExpiry
    var consumerOffsets: map<uint32, ConsumerOffset>
    var consumerGroupOffsets: map<uint32, ConsumerOffset>
    var segments: seq<Segment>
    var config: SystemConfig
    // Counters shared by reference with the parent topic and stream and with the segments.
    const messagesCountOfParentStream: AtomicU64
    const messagesCountOfParentTopic: AtomicU64
    const messagesCount: AtomicU64
    const sizeOfParentStream: AtomicU64
    const sizeOfParentTopic: AtomicU64
    const sizeBytes: AtomicU64
    const segmentsCountOfParentStream: AtomicU32

    /** `Partition::create`. */
    constructor Create(
      streamId: uint32,
      topicId: uint32,
      partitionId: uint32,
      withSegment: bool,
      config: SystemConfig,
      messageExpiry: IggyExpiry,
      messagesCountOfParentStream: AtomicU64,
      messagesCountOfParentTopic: AtomicU64,
      sizeOfParentStream: AtomicU64,
      sizeOfParentTopic: AtomicU64,
      segmentsCountOfParentStream: AtomicU32,
      createdAt: Timestamp)
      modifies segmentsCountOfParentStream
      // identity and the arguments it keeps
      ensures this.streamId == streamId && this.topicId == topicId && this.partitionId == partitionId
      ensures this.messageExpiry == messageExpiry && this.createdAt == createdAt && this.config == config
      ensures var paths := config.partitionPaths(streamId, topicId, partitionId);
        partitionPath == paths.partition && offsetsPath == paths.offsets &&
        consumerOffsetsPath == paths.consumerOffsets && consumerGroupOffsetsPath == paths.consumerGroupOffsets
      // a deduplicator exactly when deduplication is enabled, empty and built from the mapped settings
      ensures messageDeduplicator != null <==> config.messageDeduplication.enabled
      ensures messageDeduplicator != null ==>
        fresh(messageDeduplicator) && messageDeduplicator.cache == {} &&
        DeduplicatorSettingsOf(config.messageDeduplication) ==
          Some(DeduplicatorSettings(messageDeduplicator.maxCapacity, messageDeduplicator.timeToLive))
      // initial state
      ensures currentOffset == 0 && unsavedMessagesCount == 0 && unsavedMessagesSize == 0
      ensures !shouldIncrementOffset && avgTimestampDelta == 0
      ensures consumerOffsets == map[] && consumerGroupOffsets == map[]
      // its own counters start at zero; the parent's counters are shared, not copied
      ensures fresh(sizeBytes) && sizeBytes.value == 0 && GetSizeBytes() == 0
      ensures fresh(messagesCount) && messagesCount.value == 0
      ensures this.messagesCountOfParentStream == messagesCountOfParentStream
      ensures this.messagesCountOfParentTopic == messagesCountOfParentTopic
      ensures this.sizeOfParentStream == sizeOfParentStream && this.sizeOfParentTopic == sizeOfParentTopic
      ensures this.segmentsCountOfParentStream == segmentsCountOfParentStream
      // one segment starting at offset 0, counted in the parent stream, or none
      ensures segments == if withSegment then [Segment(streamId, topicId, partitionId, 0, messageExpiry)] else []
      ensures segmentsCountOfParentStream.value ==
        if withSegment then (old(segmentsCountOfParentStream.value) + 1) % 0x1_0000_0000
        else old(segmentsCountOfParentStream.value)
    {
      var paths := config.partitionPaths(streamId, topicId, partitionId);
      var deduplicator: MessageDeduplicator? := null;
      match DeduplicatorSettingsOf(config.messageDeduplication) {
        case Some(settings) =>
          deduplicator := new MessageDeduplicator(settings.maxEntries, settings.ttl);
        case None =>
      }

      this.streamId := streamId;
      this.topicId := topicId;
      this.partitionId := partitionId;
      partitionPath := paths.partition;
      offsetsPath := paths.offsets;
      consumerOffsetsPath := paths.consumerOffsets;
      consumerGroupOffsetsPath := paths.consumerGroupOffsets;
      this.messageExpiry := messageExpiry;
      messageDeduplicator := deduplicator;
      segments := [];
      currentOffset := 0;
      unsavedMessagesCount := 0;
      unsavedMessagesSize := 0;
      shouldIncrementOffset := false;
      consumerOffsets := map[];
      consumerGroupOffsets := map[];
      this.config := config;
      this.createdAt := createdAt;
      avgTimestampDelta := 0;
      this.sizeOfParentStream := sizeOfParentStream;
      this.sizeOfParentTopic := sizeOfParentTopic;
      sizeBytes := new AtomicU64(0);
      this.messagesCountOfParentStream := messagesCountOfParentStream;
      this.messagesCountOfParentTopic := messagesCountOfParentTopic;
      messagesCount := new AtomicU64(0);
      this.segmentsCountOfParentStream := segmentsCountOfParentStream;
      new;
      if withSegment {
        var segment := Segment(streamId, topicId, partitionId, 0, messageExpiry);
        segments := segments + [segment];
        var previous := segmentsCountOfParentStream.FetchAdd(1);
      }
    }

    /** The partition's size in bytes: the value of its shared size counter,
        which its segments add to. */
    function GetSizeBytes(): (r: uint64)
      reads sizeBytes
      ensures r == sizeBytes.value
    {
      sizeBytes.value
    }
  }
}
