# Iggy: protocol registry, message deduplicator and partition creation

A Dafny model of three small pieces of the Iggy message streaming platform:

- **The protocol registry of the C++ SDK** (`IggyProtocolProvider`, module `Net`,
  `net.dfy`). It holds a fixed table of five protocol definitions: quic, tcp,
  tcp+tls, http and http+tls. Each definition has a name, a default port, a
  transport (QUIC, TCP or HTTP), a TLS flag and a message encoding (binary or
  text). The constructor builds a name-keyed lookup map from the table in a
  loop. Three read-only queries enumerate the table, look up a name and test
  whether a name is supported. The table is a `seq`, the map a `map` field, and
  the queries are functions that read the object.
- **The message deduplicator of the server** (`MessageDeduplicator`, module
  `Deduplication`, `deduplication.dfy`). It is a class whose cache of message IDs
  is a `set` field. `Exists` tests membership. `Insert` adds an ID. `TryInsert`
  adds an ID only when it is absent and says whether it did. A pure
  specification, `TryInsertStep` and its iteration `Replay`, describes what a
  series of `try_insert` calls accepts and rejects.
- **Partition creation on the server** (module `Partitions`, `partitions.dfy`).
  This covers `ConsumerOffset::new` (the offset record and its file path), the
  mapping from the deduplication configuration to the deduplicator's settings,
  and `Partition::create`. `Partition::create` is a named constructor: it sets
  the identity, paths and initial counters, and it creates either no segment or
  one segment at offset 0. In the second case it bumps the parent stream's
  shared segment counter with `fetch_add`.

Module `Base` (`base.dfy`) holds the fixed-width integer types, `Option`,
durations, and the shared atomic counters. Each counter is an object, so that
a partition and its parent share one counter by reference, as `Arc<Atomic*>`
does in the server.

Modelling choices:

- `iggy.h` only declares the constructor and queries of
  `IggyProtocolProvider`; their bodies are not part of this model. The constructor is
  modelled as a loop that files each definition under its name. The names are
  proved distinct, so it does not matter whether the map insert keeps the
  first or the last entry.
- `getProtocolDefinition` on an unknown name returns
  `Err(UnsupportedProtocol(name))`. There is no default entry.
- Names are compared exactly, so lookups are case-sensitive.
- The deduplicator's cache maps every ID to `true`, so the model keeps only the
  set of keys.
- The config path helpers (`get_partition_path` and the others) have no bodies
  here. They are one function-typed field of `SystemConfig`, and
  `Partition.Create` stores what that field returns.

## Model

| member | source | states |
|---|---|---|
| `Net.SupportedProtocols` | foreign/cpp/sdk/net/iggy.h:45-50 | the built-in table has five definitions and no two share a name |
| `Net.Index` | foreign/cpp/sdk/net/iggy.h:51-54 | the lookup filled entry by entry from the front of a table files every entry under its own name and has no more keys than the table has entries |
| `Net.SupportedProtocolsOrder` | foreign/cpp/sdk/net/iggy.h:45-50 | the table has exactly five entries, in the order quic, tcp, tcp+tls, http, http+tls |
| `Net.SupportedNamesDistinct` | foreign/cpp/sdk/net/iggy.h:29-50 | the five names in the table are pairwise distinct, and they are exactly the five protocol name constants |
| `Net.IndexSound` | foreign/cpp/sdk/net/iggy.h:51 | for any table, every entry of the name-keyed index is a definition from the table, filed under its own name |
| `Net.IndexKeys` | foreign/cpp/sdk/net/iggy.h:51 | for any table, the index's keys are exactly the table's names |
| `Net.IndexComplete` | foreign/cpp/sdk/net/iggy.h:45-51 | for any table with distinct names, every definition is found under its name, so the index loses no entry |
| `Net.LookupHasFiveKeys` | foreign/cpp/sdk/net/iggy.h:45-51 | the lookup built from the built-in table has exactly the five protocol names as keys, and so has five keys |
| `Net.DefaultPorts` | foreign/cpp/sdk/net/iggy.h:25-50 | every default port is nonzero and fixed by the transport (QUIC 8080, TCP 8090, HTTP 3000); quic is QUIC on 8080, tcp and tcp+tls are TCP on 8090, http and http+tls are HTTP on 3000 |
| `Net.TlsRequiredExactly` | foreign/cpp/sdk/net/iggy.h:46-50 | a definition requires TLS exactly when its name is quic, tcp+tls or http+tls |
| `Net.EncodingFollowsTransport` | foreign/cpp/sdk/net/iggy.h:46-50 | the encoding is text exactly when the transport is HTTP; QUIC and TCP are binary |
| `Net.TlsVariantsMirrorPlain` | foreign/cpp/sdk/net/iggy.h:47-50 | each +tls variant equals its plain variant except for the name and the TLS flag; the plain variants do not require TLS |
| `Net.IggyProtocolProvider.constructor` | foreign/cpp/sdk/net/iggy.h:51-54 | after the fill loop, the lookup map's keys are the five names and each table entry is filed under its own name |
| `Net.IggyProtocolProvider.GetSupportedProtocols` | foreign/cpp/sdk/net/iggy.h:55 | returns the built-in table: five definitions with distinct names, which are exactly the supported names |
| `Net.IggyProtocolProvider.IsSupported` | foreign/cpp/sdk/net/iggy.h:57 | true exactly when the name is one of the five, by exact comparison; equivalently, when some table entry has that name |
| `Net.IggyProtocolProvider.GetProtocolDefinition` | foreign/cpp/sdk/net/iggy.h:56 | succeeds exactly when the name is supported, and then returns the table entry with that name; otherwise fails with UnsupportedProtocol for that name |
| `Net.UnsupportedNames` | foreign/cpp/sdk/net/iggy.h:56-57 | "ftp", the empty string and "TCP" are not supported, and looking up "TCP" fails |
| `Deduplication.TryInsertStep` | core/server/src/streaming/deduplication/message_deduplicator.rs:54-61 | an ID is accepted exactly when it is absent; afterwards it is present; every other ID keeps its membership; a rejected ID leaves the IDs unchanged |
| `Deduplication.TryInsertTwice` | core/server/src/streaming/deduplication/message_deduplicator.rs:54-61 | offering an ID a second time, straight after the first offer, is rejected and changes nothing |
| `Deduplication.ReplayOutcomes` | core/server/src/streaming/deduplication/message_deduplicator.rs:54-61 | in any series of offers, the i-th offer is accepted exactly when its ID was not held at the start and was not offered earlier; at the end the cache holds the starting IDs plus every ID offered |
| `Deduplication.DistinctAcceptedOnce` | core/server/src/streaming/deduplication/message_deduplicator.rs:74-79 | offering distinct new IDs gives one outcome per ID and accepts every one; offering the same IDs again gives one outcome per ID and rejects every one |
| `Deduplication.MessageDeduplicator.constructor` | core/server/src/streaming/deduplication/message_deduplicator.rs:29-41 | a new deduplicator holds no IDs and keeps the capacity bound and time to live it is given |
| `Deduplication.MessageDeduplicator.Exists` | core/server/src/streaming/deduplication/message_deduplicator.rs:44-46 | the ID is a member of the cached set; the function only reads the object |
| `Deduplication.MessageDeduplicator.Insert` | core/server/src/streaming/deduplication/message_deduplicator.rs:49-51 | afterwards the ID exists and nothing else is added; inserting an ID that is already held changes nothing |
| `Deduplication.MessageDeduplicator.TryInsert` | core/server/src/streaming/deduplication/message_deduplicator.rs:54-61 | returns the negation of `Exists` before the call; afterwards the ID exists; the result and the new cache follow `TryInsertStep` |
| `Deduplication.InsertOnlyUniqueIdentifiers` | core/server/src/streaming/deduplication/message_deduplicator.rs:70-80 | offering IDs 0 to maxEntries-1 to a new deduplicator accepts each one, finds it, then rejects the repeat; at the end exactly those IDs are held |
| `Partitions.Decimal` | core/server/src/streaming/partitions/partition.rs:79 | the decimal form of a number is non-empty and all digits, with no leading zero unless the number is 0 |
| `Partitions.ParseDecimalOfDecimal` | core/server/src/streaming/partitions/partition.rs:79 | reading back the decimal form of a number gives the number |
| `Partitions.NewConsumerOffset` | core/server/src/streaming/partitions/partition.rs:74-81 | keeps the kind, consumer ID and offset; the path is exactly the directory, a slash, then the canonical decimal form of the consumer ID (no leading zero); the part after the slash is only digits, which read back as the consumer ID |
| `Partitions.ConsumerOffsetPathsDistinct` | core/server/src/streaming/partitions/partition.rs:74-81 | two different consumer IDs under the same directory get different offset paths |
| `Partitions.DeduplicatorSettingsOf` | core/server/src/streaming/partitions/partition.rs:108-124 | settings exist exactly when deduplication is enabled; max_entries 0 means no capacity bound, and any other value is the bound; zero expiry means no time to live, and any other value is the time to live |
| `Partitions.Partition.Create` | core/server/src/streaming/partitions/partition.rs:86-179 | keeps the IDs, expiry, creation time, config and the paths from the config's helpers; a fresh, empty deduplicator exists exactly when deduplication is enabled, built from the mapped settings; offset, unsaved count and size start at 0, the flag is false, both offset maps are empty; its own size and message counters are new and 0, while the parent's counters are shared; with a segment, there is one segment at offset 0 and the parent stream's segment counter goes up by 1 (wrapping at 2^32); without one, there are no segments and the counter is unchanged |
| `Partitions.Partition.GetSizeBytes` | core/server/src/streaming/partitions/partition.rs:183-185 | reports the current value of the partition's shared size counter, which starts at 0 |
| `Base.AtomicU32.FetchAdd` | core/server/src/streaming/partitions/partition.rs:173-175 | returns the old value and adds the increment, wrapping modulo 2^32 |

## Left out

- The bodies of the C++ constructor and queries (`iggy.h` only declares them), and the `ProtocolProvider` base class and `address.h`, are not part of this model. Returning UnsupportedProtocol for an unknown name in `getProtocolDefinition` is a modelling choice.
- Deduplication.MessageDeduplicator.constructor: the cache's capacity bound and time to live are recorded but never act. Eviction by capacity or by age is time-driven and asynchronous inside the cache library, so a held ID never disappears in this model.
- Deduplication.MessageDeduplicator.TryInsert: treats the check and the insert as one atomic step. In the source, `try_insert` checks with `exists` and then awaits `insert`, so two concurrent callers offering the same ID can both get `true`; the model does not capture that interleaving.
- `async`/`.await`, and the concurrent sharing of partitions through `Arc`, atomics and `DashMap`, are not modelled otherwise. Each operation is one sequential step, and the atomic counters are plain fields of shared objects.
- Partitions.Partition.Create: `Segment::create` is not part of this model. A segment is represented only by its stream, topic and partition IDs, its start offset and its message expiry. The shared counters it receives and the segment's own behaviour are not captured.
- The `SystemConfig` path helpers (`get_partition_path` and the others) are not part of this model. Their results come from a function field of the configuration.
- `SystemStorage` is not part of this model. It is passed to `Partition::create` only to be stored.
- `Display for Partition` is formatting only.
- Persisting and loading consumer offsets is file I/O and is not modelled; only the offset path format is.
- `IggyDuration` and `IggyTimestamp` are whole microseconds, and `IggyExpiry` is reduced to its three variants as stored values.
