# Kafka extractor and task utilities of ape-dts, modelled in Dafny

This project models two small pieces of the ape-dts data-transfer pipeline.

The **Kafka extractor** (`dt-connector/src/extractor/kafka/kafka_extractor.rs`) turns each received Kafka message into a `DtData` event. It drops a message that has no payload. Otherwise it decodes the payload and overwrites the event's position with `"offset:<n>"`, where `n` is the message's own offset. Only `Commit` and `Dml` get the new position; `Ddl` passes through as decoded. The result is pushed onto the shared buffer. The loop never returns `Ok`. It ends only when the buffer refuses a push, which is returned as the error, or when receiving or decoding panics. Setting up the consumer assigns exactly one topic/partition. The configured offset is attached only when it is strictly positive; otherwise `auto.offset.reset = latest` decides where reading starts.

**`TaskUtil`** (`ape-dts/src/task/task_util.rs`) decides from the log level whether SQL statements are logged (`debug` and `trace` only, compared exactly). It builds MySQL/Postgres connection options: statements and slow statements are logged at info with a one-second threshold, and all of it is turned off when the flag is false. Metadata managers always get a single-connection pool.

Files:

- `common.dfy`: `Option`, `Result` and the integer widths (`i32`, `i64`, `u32`, `byte`).
- `offset_format.dfy`: the `"offset:<n>"` position string and its inverse parser.
- `dt_data.dfy`: the `DtData` event model and position stamping.
- `queue.dfy`: the shared buffer, a class whose `Push` appends at the back or fails once the buffer is closed.
- `kafka_extractor.dfy`: the extractor. Three modelling choices:
  - The Kafka consumer is a finite trace of steps: a received message, a failed receive, or the other side closing the buffer.
  - Decoding is an abstract partial function.
  - The receive loop is a method over the buffer object.
- `task_util.dfy`: the log-level predicate and the option records built for pools and metadata managers. URL parsing, connecting and `init` are abstract calls with their own error results.

Three facts about the code that the model keeps:

- The code returns a refused push from `extract` as an `Err`.
- The loop never reads `shut_down`.
- A `Ddl` event keeps whatever it decoded to; it is not stamped.

## Model

| member | source | states |
|---|---|---|
| `OffsetFormat.Digits` | dt-connector/src/extractor/kafka/kafka_extractor.rs:33 | the decimal rendering of an offset is non-empty, all digits, and has no leading zero |
| `OffsetFormat.OffsetPosition` | dt-connector/src/extractor/kafka/kafka_extractor.rs:33 | the stamped position is non-empty and starts with `offset:` |
| `OffsetFormat.OffsetPositionRoundTrip` | dt-connector/src/extractor/kafka/kafka_extractor.rs:33 | parsing the position string gives back the message offset it was built from |
| `OffsetFormat.OffsetPositionInjective` | dt-connector/src/extractor/kafka/kafka_extractor.rs:33 | two offsets give the same position string iff they are equal |
| `DtEvent.Stamp` | dt-connector/src/extractor/kafka/kafka_extractor.rs:36-40 | `Dml` and `Commit` get exactly the new position and keep every other field; any other variant is returned unchanged |
| `DtEvent.StampCharacterised` | dt-connector/src/extractor/kafka/kafka_extractor.rs:36-40 | in both directions, an event is the stamped one iff it agrees with the input except for the position and carries the new position exactly when the variant has one |
| `DtEvent.StampIgnoresCarriedPosition` | dt-connector/src/extractor/kafka/kafka_extractor.rs:37-38 | two decoded events that differ only in their positions stamp to the same event |
| `Queue.ConcurrentQueue.Push` | dt-connector/src/extractor/kafka/kafka_extractor.rs:41 | a push appends the event at the back, or fails with `Closed` and leaves the buffer unchanged |
| `KafkaExtractor.Handle` | dt-connector/src/extractor/kafka/kafka_extractor.rs:33-40 | a message without payload is skipped; an undecodable payload is a decode failure; otherwise the decoded event leaves with position `offset:<n>` for `Dml`/`Commit`, with all other fields unchanged, and as decoded for other variants |
| `KafkaExtractor.StopOf` | dt-connector/src/extractor/kafka/kafka_extractor.rs:31-43 | a receive error panics, an undecodable payload panics with its offset, a decoded event pushed to a closed buffer returns `Err(Closed)`; nothing else ends the loop, and it never returns `Ok` |
| `KafkaExtractor.KafkaExtractor.HandleStep` | dt-connector/src/extractor/kafka/kafka_extractor.rs:32-41 | one iteration pushes exactly the handled event, or nothing when it stops or skips; it reports the stop the step causes |
| `KafkaExtractor.KafkaExtractor.Extract` | dt-connector/src/extractor/kafka/kafka_extractor.rs:28-44 | the run never returns `Ok`; it stops at the first failing step and looks at nothing after it; every payload before that decoded; the buffer gains exactly the stamped events of the completed steps, in arrival order |
| `KafkaExtractor.CompletedRunsThrough` | dt-connector/src/extractor/kafka/kafka_extractor.rs:31-43 | a run that completed a prefix passed every step of it and decoded every payload in it |
| `KafkaExtractor.EmittedOnePerPayload` | dt-connector/src/extractor/kafka/kafka_extractor.rs:31-42 | when every payload decodes, `Emitted` holds one event per payload-carrying message, in arrival order, each the stamped decoding of that message |
| `KafkaExtractor.CompletedRunPushesOnePerPayload` | dt-connector/src/extractor/kafka/kafka_extractor.rs:31-42 | a run that completes every step of a trace pushes one event per payload-carrying message, in arrival order, each the stamped decoding of that message |
| `KafkaExtractor.SkipLeavesBufferAlone` | dt-connector/src/extractor/kafka/kafka_extractor.rs:34 | a message without payload adds nothing to the buffer and does not stop the loop |
| `KafkaExtractor.EmittedPositionsDistinct` | dt-connector/src/extractor/kafka/kafka_extractor.rs:33 | when received offsets strictly increase, the `Dml`/`Commit` events of `Emitted` carry pairwise distinct positions |
| `KafkaExtractor.KafkaExtractor.CreateConsumer` | dt-connector/src/extractor/kafka/kafka_extractor.rs:48-66 | the config holds exactly the four client properties with reset policy `latest`; the assignment has one entry for the extractor's topic and partition, with an explicit offset iff the configured offset is positive |
| `KafkaExtractor.ResumeAtConfiguredOffset` | dt-connector/src/extractor/kafka/kafka_extractor.rs:52-63 | reading starts at the configured offset when it is positive, and at the end of the log otherwise (including offset 0) |
| `TaskUtil.CheckEnableSqlxLog` | ape-dts/src/task/task_util.rs:83-85 | logging is enabled iff the level is exactly `debug` or `trace`, that is, an exact lower-case level name at least as verbose as debug |
| `TaskUtil.SqlxLogLevels` | ape-dts/src/task/task_util.rs:84 | `debug` and `trace` enable logging; `info`, the empty string, `DEBUG`, `Trace` and ` debug` do not |
| `TaskUtil.DisableStatementLogging` | ape-dts/src/task/task_util.rs:27-29 | disabling keeps the endpoint and logs no statement |
| `TaskUtil.ConfigureLogging` | ape-dts/src/task/task_util.rs:23-29 | statements are logged iff the flag is set; if so, both levels are info with a 1000 ms slow threshold; if not, both levels are off |
| `TaskUtil.LoggingIgnoresParsedSettings` | ape-dts/src/task/task_util.rs:22-29 | the resulting logging settings depend only on the flag, not on those the URL carried |
| `TaskUtil.CreateConnPool` | ape-dts/src/task/task_util.rs:17-36 | a URL parse error is returned as it is; otherwise the pool opened has the requested size, the parsed endpoint and logging iff the flag is set, or the connect error is returned as it is |
| `TaskUtil.CreateMysqlConnPool` | ape-dts/src/task/task_util.rs:17-36 | a MySQL pool of the requested size, logging iff the flag is set; a URL parse error fails it |
| `TaskUtil.CreatePgConnPool` | ape-dts/src/task/task_util.rs:38-57 | a Postgres pool of the requested size, logging iff the flag is set; a URL parse error fails it |
| `TaskUtil.CreateMetaManager` | ape-dts/src/task/task_util.rs:59-66 | a built metadata manager sits on a single-connection pool that logs iff the log level enables it; a URL parse, connect or `init` error is returned as it is |
| `TaskUtil.CreateMysqlMetaManager` | ape-dts/src/task/task_util.rs:59-66 | a MySQL metadata manager with a one-connection pool whose logging follows the log level |
| `TaskUtil.CreatePgMetaManager` | ape-dts/src/task/task_util.rs:68-75 | a Postgres metadata manager with a one-connection pool whose logging follows the log level |
| `TaskUtil.MetaManagerSucceedsIff` | ape-dts/src/task/task_util.rs:62-65 | a metadata manager is built iff the URL parses, the one-connection pool opens and `init` succeeds; the model makes one call of each |

## Left out

- The rdkafka client is not modelled: `ClientConfig::create`, `recv`, and the network effect of `assign`. The consumer is a finite trace of received messages. An exhausted trace means the loop is still waiting in `recv`.
- The panics of `create().unwrap()`, `add_partition_offset(..).unwrap()` and `assign(..).unwrap()` in `create_consumer` are not modelled. Those calls belong to rdkafka, whose failure conditions are not part of this model.
- Offsets already committed by the consumer group are not modelled. `ResumeAtConfiguredOffset` takes the start of an assignment without an offset from `auto.offset.reset` alone.
- `serde_json` decoding is an abstract partial function from payload bytes to `DtData`. Its failure is the decode panic.
- `BaseExtractor::push_dt_data` is not part of this model. Its waiting on a full queue is not modelled. The only refusal modelled is a push to a closed buffer.
- The buffer's internal synchronisation is not modelled. The other task's closing of the buffer appears as a step of the trace, between receives.
- The in-place update through `match &mut dt_data` is modelled as the pure function `Stamp`, which returns the updated event.
- The `shut_down`, `syncer` and `ack_interval_secs` fields are not modelled, because `extract` never reads them. `log_info!` is not modelled.
- `TaskUtil::sleep_millis` is a timer and is not modelled.
- sqlx pools, URL parsing, `connect_with` and the metadata managers' `init` are abstract calls of a `Database` value. A pool is known only by the options it was opened with.
- `DisableStatementLogging` also resets the slow-statement threshold to zero. That follows sqlx's `disable_statement_logging`, which is not part of this model.
- `dt-tests/tests/test_runner/test_base.rs` is test orchestration and is not part of this model.
