# OffsetFetchRequest: a verified model

This is a Dafny model of the Kafka client's `OffsetFetchRequest`. That is the request a consumer sends to fetch the committed offsets of a consumer group. The model covers:

- **The Builder.** It takes a group id and either a flat list of (topic, partition) pairs or `null`, which asks for every partition of the group. It groups the list by topic into per-topic entries, each holding its partition indexes.
- **`build(version)`.** It refuses an all-partitions request below version 2, because those versions cannot express it.
- **The request accessors** `partitions()`, `groupId()` and `isAllPartitions()`.
- **Both `getErrorResponse(…, Errors)` overloads.** These return a response whose shape depends on the request's version:
  - versions 0–1 give an error entry for every named partition;
  - versions 2–5 leave the partition map empty;
  - versions 3–5 also carry the throttle time;
  - any other version is refused.

## Layout

- `wrappers.dfy`: module `Wrappers`. `Option` stands for Java's `null`. `Result` stands for a value or a thrown exception.
- `protocol.dfy`: module `Protocol`. These are stand-ins for the types the request uses but does not define:
  - Java's `short`, `int` and `long` as `int16`, `int32` and `int64`;
  - `TopicPartition`;
  - the `Errors` code;
  - `OffsetFetchResponse` and its `PartitionData`;
  - the constants `INVALID_OFFSET` (-1), `NO_METADATA` (empty string) and `DEFAULT_THROTTLE_TIME` (0).
- `offset_fetch_request.dfy`: module `OffsetFetchRequest`, the core.

## Modelling choices

- `Builder` and the request hold their body in a `final` field that neither class changes after construction, so both are datatypes. `Request(data, version)` also stands for the constructor that `parse` and the `Struct` constructor end in.
- The topic list is `Topics = All | Explicit(seq<RequestTopic>)`:
  - `All` is the `null` list (`ALL_TOPIC_PARTITIONS`);
  - `Explicit([])` is an empty list, which is a different state.
- The three loops of the source are methods with loop invariants:
  - `GroupByTopic` is the grouping in the Builder constructor;
  - `Partitions` is `partitions()`;
  - `GetErrorResponse` is the nested loop of `getErrorResponse` that fills the map.
- `GroupByTopic` keeps a `map` from topic name to entry and re-assigns the entry on each append. The Java code appends to the entry's list in place, but the entry is reachable only through the map, so the two behave the same.
- `HashMap.values()` has no specified order. The model lists the map's values by repeatedly choosing any remaining key (`:|`). Its contract therefore fixes the topic entries only up to order (`Grouped`).
- Grouping does **not** remove duplicate partitions, and it does not keep topics in first-seen order. The code appends with no membership check (line 53) and lists the topics from a `HashMap` (line 56). The model follows the code.
- Below version 2, `getErrorResponse` walks `data.topics()`. On an all-partitions request that list is `null` and the call would throw a `NullPointerException`. The model turns this into a precondition. `BuiltRequestHasTopicsBelowV2` shows that every request `build` accepts meets it.

## Model

| member | source | states |
|---|---|---|
| OffsetFetchRequest.GroupByTopic | clients/src/main/java/org/apache/kafka/common/requests/OffsetFetchRequest.java:47-56 | The topics built from a list form a grouping of it: each topic named in the list has exactly one entry, and no entry exists for a topic the list does not name. Each entry's partition indexes are exactly that topic's partitions from the list, in list order, with duplicates kept. |
| OffsetFetchRequest.NewBuilder | clients/src/main/java/org/apache/kafka/common/requests/OffsetFetchRequest.java:43-65 | The Builder keeps the group id. It is all-partitions exactly when the partition list is `null`, so an empty list is not all-partitions. A non-null list is grouped as `GroupByTopic` states. |
| OffsetFetchRequest.AllTopicPartitions | clients/src/main/java/org/apache/kafka/common/requests/OffsetFetchRequest.java:67-73 | `allTopicPartitions(groupId)` yields an all-partitions Builder for that group. |
| OffsetFetchRequest.IsAllTopicPartitions | clients/src/main/java/org/apache/kafka/common/requests/OffsetFetchRequest.java:71-73 | `isAllTopicPartitions()` holds for the `null` topic list and not for an empty explicit list. Its users state the rest: NewBuilder ensures it holds exactly when the partition list was `null`, and Build fails below version 2 exactly when it holds. |
| OffsetFetchRequest.Build | clients/src/main/java/org/apache/kafka/common/requests/OffsetFetchRequest.java:71-81 | `build(v)` fails with UnsupportedVersion if and only if the Builder is all-partitions and `v < 2`. Otherwise the request carries the Builder's data unchanged and version `v`, and its `groupId()` is the Builder's group id. |
| OffsetFetchRequest.Partitions | clients/src/main/java/org/apache/kafka/common/requests/OffsetFetchRequest.java:89-100 | `partitions()` returns `null` exactly when the request is all-partitions (`isAllPartitions`, lines 163-165). Otherwise it returns every (topic, partition) pair of the topic list, topic by topic, in index order. |
| OffsetFetchRequest.IsAllPartitions | clients/src/main/java/org/apache/kafka/common/requests/OffsetFetchRequest.java:163-165 | `isAllPartitions()` holds for the `null` topic list and not for an empty explicit list. Partitions ensures it holds exactly when `partitions()` returns `null`. |
| OffsetFetchRequest.GroupId | clients/src/main/java/org/apache/kafka/common/requests/OffsetFetchRequest.java:102-104 | `groupId()` is the request body's group id. Build ensures a built request's `groupId()` is the group id the Builder was given, which NewBuilder keeps. |
| OffsetFetchRequest.GetErrorResponse | clients/src/main/java/org/apache/kafka/common/requests/OffsetFetchRequest.java:120-152 | For versions 0–5 the response carries the given error. For versions 0–1 the map's keys are exactly the pairs the request names, and every value is (INVALID_OFFSET, no leader epoch, NO_METADATA, the error). For versions 2–5 the map is empty. Versions 3–5 carry the throttle time and versions 0–2 do not. Any other version fails with IllegalArgument. |
| OffsetFetchRequest.GetErrorResponseDefault | clients/src/main/java/org/apache/kafka/common/requests/OffsetFetchRequest.java:116-118 | `getErrorResponse(error)` meets the contract of `getErrorResponse(DEFAULT_THROTTLE_TIME, error)`. |
| OffsetFetchRequest.ErrorResponseDeterministic | clients/src/main/java/org/apache/kafka/common/requests/OffsetFetchRequest.java:116-152 | That contract fixes the response completely. So `getErrorResponse(error)` equals `getErrorResponse(DEFAULT_THROTTLE_TIME, error)`, and repeated calls with the same inputs agree. |
| OffsetFetchRequest.GroupedIsPermutation | clients/src/main/java/org/apache/kafka/common/requests/OffsetFetchRequest.java:47-56 | Flattening the grouped topics gives the same multiset of (topic, partition) pairs as the input list, duplicates included. |
| OffsetFetchRequest.GroupedNamesInputPairs | clients/src/main/java/org/apache/kafka/common/requests/OffsetFetchRequest.java:89-99 | `partitions()` of a request built from a list names exactly the pairs of that list. |
| OffsetFetchRequest.EmptyListNamesNothing | clients/src/main/java/org/apache/kafka/common/requests/OffsetFetchRequest.java:47-56 | An empty explicit list groups into topics that name no partition, so `partitions()` gives an empty list rather than `null`. |
| OffsetFetchRequest.BuiltRequestHasTopicsBelowV2 | clients/src/main/java/org/apache/kafka/common/requests/OffsetFetchRequest.java:76-81 | A request accepted by `build` with a version below 2 has an explicit topic list. So the error response's loop at lines 131-136 never meets the `null` list. |
| OffsetFetchRequest.ErrorResponseCoversInput | clients/src/main/java/org/apache/kafka/common/requests/OffsetFetchRequest.java:123-137 | For a request built from a list, the version 0–1 error response's partition map has exactly the list's pairs as keys. |

## Left out

- `parse`, the `Struct` constructor and `toStruct` (lines 111-114, 159-161, 167-170) are left out. They delegate to the generated `OffsetFetchRequestData` codec, which is byte-level serialisation and not part of this model. The plain datatype constructor `Request(data, version)` stands for the request they produce.
- `getErrorResponse(int, Throwable)` (lines 155-157) is left out. Its only content is the `Errors.forException` mapping, which is not part of this model. Error codes are opaque values.
- `toString` (lines 84-86) is left out; it is diagnostics only.
- Sharing of the body is not modelled. In Java, `build` (line 80) hands the Builder's one mutable `OffsetFetchRequestData` object to every request it builds. The model copies the body by value. Nothing in the modelled code mutates that object after construction, so no modelled behaviour depends on the sharing.
- `OffsetFetchResponse`, `AbstractRequest`, `AbstractResponse` and `ApiKeys` are not part of this model:
  - the response is a record of (optional throttle time, error, partition map);
  - the error message's `ApiKeys.OFFSET_FETCH.latestVersion()` is dropped, and `IllegalArgument` carries only the version.
- The order of the topic entries is not modelled. It comes from `HashMap` iteration, so every property is stated up to that order.
- GetErrorResponse: an all-partitions request below version 2 would throw a `NullPointerException`. The model does not represent that outcome; it is excluded by the precondition instead.
