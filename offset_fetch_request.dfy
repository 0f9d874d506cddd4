/**
 * The OffsetFetch request of the Kafka protocol: its Builder, which groups a
 * flat partition list by topic or asks for all partitions of a group, the
 * version check made when a request is built, the accessors of a built
 * request, and the version-banded error response a broker returns for it.
 */
module OffsetFetchRequest {
  import opened Wrappers
  import opened Protocol

  // ---------------------------------------------------------------------------
  // Data

  /** One topic of the request with the partition indexes asked for. */
  datatype RequestTopic = RequestTopic(name: string, partitionIndexes: seq<int32>)

  /**
   * The request's topic list: `All` is the `null` list that asks for every
   * partition of the group; `Explicit` is a list, possibly empty.
   */
  datatype Topics = All | Explicit(topics: seq<RequestTopic>)

  /** The request body: the consumer group and the topics asked for. */
  datatype RequestData = RequestData(groupId: string, topics: Topics)

  /** A Builder holds the request body it will stamp with a version. */
  datatype Builder = Builder(data: RequestData)

  /** A built or parsed request: its body and its version. */
  datatype Request = Request(data: RequestData, version: int16)

  /** The exceptions `build` and `getErrorResponse` throw. */
  datatype RequestError =
    | UnsupportedVersion(version: int16)   // all partitions asked for below version 2
    | IllegalArgument(version: int16)      // a version with no error response shape

  // ---------------------------------------------------------------------------
  // Specification functions

  /** The partition indexes the list gives for topic `name`, in list order, duplicates kept. */
  function IndexesOf(ps: seq<TopicPartition>, name: string): seq<int32>
  {
    if ps == [] then []
    else
      var last := ps[|ps| - 1];
      IndexesOf(ps[..|ps| - 1], name) + (if last.topic == name then [last.partition] else [])
  }

  /** The topic names the list mentions. */
  function TopicNames(ps: seq<TopicPartition>): set<string>
  {
    set tp | tp in ps :: tp.topic
  }

  /** The names of the topic entries. */
  function Names(topics: seq<RequestTopic>): set<string>
  {
    set t | t in topics :: t.name
  }

  /** The (topic, partition) pairs of one topic entry, in order. */
  function Expand(name: string, indexes: seq<int32>): seq<TopicPartition>
  {
    if indexes == [] then []
    else Expand(name, indexes[..|indexes| - 1]) + [TopicPartition(name, indexes[|indexes| - 1])]
  }

  /** The (topic, partition) pairs of a topic list, topic by topic. */
  function Flatten(topics: seq<RequestTopic>): seq<TopicPartition>
  {
    if topics == [] then []
    else
      var last := topics[|topics| - 1];
      Flatten(topics[..|topics| - 1]) + Expand(last.name, last.partitionIndexes)
  }

  /** Names are pairwise distinct: each topic has one entry. */
  ghost predicate DistinctNames(topics: seq<RequestTopic>)
  {
    forall i, j :: 0 <= i < j < |topics| ==> topics[i].name != topics[j].name
  }

  /**
   * `topics` is a grouping of `ps` by topic: one entry per topic the list
   * mentions and none other, each entry holding that topic's partition indexes
   * in list order with duplicates kept. The order of the entries is free.
   */
  ghost predicate Grouped(ps: seq<TopicPartition>, topics: seq<RequestTopic>)
  {
    && DistinctNames(topics)
    && Names(topics) == TopicNames(ps)
    && forall t :: t in topics ==> t.partitionIndexes == IndexesOf(ps, t.name)
  }

  // ---------------------------------------------------------------------------
  // Builder

  /**
   * The grouping loop of the Builder constructor: a map from topic name to its
   * entry, appended to pair by pair, whose values are then listed in the
   * map's own (unspecified) order.
   */
  method GroupByTopic(partitions: seq<TopicPartition>) returns (topics: seq<RequestTopic>)
    ensures Grouped(partitions, topics)
  {
    var byName: map<string, RequestTopic> := map[];
    for i := 0 to |partitions|
      invariant byName.Keys == TopicNames(partitions[..i])
      invariant forall name :: name in byName ==>
                  byName[name] == RequestTopic(name, IndexesOf(partitions[..i], name))
    {
      var tp := partitions[i];
      assert partitions[..i + 1][..i] == partitions[..i];
      assert partitions[..i + 1] == partitions[..i] + [tp];
      var topic := if tp.topic in byName then byName[tp.topic] else RequestTopic(tp.topic, []);
      if tp.topic !in byName {
        IndexesOfAbsent(partitions[..i], tp.topic);
      }
      topic := topic.(partitionIndexes := topic.partitionIndexes + [tp.partition]);
      byName := byName[tp.topic := topic];
    }
    assert partitions[..|partitions|] == partitions;

    topics := [];
    var pending := byName.Keys;
    while pending != {}
      invariant pending <= byName.Keys
      invariant Names(topics) == byName.Keys - pending
      invariant DistinctNames(topics)
      invariant forall t :: t in topics ==> t.name in byName && byName[t.name] == t
      decreases pending
    {
      var name :| name in pending;
      assert Names(topics + [byName[name]]) == Names(topics) + {name};
      topics := topics + [byName[name]];
      pending := pending - {name};
    }
  }

  /**
   * `new Builder(groupId, partitions)`: `None` (Java `null`) asks for all
   * partitions; a list, even an empty one, is grouped by topic.
   */
  method NewBuilder(groupId: string, partitions: Option<seq<TopicPartition>>) returns (b: Builder)
    ensures b.data.groupId == groupId
    ensures IsAllTopicPartitions(b) <==> partitions.None?
    ensures partitions.Some? ==> Grouped(partitions.value, b.data.topics.topics)
  {
    var topics: Topics;
    if partitions.Some? {
      var grouped := GroupByTopic(partitions.value);
      topics := Explicit(grouped);
    } else {
      topics := All;
    }
    b := Builder(RequestData(groupId, topics));
  }

  /** `Builder.allTopicPartitions(groupId)`: a Builder for every partition of the group. */
  method AllTopicPartitions(groupId: string) returns (b: Builder)
    ensures IsAllTopicPartitions(b)
    ensures b.data == RequestData(groupId, All)
  {
    b := NewBuilder(groupId, None);
  }

  /** `Builder.isAllTopicPartitions()`: the `null` list, and only it, asks for all partitions. */
  predicate IsAllTopicPartitions(b: Builder)
    ensures b.data.topics == All ==> IsAllTopicPartitions(b)
    ensures b.data.topics == Explicit([]) ==> !IsAllTopicPartitions(b)
  {
    b.data.topics.All?
  }

  /**
   * `Builder.build(version)`: fails exactly when all partitions are asked for
   * below version 2; otherwise the request carries the Builder's body unchanged.
   */
  function Build(b: Builder, version: int16): (r: Result<Request, RequestError>)
    ensures r.Failure? <==> IsAllTopicPartitions(b) && version < 2
    ensures r.Failure? ==> r.error == UnsupportedVersion(version)
    ensures r.Success? ==> r.value.data == b.data && r.value.version == version
    ensures r.Success? ==> GroupId(r.value) == b.data.groupId
  {
    if IsAllTopicPartitions(b) && version < 2 then Failure(UnsupportedVersion(version))
    else Success(Request(b.data, version))
  }

  // ---------------------------------------------------------------------------
  // Request accessors

  /** `isAllPartitions()`: the `null` list, and only it, asks for all partitions. */
  predicate IsAllPartitions(req: Request)
    ensures req.data.topics == All ==> IsAllPartitions(req)
    ensures req.data.topics == Explicit([]) ==> !IsAllPartitions(req)
  {
    req.data.topics.All?
  }

  /** `groupId()`: the group the request body names. */
  function GroupId(req: Request): (g: string)
    ensures g == req.data.groupId
  {
    req.data.groupId
  }

  /**
   * `partitions()`: `None` (Java `null`) for an all-partitions request,
   * otherwise every (topic, partition) pair of the topic list, topic by topic.
   */
  method Partitions(req: Request) returns (ps: Option<seq<TopicPartition>>)
    ensures ps.None? <==> IsAllPartitions(req)
    ensures ps.Some? ==> ps.value == Flatten(req.data.topics.topics)
  {
    if IsAllPartitions(req) {
      return None;
    }
    var topics := req.data.topics.topics;
    var result: seq<TopicPartition> := [];
    for i := 0 to |topics|
      invariant result == Flatten(topics[..i])
    {
      var topic := topics[i];
      for j := 0 to |topic.partitionIndexes|
        invariant result == Flatten(topics[..i]) + Expand(topic.name, topic.partitionIndexes[..j])
      {
        assert topic.partitionIndexes[..j + 1][..j] == topic.partitionIndexes[..j];
        result := result + [TopicPartition(topic.name, topic.partitionIndexes[j])];
      }
      assert topics[..i + 1][..i] == topics[..i];
      assert topic.partitionIndexes[..|topic.partitionIndexes|] == topic.partitionIndexes;
    }
    assert topics[..|topics|] == topics;
    ps := Some(result);
  }

  // ---------------------------------------------------------------------------
  // Error response

  /** The entry every named partition gets in a version 0-1 error response. */
  function PartitionError(error: Error): PartitionData
  {
    PartitionData(INVALID_OFFSET, None, NO_METADATA, error)
  }

  /**
   * What `getErrorResponse(throttleTimeMs, error)` returns for `req`:
   * versions 0-5 answer with `error` at the top level; versions 0-1 also
   * give every partition the request names a `PartitionError` entry, while
   * versions 2-5 leave the partition map empty; versions 3-5 carry the
   * throttle time, versions 0-2 do not; every other version is refused.
   */
  ghost predicate IsErrorResponse(
    req: Request, throttleTimeMs: int32, error: Error, r: Result<OffsetFetchResponse, RequestError>)
  {
    if 0 <= req.version <= 5 then
      && r.Success?
      && r.value.error == error
      && r.value.throttleTimeMs == (if req.version >= 3 then Some(throttleTimeMs) else None)
      && if req.version < 2 then
           && req.data.topics.Explicit?
           && (forall tp :: tp in r.value.responseData <==> tp in Flatten(req.data.topics.topics))
           && (forall tp :: tp in r.value.responseData ==> r.value.responseData[tp] == PartitionError(error))
         else
           r.value.responseData == map[]
    else
      r == Failure(IllegalArgument(req.version))
  }

  /**
   * `getErrorResponse(throttleTimeMs, error)`. Below version 2 the loop walks
   * the topic list, so the request must not be an all-partitions one (a
   * built request never is, see BuiltRequestHasTopicsBelowV2).
   */
  method GetErrorResponse(req: Request, throttleTimeMs: int32, error: Error)
    returns (r: Result<OffsetFetchResponse, RequestError>)
    requires req.version < 2 ==> req.data.topics.Explicit?
    ensures IsErrorResponse(req, throttleTimeMs, error, r)
  {
    var versionId := req.version;
    var responsePartitions: map<TopicPartition, PartitionData> := map[];
    if versionId < 2 {
      var partitionError := PartitionError(error);
      var topics := req.data.topics.topics;
      for i := 0 to |topics|
        invariant forall tp :: tp in responsePartitions <==> tp in Flatten(topics[..i])
        invariant forall tp :: tp in responsePartitions ==> responsePartitions[tp] == partitionError
      {
        var topic := topics[i];
        for j := 0 to |topic.partitionIndexes|
          invariant forall tp :: tp in responsePartitions <==>
                      tp in Flatten(topics[..i]) + Expand(topic.name, topic.partitionIndexes[..j])
          invariant forall tp :: tp in responsePartitions ==> responsePartitions[tp] == partitionError
        {
          assert topic.partitionIndexes[..j + 1][..j] == topic.partitionIndexes[..j];
          responsePartitions :=
            responsePartitions[TopicPartition(topic.name, topic.partitionIndexes[j]) := partitionError];
        }
        assert topics[..i + 1][..i] == topics[..i];
        assert topic.partitionIndexes[..|topic.partitionIndexes|] == topic.partitionIndexes;
      }
      assert topics[..|topics|] == topics;
    }

    if 0 <= versionId <= 2 {
      r := Success(OffsetFetchResponse(None, error, responsePartitions));
    } else if 3 <= versionId <= 5 {
      r := Success(OffsetFetchResponse(Some(throttleTimeMs), error, responsePartitions));
    } else {
      r := Failure(IllegalArgument(versionId));
    }
  }

  /** `getErrorResponse(error)`: the same with the default throttle time. */
  method GetErrorResponseDefault(req: Request, error: Error)
    returns (r: Result<OffsetFetchResponse, RequestError>)
    requires req.version < 2 ==> req.data.topics.Explicit?
    ensures IsErrorResponse(req, DEFAULT_THROTTLE_TIME, error, r)
  {
    r := GetErrorResponse(req, DEFAULT_THROTTLE_TIME, error);
  }

  // ---------------------------------------------------------------------------
  // Lemmas

  /** A topic the list never mentions has no partition indexes. */
  lemma {:induction false} IndexesOfAbsent(ps: seq<TopicPartition>, name: string)
    requires name !in TopicNames(ps)
    ensures IndexesOf(ps, name) == []
  {
    if ps != [] {
      var init := ps[..|ps| - 1];
      assert TopicNames(init) <= TopicNames(ps) by {
        forall n | n in TopicNames(init) ensures n in TopicNames(ps) {
          var tp :| tp in init && tp.topic == n;
          assert tp in ps;
        }
      }
      IndexesOfAbsent(init, name);
      assert ps[|ps| - 1] in ps;
    }
  }

  /** How often a pair occurs in the list: as often as its partition among its topic's indexes. */
  lemma {:induction false} CountInList(ps: seq<TopicPartition>, tp: TopicPartition)
    ensures multiset(ps)[tp] == multiset(IndexesOf(ps, tp.topic))[tp.partition]
  {
    if ps != [] {
      var init, last := ps[..|ps| - 1], ps[|ps| - 1];
      assert ps == init + [last];
      CountInList(init, tp);
    }
  }

  /** How often a pair occurs among the pairs of one topic entry. */
  lemma {:induction false} CountInExpand(name: string, indexes: seq<int32>, tp: TopicPartition)
    ensures multiset(Expand(name, indexes))[tp] ==
            if tp.topic == name then multiset(indexes)[tp.partition] else 0
  {
    if indexes != [] {
      var init := indexes[..|indexes| - 1];
      assert indexes == init + [indexes[|indexes| - 1]];
      CountInExpand(name, init, tp);
    }
  }

  /** A pair whose topic has no entry does not occur in the flattened list. */
  lemma {:induction false} CountInFlattenAbsent(topics: seq<RequestTopic>, tp: TopicPartition)
    requires tp.topic !in Names(topics)
    ensures multiset(Flatten(topics))[tp] == 0
  {
    if topics != [] {
      var init, last := topics[..|topics| - 1], topics[|topics| - 1];
      assert last in topics;
      assert Names(init) <= Names(topics) by {
        forall t | t in init ensures t in topics { }
      }
      CountInFlattenAbsent(init, tp);
      CountInExpand(last.name, last.partitionIndexes, tp);
    }
  }

  /**
   * With distinct names, a pair occurs in the flattened list as often as its
   * partition among the indexes of its topic's entry.
   */
  lemma {:induction false} CountInFlattenPresent(topics: seq<RequestTopic>, e: nat, tp: TopicPartition)
    requires DistinctNames(topics)
    requires e < |topics| && topics[e].name == tp.topic
    ensures multiset(Flatten(topics))[tp] == multiset(topics[e].partitionIndexes)[tp.partition]
  {
    var init, last := topics[..|topics| - 1], topics[|topics| - 1];
    CountInExpand(last.name, last.partitionIndexes, tp);
    if e == |topics| - 1 {
      assert tp.topic !in Names(init) by {
        forall t | t in init ensures t.name != tp.topic {
          var k :| 0 <= k < |init| && init[k] == t;
          assert topics[k] == t;
        }
      }
      CountInFlattenAbsent(init, tp);
    } else {
      assert DistinctNames(init);
      CountInFlattenPresent(init, e, tp);
    }
  }

  /**
   * Grouping keeps every pair: the topics built from a list flatten to the
   * same multiset of (topic, partition) pairs, duplicates included.
   */
  lemma GroupedIsPermutation(ps: seq<TopicPartition>, topics: seq<RequestTopic>)
    requires Grouped(ps, topics)
    ensures multiset(Flatten(topics)) == multiset(ps)
  {
    forall tp ensures multiset(Flatten(topics))[tp] == multiset(ps)[tp] {
      CountInList(ps, tp);
      if tp.topic in TopicNames(ps) {
        assert tp.topic in Names(topics);
        var t :| t in topics && t.name == tp.topic;
        var e :| 0 <= e < |topics| && topics[e] == t;
        CountInFlattenPresent(topics, e, tp);
      } else {
        IndexesOfAbsent(ps, tp.topic);
        CountInFlattenAbsent(topics, tp);
      }
    }
  }

  /** The pairs a grouped request names are exactly the pairs of the input list. */
  lemma GroupedNamesInputPairs(ps: seq<TopicPartition>, topics: seq<RequestTopic>)
    requires Grouped(ps, topics)
    ensures forall tp :: tp in Flatten(topics) <==> tp in ps
  {
    GroupedIsPermutation(ps, topics);
    forall tp ensures tp in Flatten(topics) <==> tp in ps {
      assert tp in Flatten(topics) <==> tp in multiset(Flatten(topics));
      assert tp in ps <==> tp in multiset(ps);
    }
  }

  /**
   * An empty explicit list groups into topics naming no partition: its request
   * is not an all-partitions one (NewBuilder), and `partitions()` gives an
   * empty list, not `null`.
   */
  lemma EmptyListNamesNothing(topics: seq<RequestTopic>)
    requires Grouped([], topics)
    ensures Flatten(topics) == []
  {
  }

  /** A request that `build` accepted can always be given an error response. */
  lemma BuiltRequestHasTopicsBelowV2(b: Builder, version: int16)
    requires Build(b, version).Success?
    ensures var req := Build(b, version).value;
            req.version < 2 ==> req.data.topics.Explicit?
  {
  }

  /** An error response is determined by the request, the throttle time and the error. */
  lemma ErrorResponseDeterministic(
    req: Request, throttleTimeMs: int32, error: Error, r1: Result<OffsetFetchResponse, RequestError>,
    r2: Result<OffsetFetchResponse, RequestError>)
    requires IsErrorResponse(req, throttleTimeMs, error, r1)
    requires IsErrorResponse(req, throttleTimeMs, error, r2)
    ensures r1 == r2
  {
    if 0 <= req.version <= 1 {
      var m1, m2 := r1.value.responseData, r2.value.responseData;
      assert m1.Keys == m2.Keys;
      assert forall tp :: tp in m1 ==> m1[tp] == m2[tp];
      assert m1 == m2;
    }
  }

  /**
   * The partition map of a version 0-1 error response for a request built from
   * an explicit list has exactly the list's pairs as keys.
   */
  lemma ErrorResponseCoversInput(
    ps: seq<TopicPartition>, req: Request, throttleTimeMs: int32, error: Error,
    r: Result<OffsetFetchResponse, RequestError>)
    requires req.data.topics.Explicit? && Grouped(ps, req.data.topics.topics)
    requires 0 <= req.version < 2
    requires IsErrorResponse(req, throttleTimeMs, error, r)
    ensures r.Success? && r.value.responseData.Keys == set tp | tp in ps
  {
    GroupedNamesInputPairs(ps, req.data.topics.topics);
  }
}
