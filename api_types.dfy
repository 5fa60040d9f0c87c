/**
 * The request records of the MemMachine API and the JSON objects they become
 * when passed as a request body. Response records are not modelled: the client
 * hands the parsed payload back unchanged.
 */
module ApiTypes {
  import opened Values

  /** An optional, nullable field: left out, explicitly `null`, or present. */
  datatype Field<+T> = Absent | Null | Present(value: T)

  /** The object entry a field contributes: none when absent. */
  function Entry<T>(key: string, f: Field<T>, toJson: T -> Json): map<string, Json> {
    match f
    case Absent => map[]
    case Null => map[key := JNull]
    case Present(v) => map[key := toJson(v)]
  }

  function StringArray(xs: seq<string>): Json {
    JArray(seq(|xs|, i requires 0 <= i < |xs| => JString(xs[i])))
  }

  function NumberArray(xs: seq<int>): Json {
    JArray(seq(|xs|, i requires 0 <= i < |xs| => JNumber(xs[i])))
  }

  /** `SessionData`: the scope of a memory operation. */
  datatype SessionData = SessionData(
    groupId: Field<string>,
    agentId: Field<seq<string>>,
    userId: Field<seq<string>>,
    sessionId: string)
  {
    function ToJson(): Json {
      JObject(map["session_id" := JString(sessionId)]
              + Entry("group_id", groupId, s => JString(s))
              + Entry("agent_id", agentId, StringArray)
              + Entry("user_id", userId, StringArray))
    }
  }

  /** Episode content: raw text or an embedding vector. */
  datatype EpisodeContent = TextContent(text: string) | Embedding(vector: seq<int>)

  /** `NewEpisode` */
  datatype NewEpisode = NewEpisode(
    session: SessionData,
    producer: string,
    producedFor: string,
    episodeContent: EpisodeContent,
    episodeType: string,
    metadata: Field<map<string, Json>>)
  {
    function ToJson(): Json {
      JObject(map["session" := session.ToJson(),
                  "producer" := JString(producer),
                  "produced_for" := JString(producedFor),
                  "episode_content" := (match episodeContent
                                        case TextContent(t) => JString(t)
                                        case Embedding(v) => NumberArray(v)),
                  "episode_type" := JString(episodeType)]
              + Entry("metadata", metadata, m => JObject(m)))
    }
  }

  /** `SearchQuery` */
  datatype SearchQuery = SearchQuery(
    session: SessionData,
    query: string,
    filter: Field<map<string, Json>>,
    limit: Field<int>)
  {
    function ToJson(): Json {
      JObject(map["session" := session.ToJson(), "query" := JString(query)]
              + Entry("filter", filter, m => JObject(m))
              + Entry("limit", limit, n => JNumber(n)))
    }
  }

  /** `DeleteDataRequest` */
  datatype DeleteDataRequest = DeleteDataRequest(session: SessionData) {
    function ToJson(): Json {
      JObject(map["session" := session.ToJson()])
    }
  }
}
