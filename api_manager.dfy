/** The status client of the recorder: maps the outcome of one request to
    `channel_view/<channelId>` to an info record. The request itself is an
    input (`FetchOutcome`); nothing here performs I/O. */
module ApiManager {
  import opened Js

  const BASE_URL := "https://apicdn.mixlr.com/v3/channel_view/"
  const STATUS_PREFIX := "API request failed with status "
  /** The TypeError of calling `find` on a value that is not an array (V8 wording). */
  const FIND_NOT_A_FUNCTION := "data.included?.find is not a function"

  /** What `fetch(url)` and `response.json()` produced. */
  datatype FetchOutcome =
    | NotOk(status: nat)        // the response arrived with `ok` false
    | Threw(message: string)    // `fetch` or `response.json()` rejected
    | Body(data: Json)          // the parsed body of an ok response

  /** The record `getStreamInfo` resolves to; `None` fields are absent. */
  datatype Info = Info(
    live: bool,
    url: Option<string>,
    name: string,
    channelId: string,
    listenerCount: Option<int>,
    error: Option<string>)

  function RequestUrl(channelId: string): (r: string)
    ensures |r| == |BASE_URL| + |channelId| && r[..|BASE_URL|] == BASE_URL && r[|BASE_URL|..] == channelId
  {
    BASE_URL + channelId
  }

  /** The `find` callback, `item.type === 'broadcast' && item.attributes?.live === true`,
      on an item that is not `null`. */
  predicate IsLiveBroadcast(item: Json) {
    Get(Some(item), "type") == Some(JStr("broadcast"))
    && Path(Some(item), ["attributes", "live"]) == Some(JBool(true))
  }

  /** `data.included?.find(callback)`: `undefined` when `included` is missing or
      `null`, a TypeError when it is present but not an array. */
  function IncludedFind(data: Option<Json>): (r: Completion<Option<Json>>)
    ensures Nullish(Get(data, "included")) ==> r == Normal(None)
    ensures r == Throw(FIND_NOT_A_FUNCTION) <==> !Nullish(Get(data, "included")) && !Get(data, "included").value.JArr?
    ensures r.Throw? ==> r.message == FIND_NOT_A_FUNCTION || r.message == NULL_ITEM_TYPE
    ensures r.Normal? && r.value.Some? ==>
      var included := Get(data, "included");
      included.Some? && included.value.JArr? && r.value.value in included.value.items && IsLiveBroadcast(r.value.value)
  {
    var included := Get(data, "included");
    if Nullish(included) then Normal(None)
    else if included.value.JArr? then Find(included.value.items, IsLiveBroadcast)
    else Throw(FIND_NOT_A_FUNCTION)
  }

  /** `broadcast?.attributes?.listener_count || 0` for a numeric field. */
  function ListenerCountOf(broadcast: Option<Json>): (c: int)
    ensures c != 0 ==> Path(broadcast, ["attributes", "listener_count"]) == Some(JNum(c))
    ensures forall n :: Path(broadcast, ["attributes", "listener_count"]) == Some(JNum(n)) ==> c == n
    ensures (forall n :: Path(broadcast, ["attributes", "listener_count"]) != Some(JNum(n))) ==> c == 0
  {
    match Path(broadcast, ["attributes", "listener_count"])
    case Some(JNum(n)) => n
    case _ => 0
  }

  function StreamUrlOf(broadcast: Option<Json>): Option<string> {
    TruthyString(Path(broadcast, ["attributes", "progressive_stream_url"]))
  }

  function ErrorInfo(channelId: string, message: string): Info {
    Info(false, None, channelId, channelId, None, Some(message))
  }

  function LiveAttribute(data: Json): Option<Json> {
    Path(Some(data), ["data", "attributes", "live"])
  }

  function Username(data: Json): Option<Json> {
    Path(Some(data), ["data", "attributes", "username"])
  }

  /** `getStreamInfo(channelId)` once the request has produced `outcome`. */
  function GetStreamInfo(channelId: string, outcome: FetchOutcome): (r: Info)
    ensures r.channelId == channelId
    ensures !(r.live && r.error.Some?)
    ensures r.live <==> r.url.Some?
    ensures r.live ==> outcome.Body? && r.url.value != "" && r.listenerCount.Some?
    ensures !r.live ==> r.listenerCount.None?
    ensures r.error.Some? ==> r.name == channelId
    ensures outcome.Body? && r.error.None? ==> r.name == StringOr(Username(outcome.data), channelId)
    ensures outcome.NotOk? ==> !r.live && r.error == Some(STATUS_PREFIX + NatToString(outcome.status))
    ensures outcome.Threw? ==> !r.live && r.error == Some(outcome.message)
  {
    match outcome
    case NotOk(status) => ErrorInfo(channelId, STATUS_PREFIX + NatToString(status))
    case Threw(message) => ErrorInfo(channelId, message)
    case Body(data) =>
      var username := StringOr(Username(data), channelId);
      if !Truthy(LiveAttribute(data)) then Info(false, None, username, channelId, None, None)
      else
        match IncludedFind(Some(data))
        case Throw(message) => ErrorInfo(channelId, message)
        case Normal(broadcast) =>
          match StreamUrlOf(broadcast)
          case Some(url) => Info(true, Some(url), username, channelId, Some(ListenerCountOf(broadcast)), None)
          case None => Info(false, None, username, channelId, None, None)
  }

  /** `live: true` exactly when the channel is live, `included` is an array,
      the first item that stops the `find` is a live broadcast, and that
      broadcast has a stream url; url and listener count are that broadcast's. */
  lemma LiveExactly(channelId: string, data: Json)
    ensures var r := GetStreamInfo(channelId, Body(data));
      var included := Get(Some(data), "included");
      r.live <==>
        Truthy(LiveAttribute(data)) && included.Some? && included.value.JArr?
        && exists i :: FirstDecisive(included.value.items, IsLiveBroadcast, i) && IsLiveBroadcast(included.value.items[i])
                       && StreamUrlOf(Some(included.value.items[i])).Some?
    ensures var r := GetStreamInfo(channelId, Body(data));
      var included := Get(Some(data), "included");
      r.live ==>
        (included.Some? && included.value.JArr? &&
         exists i :: FirstDecisive(included.value.items, IsLiveBroadcast, i) && IsLiveBroadcast(included.value.items[i])
           && r.url == StreamUrlOf(Some(included.value.items[i]))
           && r.listenerCount == Some(ListenerCountOf(Some(included.value.items[i]))))
  {
    var included := Get(Some(data), "included");
    if included.Some? && included.value.JArr? {
      var items := included.value.items;
      FindSpec(items, IsLiveBroadcast);
      forall i | FirstDecisive(items, IsLiveBroadcast, i) && IsLiveBroadcast(items[i])
        ensures items[i] != JNull && Find(items, IsLiveBroadcast) == Normal(Some(items[i]))
      {
        assert Get(Some(JNull), "type").None?;
      }
    }
  }

  /** A successful response reports an error only when the channel is live and
      the `find` over `included` throws. */
  lemma BodyErrorExactly(channelId: string, data: Json)
    ensures var r := GetStreamInfo(channelId, Body(data));
      r.error.Some? <==> Truthy(LiveAttribute(data)) && IncludedFind(Some(data)).Throw?
    ensures var r := GetStreamInfo(channelId, Body(data));
      r.error.Some? ==> r.error.value in {FIND_NOT_A_FUNCTION, NULL_ITEM_TYPE}
  {
    var included := Get(Some(data), "included");
    if !Nullish(included) && included.value.JArr? {
      FindSpec(included.value.items, IsLiveBroadcast);
    }
  }
}
