/** The event hook that turns the host's raw lifecycle events into calls of
    the manager's two entry points. A handler invocation is modelled by the
    list of callbacks it makes, in order. */
module SessionWatcher {
  import opened Wrappers
  import opened Suppression

  const SessionCreatedType: string := "session.created"
  const SessionDeletedType: string := "session.deleted"

  /** The `info` record of an event, every field optional. */
  datatype RawInfo = RawInfo(
    id: Option<string>,
    parentID: Option<string>,
    title: Option<string>,
    metadata: Option<Metadata>)

  /** `properties`, absent or without an `info` record. */
  datatype Properties = Properties(info: Option<RawInfo>)

  datatype Event = Event(eventType: string, properties: Option<Properties>)

  /** One callback made by the hook. */
  datatype Callback = CreatedCall(info: SessionInfo) | DeletedCall(sessionId: string)

  /** `event.properties?.info` */
  function InfoOf(event: Event): Option<RawInfo> {
    if event.properties.Some? then event.properties.value.info else None
  }

  /** First branch: a created event with a truthy id and parentID. */
  function CreatedCalls(event: Event): seq<Callback> {
    if event.eventType == SessionCreatedType then
      var info := InfoOf(event);
      if info.None? || !IsTruthy(info.value.id) || !IsTruthy(info.value.parentID) then []
      else [CreatedCall(SessionInfo(info.value.id.value, info.value.title, info.value.parentID, info.value.metadata))]
    else []
  }

  /** Second branch: a deleted event, when a delete handler is registered
      and the id is truthy. */
  function DeletedCalls(event: Event, hasDeleteHandler: bool): seq<Callback> {
    if event.eventType == SessionDeletedType && hasDeleteHandler then
      var info := InfoOf(event);
      if info.Some? && IsTruthy(info.value.id) then [DeletedCall(info.value.id.value)] else []
    else []
  }

  /** The callbacks made for one event: the two branches run one after the other. */
  function Route(event: Event, hasDeleteHandler: bool): (calls: seq<Callback>)
    ensures |calls| <= 1
    ensures event.eventType != "session.created" && event.eventType != "session.deleted" ==> calls == []
    ensures event.eventType == "session.created" ==>
      (calls != [] <==> InfoOf(event).Some? && IsTruthy(InfoOf(event).value.id) && IsTruthy(InfoOf(event).value.parentID))
    ensures event.eventType == "session.created" && calls != [] ==>
      var info := InfoOf(event).value;
      calls == [CreatedCall(SessionInfo(info.id.value, info.title, info.parentID, info.metadata))]
    ensures event.eventType == "session.deleted" ==>
      (calls != [] <==> hasDeleteHandler && InfoOf(event).Some? && IsTruthy(InfoOf(event).value.id))
    ensures event.eventType == "session.deleted" && calls != [] ==>
      calls == [DeletedCall(InfoOf(event).value.id.value)]
  {
    CreatedCalls(event) + DeletedCalls(event, hasDeleteHandler)
  }

  /** The created event the host would send for a child session. */
  function CreatedEvent(info: SessionInfo): Event {
    Event(SessionCreatedType, Some(Properties(Some(RawInfo(Some(info.id), info.parentID, info.title, info.metadata)))))
  }

  /** Round trip: a child session's created event reaches the manager with
      exactly the session's fields, metadata included. */
  lemma CreatedEventRoundTrip(info: SessionInfo, hasDeleteHandler: bool)
    requires info.id != "" && IsTruthy(info.parentID)
    ensures Route(CreatedEvent(info), hasDeleteHandler) == [CreatedCall(info)]
  {
  }

  /** A created event without a parent id is not a child session and makes no call. */
  lemma NoParentNoCall(info: SessionInfo, hasDeleteHandler: bool)
    requires !IsTruthy(info.parentID)
    ensures Route(CreatedEvent(info), hasDeleteHandler) == []
  {
  }
}
