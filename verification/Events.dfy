/** The event model (src/core/events.py): its types, its stream encoding and its
    idempotency key. */
module Events {
  import opened Wrappers
  import opened Text

  datatype EventType =
    | SessionStarted | SessionCompleted
    | TaskCreated | TaskDispatched | TaskCompleted | TaskFailed
    | GateRequested | GateApproved | GateRejected | GateExpired
    | AgentStarted | AgentCompleted | AgentError
    | PatchCreated | PatchApplied | PatchRejected

  datatype Event = Event(
    eventType: EventType,
    sessionId: string,
    timestamp: int,
    eventId: Option<string>,
    epicId: Option<string>,
    taskId: Option<string>,
    gitSha: Option<string>,
    artifactPaths: seq<string>,
    mode: string,
    tenantId: Option<string>,
    key: Option<string>,
    metadata: map<string, string>)

  /** The names of the stream entry's fields. */
  datatype Name =
    | EVENT_TYPE | SESSION_ID | TIMESTAMP | MODE | EPIC_ID | TASK_ID | GIT_SHA
    | ARTIFACT_PATHS | TENANT_ID | IDEMPOTENCY_KEY | METADATA

  /** The JSON and ISO-8601 libraries and the enumeration's value lookup, which the
      model takes as given. */
  datatype Libraries = Libraries(
    typeText: EventType -> string,
    typeOf: string -> Option<EventType>,
    dumps: map<string, string> -> string,
    loads: string -> Option<map<string, string>>,
    isoformat: int -> string,
    fromIso: string -> Option<int>)

  /** What the round trips assume of the libraries: reading undoes writing, and no
      written text is empty. */
  ghost predicate Inverse(lib: Libraries)
  {
    && (forall t :: lib.typeOf(lib.typeText(t)) == Some(t))
    && (forall m :: lib.loads(lib.dumps(m)) == Some(m) && lib.dumps(m) != "")
    && (forall t :: lib.fromIso(lib.isoformat(t)) == Some(t) && lib.isoformat(t) != "")
  }

  datatype EventError = BlankSession | UnknownType(text: string) | BadTimestamp(text: string)

  /** What `str.strip` takes for white space. */
  predicate IsSpace(c: char)
  {
    || '\t' <= c <= '\r' || '\U{1c}' <= c <= ' ' || '\U{2000}' <= c <= '\U{200a}'
    || c in ['\U{85}', '\U{a0}', '\U{1680}', '\U{2028}', '\U{2029}', '\U{202f}', '\U{205f}', '\U{3000}']
  }

  predicate Blank(s: string)
  {
    forall c :: c in s ==> IsSpace(c)
  }

  // ---- to_stream_dict ----

  /** What the stream entry holds under each name, if anything. */
  function FieldText(e: Event, name: Name, lib: Libraries): Option<string>
  {
    match name
    case EVENT_TYPE => Some(lib.typeText(e.eventType))
    case SESSION_ID => Some(e.sessionId)
    case TIMESTAMP => Some(lib.isoformat(e.timestamp))
    case MODE => Some(e.mode)
    case EPIC_ID => NonEmpty(e.epicId)
    case TASK_ID => NonEmpty(e.taskId)
    case GIT_SHA => NonEmpty(e.gitSha)
    case ARTIFACT_PATHS => if e.artifactPaths == [] then None else Some(Join(e.artifactPaths, ','))
    case TENANT_ID => NonEmpty(e.tenantId)
    case IDEMPOTENCY_KEY => NonEmpty(e.key)
    case METADATA => if e.metadata == map[] then None else Some(lib.dumps(e.metadata))
  }

  function NonEmpty(o: Option<string>): Option<string>
  {
    if o == Some("") then None else o
  }

  function Encoding(e: Event, lib: Libraries): map<Name, string>
  {
    map name: Name | FieldText(e, name, lib).Some? :: FieldText(e, name, lib).value
  }

  /** The order in which the encoder visits the fields. */
  function Rank(name: Name): nat
  {
    match name
    case EVENT_TYPE => 0 case SESSION_ID => 0 case TIMESTAMP => 0 case MODE => 0
    case EPIC_ID => 1 case TASK_ID => 2 case GIT_SHA => 3 case ARTIFACT_PATHS => 4
    case TENANT_ID => 5 case IDEMPOTENCY_KEY => 6 case METADATA => 7
  }

  /** The entry once the fields up to the given rank have been visited. */
  function Part(e: Event, lib: Libraries, upTo: nat): map<Name, string>
  {
    map name: Name | Rank(name) <= upTo && FieldText(e, name, lib).Some? :: FieldText(e, name, lib).value
  }

  function Put(data: map<Name, string>, name: Name, text: Option<string>): map<Name, string>
  {
    if text.None? then data else data[name := text.value]
  }

  lemma PartGrows(e: Event, lib: Libraries, name: Name)
    requires Rank(name) > 0
    ensures Part(e, lib, Rank(name)) == Put(Part(e, lib, Rank(name) - 1), name, FieldText(e, name, lib))
    ensures Part(e, lib, 7) == Encoding(e, lib)
  {
  }

  /** The entry has the field if the text is there and not empty. */
  predicate Holds(data: map<Name, string>, name: Name, text: Option<string>)
  {
    if text.GetOr("") == "" then name !in data else name in data && data[name] == text.value
  }

  method ToStreamDict(e: Event, lib: Libraries) returns (data: map<Name, string>)
    ensures data == Encoding(e, lib)
    ensures Get(data, EVENT_TYPE) == Some(lib.typeText(e.eventType)) && Get(data, SESSION_ID) == Some(e.sessionId)
    ensures Get(data, TIMESTAMP) == Some(lib.isoformat(e.timestamp)) && Get(data, MODE) == Some(e.mode)
    ensures Holds(data, EPIC_ID, e.epicId) && Holds(data, TASK_ID, e.taskId) && Holds(data, GIT_SHA, e.gitSha)
    ensures Holds(data, TENANT_ID, e.tenantId) && Holds(data, IDEMPOTENCY_KEY, e.key)
    ensures Get(data, ARTIFACT_PATHS) == if e.artifactPaths == [] then None else Some(Join(e.artifactPaths, ','))
    ensures Get(data, METADATA) == if e.metadata == map[] then None else Some(lib.dumps(e.metadata))
  {
    data := PutRequired(e, lib);
    data := PutText(e, lib, data, EPIC_ID, e.epicId);
    data := PutText(e, lib, data, TASK_ID, e.taskId);
    data := PutText(e, lib, data, GIT_SHA, e.gitSha);
    data := PutPaths(e, lib, data);
    data := PutText(e, lib, data, TENANT_ID, e.tenantId);
    data := PutText(e, lib, data, IDEMPOTENCY_KEY, e.key);
    data := PutMetadata(e, lib, data);
  }

  method PutRequired(e: Event, lib: Libraries) returns (data: map<Name, string>)
    ensures data == Part(e, lib, 0)
  {
    data := map[EVENT_TYPE := lib.typeText(e.eventType),
                SESSION_ID := e.sessionId,
                TIMESTAMP := lib.isoformat(e.timestamp),
                MODE := e.mode];
  }

  method PutPaths(e: Event, lib: Libraries, data: map<Name, string>) returns (grown: map<Name, string>)
    requires data == Part(e, lib, 3)
    ensures grown == Part(e, lib, 4)
  {
    PartGrows(e, lib, ARTIFACT_PATHS);
    grown := if e.artifactPaths != [] then data[ARTIFACT_PATHS := Join(e.artifactPaths, ',')] else data;
  }

  method PutMetadata(e: Event, lib: Libraries, data: map<Name, string>) returns (grown: map<Name, string>)
    requires data == Part(e, lib, 6)
    ensures grown == Encoding(e, lib)
  {
    PartGrows(e, lib, METADATA);
    grown := if e.metadata != map[] then data[METADATA := lib.dumps(e.metadata)] else data;
  }

  /** One `if value: data[name] = value` of the encoder. */
  method PutText(e: Event, lib: Libraries, data: map<Name, string>, name: Name, value: Option<string>)
    returns (grown: map<Name, string>)
    requires FieldText(e, name, lib) == NonEmpty(value)
    requires Rank(name) > 0 && data == Part(e, lib, Rank(name) - 1)
    ensures grown == Part(e, lib, Rank(name))
  {
    PartGrows(e, lib, name);
    grown := if value.GetOr("") != "" then data[name := value.value] else data;
  }

  // ---- from_stream_dict ----

  function Get(data: map<Name, string>, name: Name): Option<string>
  {
    if name in data then Some(data[name]) else None
  }

  function FromStreamDict(eventId: string, data: map<Name, string>, lib: Libraries, now: int)
    : Result<Event, EventError>
  {
    var typeText := Get(data, EVENT_TYPE).GetOr(lib.typeText(TaskCreated));
    var stampText := Get(data, TIMESTAMP).GetOr("");
    var stamp := if stampText == "" then Some(now) else lib.fromIso(stampText);
    var metaText := Get(data, METADATA).GetOr("");
    var session := Get(data, SESSION_ID).GetOr("");
    if stamp.None? then Err(BadTimestamp(stampText))
    else if lib.typeOf(typeText).None? then Err(UnknownType(typeText))
    else if Blank(session) then Err(BlankSession)
    else Ok(Event(
      lib.typeOf(typeText).value, session, stamp.value, Some(eventId),
      Get(data, EPIC_ID), Get(data, TASK_ID), Get(data, GIT_SHA),
      ReadList(Get(data, ARTIFACT_PATHS).GetOr("")),
      Get(data, MODE).GetOr("normal"), Get(data, TENANT_ID), Get(data, IDEMPOTENCY_KEY),
      if metaText == "" then map[] else lib.loads(metaText).GetOr(map[])))
  }

  /** The optional texts survive exactly when none is present and empty. */
  predicate StorableOption(o: Option<string>)
  {
    o != Some("")
  }

  predicate StorableList(parts: seq<string>)
  {
    parts != [""] && Free(parts, ',')
  }

  predicate Storable(e: Event)
  {
    && StorableOption(e.epicId) && StorableOption(e.taskId) && StorableOption(e.gitSha)
    && StorableOption(e.tenantId) && StorableOption(e.key)
    && StorableList(e.artifactPaths)
  }

  /** An event read back from its stream entry is the event published, under the
      entry's id, exactly when its optional texts and its paths are storable. */
  lemma StreamRoundTrip(e: Event, eventId: string, lib: Libraries, now: int)
    requires Inverse(lib) && !Blank(e.sessionId)
    ensures FromStreamDict(eventId, Encoding(e, lib), lib, now) == Ok(e.(eventId := Some(eventId)))
            <==> Storable(e)
  {
    var data := Encoding(e, lib);
    assert forall name :: Get(data, name) == FieldText(e, name, lib);
    assert lib.typeOf(lib.typeText(e.eventType)) == Some(e.eventType);
    assert lib.fromIso(lib.isoformat(e.timestamp)) == Some(e.timestamp);
    assert lib.loads(lib.dumps(e.metadata)) == Some(e.metadata);
    assert Get(data, ARTIFACT_PATHS).GetOr("") == Join(e.artifactPaths, ',');
    ListRoundTrip(e.artifactPaths);
  }

  /** Reading fails exactly for a time that does not parse, an unknown type and a blank or
      missing session. */
  lemma ReadingFailsExactly(eventId: string, data: map<Name, string>, lib: Libraries, now: int)
    requires Inverse(lib)
    ensures FromStreamDict(eventId, data, lib, now).Err? <==>
      || (TIMESTAMP in data && data[TIMESTAMP] != "" && lib.fromIso(data[TIMESTAMP]).None?)
      || (EVENT_TYPE in data && lib.typeOf(data[EVENT_TYPE]).None?)
      || SESSION_ID !in data || Blank(data[SESSION_ID])
  {
    assert lib.typeOf(lib.typeText(TaskCreated)) == Some(TaskCreated);
  }

  /** An entry with a session and nothing else is a creation, now, in normal mode. */
  lemma MissingFieldsReadAs(eventId: string, session: string, lib: Libraries, now: int)
    requires Inverse(lib) && !Blank(session)
    ensures FromStreamDict(eventId, map[SESSION_ID := session], lib, now)
         == Ok(Event(TaskCreated, session, now, Some(eventId), None, None, None, [], "normal", None, None, map[]))
  {
    assert lib.typeOf(lib.typeText(TaskCreated)) == Some(TaskCreated);
    assert Get(map[SESSION_ID := session], ARTIFACT_PATHS).GetOr("") == "";
  }

  // ---- idempotency keys ----

  function Present(o: Option<string>): seq<string>
  {
    if o.GetOr("") == "" then [] else [o.value]
  }

  /** The components that are present, joined with colons. The hash over them is an unknown
      function. */
  function KeyText(eventType: string, sessionId: string, taskId: Option<string>, epicId: Option<string>,
                   extra: Option<string>): string
  {
    Join([eventType, sessionId] + Present(taskId) + Present(epicId) + Present(extra), ':')
  }

  /** What the key of an event covers: its type, session, task and epic. */
  function KeyContent(e: Event, typeText: string): (content: string)
    ensures content == Join([typeText, e.sessionId] + Present(e.taskId) + Present(e.epicId), ':')
  {
    var named := [typeText, e.sessionId] + Present(e.taskId) + Present(e.epicId);
    assert named + Present(None) == named;
    KeyText(typeText, e.sessionId, e.taskId, e.epicId, None)
  }

  method GenerateIdempotencyKey(eventType: string, sessionId: string, taskId: Option<string>,
                                epicId: Option<string>, extra: Option<string>, hash: string -> string)
    returns (key: string)
    ensures key == hash(KeyText(eventType, sessionId, taskId, epicId, extra))
  {
    var components := [eventType, sessionId];
    if taskId.GetOr("") != "" {
      components := components + [taskId.value];
    }
    if epicId.GetOr("") != "" {
      components := components + [epicId.value];
    }
    if extra.GetOr("") != "" {
      components := components + [extra.value];
    }
    key := hash(Join(components, ':'));
    assert components == [eventType, sessionId] + Present(taskId) + Present(epicId) + Present(extra);
  }

  /** The key covers the components that are present, in their order. */
  lemma KeyCoversInOrder(eventType: string, sessionId: string, task: string, epic: string, extra: string)
    requires Free([eventType, sessionId, task, epic, extra], ':') && task != "" && epic != "" && extra != ""
    ensures Split(KeyText(eventType, sessionId, Some(task), Some(epic), Some(extra)), ':') == [eventType, sessionId, task, epic, extra]
    ensures Split(KeyText(eventType, sessionId, Some(task), Some(epic), None), ':') == [eventType, sessionId, task, epic]
    ensures Split(KeyText(eventType, sessionId, None, Some(epic), None), ':') == [eventType, sessionId, epic]
  {
    assert [eventType, sessionId] + [task] + [epic] + [extra] == [eventType, sessionId, task, epic, extra];
    assert [eventType, sessionId] + [task] + [epic] + [] == [eventType, sessionId, task, epic];
    assert [eventType, sessionId] + [] + [epic] + [] == [eventType, sessionId, epic];
    SplitOfFreeJoin([eventType, sessionId, task, epic, extra], ':');
    SplitOfFreeJoin([eventType, sessionId, task, epic], ':');
    SplitOfFreeJoin([eventType, sessionId, epic], ':');
  }

  lemma {:induction false} JoinIsInjective(a: seq<string>, b: seq<string>, sep: char)
    requires a != [] && b != [] && Free(a, sep) && Free(b, sep)
    ensures Join(a, sep) == Join(b, sep) <==> a == b
  {
    SplitOfFreeJoin(a, sep);
    SplitOfFreeJoin(b, sep);
  }

  /** Absent and empty are the same to the key. */
  predicate SameText(a: Option<string>, b: Option<string>)
  {
    a.GetOr("") == b.GetOr("")
  }

  /** One names a task and no epic, the other the same as an epic and no task. */
  predicate Swapped(e: Event, f: Event)
  {
    e.epicId.GetOr("") == "" && f.taskId.GetOr("") == "" && e.taskId.GetOr("") == f.epicId.GetOr("")
  }

  /** Two events share what their keys cover exactly when type and session agree and so do
      task and epic, each, or a task without an epic meets an epic without a task of the
      same name. The rest of an event plays no part. */
  lemma KeyContentsAgree(e: Event, f: Event, eType: string, fType: string)
    requires Free([eType, e.sessionId, e.taskId.GetOr(""), e.epicId.GetOr("")], ':')
    requires Free([fType, f.sessionId, f.taskId.GetOr(""), f.epicId.GetOr("")], ':')
    ensures KeyContent(e, eType) == KeyContent(f, fType) <==>
      eType == fType && e.sessionId == f.sessionId &&
      ((SameText(e.taskId, f.taskId) && SameText(e.epicId, f.epicId)) || Swapped(e, f) || Swapped(f, e))
  {
    var a := [eType, e.sessionId] + Present(e.taskId) + Present(e.epicId);
    var b := [fType, f.sessionId] + Present(f.taskId) + Present(f.epicId);
    FreeParts(e, eType);
    FreeParts(f, fType);
    JoinIsInjective(a, b, ':');
    assert a[0] == eType && b[0] == fType && a[1] == e.sessionId && b[1] == f.sessionId;
    assert a[2..] == Present(e.taskId) + Present(e.epicId) && b[2..] == Present(f.taskId) + Present(f.epicId);
    assert a == a[..2] + a[2..] && b == b[..2] + b[2..];
    NamesAgree(e, f);
  }

  lemma FreeParts(e: Event, eType: string)
    requires Free([eType, e.sessionId, e.taskId.GetOr(""), e.epicId.GetOr("")], ':')
    ensures Free([eType, e.sessionId] + Present(e.taskId) + Present(e.epicId), ':')
  {
    var given := [eType, e.sessionId, e.taskId.GetOr(""), e.epicId.GetOr("")];
    assert given[0] == eType && given[1] == e.sessionId;
    assert given[2] == e.taskId.GetOr("") && given[3] == e.epicId.GetOr("");
    forall p | p in [eType, e.sessionId] + Present(e.taskId) + Present(e.epicId) ensures p in given {
    }
  }

  lemma NamesAgree(e: Event, f: Event)
    ensures Present(e.taskId) + Present(e.epicId) == Present(f.taskId) + Present(f.epicId) <==>
      (SameText(e.taskId, f.taskId) && SameText(e.epicId, f.epicId)) || Swapped(e, f) || Swapped(f, e)
  {
    var a, b := Present(e.taskId) + Present(e.epicId), Present(f.taskId) + Present(f.epicId);
    assert |a| == |Present(e.taskId)| + |Present(e.epicId)| && |b| == |Present(f.taskId)| + |Present(f.epicId)|;
    if a == b && |a| > 0 {
      assert a[0] == b[0] && a[|a| - 1] == b[|b| - 1];
    }
  }

  /** With colons in them, ids run together: a task a:b is a task a of an epic b. */
  lemma ColonsMixKeysUp(e: Event, a: string, b: string, typeText: string)
    requires a != "" && b != ""
    ensures KeyContent(e.(taskId := Some(a + ":" + b), epicId := None), typeText)
         == KeyContent(e.(taskId := Some(a), epicId := Some(b)), typeText)
  {
    var whole, parts := [a + ":" + b], [a, b];
    assert parts[1..] == [b];
    assert Join(whole, ':') == Join(parts, ':');
    JoinAfter(e.sessionId, whole, ':');
    JoinAfter(e.sessionId, parts, ':');
    JoinAfter(typeText, [e.sessionId] + whole, ':');
    JoinAfter(typeText, [e.sessionId] + parts, ':');
    assert [typeText, e.sessionId] + whole + [] == [typeText] + ([e.sessionId] + whole);
    assert [typeText, e.sessionId] + [a] + [b] == [typeText] + ([e.sessionId] + parts);
  }

  lemma JoinAfter(p: string, rest: seq<string>, sep: char)
    requires rest != []
    ensures Join([p] + rest, sep) == p + [sep] + Join(rest, sep)
  {
    assert ([p] + rest)[1..] == rest;
  }

  /** The event as publish_event_model appends it: a missing or empty key is generated. */
  function Stamped(e: Event, lib: Libraries, hash: string -> string): Event
  {
    if e.key.GetOr("") == "" then e.(key := Some(hash(KeyContent(e, lib.typeText(e.eventType))))) else e
  }

  /** `publish_event_model`, up to the XADD: the stamped event, and the entry that holds it. A
      consumer reads the stamped event back, under the entry's id, exactly when it is storable. */
  method PublishEventModel(e: Event, lib: Libraries, hash: string -> string) returns (stamped: Event, data: map<Name, string>)
    ensures stamped == Stamped(e, lib, hash) && stamped == e.(key := stamped.key)
    ensures stamped.key == if e.key.GetOr("") != "" then e.key
                           else Some(hash(KeyText(lib.typeText(e.eventType), e.sessionId, e.taskId, e.epicId, None)))
    ensures Inverse(lib) && !Blank(e.sessionId) ==> forall eventId, now ::
      FromStreamDict(eventId, data, lib, now) == Ok(stamped.(eventId := Some(eventId))) <==> Storable(stamped)
  {
    stamped := e;
    if e.key.GetOr("") == "" {
      var key := GenerateIdempotencyKey(lib.typeText(e.eventType), e.sessionId, e.taskId, e.epicId, None, hash);
      stamped := e.(key := Some(key));
    }
    data := ToStreamDict(stamped, lib);
    if Inverse(lib) && !Blank(e.sessionId) {
      forall eventId, now ensures FromStreamDict(eventId, data, lib, now) == Ok(stamped.(eventId := Some(eventId))) <==> Storable(stamped) {
        StreamRoundTrip(stamped, eventId, lib, now);
      }
    }
  }
}
