/**
 * The chat endpoint of the web server: finding or creating the caller's session, rejecting
 * an empty message, and collecting the responses of the streamed events so that each message
 * id is answered once per session. The graph's stream and the uuid generator are parameters.
 */
module ChatServer {
  import opened Common
  import opened PyStrings
  import opened Dialog

  /** A session: the message ids already answered and the configuration of its thread. */
  datatype Session = Session(printed: set<string>, patientId: string, threadId: string)

  /** A streamed message: its `id` (falsy when missing), its content and its tool calls. */
  datatype ServerMessage = ServerMessage(id: Option<string>, content: Content, toolCalls: seq<ToolCall>)

  /** The `messages` entry of an event: absent or falsy, a single message, or a list. */
  datatype ServerField = NoMessages | Single(message: ServerMessage) | Many(messages: seq<ServerMessage>)

  /** One entry of the `responses` list. */
  datatype ResponseEntry = ToolResponse(toolCallId: string, content: Content) | Plain(content: Content)

  /** The JSON the endpoint returns. */
  datatype ChatReply = ChatError(error: string) | ChatResponses(sessionId: string, responses: seq<ResponseEntry>)

  const EmptyMessage: string := "Empty message"

  /** The session id the request ends up with, and the session table after any creation. */
  datatype Resolved = Resolved(sessionId: string, sessions: map<string, Session>)

  /** The session handling of `chat`: a falsy or 'null' id gets a fresh session, an unknown id a new one. */
  function ResolveSession(requested: Option<string>, freshId: string, patientId: string,
                          sessions: map<string, Session>): (r: Resolved)
    ensures r.sessionId in r.sessions
    ensures !Truthy(requested) || requested.value == "null" ==>
              r.sessionId == freshId && r.sessions == sessions[freshId := Session({}, patientId, freshId)]
    ensures Truthy(requested) && requested.value != "null" && requested.value !in sessions ==>
              r.sessionId == requested.value && r.sessions == sessions[requested.value := Session({}, patientId, requested.value)]
    ensures Truthy(requested) && requested.value != "null" && requested.value in sessions ==>
              r.sessionId == requested.value && r.sessions == sessions
  {
    if !Truthy(requested) || requested.value == "null" then
      Resolved(freshId, sessions[freshId := Session({}, patientId, freshId)])
    else if requested.value !in sessions then
      Resolved(requested.value, sessions[requested.value := Session({}, patientId, requested.value)])
    else Resolved(requested.value, sessions)
  }

  /** A session that was created has a thread named after it and nothing answered yet; no other session changes. */
  lemma CreatedSessionIsFresh(requested: Option<string>, freshId: string, patientId: string, sessions: map<string, Session>)
    ensures var r := ResolveSession(requested, freshId, patientId, sessions);
            && (!Truthy(requested) || requested.value == "null" || requested.value !in sessions ==>
                  r.sessions[r.sessionId].threadId == r.sessionId && r.sessions[r.sessionId].printed == {})
            && (forall k :: k in sessions && k != r.sessionId ==> k in r.sessions && r.sessions[k] == sessions[k])
            && r.sessions.Keys == sessions.Keys + {r.sessionId}
  {
  }

  /** The messages `chat` walks through for one event. */
  function MessagesOf(f: ServerField): seq<ServerMessage>
  {
    match f
    case NoMessages => []
    case Single(m) => [m]
    case Many(ms) => ms
  }

  /** All messages of the stream, event after event. */
  function Flatten(events: seq<ServerField>): (r: seq<ServerMessage>)
  {
    if |events| == 0 then []
    else Flatten(events[..|events| - 1]) + MessagesOf(events[|events| - 1])
  }

  /** What one processed message adds: one entry per tool call in call order, or its content. */
  function Entries(m: ServerMessage): (r: seq<ResponseEntry>)
    ensures |m.toolCalls| > 0 ==> |r| == |m.toolCalls|
    ensures |m.toolCalls| > 0 ==> forall i :: 0 <= i < |r| ==> r[i] == ToolResponse(m.toolCalls[i].id, m.content)
    ensures |m.toolCalls| == 0 ==> r == [Plain(m.content)]
  {
    if |m.toolCalls| > 0 then seq(|m.toolCalls|, i requires 0 <= i < |m.toolCalls| => ToolResponse(m.toolCalls[i].id, m.content))
    else [Plain(m.content)]
  }

  /** The responses so far and the session's answered ids. */
  datatype Collected = Collected(responses: seq<ResponseEntry>, printed: set<string>)

  /** A message is skipped when its id is truthy and already answered. */
  predicate Skipped(m: ServerMessage, printed: set<string>)
  {
    Truthy(m.id) && m.id.value in printed
  }

  /** The responses of the messages in order, each message seen against the ids answered before it. */
  function Collect(msgs: seq<ServerMessage>, printed: set<string>): Collected
  {
    if |msgs| == 0 then Collected([], printed)
    else
      var before := Collect(msgs[..|msgs| - 1], printed);
      var m := msgs[|msgs| - 1];
      if Skipped(m, before.printed) then before
      else Collected(before.responses + Entries(m), if Truthy(m.id) then before.printed + {m.id.value} else before.printed)
  }

  /** The answered ids only grow, and every truthy id of the stream ends up among them. */
  lemma {:induction false} CollectRecordsIds(msgs: seq<ServerMessage>, printed: set<string>)
    ensures printed <= Collect(msgs, printed).printed
    ensures forall i :: 0 <= i < |msgs| && Truthy(msgs[i].id) ==> msgs[i].id.value in Collect(msgs, printed).printed
  {
    if |msgs| > 0 {
      var front := msgs[..|msgs| - 1];
      CollectRecordsIds(front, printed);
      forall i | 0 <= i < |msgs| - 1 && Truthy(msgs[i].id)
        ensures msgs[i].id.value in Collect(msgs, printed).printed
      {
        assert front[i] == msgs[i];
      }
    }
  }

  /** Messages whose ids were all answered already add nothing. */
  lemma {:induction false} AnsweredAddNothing(msgs: seq<ServerMessage>, printed: set<string>)
    requires forall i :: 0 <= i < |msgs| ==> Truthy(msgs[i].id) && msgs[i].id.value in printed
    ensures Collect(msgs, printed) == Collected([], printed)
  {
    if |msgs| > 0 {
      var front := msgs[..|msgs| - 1];
      forall i | 0 <= i < |front| ensures Truthy(front[i].id) && front[i].id.value in printed {
        assert front[i] == msgs[i];
      }
      AnsweredAddNothing(front, printed);
    }
  }

  /** Streaming the same messages with ids into the session a second time answers nothing. */
  lemma SecondStreamIsSilent(msgs: seq<ServerMessage>, printed: set<string>)
    requires forall i :: 0 <= i < |msgs| ==> Truthy(msgs[i].id)
    ensures var first := Collect(msgs, printed);
            Collect(msgs, first.printed) == Collected([], first.printed)
  {
    CollectRecordsIds(msgs, printed);
    AnsweredAddNothing(msgs, Collect(msgs, printed).printed);
  }

  /** The session table of the server. */
  class Server {
    var sessions: map<string, Session>

    constructor()
      ensures sessions == map[]
    {
      sessions := map[];
    }

    /**
     * `chat`: `rawMessage` is the request's `message` ("" when missing), `freshId` and
     * `patientId` are the uuids it would draw, and `events` the `messages` of the streamed events.
     */
    method Chat(rawMessage: string, requested: Option<string>, freshId: string, patientId: string,
                events: seq<ServerField>) returns (reply: ChatReply)
      modifies this
      ensures var resolved := ResolveSession(requested, freshId, patientId, old(sessions));
              var id := resolved.sessionId;
              if Trim(rawMessage) == "" then
                reply == ChatError(EmptyMessage) && sessions == resolved.sessions
              else
                var c := Collect(Flatten(events), resolved.sessions[id].printed);
                && reply == ChatResponses(id, c.responses)
                && sessions == resolved.sessions[id := resolved.sessions[id].(printed := c.printed)]
    {
      var sessionId: string;
      if !Truthy(requested) || requested.value == "null" {
        sessionId := freshId;
        sessions := sessions[sessionId := Session({}, patientId, sessionId)];
      } else {
        sessionId := requested.value;
        if sessionId !in sessions {
          sessions := sessions[sessionId := Session({}, patientId, sessionId)];
        }
      }
      if Trim(rawMessage) == "" {
        return ChatError(EmptyMessage);
      }
      var session := sessions[sessionId];
      var responses, printed := CollectResponses(events, session.printed);
      sessions := sessions[sessionId := session.(printed := printed)];
      reply := ChatResponses(sessionId, responses);
    }
  }

  /** The response loop of `chat`, over the events and the messages of each. */
  method CollectResponses(events: seq<ServerField>, start: set<string>) returns (responses: seq<ResponseEntry>, printed: set<string>)
    ensures Collected(responses, printed) == Collect(Flatten(events), start)
  {
    printed := start;
    responses := [];
    var i := 0;
    while i < |events|
      invariant 0 <= i <= |events|
      invariant Collected(responses, printed) == Collect(Flatten(events[..i]), start)
    {
      FlattenStep(events, i);
      var msgs := MessagesOf(events[i]);
      ghost var seen := Flatten(events[..i]);
      var j := 0;
      assert seen + msgs[..0] == seen;
      while j < |msgs|
        invariant 0 <= j <= |msgs|
        invariant Collected(responses, printed) == Collect(seen + msgs[..j], start)
      {
        CollectStep(seen, msgs, j, start);
        var msg := msgs[j];
        var msgId := msg.id;
        if !(Truthy(msgId) && msgId.value in printed) {
          responses := AppendEntries(responses, msg);
          if Truthy(msgId) {
            printed := printed + {msgId.value};
          }
        }
        j := j + 1;
      }
      assert msgs[..j] == msgs;
      i := i + 1;
    }
    assert events[..i] == events;
  }

  /** The stream up to one more event is the stream so far followed by that event's messages. */
  lemma FlattenStep(events: seq<ServerField>, i: nat)
    requires i < |events|
    ensures Flatten(events[..i + 1]) == Flatten(events[..i]) + MessagesOf(events[i])
  {
    assert events[..i + 1][..i] == events[..i];
  }

  /** One more message is collected against the ids answered before it. */
  lemma CollectStep(seen: seq<ServerMessage>, msgs: seq<ServerMessage>, j: nat, start: set<string>)
    requires j < |msgs|
    ensures var before := Collect(seen + msgs[..j], start);
            var m := msgs[j];
            Collect(seen + msgs[..j + 1], start) ==
              if Skipped(m, before.printed) then before
              else Collected(before.responses + Entries(m), if Truthy(m.id) then before.printed + {m.id.value} else before.printed)
  {
    assert (seen + msgs[..j + 1])[..|seen| + j] == seen + msgs[..j];
  }

  /** The inner branch of `chat`: one response per tool call, or the content itself. */
  method AppendEntries(responses: seq<ResponseEntry>, msg: ServerMessage) returns (r: seq<ResponseEntry>)
    ensures r == responses + Entries(msg)
  {
    r := responses;
    if |msg.toolCalls| > 0 {
      var k := 0;
      while k < |msg.toolCalls|
        invariant 0 <= k <= |msg.toolCalls|
        invariant r == responses + Entries(msg)[..k]
      {
        r := r + [ToolResponse(msg.toolCalls[k].id, msg.content)];
        k := k + 1;
      }
      assert Entries(msg)[..k] == Entries(msg);
    } else {
      r := r + [Plain(msg.content)];
    }
  }
}
