/**
 * The dialog-routing vocabulary of the hospital support graph: conversation messages,
 * the dialog-state stack and its reducer, the routers that run after each agent turn,
 * the entry and leave nodes, the tool-error fallback and the agent's retry loop.
 * The language model is opaque: a function from the agent's input state to a message.
 */
module Dialog {
  import opened Common

  /** The four values the specialists' entry nodes push. */
  datatype DialogState = Appointment | AiDoctor | Direction | Parking

  /** The string each entry node pushes onto the stack. */
  function StateName(s: DialogState): string
  {
    match s
    case Appointment => "appointment"
    case AiDoctor => "ai_doctor"
    case Direction => "direction"
    case Parking => "parking"
  }

  /** A structured tool-invocation request; its arguments are not modelled. */
  datatype ToolCall = ToolCall(name: string, id: string)

  /** One block of a list-valued message content. */
  datatype ContentBlock = ContentBlock(text: Option<string>)

  /** A message's content: a plain string or a list of content blocks. */
  datatype Content = Text(s: string) | Blocks(blocks: seq<ContentBlock>)

  datatype Message =
    | Human(text: string)
    | Ai(content: Content, toolCalls: seq<ToolCall>)
    | ToolMessage(body: string, toolCallId: string)

  /** The `tool_calls` of a message; messages other than the model's have none. */
  function ToolCallsOf(m: Message): seq<ToolCall>
  {
    if m.Ai? then m.toolCalls else []
  }

  function ContentOf(m: Message): Content
  {
    match m
    case Human(t) => Text(t)
    case Ai(c, _) => c
    case ToolMessage(b, _) => Text(b)
  }

  function Ids(calls: seq<ToolCall>): seq<string>
  {
    seq(|calls|, i requires 0 <= i < |calls| => calls[i].id)
  }

  // ---------------------------------------------------------------------------
  // Tool names bound to each agent

  const CompleteOrEscalate: string := "CompleteOrEscalate"

  const AppointmentSafeTools: seq<string> :=
    ["search_doctors", "search_departments", "search_available_appointments", "get_upcoming_appointments"]
  const AppointmentSensitiveTools: seq<string> :=
    ["book_appointment", "update_appointment", "cancel_appointment"]
  const AiDoctorSafeTools: seq<string> :=
    ["symptom_analysis", "get_patient_medical_history", "search_medical_records"]
  const DirectionTools: seq<string> := ["get_estimated_arrival_time", "get_route_to_hospital"]
  const ParkingSafeTools: seq<string> := ["get_parking_availability"]
  const ParkingSensitiveTools: seq<string> := ["reserve_parking_spot", "cancel_parking_reservation"]
  const PrimaryAssistantTools: seq<string> :=
    ["ToAppointmentAssistant", "ToAIDoctorAssistant", "ToDirectionAssistant", "ToParkingAssistant",
     "search_medical_records", "get_medical_expenses", "tavily_search_results_json"]

  /** The transfer tool the primary assistant calls to enter a specialist. */
  function TransferName(s: DialogState): string
  {
    match s
    case Appointment => "ToAppointmentAssistant"
    case AiDoctor => "ToAIDoctorAssistant"
    case Direction => "ToDirectionAssistant"
    case Parking => "ToParkingAssistant"
  }

  /** Every tool schema the model behind each agent is bound to. */
  function BoundTools(s: Option<DialogState>): seq<string>
  {
    match s
    case None => PrimaryAssistantTools + [CompleteOrEscalate]
    case Some(Appointment) => AppointmentSafeTools + AppointmentSensitiveTools + [CompleteOrEscalate]
    case Some(AiDoctor) => AiDoctorSafeTools + [CompleteOrEscalate]
    case Some(Direction) => DirectionTools + [CompleteOrEscalate]
    case Some(Parking) => ParkingSafeTools + ParkingSensitiveTools + [CompleteOrEscalate]
  }

  /** The safe and sensitive halves of the two split tool sets share no name. */
  lemma SafeSensitiveDisjoint()
    ensures forall n :: n in AppointmentSafeTools ==> n !in AppointmentSensitiveTools
    ensures forall n :: n in ParkingSafeTools ==> n !in ParkingSensitiveTools
    ensures CompleteOrEscalate !in AppointmentSafeTools + ParkingSafeTools
  {
  }

  // ---------------------------------------------------------------------------
  // Graph nodes

  datatype Node =
    | Start
    | FetchUserInfo
    | Enter(s: DialogState)
    | Agent(s: DialogState)
    | SafeTools(s: DialogState)
    | SensitiveTools(s: DialogState)
    | LeaveSkill
    | Primary
    | PrimaryTools
    | End

  /** The name LangGraph knows each node by. */
  function NodeName(n: Node): string
  {
    match n
    case Start => "__start__"
    case FetchUserInfo => "fetch_user_info"
    case Enter(s) => "enter_" + StateName(s)
    case Agent(s) => StateName(s)
    case SafeTools(s) => if s == Direction then "direction_tools" else StateName(s) + "_safe_tools"
    case SensitiveTools(s) => StateName(s) + "_sensitive_tools"
    case LeaveSkill => "leave_skill"
    case Primary => "primary_assistant"
    case PrimaryTools => "primary_assistant_tools"
    case End => "__end__"
  }

  /** The stack holds node names: each pushed value names its specialist's agent node. */
  lemma PushedNamesAreAgentNodes(s: DialogState)
    ensures NodeName(Agent(s)) == StateName(s)
  {
  }

  // ---------------------------------------------------------------------------
  // Dialog stack

  /** A value returned under the `dialog_state` key: the string "pop" or a state to push. */
  datatype StackUpdate = Pop | Push(state: DialogState)

  /** The reducer of the `dialog_state` channel. */
  function UpdateDialogStack(left: seq<DialogState>, right: Option<StackUpdate>): (r: seq<DialogState>)
    ensures right.None? ==> r == left
    ensures right == Some(Pop) ==> |r| == (if |left| == 0 then 0 else |left| - 1) && r == left[..|r|]
    ensures right.Some? && right.value.Push? ==>
              |r| == |left| + 1 && r[..|left|] == left && r[|left|] == right.value.state
  {
    match right
    case None => left
    case Some(Pop) => if |left| == 0 then [] else left[..|left| - 1]
    case Some(Push(x)) => left + [x]
  }

  /** Popping right after a push restores the stack. */
  lemma PushPop(left: seq<DialogState>, x: DialogState)
    ensures UpdateDialogStack(UpdateDialogStack(left, Some(Push(x))), Some(Pop)) == left
  {
    assert (left + [x])[..|left|] == left;
  }

  /** `route_to_workflow`: the active specialist's agent, or the primary assistant. */
  function RouteToWorkflow(dialogState: Option<seq<DialogState>>): (r: Node)
    ensures dialogState.None? || dialogState.value == [] <==> r == Primary
    ensures dialogState.Some? && dialogState.value != [] ==>
              r == Agent(dialogState.value[|dialogState.value| - 1])
  {
    if dialogState.None? || dialogState.value == [] then Primary
    else Agent(dialogState.value[|dialogState.value| - 1])
  }

  /** Entering a specialist makes the next inbound message resume it; leaving resumes the primary assistant. */
  lemma ResumeAfterEnterAndLeave(x: DialogState)
    ensures RouteToWorkflow(Some(UpdateDialogStack([], Some(Push(x))))) == Agent(x)
    ensures RouteToWorkflow(Some(UpdateDialogStack([x], Some(Pop)))) == Primary
  {
  }

  // ---------------------------------------------------------------------------
  // Routers

  /** `tools_condition`: the "tools" branch exactly when the last message carries tool calls. */
  predicate HasToolCalls(last: Message)
  {
    |ToolCallsOf(last)| > 0
  }

  predicate DidCancel(calls: seq<ToolCall>)
  {
    exists i :: 0 <= i < |calls| && calls[i].name == CompleteOrEscalate
  }

  predicate AllNamed(calls: seq<ToolCall>, names: seq<string>)
  {
    forall i :: 0 <= i < |calls| ==> calls[i].name in names
  }

  /** `route_appointment`. */
  function RouteAppointment(last: Message): (r: Node)
    ensures r == End <==> ToolCallsOf(last) == []
    ensures r == LeaveSkill <==>
              exists i :: 0 <= i < |ToolCallsOf(last)| && ToolCallsOf(last)[i].name == CompleteOrEscalate
    ensures r == SafeTools(Appointment) <==>
              ToolCallsOf(last) != [] &&
              forall i :: 0 <= i < |ToolCallsOf(last)| ==> ToolCallsOf(last)[i].name in AppointmentSafeTools
    ensures r == SensitiveTools(Appointment) <==>
              (forall i :: 0 <= i < |ToolCallsOf(last)| ==> ToolCallsOf(last)[i].name != CompleteOrEscalate) &&
              exists i :: 0 <= i < |ToolCallsOf(last)| && ToolCallsOf(last)[i].name !in AppointmentSafeTools
  {
    var calls := ToolCallsOf(last);
    if !HasToolCalls(last) then End
    else if DidCancel(calls) then LeaveSkill
    else if AllNamed(calls, AppointmentSafeTools) then SafeTools(Appointment)
    else SensitiveTools(Appointment)
  }

  /** `route_ai_doctor`: the AI doctor has no sensitive tool node. */
  function RouteAiDoctor(last: Message): (r: Node)
    ensures r in {End, LeaveSkill, SafeTools(AiDoctor)}
    ensures r == End <==> ToolCallsOf(last) == []
    ensures r == LeaveSkill <==>
              exists i :: 0 <= i < |ToolCallsOf(last)| && ToolCallsOf(last)[i].name == CompleteOrEscalate
  {
    if !HasToolCalls(last) then End
    else if DidCancel(ToolCallsOf(last)) then LeaveSkill
    else SafeTools(AiDoctor)
  }

  /** `route_direction`: every non-escalating batch goes to `direction_tools`. */
  function RouteDirection(last: Message): (r: Node)
    ensures r in {End, LeaveSkill, SafeTools(Direction)}
    ensures r == End <==> ToolCallsOf(last) == []
    ensures r == LeaveSkill <==>
              exists i :: 0 <= i < |ToolCallsOf(last)| && ToolCallsOf(last)[i].name == CompleteOrEscalate
  {
    if !HasToolCalls(last) then End
    else if DidCancel(ToolCallsOf(last)) then LeaveSkill
    else SafeTools(Direction)
  }

  /** `route_parking`. */
  function RouteParking(last: Message): (r: Node)
    ensures r == End <==> ToolCallsOf(last) == []
    ensures r == LeaveSkill <==>
              exists i :: 0 <= i < |ToolCallsOf(last)| && ToolCallsOf(last)[i].name == CompleteOrEscalate
    ensures r == SafeTools(Parking) <==>
              ToolCallsOf(last) != [] &&
              forall i :: 0 <= i < |ToolCallsOf(last)| ==> ToolCallsOf(last)[i].name in ParkingSafeTools
    ensures r == SensitiveTools(Parking) <==>
              (forall i :: 0 <= i < |ToolCallsOf(last)| ==> ToolCallsOf(last)[i].name != CompleteOrEscalate) &&
              exists i :: 0 <= i < |ToolCallsOf(last)| && ToolCallsOf(last)[i].name !in ParkingSafeTools
  {
    var calls := ToolCallsOf(last);
    if !HasToolCalls(last) then End
    else if DidCancel(calls) then LeaveSkill
    else if AllNamed(calls, ParkingSafeTools) then SafeTools(Parking)
    else SensitiveTools(Parking)
  }

  /** The router attached to a specialist's agent node. */
  function RouteSpecialist(s: DialogState, last: Message): Node
  {
    match s
    case Appointment => RouteAppointment(last)
    case AiDoctor => RouteAiDoctor(last)
    case Direction => RouteDirection(last)
    case Parking => RouteParking(last)
  }

  /** Whatever else is in the batch, an escalation call leaves the specialist. */
  lemma EscalationWins(s: DialogState, last: Message, i: nat)
    requires i < |ToolCallsOf(last)| && ToolCallsOf(last)[i].name == CompleteOrEscalate
    ensures RouteSpecialist(s, last) == LeaveSkill
  {
  }

  /** A batch that mixes a safe call with a sensitive one is gated as sensitive as a whole. */
  lemma MixedBatchIsSensitive(last: Message, i: nat, j: nat)
    requires i < |ToolCallsOf(last)| && j < |ToolCallsOf(last)|
    requires ToolCallsOf(last)[i].name in AppointmentSafeTools
    requires ToolCallsOf(last)[j].name in AppointmentSensitiveTools
    requires forall k :: 0 <= k < |ToolCallsOf(last)| ==> ToolCallsOf(last)[k].name != CompleteOrEscalate
    ensures RouteAppointment(last) == SensitiveTools(Appointment)
  {
    SafeSensitiveDisjoint();
  }

  /** Specialist routers stay inside their own specialist's nodes. */
  lemma SpecialistRoutesStayOwn(s: DialogState, last: Message)
    ensures RouteSpecialist(s, last) in {End, LeaveSkill, SafeTools(s), SensitiveTools(s)}
    ensures RouteSpecialist(s, last).SensitiveTools? ==> s == Appointment || s == Parking
  {
  }

  /** `route_primary_assistant`: only the first tool call decides. */
  function RoutePrimary(last: Message): (r: Node)
    ensures r == End <==> ToolCallsOf(last) == []
    ensures forall s :: r == Enter(s) <==>
              ToolCallsOf(last) != [] && ToolCallsOf(last)[0].name == TransferName(s)
    ensures r == PrimaryTools <==>
              ToolCallsOf(last) != [] &&
              forall s :: ToolCallsOf(last)[0].name != TransferName(s)
  {
    var calls := ToolCallsOf(last);
    if !HasToolCalls(last) then End
    else if calls[0].name == "ToAppointmentAssistant" then Enter(Appointment)
    else if calls[0].name == "ToAIDoctorAssistant" then Enter(AiDoctor)
    else if calls[0].name == "ToDirectionAssistant" then Enter(Direction)
    else if calls[0].name == "ToParkingAssistant" then Enter(Parking)
    else PrimaryTools
  }

  /** Calls after the first one never change where the primary assistant goes. */
  lemma PrimaryReadsFirstCallOnly(a: Message, b: Message)
    requires ToolCallsOf(a) != [] && ToolCallsOf(b) != []
    requires ToolCallsOf(a)[0].name == ToolCallsOf(b)[0].name
    ensures RoutePrimary(a) == RoutePrimary(b)
  {
  }

  /** The primary assistant is bound to CompleteOrEscalate, but its router sends that call to its tool node. */
  lemma PrimaryEscalationGoesToTools(c: Content, id: string, rest: seq<ToolCall>)
    ensures CompleteOrEscalate in BoundTools(None)
    ensures RoutePrimary(Ai(c, [ToolCall(CompleteOrEscalate, id)] + rest)) == PrimaryTools
  {
  }

  // ---------------------------------------------------------------------------
  // Entry, leave and error nodes

  /** What a node returns: messages to append and an optional stack update. */
  datatype Update = Update(messages: seq<Message>, dialogState: Option<StackUpdate>)

  /** The name each entry node gives its assistant. */
  function AssistantName(s: DialogState): string
  {
    match s
    case Appointment => "Medical Appointment Assistant"
    case AiDoctor => "AI Medical Assistant"
    case Direction => "Direction Assistant"
    case Parking => "Parking Assistant"
  }

  const EntryOpening: string := "The assistant is now the "
  const EntryMiddle: string :=
    ". Reflect on the above conversation between the host assistant and the user. The user's intent is unsatisfied. Use the provided tools to assist the user. Remember, you are "
  const EntryClosing: string :=
    ", and the action is not complete until after you have successfully invoked the appropriate tool. If the user changes their mind or needs help for other tasks, call the CompleteOrEscalate function to let the primary host assistant take control. Do not mention who you are - just act as the proxy for the assistant."

  /** The text of the entry node's tool message, naming the assistant twice. */
  function EntryPrompt(assistantName: string): string
  {
    EntryOpening + assistantName + EntryMiddle + assistantName + EntryClosing
  }

  /** The node `create_entry_node(assistantName, newState)` builds, applied to the conversation. */
  function EntryNode(assistantName: string, newState: DialogState, messages: seq<Message>): (u: Update)
    requires |messages| > 0 && HasToolCalls(messages[|messages| - 1])
    ensures |u.messages| == 1 && u.messages[0].ToolMessage?
    ensures u.messages[0].toolCallId == ToolCallsOf(messages[|messages| - 1])[0].id
    ensures u.dialogState == Some(Push(newState))
  {
    var callId := ToolCallsOf(messages[|messages| - 1])[0].id;
    var prompt := EntryPrompt(assistantName);
    Update([ToolMessage(prompt, callId)], Some(Push(newState)))
  }

  const ResumePrompt: string :=
    "Resuming dialog with the host assistant. Please reflect on the past conversation and assist the user as needed."

  /** `pop_dialog_state`, the `leave_skill` node. */
  function PopDialogState(messages: seq<Message>): (u: Update)
    requires |messages| > 0 && messages[|messages| - 1].Ai?
    ensures u.dialogState == Some(Pop)
    ensures |u.messages| == (if HasToolCalls(messages[|messages| - 1]) then 1 else 0)
    ensures |u.messages| == 1 ==>
              u.messages[0] == ToolMessage(ResumePrompt, ToolCallsOf(messages[|messages| - 1])[0].id)
  {
    var last := messages[|messages| - 1];
    if HasToolCalls(last) then Update([ToolMessage(ResumePrompt, ToolCallsOf(last)[0].id)], Some(Pop))
    else Update([], Some(Pop))
  }

  function ErrorText(errorRepr: string): string
  {
    "Error: " + errorRepr + "\n please fix your mistakes."
  }

  /** `handle_tool_error`: one error message per call of the failed batch, in call order. */
  function HandleToolError(errorRepr: string, messages: seq<Message>): (r: seq<Message>)
    requires |messages| > 0 && messages[|messages| - 1].Ai?
    ensures |r| == |ToolCallsOf(messages[|messages| - 1])|
    ensures forall i :: 0 <= i < |r| ==> r[i].ToolMessage? && r[i].body == ErrorText(errorRepr)
    ensures forall i :: 0 <= i < |r| ==> r[i].toolCallId == Ids(ToolCallsOf(messages[|messages| - 1]))[i]
  {
    var calls := ToolCallsOf(messages[|messages| - 1]);
    seq(|calls|, i requires 0 <= i < |calls| => ToolMessage(ErrorText(errorRepr), calls[i].id))
  }

  // ---------------------------------------------------------------------------
  // The agent node and its retry loop

  /** What the prompt template of an agent sees. */
  datatype AgentState = AgentState(messages: seq<Message>, userInfo: Option<string>, dialogState: seq<DialogState>)

  /** `configuration.get("passenger_id", None)`. */
  function UserInfo(configurable: map<string, string>): (r: Option<string>)
    ensures r.Some? <==> "passenger_id" in configurable
    ensures r.Some? ==> r.value == configurable["passenger_id"]
  {
    if "passenger_id" in configurable then Some(configurable["passenger_id"]) else None
  }

  /** Callers configure `patient_id` and `thread_id`, so the prompt's user information is always `None`. */
  lemma UserInfoMissesPatientId(patientId: string, threadId: string)
    ensures UserInfo(map["patient_id" := patientId, "thread_id" := threadId]) == None
  {
  }

  /** The model's reply is empty: no tool calls and no usable text. */
  predicate Degenerate(m: Message)
  {
    && !HasToolCalls(m)
    && match ContentOf(m)
       case Text(t) => t == ""
       case Blocks(bs) => bs == [] || !Truthy(bs[0].text)
  }

  const RetryPrompt: Message := Human("Respond with a real output.")

  function Repeat(m: Message, k: nat): (r: seq<Message>)
    ensures |r| == k && forall i :: 0 <= i < k ==> r[i] == m
  {
    if k == 0 then [] else Repeat(m, k - 1) + [m]
  }

  /** The input of the k-th model call: k retry prompts appended, user information refreshed. */
  function Attempt(state: AgentState, configurable: map<string, string>, k: nat): AgentState
  {
    AgentState(state.messages + Repeat(RetryPrompt, k), UserInfo(configurable), state.dialogState)
  }

  /**
   * `Assistant.__call__`, with at most `fuel` model calls. It returns the first reply that is
   * not degenerate, together with the number of calls made; `None` when every call within the
   * bound was degenerate. Only the reply is added to the conversation.
   */
  method CallAssistant(llm: AgentState -> Message, state: AgentState, configurable: map<string, string>, fuel: nat)
    returns (result: Option<Message>, attempts: nat)
    ensures attempts <= fuel
    ensures result.Some? ==> 1 <= attempts && result.value == llm(Attempt(state, configurable, attempts - 1))
    ensures result.Some? ==> !Degenerate(result.value)
    ensures result.None? ==> attempts == fuel
    ensures forall k :: 0 <= k < attempts && (result.None? || k < attempts - 1) ==>
              Degenerate(llm(Attempt(state, configurable, k)))
  {
    var current := AgentState(state.messages, UserInfo(configurable), state.dialogState);
    attempts := 0;
    result := None;
    while attempts < fuel
      invariant attempts <= fuel
      invariant current == Attempt(state, configurable, attempts)
      invariant forall k :: 0 <= k < attempts ==> Degenerate(llm(Attempt(state, configurable, k)))
    {
      var reply := llm(current);
      attempts := attempts + 1;
      if !Degenerate(reply) {
        return Some(reply), attempts;
      }
      assert Repeat(RetryPrompt, attempts) == Repeat(RetryPrompt, attempts - 1) + [RetryPrompt];
      current := AgentState(current.messages + [RetryPrompt], UserInfo(configurable), current.dialogState);
    }
  }
}
