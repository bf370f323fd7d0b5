/**
 * The hospital support graph as built: the builder's nodes, fixed edges and conditional
 * edges with their declared targets, the interrupt list, and a step relation over
 * checkpointed configurations. The invariants proved here hold for every run.
 */
module DialogWiring {
  import opened Common
  import opened Dialog

  /** A LangGraph `StateGraph` under construction. */
  class GraphBuilder {
    var nodes: set<Node>
    var edges: set<(Node, Node)>
    /** Each conditional edge's source with the targets its path map declares. */
    var branches: map<Node, set<Node>>

    constructor()
      ensures nodes == {} && edges == {} && branches == map[]
    {
      nodes := {};
      edges := {};
      branches := map[];
    }

    method AddNode(n: Node)
      modifies this
      ensures nodes == old(nodes) + {n}
      ensures edges == old(edges) && branches == old(branches)
    {
      nodes := nodes + {n};
    }

    method AddEdge(source: Node, target: Node)
      modifies this
      ensures edges == old(edges) + {(source, target)}
      ensures nodes == old(nodes) && branches == old(branches)
    {
      edges := edges + {(source, target)};
    }

    method AddConditionalEdges(source: Node, targets: set<Node>)
      modifies this
      ensures branches == old(branches)[source := targets]
      ensures nodes == old(nodes) && edges == old(edges)
    {
      branches := branches[source := targets];
    }
  }

  // The graph's pieces, one per workflow, in the order the module adds them.

  const AppointmentNodes: set<Node> :=
    {Enter(Appointment), Agent(Appointment), SafeTools(Appointment), SensitiveTools(Appointment)}
  const AppointmentEdges: set<(Node, Node)> :=
    {(Enter(Appointment), Agent(Appointment)),
     (SensitiveTools(Appointment), Agent(Appointment)), (SafeTools(Appointment), Agent(Appointment))}
  const AppointmentTargets: set<Node> := {SafeTools(Appointment), SensitiveTools(Appointment), LeaveSkill, End}

  const AiDoctorNodes: set<Node> := {Enter(AiDoctor), Agent(AiDoctor), SafeTools(AiDoctor)}
  const AiDoctorEdges: set<(Node, Node)> := {(Enter(AiDoctor), Agent(AiDoctor)), (SafeTools(AiDoctor), Agent(AiDoctor))}
  const AiDoctorTargets: set<Node> := {SafeTools(AiDoctor), LeaveSkill, End}

  const DirectionNodes: set<Node> := {Enter(Direction), Agent(Direction), SafeTools(Direction)}
  const DirectionEdges: set<(Node, Node)> :=
    {(Enter(Direction), Agent(Direction)), (SafeTools(Direction), Agent(Direction))}
  const DirectionTargets: set<Node> := {SafeTools(Direction), LeaveSkill, End}

  const ParkingNodes: set<Node> := {Enter(Parking), Agent(Parking), SafeTools(Parking), SensitiveTools(Parking)}
  const ParkingEdges: set<(Node, Node)> :=
    {(Enter(Parking), Agent(Parking)), (SensitiveTools(Parking), Agent(Parking)), (SafeTools(Parking), Agent(Parking))}
  const ParkingTargets: set<Node> := {SafeTools(Parking), SensitiveTools(Parking), LeaveSkill, End}

  const PrimaryNodes: set<Node> := {LeaveSkill, Primary, PrimaryTools}
  const PrimaryEdges: set<(Node, Node)> := {(LeaveSkill, Primary), (PrimaryTools, Primary)}
  const PrimaryTargets: set<Node> :=
    {Enter(Appointment), Enter(AiDoctor), Enter(Direction), Enter(Parking), PrimaryTools, End}

  /** `route_to_workflow` has no path map; its `Literal` return type names the targets. */
  const WorkflowTargets: set<Node> := {Primary, Agent(Appointment), Agent(AiDoctor), Agent(Direction), Agent(Parking)}

  const GraphNodes: set<Node> :=
    {FetchUserInfo} + AppointmentNodes + AiDoctorNodes + DirectionNodes + ParkingNodes + PrimaryNodes
  const Edges: set<(Node, Node)> :=
    {(Start, FetchUserInfo)} + AppointmentEdges + AiDoctorEdges + DirectionEdges + ParkingEdges + PrimaryEdges
  /** Each router's source with the targets it may return. */
  const Branches: map<Node, set<Node>> :=
    map[Agent(Appointment) := AppointmentTargets,
        Agent(AiDoctor) := AiDoctorTargets,
        Agent(Direction) := DirectionTargets,
        Agent(Parking) := ParkingTargets,
        Primary := PrimaryTargets,
        FetchUserInfo := WorkflowTargets]

  /** Execution is suspended before these nodes until the caller resumes. */
  const InterruptBefore: set<Node> := {SensitiveTools(Appointment), SensitiveTools(Parking)}

  method AddAppointmentWorkflow(g: GraphBuilder)
    modifies g
    ensures g.nodes == old(g.nodes) + AppointmentNodes && g.edges == old(g.edges) + AppointmentEdges
    ensures g.branches == old(g.branches)[Agent(Appointment) := AppointmentTargets]
  {
    g.AddNode(Enter(Appointment));
    g.AddNode(Agent(Appointment));
    g.AddEdge(Enter(Appointment), Agent(Appointment));
    g.AddNode(SafeTools(Appointment));
    g.AddNode(SensitiveTools(Appointment));
    g.AddEdge(SensitiveTools(Appointment), Agent(Appointment));
    g.AddEdge(SafeTools(Appointment), Agent(Appointment));
    g.AddConditionalEdges(Agent(Appointment), AppointmentTargets);
  }

  method AddAiDoctorWorkflow(g: GraphBuilder)
    modifies g
    ensures g.nodes == old(g.nodes) + AiDoctorNodes && g.edges == old(g.edges) + AiDoctorEdges
    ensures g.branches == old(g.branches)[Agent(AiDoctor) := AiDoctorTargets]
  {
    g.AddNode(Enter(AiDoctor));
    g.AddNode(Agent(AiDoctor));
    g.AddEdge(Enter(AiDoctor), Agent(AiDoctor));
    g.AddNode(SafeTools(AiDoctor));
    g.AddEdge(SafeTools(AiDoctor), Agent(AiDoctor));
    g.AddConditionalEdges(Agent(AiDoctor), AiDoctorTargets);
  }

  method AddDirectionWorkflow(g: GraphBuilder)
    modifies g
    ensures g.nodes == old(g.nodes) + DirectionNodes && g.edges == old(g.edges) + DirectionEdges
    ensures g.branches == old(g.branches)[Agent(Direction) := DirectionTargets]
  {
    g.AddNode(Enter(Direction));
    g.AddNode(Agent(Direction));
    g.AddEdge(Enter(Direction), Agent(Direction));
    g.AddNode(SafeTools(Direction));
    g.AddEdge(SafeTools(Direction), Agent(Direction));
    g.AddConditionalEdges(Agent(Direction), DirectionTargets);
  }

  method AddParkingWorkflow(g: GraphBuilder)
    modifies g
    ensures g.nodes == old(g.nodes) + ParkingNodes && g.edges == old(g.edges) + ParkingEdges
    ensures g.branches == old(g.branches)[Agent(Parking) := ParkingTargets]
  {
    g.AddNode(Enter(Parking));
    g.AddNode(Agent(Parking));
    g.AddEdge(Enter(Parking), Agent(Parking));
    g.AddNode(SafeTools(Parking));
    g.AddNode(SensitiveTools(Parking));
    g.AddEdge(SensitiveTools(Parking), Agent(Parking));
    g.AddEdge(SafeTools(Parking), Agent(Parking));
    g.AddConditionalEdges(Agent(Parking), ParkingTargets);
  }

  /** The shared leave node, the primary assistant and its tools. */
  method AddPrimaryWorkflow(g: GraphBuilder)
    modifies g
    ensures g.nodes == old(g.nodes) + PrimaryNodes && g.edges == old(g.edges) + PrimaryEdges
    ensures g.branches == old(g.branches)[Primary := PrimaryTargets]
  {
    g.AddNode(LeaveSkill);
    g.AddEdge(LeaveSkill, Primary);
    g.AddNode(Primary);
    g.AddNode(PrimaryTools);
    g.AddConditionalEdges(Primary, PrimaryTargets);
    g.AddEdge(PrimaryTools, Primary);
  }

  /** The builder calls of the module, in their order. */
  method BuildHospitalGraph() returns (g: GraphBuilder)
    ensures fresh(g)
    ensures g.nodes == GraphNodes && g.edges == Edges && g.branches == Branches
  {
    g := new GraphBuilder();
    g.AddNode(FetchUserInfo);
    g.AddEdge(Start, FetchUserInfo);
    assert g.nodes == {FetchUserInfo} && g.edges == {(Start, FetchUserInfo)};
    AddAppointmentWorkflow(g);
    AddAiDoctorWorkflow(g);
    AddDirectionWorkflow(g);
    AddParkingWorkflow(g);
    AddPrimaryWorkflow(g);
    g.AddConditionalEdges(FetchUserInfo, WorkflowTargets);
  }

  // ---------------------------------------------------------------------------
  // Shape of the wiring

  /** The single fixed successor of a node without a router. */
  function StaticNext(n: Node): Option<Node>
  {
    match n
    case Start => Some(FetchUserInfo)
    case Enter(s) => Some(Agent(s))
    case SafeTools(s) => Some(Agent(s))
    case SensitiveTools(s) => if s == Appointment || s == Parking then Some(Agent(s)) else None
    case LeaveSkill => Some(Primary)
    case PrimaryTools => Some(Primary)
    case _ => None
  }

  /** The nodes that carry a router. */
  predicate HasRouter(n: Node)
  {
    n.Agent? || n == Primary || n == FetchUserInfo
  }

  /** `StaticNext` is exactly the fixed edge set. */
  lemma StaticNextIsEdges(a: Node, b: Node)
    ensures (a, b) in Edges <==> StaticNext(a) == Some(b)
  {
    match a
    case Enter(s) =>
      match s { case Appointment => case AiDoctor => case Direction => case Parking => }
    case SafeTools(s) =>
      match s { case Appointment => case AiDoctor => case Direction => case Parking => }
    case _ =>
  }

  /** The routers are exactly the conditional edges. */
  lemma BranchesAreRouters(n: Node)
    ensures n in Branches <==> HasRouter(n)
  {
    if n.Agent? {
      match n.s { case Appointment => case AiDoctor => case Direction => case Parking => }
    }
  }

  /** Every node of the graph leaves by exactly one kind of edge: a router or one fixed edge. */
  lemma OneKindOfExit(n: Node)
    requires n in GraphNodes
    ensures HasRouter(n) <==> StaticNext(n).None?
  {
  }

  /** Fixed edges stay inside the graph. */
  lemma EdgesClosed(a: Node, b: Node)
    requires (a, b) in Edges
    ensures a == Start || a in GraphNodes
    ensures b in GraphNodes
  {
    StaticNextIsEdges(a, b);
    match a
    case Enter(s) =>
      match s { case Appointment => case AiDoctor => case Direction => case Parking => }
    case SafeTools(s) =>
      match s { case Appointment => case AiDoctor => case Direction => case Parking => }
    case _ =>
  }

  /** Routed targets stay inside the graph or end the run, and both gated nodes are graph nodes. */
  lemma BranchesClosed(a: Node, b: Node)
    requires a in Branches && b in Branches[a]
    ensures a in GraphNodes
    ensures b in GraphNodes || b == End
    ensures InterruptBefore <= GraphNodes
  {
    BranchesAreRouters(a);
    if a.Agent? {
      match a.s { case Appointment => case AiDoctor => case Direction => case Parking => }
    }
  }

  /** Entry nodes are entered only from the primary assistant. */
  lemma EntryOnlyFromPrimary(a: Node, s: DialogState)
    requires (a, Enter(s)) in Edges || (a in Branches && Enter(s) in Branches[a])
    ensures a == Primary
  {
  }

  /** Each tool node returns to the agent that requested the tools, and has no router. */
  lemma ToolNodesLoopBack(a: Node, b: Node)
    requires (a, b) in Edges
    ensures a.SafeTools? || a.SensitiveTools? ==> b == Agent(a.s)
    ensures a == PrimaryTools ==> b == Primary
    ensures a.SafeTools? || a.SensitiveTools? || a == PrimaryTools ==> a !in Branches
  {
  }

  /** The node the graph runs after `n`, seeing the updated stack and messages. */
  function Next(n: Node, stack: seq<DialogState>, messages: seq<Message>): Node
    requires HasRouter(n) || StaticNext(n).Some?
    requires n.Agent? || n == Primary ==> |messages| > 0
  {
    match n
    case Agent(s) => RouteSpecialist(s, messages[|messages| - 1])
    case Primary => RoutePrimary(messages[|messages| - 1])
    case FetchUserInfo => RouteToWorkflow(Some(stack))
    case _ => StaticNext(n).value
  }

  /** Every router returns one of the targets its conditional edge declares; other nodes follow their edge. */
  lemma NextFollowsWiring(n: Node, stack: seq<DialogState>, messages: seq<Message>)
    requires HasRouter(n) || StaticNext(n).Some?
    requires n.Agent? || n == Primary ==> |messages| > 0
    ensures n in Branches ==> Next(n, stack, messages) in Branches[n]
    ensures n !in Branches ==> (n, Next(n, stack, messages)) in Edges
  {
    BranchesAreRouters(n);
    match n
    case Agent(s) =>
      SpecialistRoutesStayOwn(s, messages[|messages| - 1]);
      match s { case Appointment => case AiDoctor => case Direction => case Parking => }
    case Primary =>
    case FetchUserInfo =>
      if stack != [] {
        match stack[|stack| - 1] { case Appointment => case AiDoctor => case Direction => case Parking => }
      }
    case _ =>
      StaticNextIsEdges(n, Next(n, stack, messages));
  }

  // ---------------------------------------------------------------------------
  // Execution

  /** A checkpoint: the next node to run, the dialog stack, the messages, and whether execution is suspended. */
  datatype Config = Config(node: Node, stack: seq<DialogState>, messages: seq<Message>, paused: bool)

  /** What the outside world supplies to one step. */
  datatype Input =
    | Continue                          // run a node that needs nothing, or resume with `invoke(None)`
    | Reply(reply: Message)             // the reply an agent node obtained from its model
    | ToolOutput(results: seq<Message>) // what a tool node or its error fallback returned
    | UserTurn(text: string)            // a new invocation carrying one user message

  /** Move on to `n`, suspending first when `n` is gated. */
  function Go(n: Node, stack: seq<DialogState>, messages: seq<Message>): Config
  {
    Config(n, stack, messages, n in InterruptBefore)
  }

  /** A new invocation starts at START with the user's message appended; the stack is kept. */
  function Restart(c: Config, text: string): Config
  {
    Config(Start, c.stack, c.messages + [Human(text)], false)
  }

  function Last(messages: seq<Message>): Message
    requires |messages| > 0
  {
    messages[|messages| - 1]
  }

  /** One step of the compiled graph; `None` when the input does not fit or the node would raise. */
  function Step(c: Config, i: Input): Option<Config>
  {
    if c.paused then
      match i
      case Continue => Some(c.(paused := false))
      case UserTurn(t) => Some(Restart(c, t))
      case _ => None
    else
      match (c.node, i)
      case (Start, Continue) => Some(Go(Next(Start, c.stack, c.messages), c.stack, c.messages))
      case (FetchUserInfo, Continue) => Some(Go(Next(FetchUserInfo, c.stack, c.messages), c.stack, c.messages))
      case (Enter(s), Continue) =>
        if |c.messages| > 0 && HasToolCalls(Last(c.messages)) then
          var u := EntryNode(AssistantName(s), s, c.messages);
          var st := UpdateDialogStack(c.stack, u.dialogState);
          Some(Go(Next(c.node, st, c.messages + u.messages), st, c.messages + u.messages))
        else None
      case (Agent(s), Reply(m)) => Some(Go(Next(c.node, c.stack, c.messages + [m]), c.stack, c.messages + [m]))
      case (Primary, Reply(m)) => Some(Go(Next(Primary, c.stack, c.messages + [m]), c.stack, c.messages + [m]))
      case (SafeTools(s), ToolOutput(rs)) => Some(Go(Next(c.node, c.stack, c.messages + rs), c.stack, c.messages + rs))
      case (SensitiveTools(s), ToolOutput(rs)) =>
        if StaticNext(c.node).Some? then Some(Go(Next(c.node, c.stack, c.messages + rs), c.stack, c.messages + rs))
        else None
      case (PrimaryTools, ToolOutput(rs)) => Some(Go(Next(PrimaryTools, c.stack, c.messages + rs), c.stack, c.messages + rs))
      case (LeaveSkill, Continue) =>
        if |c.messages| > 0 && Last(c.messages).Ai? then
          var u := PopDialogState(c.messages);
          var st := UpdateDialogStack(c.stack, u.dialogState);
          Some(Go(Next(LeaveSkill, st, c.messages + u.messages), st, c.messages + u.messages))
        else None
      case (End, UserTurn(t)) => Some(Restart(c, t))
      case _ => None
  }

  /** The invariant of every reachable checkpoint. */
  ghost predicate Inv(c: Config)
  {
    && |c.stack| <= 1
    && (c.node == Primary || c.node == PrimaryTools || c.node.Enter? ==> c.stack == [])
    && (c.node.Agent? || c.node.SafeTools? || c.node.SensitiveTools? ==> c.stack == [c.node.s])
    && (c.node.SensitiveTools? ==> c.node.s == Appointment || c.node.s == Parking)
    && (c.node == LeaveSkill ==>
          |c.stack| == 1 && |c.messages| > 0 && Last(c.messages).Ai? && DidCancel(ToolCallsOf(Last(c.messages))))
    && (c.node.Enter? ==>
          |c.messages| > 0 && HasToolCalls(Last(c.messages)) &&
          ToolCallsOf(Last(c.messages))[0].name == TransferName(c.node.s))
    && (c.node.SafeTools? || c.node.SensitiveTools? || c.node == PrimaryTools ==>
          |c.messages| > 0 && HasToolCalls(Last(c.messages)))
    && (c.paused ==> c.node in InterruptBefore)
  }

  /** A conversation begins at START with the user's first message and an empty stack. */
  function Init(question: string): Config
  {
    Config(Start, [], [Human(question)], false)
  }

  lemma InitInv(question: string)
    ensures Inv(Init(question))
  {
  }

  lemma LastOfAppend(messages: seq<Message>, m: Message)
    ensures Last(messages + [m]) == m
  {
  }

  /** Every step keeps the invariant. */
  lemma StepKeepsInv(c: Config, i: Input)
    requires Inv(c)
    requires Step(c, i).Some?
    ensures Inv(Step(c, i).value)
  {
    if !c.paused {
      match (c.node, i)
      case (Agent(s), Reply(m)) =>
        LastOfAppend(c.messages, m);
        SpecialistRoutesStayOwn(s, m);
      case (Primary, Reply(m)) =>
        LastOfAppend(c.messages, m);
      case (Enter(s), Continue) =>
      case (LeaveSkill, Continue) =>
      case _ =>
    }
  }

  /** The checkpoint after feeding `inputs` one by one, or `None` once a step does not fit. */
  function Run(c: Config, inputs: seq<Input>): Option<Config>
    decreases |inputs|
  {
    if inputs == [] then Some(c)
    else
      match Step(c, inputs[0])
      case None => None
      case Some(c') => Run(c', inputs[1..])
  }

  lemma {:induction false} RunKeepsInv(c: Config, inputs: seq<Input>)
    requires Inv(c)
    requires Run(c, inputs).Some?
    ensures Inv(Run(c, inputs).value)
    decreases |inputs|
  {
    if inputs != [] {
      StepKeepsInv(c, inputs[0]);
      RunKeepsInv(Step(c, inputs[0]).value, inputs[1..]);
    }
  }

  /**
   * In every run of a conversation the dialog stack holds at most one state, the primary
   * assistant runs only with an empty stack, and execution is suspended only before the two
   * sensitive tool nodes.
   */
  lemma ConversationInvariants(question: string, inputs: seq<Input>)
    requires Run(Init(question), inputs).Some?
    ensures |Run(Init(question), inputs).value.stack| <= 1
    ensures Run(Init(question), inputs).value.node == Primary ==> Run(Init(question), inputs).value.stack == []
    ensures Run(Init(question), inputs).value.paused ==>
              Run(Init(question), inputs).value.node in {SensitiveTools(Appointment), SensitiveTools(Parking)}
  {
    InitInv(question);
    RunKeepsInv(Init(question), inputs);
  }

  /** Entry and leave nodes never raise in a reachable checkpoint: their messages are there. */
  lemma EntryAndLeaveProceed(c: Config)
    requires Inv(c) && !c.paused
    requires c.node.Enter? || c.node == LeaveSkill
    ensures Step(c, Continue).Some?
  {
  }

  /** An appointment batch mixing a safe call with a sensitive one suspends before the sensitive tools. */
  lemma MixedAppointmentBatchSuspends(c: Config, m: Message, i: nat, j: nat)
    requires !c.paused && c.node == Agent(Appointment)
    requires i < |ToolCallsOf(m)| && j < |ToolCallsOf(m)|
    requires ToolCallsOf(m)[i].name in AppointmentSafeTools
    requires ToolCallsOf(m)[j].name in AppointmentSensitiveTools
    requires forall k :: 0 <= k < |ToolCallsOf(m)| ==> ToolCallsOf(m)[k].name != CompleteOrEscalate
    ensures Step(c, Reply(m)) == Some(Config(SensitiveTools(Appointment), c.stack, c.messages + [m], true))
  {
    LastOfAppend(c.messages, m);
    MixedBatchIsSensitive(m, i, j);
  }

  /** The AI doctor and direction agents never suspend execution. */
  lemma UngatedSpecialistsNeverSuspend(c: Config, m: Message)
    requires !c.paused && (c.node == Agent(AiDoctor) || c.node == Agent(Direction))
    ensures Step(c, Reply(m)).Some? && !Step(c, Reply(m)).value.paused
  {
    LastOfAppend(c.messages, m);
    SpecialistRoutesStayOwn(c.node.s, m);
  }

  /** Resuming a suspended run runs exactly the gated node; a new message instead restarts at START. */
  lemma SuspendedChoices(c: Config, t: string)
    requires Inv(c) && c.paused
    ensures Step(c, Continue) == Some(c.(paused := false))
    ensures Step(c, UserTurn(t)) == Some(Config(Start, c.stack, c.messages + [Human(t)], false))
    ensures forall i: Input :: i.Reply? || i.ToolOutput? ==> Step(c, i).None?
  {
  }
}
