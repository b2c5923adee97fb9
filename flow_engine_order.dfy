/** The conversation flow engine that keys its state by order (`services/flows/flowEngineService`):
    a reply either advances the order's state along the option graph or, when the order is in
    no flow, may start the flow whose trigger keyword it equals. The answer says whether the
    message was handled. */
module OrderFlow {
  import opened Util
  import opened Db
  import opened Wire
  import WhatsApp

  datatype Flow = Flow(id: int, userId: int, triggerKeyword: string, isActive: bool)
  datatype FlowNode = FlowNode(id: int, flowId: int, nodeType: string, messageText: Option<string>, isStartNode: bool)
  datatype NodeOption = NodeOption(id: int, sourceNodeId: int, optionText: string, nextNodeId: Option<int>)
  /** A row of `UserFlowState`: where an order is in a flow. */
  datatype FlowState = FlowState(pedidoId: int, currentFlowId: int, currentNodeId: int)

  const Question := "question"

  /** The tables the engine works on; only `states` is written. */
  class OrderFlowStore {
    var flows: seq<Flow>
    var nodes: seq<FlowNode>
    var options: seq<NodeOption>
    var states: seq<FlowState>

    constructor (flows: seq<Flow>, nodes: seq<FlowNode>, options: seq<NodeOption>)
      ensures this.flows == flows && this.nodes == nodes && this.options == options && states == []
    {
      this.flows, this.nodes, this.options, states := flows, nodes, options, [];
    }
  }

  // ---- Queries ----

  /** A foreign key that JavaScript treats as present (`if (id)`). */
  predicate IsRef(o: Option<int>)
  {
    o.Some? && o.value != 0
  }

  /** `findOne({ where: { pedido_id } })` */
  function FindState(states: seq<FlowState>, pedidoId: int): (r: Option<nat>)
    ensures r.Some? ==> r.value < |states| && states[r.value].pedidoId == pedidoId
    ensures r.None? ==> forall j :: 0 <= j < |states| ==> states[j].pedidoId != pedidoId
  {
    FindFirst(states, (s: FlowState) => s.pedidoId == pedidoId)
  }

  /** `FlowNode.findByPk(id)` */
  function FindNode(nodes: seq<FlowNode>, id: int): (r: Option<FlowNode>)
    ensures r.Some? ==> r.value in nodes && r.value.id == id
    ensures r.None? ==> forall n :: n in nodes ==> n.id != id
  {
    match FindFirst(nodes, (n: FlowNode) => n.id == id)
    case None => None
    case Some(k) => Some(nodes[k])
  }

  /** `NodeOption.findAll({ where: { source_node_id } })` */
  function OptionsOf(options: seq<NodeOption>, nodeId: int): (r: seq<NodeOption>)
    ensures forall o :: o in r <==> o in options && o.sourceNodeId == nodeId
  {
    Filter(options, (o: NodeOption) => o.sourceNodeId == nodeId)
  }

  /** `NodeOption.findOne({ where: { source_node_id, option_text: text } })` */
  function FindOption(options: seq<NodeOption>, nodeId: int, text: string): (r: Option<NodeOption>)
    ensures r.Some? ==> r.value in options && r.value.sourceNodeId == nodeId && r.value.optionText == text
    ensures r.None? ==> forall o :: o in options ==> o.sourceNodeId != nodeId || o.optionText != text
  {
    match FindFirst(options, (o: NodeOption) => o.sourceNodeId == nodeId && o.optionText == text)
    case None => None
    case Some(k) => Some(options[k])
  }

  /** `NodeOption.findOne({ where: { source_node_id } })`: the node's first option. */
  function FirstOption(options: seq<NodeOption>, nodeId: int): (r: Option<NodeOption>)
    ensures r.Some? ==> r.value in options && r.value.sourceNodeId == nodeId
    ensures r.None? ==> forall o :: o in options ==> o.sourceNodeId != nodeId
  {
    match FindFirst(options, (o: NodeOption) => o.sourceNodeId == nodeId)
    case None => None
    case Some(k) => Some(options[k])
  }

  /** `Flow.findOne({ where: { user_id, trigger_keyword: text, is_active: true } })` */
  function FindFlow(flows: seq<Flow>, userId: int, text: string): (r: Option<Flow>)
    ensures r.Some? ==> r.value in flows && r.value.userId == userId && r.value.triggerKeyword == text && r.value.isActive
    ensures r.None? ==> forall fl :: fl in flows ==> fl.userId != userId || fl.triggerKeyword != text || !fl.isActive
  {
    match FindFirst(flows, (fl: Flow) => fl.userId == userId && fl.triggerKeyword == text && fl.isActive)
    case None => None
    case Some(k) => Some(flows[k])
  }

  /** `FlowNode.findOne({ where: { flow_id, is_start_node: true } })` */
  function StartNode(nodes: seq<FlowNode>, flowId: int): (r: Option<FlowNode>)
    ensures r.Some? ==> r.value in nodes && r.value.flowId == flowId && r.value.isStartNode
    ensures r.None? ==> forall n :: n in nodes ==> n.flowId != flowId || !n.isStartNode
  {
    match FindFirst(nodes, (n: FlowNode) => n.flowId == flowId && n.isStartNode)
    case None => None
    case Some(k) => Some(nodes[k])
  }

  // ---- Composing a node's message ----

  /** One `- label` line per option. */
  function OptionLines(opts: seq<NodeOption>): (r: seq<string>)
    ensures |r| == |opts|
    ensures forall i :: 0 <= i < |opts| ==> r[i] == "- " + opts[i].optionText
  {
    seq(|opts|, i requires 0 <= i < |opts| => "- " + opts[i].optionText)
  }

  /** The text `sendNode` sends for a node. */
  function NodeText(node: FlowNode, options: seq<NodeOption>): string
  {
    var message := OrEmpty(node.messageText);
    var opts := OptionsOf(options, node.id);
    if node.nodeType == Question && opts != [] then
      var optsText := Join(OptionLines(opts), "\n");
      if message != "" then message + "\n" + optsText else optsText
    else message
  }

  /** `sendNode`: a missing node sends nothing. */
  function SendNode(refuses: (nat, Request) -> bool, client: Option<nat>, telefone: Option<string>,
                    node: Option<FlowNode>, options: seq<NodeOption>): (a: WhatsApp.Attempt)
    ensures node.None? ==> a == WhatsApp.Attempt(Pass, [])
  {
    if node.None? then WhatsApp.Attempt(Pass, [])
    else WhatsApp.Deliver(refuses, client, Some(WhatsApp.TextRequest(telefone, NodeText(node.value, options))))
  }

  // ---- The state machine ----

  /** The outcome of one message: the new state table, what was sent and the answer
      (`Err` when a send threw). */
  datatype Reply = Reply(states: seq<FlowState>, sent: seq<Event>, result: Result<bool>)

  function Remove(states: seq<FlowState>, i: nat): (r: seq<FlowState>)
    requires i < |states|
    ensures |r| == |states| - 1
  {
    states[..i] + states[i + 1..]
  }

  /** Send the next node (if it exists), then point state `i` at it. */
  function MoveTo(nodes: seq<FlowNode>, options: seq<NodeOption>, states: seq<FlowState>, i: nat, nextId: int,
                  refuses: (nat, Request) -> bool, client: Option<nat>, telefone: Option<string>): (r: Reply)
    requires i < |states|
  {
    var a := SendNode(refuses, client, telefone, FindNode(nodes, nextId), options);
    if a.outcome.Fail? then Reply(states, [], Err(a.outcome.error))
    else Reply(states[i := states[i].(currentNodeId := nextId)], a.emitted, Ok(true))
  }

  /** The reply to an order whose state is `states[i]`. */
  function Continued(nodes: seq<FlowNode>, options: seq<NodeOption>, states: seq<FlowState>, i: nat,
                     refuses: (nat, Request) -> bool, p: Pedido, text: string, client: Option<nat>): (r: Reply)
    requires i < |states|
  {
    var telefone := StrCol(p, Telefone);
    match FindNode(nodes, states[i].currentNodeId)
    case None => Reply(Remove(states, i), [], Ok(false))
    case Some(current) =>
      if current.nodeType == Question then
        match FindOption(options, current.id, text)
        case None => Reply(states, [], Ok(false))
        case Some(o) =>
          if IsRef(o.nextNodeId) then MoveTo(nodes, options, states, i, o.nextNodeId.value, refuses, client, telefone)
          else Reply(Remove(states, i), [], Ok(true))
      else
        var opt := FirstOption(options, current.id);
        if opt.Some? && IsRef(opt.value.nextNodeId) then
          MoveTo(nodes, options, states, i, opt.value.nextNodeId.value, refuses, client, telefone)
        else Reply(Remove(states, i), [], Ok(true))
  }

  /** The reply to an order in no flow: the start of the tenant's active flow whose keyword
      is the text, if it has a start node. */
  function Started(flows: seq<Flow>, nodes: seq<FlowNode>, options: seq<NodeOption>, states: seq<FlowState>,
                   refuses: (nat, Request) -> bool, userId: int, p: Pedido, text: string, client: Option<nat>): (r: Reply)
  {
    match FindFlow(flows, userId, text)
    case None => Reply(states, [], Ok(false))
    case Some(flow) =>
      match StartNode(nodes, flow.id)
      case None => Reply(states, [], Ok(false))
      case Some(first) =>
        var a := SendNode(refuses, client, StrCol(p, Telefone), Some(first), options);
        if a.outcome.Fail? then Reply(states, [], Err(a.outcome.error))
        else Reply(states + [FlowState(p.id, flow.id, first.id)], a.emitted, Ok(true))
  }

  /** `processMessage(userId, pedido, text, client)` */
  function Process(flows: seq<Flow>, nodes: seq<FlowNode>, options: seq<NodeOption>, states: seq<FlowState>,
                   refuses: (nat, Request) -> bool, userId: int, p: Pedido, text: string, client: Option<nat>): (r: Reply)
  {
    match FindState(states, p.id)
    case Some(i) => Continued(nodes, options, states, i, refuses, p, text, client)
    case None => Started(flows, nodes, options, states, refuses, userId, p, text, client)
  }

  // ---- The methods ----

  /** `sendNode(client, phone, node)` */
  method SendNodeTo(out: Outbox, client: Option<nat>, telefone: Option<string>, node: Option<FlowNode>,
                    options: seq<NodeOption>) returns (r: Outcome)
    modifies out
    ensures var a := SendNode(out.refuses, client, telefone, node, options);
      r == a.outcome && out.events == old(out.events) + a.emitted
  {
    if node.None? {
      assert out.events + [] == out.events;
      return Pass;
    }
    r := WhatsApp.EnviarMensagem(out, client, telefone, NodeText(node.value, options));
  }

  /** The advance from state `i` to `nextId`: send, then update. */
  method Advance(store: OrderFlowStore, out: Outbox, i: nat, nextId: int, client: Option<nat>,
                 telefone: Option<string>) returns (r: Result<bool>)
    requires i < |store.states|
    modifies store`states, out
    ensures var rep := MoveTo(store.nodes, store.options, old(store.states), i, nextId, out.refuses, client, telefone);
      store.states == rep.states && out.events == old(out.events) + rep.sent && r == rep.result
  {
    var next := FindNode(store.nodes, nextId);
    var sent := SendNodeTo(out, client, telefone, next, store.options);
    if sent.Fail? {
      return Err(sent.error);
    }
    store.states := store.states[i := store.states[i].(currentNodeId := nextId)];
    return Ok(true);
  }

  /** The branch of `processMessage` for an order that is in a flow. */
  method Continue(store: OrderFlowStore, out: Outbox, i: nat, p: Pedido, text: string,
                  client: Option<nat>) returns (r: Result<bool>)
    requires i < |store.states|
    modifies store`states, out
    ensures var rep := Continued(store.nodes, store.options, old(store.states), i, out.refuses, p, text, client);
      store.states == rep.states && out.events == old(out.events) + rep.sent && r == rep.result
  {
    var telefone := StrCol(p, Telefone);
    var current := FindNode(store.nodes, store.states[i].currentNodeId);
    if current.None? {
      store.states := Remove(store.states, i);
      return Ok(false);
    }
    if current.value.nodeType == Question {
      var option := FindOption(store.options, current.value.id, text);
      if option.None? {
        return Ok(false);
      }
      if IsRef(option.value.nextNodeId) {
        r := Advance(store, out, i, option.value.nextNodeId.value, client, telefone);
      } else {
        store.states := Remove(store.states, i);
        r := Ok(true);
      }
    } else {
      var opt := FirstOption(store.options, current.value.id);
      if opt.Some? && IsRef(opt.value.nextNodeId) {
        r := Advance(store, out, i, opt.value.nextNodeId.value, client, telefone);
      } else {
        store.states := Remove(store.states, i);
        r := Ok(true);
      }
    }
  }

  /** `processMessage(userId, pedido, text, client)` */
  method ProcessMessage(store: OrderFlowStore, out: Outbox, userId: int, p: Pedido, text: string,
                        client: Option<nat>) returns (r: Result<bool>)
    modifies store`states, out
    ensures var rep := Process(store.flows, store.nodes, store.options, old(store.states), out.refuses, userId, p, text, client);
      store.states == rep.states && out.events == old(out.events) + rep.sent && r == rep.result
  {
    var state := FindState(store.states, p.id);
    if state.Some? {
      r := Continue(store, out, state.value, p, text, client);
      return;
    }
    var flow := FindFlow(store.flows, userId, text);
    if flow.None? {
      return Ok(false);
    }
    var first := StartNode(store.nodes, flow.value.id);
    if first.None? {
      return Ok(false);
    }
    var sent := SendNodeTo(out, client, StrCol(p, Telefone), first, store.options);
    if sent.Fail? {
      return Err(sent.error);
    }
    store.states := store.states + [FlowState(p.id, flow.value.id, first.value.id)];
    return Ok(true);
  }

  // ---- Properties ----

  /** At most one state row per order. */
  predicate OneStatePerOrder(states: seq<FlowState>)
  {
    forall i, j :: 0 <= i < j < |states| ==> states[i].pedidoId != states[j].pedidoId
  }

  lemma RemoveKeepsOne(states: seq<FlowState>, i: nat)
    requires i < |states| && OneStatePerOrder(states)
    ensures OneStatePerOrder(Remove(states, i))
    ensures forall s :: s in Remove(states, i) ==> s in states
  {
    var r := Remove(states, i);
    forall a, b | 0 <= a < b < |r| ensures r[a].pedidoId != r[b].pedidoId
    {
      var a' := if a < i then a else a + 1;
      var b' := if b < i then b else b + 1;
      assert r[a] == states[a'] && r[b] == states[b'];
    }
  }

  /** The engine never gives an order a second state row. */
  lemma ProcessKeepsOneStatePerOrder(flows: seq<Flow>, nodes: seq<FlowNode>, options: seq<NodeOption>,
                                     states: seq<FlowState>, refuses: (nat, Request) -> bool, userId: int,
                                     p: Pedido, text: string, client: Option<nat>)
    requires OneStatePerOrder(states)
    ensures OneStatePerOrder(Process(flows, nodes, options, states, refuses, userId, p, text, client).states)
  {
    match FindState(states, p.id)
    case Some(i) =>
      RemoveKeepsOne(states, i);
    case None =>
  }

  /** A message that is not handled sends nothing and leaves every other order's state alone:
      the table is unchanged, or only the order's own dangling state is gone. */
  lemma UnhandledSendsNothing(flows: seq<Flow>, nodes: seq<FlowNode>, options: seq<NodeOption>,
                              states: seq<FlowState>, refuses: (nat, Request) -> bool, userId: int,
                              p: Pedido, text: string, client: Option<nat>)
    ensures var r := Process(flows, nodes, options, states, refuses, userId, p, text, client);
      r.result == Ok(false) ==>
        && r.sent == []
        && (r.states == states
            || (FindState(states, p.id).Some? && r.states == Remove(states, FindState(states, p.id).value)))
  {
  }

  /** A reply at a question node that is no option's label is ignored. */
  lemma UnknownAnswerIgnored(flows: seq<Flow>, nodes: seq<FlowNode>, options: seq<NodeOption>,
                             states: seq<FlowState>, refuses: (nat, Request) -> bool, userId: int,
                             p: Pedido, text: string, client: Option<nat>, i: nat, current: FlowNode)
    requires FindState(states, p.id) == Some(i)
    requires FindNode(nodes, states[i].currentNodeId) == Some(current) && current.nodeType == Question
    requires forall o :: o in options ==> o.sourceNodeId != current.id || o.optionText != text
    ensures Process(flows, nodes, options, states, refuses, userId, p, text, client) == Reply(states, [], Ok(false))
  {
  }

  /** A state pointing at no node is deleted, and nothing is sent. */
  lemma DanglingStateDeleted(flows: seq<Flow>, nodes: seq<FlowNode>, options: seq<NodeOption>,
                             states: seq<FlowState>, refuses: (nat, Request) -> bool, userId: int,
                             p: Pedido, text: string, client: Option<nat>, i: nat)
    requires FindState(states, p.id) == Some(i)
    requires forall n :: n in nodes ==> n.id != states[i].currentNodeId
    ensures Process(flows, nodes, options, states, refuses, userId, p, text, client) == Reply(Remove(states, i), [], Ok(false))
  {
  }

  /** Following an edge to `nextId`: when the next node exists it is sent and then the state
      moves; when the send throws the state stays; when the next node is missing nothing is
      sent and the state still moves. */
  lemma MoveToEffects(nodes: seq<FlowNode>, options: seq<NodeOption>, states: seq<FlowState>, i: nat, nextId: int,
                      refuses: (nat, Request) -> bool, client: Option<nat>, telefone: Option<string>)
    requires i < |states|
    ensures var r := MoveTo(nodes, options, states, i, nextId, refuses, client, telefone);
      && (r.result.Ok? ==> r.result == Ok(true) && r.states == states[i := states[i].(currentNodeId := nextId)])
      && (r.result.Err? ==> r.states == states && r.sent == [])
      && (FindNode(nodes, nextId).None? ==> r == Reply(states[i := states[i].(currentNodeId := nextId)], [], Ok(true)))
      && (FindNode(nodes, nextId).Some? && client.Some? ==>
            var req := WhatsApp.TextRequest(telefone, NodeText(FindNode(nodes, nextId).value, options));
            (r.result.Ok? <==> !refuses(client.value, req)) && (r.result.Ok? ==> r.sent == [Call(client.value, req)]))
      && (FindNode(nodes, nextId).Some? && client.None? ==> r == Reply(states, [], Err(WhatsApp.NotStarted)))
  {
  }

  /** A matching option with a next node moves the state there (`MoveTo`); one without
      deletes the state, sends nothing and answers true. */
  lemma MatchedAnswer(flows: seq<Flow>, nodes: seq<FlowNode>, options: seq<NodeOption>,
                      states: seq<FlowState>, refuses: (nat, Request) -> bool, userId: int,
                      p: Pedido, text: string, client: Option<nat>, i: nat, current: FlowNode, o: NodeOption)
    requires FindState(states, p.id) == Some(i)
    requires FindNode(nodes, states[i].currentNodeId) == Some(current) && current.nodeType == Question
    requires FindOption(options, current.id, text) == Some(o)
    ensures var r := Process(flows, nodes, options, states, refuses, userId, p, text, client);
      && (IsRef(o.nextNodeId) ==> r == MoveTo(nodes, options, states, i, o.nextNodeId.value, refuses, client, StrCol(p, Telefone)))
      && (!IsRef(o.nextNodeId) ==> r == Reply(Remove(states, i), [], Ok(true)))
  {
  }

  /** Any other node follows its first option's next node, or else the state is deleted. */
  lemma NonQuestionFollowsFirstOption(flows: seq<Flow>, nodes: seq<FlowNode>, options: seq<NodeOption>,
                                      states: seq<FlowState>, refuses: (nat, Request) -> bool, userId: int,
                                      p: Pedido, text: string, client: Option<nat>, i: nat, current: FlowNode)
    requires FindState(states, p.id) == Some(i)
    requires FindNode(nodes, states[i].currentNodeId) == Some(current) && current.nodeType != Question
    ensures var r := Process(flows, nodes, options, states, refuses, userId, p, text, client);
      var opt := FirstOption(options, current.id);
      && (opt.Some? && IsRef(opt.value.nextNodeId) ==>
            r == MoveTo(nodes, options, states, i, opt.value.nextNodeId.value, refuses, client, StrCol(p, Telefone)))
      && (!(opt.Some? && IsRef(opt.value.nextNodeId)) ==> r == Reply(Remove(states, i), [], Ok(true)))
  {
  }

  /** With a resolvable state, the answer is true unless the reply was an unknown answer to a
      question (or a send threw). */
  lemma ResolvableStateHandled(flows: seq<Flow>, nodes: seq<FlowNode>, options: seq<NodeOption>,
                               states: seq<FlowState>, refuses: (nat, Request) -> bool, userId: int,
                               p: Pedido, text: string, client: Option<nat>, i: nat, current: FlowNode)
    requires FindState(states, p.id) == Some(i)
    requires FindNode(nodes, states[i].currentNodeId) == Some(current)
    requires current.nodeType == Question ==> FindOption(options, current.id, text).Some?
    ensures Process(flows, nodes, options, states, refuses, userId, p, text, client).result != Ok(false)
  {
  }

  /** An order in no flow starts the tenant's active flow whose keyword is the text: its start
      node is sent and exactly one state, pointing at it, is created. Without such a flow or
      start node nothing happens and the answer is false. */
  lemma StartingAFlow(flows: seq<Flow>, nodes: seq<FlowNode>, options: seq<NodeOption>,
                      states: seq<FlowState>, refuses: (nat, Request) -> bool, userId: int,
                      p: Pedido, text: string, client: Option<nat>)
    requires FindState(states, p.id).None?
    ensures var r := Process(flows, nodes, options, states, refuses, userId, p, text, client);
      var flow := FindFlow(flows, userId, text);
      && (flow.None? || StartNode(nodes, flow.value.id).None? ==> r == Reply(states, [], Ok(false)))
      && (r.result.Ok? && r.result.value ==>
            && flow.Some? && StartNode(nodes, flow.value.id).Some?
            && var first := StartNode(nodes, flow.value.id).value;
            && r.states == states + [FlowState(p.id, flow.value.id, first.id)]
            && client.Some?
            && r.sent == [Call(client.value, WhatsApp.TextRequest(StrCol(p, Telefone), NodeText(first, options)))])
      && (r.result.Err? ==> r.states == states && r.sent == [])
  {
  }

  lemma JoinCons(head: string, rest: seq<string>, sep: string)
    requires rest != []
    ensures Join([head] + rest, sep) == head + sep + Join(rest, sep)
  {
    assert ([head] + rest)[1..] == rest;
  }

  /** A question's text is its message and then one `- label` line per option, one per line;
      without a message only the option lines; without options the message alone. */
  lemma QuestionText(node: FlowNode, options: seq<NodeOption>)
    requires node.nodeType == Question
    ensures var opts := OptionsOf(options, node.id);
      var message := OrEmpty(node.messageText);
      && (opts != [] && message != "" ==> NodeText(node, options) == Join([message] + OptionLines(opts), "\n"))
      && (opts != [] && message == "" ==> NodeText(node, options) == Join(OptionLines(opts), "\n"))
      && (opts == [] ==> NodeText(node, options) == message)
  {
    var opts := OptionsOf(options, node.id);
    if opts != [] {
      JoinCons(OrEmpty(node.messageText), OptionLines(opts), "\n");
    }
  }
}
