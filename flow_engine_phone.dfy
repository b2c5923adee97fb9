/** The older conversation flow engine (`flows/flowEngineService`): the state is keyed by the
    tenant and the contact's phone, a message node carries its own `next_node_id`, and the
    engine answers nothing (it only sends and updates). */
module PhoneFlow {
  import opened Util
  import opened Wire
  import WhatsApp

  datatype Flow = Flow(id: int, clienteId: int, gatilho: string, ativo: int)
  datatype FlowNode = FlowNode(id: int, flowId: int, tipo: string, conteudo: Option<string>, nextNodeId: Option<int>)
  datatype NodeOption = NodeOption(id: int, nodeId: int, optionLabel: string, nextNodeId: Option<int>)
  /** A row of `UserFlowState`: where a contact of a tenant is in a flow. */
  datatype FlowState = FlowState(clienteId: int, telefone: string, flowId: int, nodeId: Option<int>)

  /** The tables the engine works on; only `states` is written. */
  class PhoneFlowStore {
    var flows: seq<Flow>
    var nodes: seq<FlowNode>
    var options: seq<NodeOption>
    var states: seq<FlowState>

    constructor (flows: seq<Flow>, nodes: seq<FlowNode>, options: seq<NodeOption>)
      ensures this.flows == flows && this.nodes == nodes && this.options == options && states == []
    {
      this.flows, this.nodes, this.options, states := flows, nodes, options, [];
    }
  }

  predicate IsMessage(tipo: string)
  {
    tipo == "mensagem" || tipo == "message"
  }

  predicate IsQuestion(tipo: string)
  {
    tipo == "pergunta" || tipo == "question"
  }

  /** A foreign key that JavaScript treats as present (`if (id)`). */
  predicate IsRef(o: Option<int>)
  {
    o.Some? && o.value != 0
  }

  // ---- Queries ----

  /** `UserFlowState.findOne({ where: { cliente_id, telefone } })` */
  function FindState(states: seq<FlowState>, clienteId: int, telefone: string): (r: Option<nat>)
    ensures r.Some? ==> r.value < |states| && states[r.value].clienteId == clienteId && states[r.value].telefone == telefone
    ensures r.None? ==> forall j :: 0 <= j < |states| ==> states[j].clienteId != clienteId || states[j].telefone != telefone
  {
    FindFirst(states, (s: FlowState) => s.clienteId == clienteId && s.telefone == telefone)
  }

  /** `FlowNode.findByPk(id)`; a null id finds nothing. */
  function FindNode(nodes: seq<FlowNode>, id: Option<int>): (r: Option<FlowNode>)
    ensures r.Some? ==> id.Some? && r.value in nodes && r.value.id == id.value
    ensures r.None? ==> id.None? || forall n :: n in nodes ==> n.id != id.value
  {
    if id.None? then None
    else
      match FindFirst(nodes, (n: FlowNode) => n.id == id.value)
      case None => None
      case Some(k) => Some(nodes[k])
  }

  /** `NodeOption.findAll({ where: { node_id } })` */
  function OptionsOf(options: seq<NodeOption>, nodeId: int): (r: seq<NodeOption>)
    ensures forall o :: o in r <==> o in options && o.nodeId == nodeId
  {
    Filter(options, (o: NodeOption) => o.nodeId == nodeId)
  }

  /** `NodeOption.findOne({ where: { node_id, label: text } })` */
  function FindOption(options: seq<NodeOption>, nodeId: int, text: string): (r: Option<NodeOption>)
    ensures r.Some? ==> r.value in options && r.value.nodeId == nodeId && r.value.optionLabel == text
    ensures r.None? ==> forall o :: o in options ==> o.nodeId != nodeId || o.optionLabel != text
  {
    match FindFirst(options, (o: NodeOption) => o.nodeId == nodeId && o.optionLabel == text)
    case None => None
    case Some(k) => Some(options[k])
  }

  /** `Flow.findOne({ where: { cliente_id, gatilho: text, ativo: 1 } })` */
  function FindFlow(flows: seq<Flow>, clienteId: int, text: string): (r: Option<Flow>)
    ensures r.Some? ==> r.value in flows && r.value.clienteId == clienteId && r.value.gatilho == text && r.value.ativo == 1
    ensures r.None? ==> forall fl :: fl in flows ==> fl.clienteId != clienteId || fl.gatilho != text || fl.ativo != 1
  {
    match FindFirst(flows, (fl: Flow) => fl.clienteId == clienteId && fl.gatilho == text && fl.ativo == 1)
    case None => None
    case Some(k) => Some(flows[k])
  }

  /** `FlowNode.findOne({ where: { flow_id }, order: [['id', 'ASC']] })`: the flow's node with
      the lowest id. */
  function FirstNode(nodes: seq<FlowNode>, flowId: int): (r: Option<FlowNode>)
    ensures r.Some? ==> r.value in nodes && r.value.flowId == flowId
    ensures r.Some? ==> forall n :: n in nodes && n.flowId == flowId ==> r.value.id <= n.id
    ensures r.None? ==> forall n :: n in nodes ==> n.flowId != flowId
    decreases |nodes|
  {
    if nodes == [] then None
    else
      var rest := FirstNode(nodes[1..], flowId);
      assert forall n :: n in nodes ==> n == nodes[0] || n in nodes[1..];
      if nodes[0].flowId != flowId || (rest.Some? && rest.value.id < nodes[0].id) then rest
      else Some(nodes[0])
  }

  // ---- Composing a node's message ----

  /** One `- label` line per option. */
  function OptionLines(opts: seq<NodeOption>): (r: seq<string>)
    ensures |r| == |opts|
    ensures forall i :: 0 <= i < |opts| ==> r[i] == "- " + opts[i].optionLabel
  {
    seq(|opts|, i requires 0 <= i < |opts| => "- " + opts[i].optionLabel)
  }

  /** The text `sendNode` sends for a node of a kind it sends: a message node's content, a
      question's content line followed by its option lines. */
  function NodeText(node: FlowNode, options: seq<NodeOption>): string
  {
    if IsQuestion(node.tipo) && !IsMessage(node.tipo) then
      Join([OrEmpty(node.conteudo)] + OptionLines(OptionsOf(options, node.id)), "\n")
    else OrEmpty(node.conteudo)
  }

  /** `sendNode`: a missing node or one of another kind sends nothing. */
  function SendNode(refuses: (nat, Request) -> bool, client: Option<nat>, telefone: string,
                    node: Option<FlowNode>, options: seq<NodeOption>): (a: WhatsApp.Attempt)
  {
    if node.None? || !(IsMessage(node.value.tipo) || IsQuestion(node.value.tipo)) then WhatsApp.Attempt(Pass, [])
    else WhatsApp.Deliver(refuses, client, Some(WhatsApp.TextRequest(Some(telefone), NodeText(node.value, options))))
  }

  // ---- The state machine ----

  /** The outcome of one message: the new state table, what was sent, and whether a send threw. */
  datatype Reply = Reply(states: seq<FlowState>, sent: seq<Event>, outcome: Outcome)

  function Remove(states: seq<FlowState>, i: nat): (r: seq<FlowState>)
    requires i < |states|
    ensures |r| == |states| - 1
  {
    states[..i] + states[i + 1..]
  }

  /** Send the node `nextId` (if it exists), then point state `i` at it. */
  function MoveTo(nodes: seq<FlowNode>, options: seq<NodeOption>, states: seq<FlowState>, i: nat, nextId: int,
                  refuses: (nat, Request) -> bool, client: Option<nat>, telefone: string): (r: Reply)
    requires i < |states|
  {
    var a := SendNode(refuses, client, telefone, FindNode(nodes, Some(nextId)), options);
    if a.outcome.Fail? then Reply(states, [], a.outcome)
    else Reply(states[i := states[i].(nodeId := Some(nextId))], a.emitted, Pass)
  }

  /** The reply to a contact whose state is `states[i]`. */
  function Continued(nodes: seq<FlowNode>, options: seq<NodeOption>, states: seq<FlowState>, i: nat,
                     refuses: (nat, Request) -> bool, telefone: string, text: string, client: Option<nat>): (r: Reply)
    requires i < |states|
  {
    match FindNode(nodes, states[i].nodeId)
    case None => Reply(Remove(states, i), [], Pass)
    case Some(current) =>
      if IsQuestion(current.tipo) then
        match FindOption(options, current.id, text)
        case None => Reply(states, [], Pass)
        case Some(o) =>
          if IsRef(o.nextNodeId) then MoveTo(nodes, options, states, i, o.nextNodeId.value, refuses, client, telefone)
          else Reply(Remove(states, i), [], Pass)
      else if IsRef(current.nextNodeId) then
        MoveTo(nodes, options, states, i, current.nextNodeId.value, refuses, client, telefone)
      else Reply(Remove(states, i), [], Pass)
  }

  /** The reply to a contact in no flow: the first node of the tenant's active flow whose
      trigger is the text. */
  function Started(flows: seq<Flow>, nodes: seq<FlowNode>, options: seq<NodeOption>, states: seq<FlowState>,
                   refuses: (nat, Request) -> bool, clienteId: int, telefone: string, text: string,
                   client: Option<nat>): (r: Reply)
  {
    match FindFlow(flows, clienteId, text)
    case None => Reply(states, [], Pass)
    case Some(flow) =>
      match FirstNode(nodes, flow.id)
      case None => Reply(states, [], Pass)
      case Some(first) =>
        var a := SendNode(refuses, client, telefone, Some(first), options);
        if a.outcome.Fail? then Reply(states, [], a.outcome)
        else Reply(states + [FlowState(clienteId, telefone, flow.id, Some(first.id))], a.emitted, Pass)
  }

  /** `processMessage(clienteId, telefone, text, client)` */
  function Process(flows: seq<Flow>, nodes: seq<FlowNode>, options: seq<NodeOption>, states: seq<FlowState>,
                   refuses: (nat, Request) -> bool, clienteId: int, telefone: string, text: string,
                   client: Option<nat>): (r: Reply)
  {
    match FindState(states, clienteId, telefone)
    case Some(i) => Continued(nodes, options, states, i, refuses, telefone, text, client)
    case None => Started(flows, nodes, options, states, refuses, clienteId, telefone, text, client)
  }

  // ---- The methods ----

  /** `sendNode(client, telefone, node)` */
  method SendNodeTo(out: Outbox, client: Option<nat>, telefone: string, node: Option<FlowNode>,
                    options: seq<NodeOption>) returns (r: Outcome)
    modifies out
    ensures var a := SendNode(out.refuses, client, telefone, node, options);
      r == a.outcome && out.events == old(out.events) + a.emitted
  {
    if node.None? || !(IsMessage(node.value.tipo) || IsQuestion(node.value.tipo)) {
      assert out.events + [] == out.events;
      return Pass;
    }
    r := WhatsApp.EnviarMensagem(out, client, Some(telefone), NodeText(node.value, options));
  }

  /** The advance from state `i` to `nextId`: send, then update. */
  method Advance(store: PhoneFlowStore, out: Outbox, i: nat, nextId: int, client: Option<nat>,
                 telefone: string) returns (r: Outcome)
    requires i < |store.states|
    modifies store`states, out
    ensures var rep := MoveTo(store.nodes, store.options, old(store.states), i, nextId, out.refuses, client, telefone);
      store.states == rep.states && out.events == old(out.events) + rep.sent && r == rep.outcome
  {
    var next := FindNode(store.nodes, Some(nextId));
    r := SendNodeTo(out, client, telefone, next, store.options);
    if r.Fail? {
      return;
    }
    store.states := store.states[i := store.states[i].(nodeId := Some(nextId))];
  }

  /** The branch of `processMessage` for a contact that is in a flow. */
  method Continue(store: PhoneFlowStore, out: Outbox, i: nat, telefone: string, text: string,
                  client: Option<nat>) returns (r: Outcome)
    requires i < |store.states|
    modifies store`states, out
    ensures var rep := Continued(store.nodes, store.options, old(store.states), i, out.refuses, telefone, text, client);
      store.states == rep.states && out.events == old(out.events) + rep.sent && r == rep.outcome
  {
    var current := FindNode(store.nodes, store.states[i].nodeId);
    if current.None? {
      store.states := Remove(store.states, i);
      return Pass;
    }
    if IsQuestion(current.value.tipo) {
      var option := FindOption(store.options, current.value.id, text);
      if option.None? {
        return Pass;
      }
      if IsRef(option.value.nextNodeId) {
        r := Advance(store, out, i, option.value.nextNodeId.value, client, telefone);
      } else {
        store.states := Remove(store.states, i);
        r := Pass;
      }
    } else if IsRef(current.value.nextNodeId) {
      r := Advance(store, out, i, current.value.nextNodeId.value, client, telefone);
    } else {
      store.states := Remove(store.states, i);
      r := Pass;
    }
  }

  /** `processMessage(clienteId, telefone, text, client)` */
  method ProcessMessage(store: PhoneFlowStore, out: Outbox, clienteId: int, telefone: string, text: string,
                        client: Option<nat>) returns (r: Outcome)
    modifies store`states, out
    ensures var rep := Process(store.flows, store.nodes, store.options, old(store.states), out.refuses, clienteId, telefone, text, client);
      store.states == rep.states && out.events == old(out.events) + rep.sent && r == rep.outcome
  {
    var state := FindState(store.states, clienteId, telefone);
    if state.Some? {
      r := Continue(store, out, state.value, telefone, text, client);
      return;
    }
    var flow := FindFlow(store.flows, clienteId, text);
    if flow.None? {
      return Pass;
    }
    var first := FirstNode(store.nodes, flow.value.id);
    if first.None? {
      return Pass;
    }
    r := SendNodeTo(out, client, telefone, first, store.options);
    if r.Fail? {
      return;
    }
    store.states := store.states + [FlowState(clienteId, telefone, flow.value.id, Some(first.value.id))];
  }

  // ---- Properties ----

  /** At most one state row per (tenant, phone). */
  predicate OneStatePerContact(states: seq<FlowState>)
  {
    forall i, j :: 0 <= i < j < |states| ==>
      states[i].clienteId != states[j].clienteId || states[i].telefone != states[j].telefone
  }

  lemma RemoveKeepsOne(states: seq<FlowState>, i: nat)
    requires i < |states| && OneStatePerContact(states)
    ensures OneStatePerContact(Remove(states, i))
  {
    var r := Remove(states, i);
    forall a, b | 0 <= a < b < |r|
      ensures r[a].clienteId != r[b].clienteId || r[a].telefone != r[b].telefone
    {
      var a' := if a < i then a else a + 1;
      var b' := if b < i then b else b + 1;
      assert r[a] == states[a'] && r[b] == states[b'];
    }
  }

  /** The engine never gives a contact a second state row. */
  lemma ProcessKeepsOneStatePerContact(flows: seq<Flow>, nodes: seq<FlowNode>, options: seq<NodeOption>,
                                       states: seq<FlowState>, refuses: (nat, Request) -> bool, clienteId: int,
                                       telefone: string, text: string, client: Option<nat>)
    requires OneStatePerContact(states)
    ensures OneStatePerContact(Process(flows, nodes, options, states, refuses, clienteId, telefone, text, client).states)
  {
    match FindState(states, clienteId, telefone)
    case Some(i) =>
      RemoveKeepsOne(states, i);
    case None =>
  }

  /** State is looked up and created under the pair (tenant, phone): the rows of every other
      contact come out as they went in, in the same order. */
  lemma OtherContactsUntouched(flows: seq<Flow>, nodes: seq<FlowNode>, options: seq<NodeOption>,
                               states: seq<FlowState>, refuses: (nat, Request) -> bool, clienteId: int,
                               telefone: string, text: string, client: Option<nat>)
    ensures var r := Process(flows, nodes, options, states, refuses, clienteId, telefone, text, client);
      Others(r.states, clienteId, telefone) == Others(states, clienteId, telefone)
  {
    var r := Process(flows, nodes, options, states, refuses, clienteId, telefone, text, client);
    match FindState(states, clienteId, telefone)
    case Some(i) =>
      OthersIgnoresSlot(states, i, clienteId, telefone);
      ContinuedShape(nodes, options, states, i, refuses, telefone, text, client);
    case None =>
      StartedShape(flows, nodes, options, states, refuses, clienteId, telefone, text, client);
      if r.states != states {
        OthersAppend(states, r.states[|states|..], clienteId, telefone);
        assert r.states == states + r.states[|states|..];
      }
  }

  /** A contact in a flow keeps, moves or loses its own row and no other. */
  lemma ContinuedShape(nodes: seq<FlowNode>, options: seq<NodeOption>, states: seq<FlowState>, i: nat,
                       refuses: (nat, Request) -> bool, telefone: string, text: string, client: Option<nat>)
    requires i < |states|
    ensures var r := Continued(nodes, options, states, i, refuses, telefone, text, client);
      || r.states == states
      || r.states == Remove(states, i)
      || exists id :: r.states == states[i := states[i].(nodeId := id)]
  {
  }

  /** Starting a flow adds at most one row, and it is the contact's own. */
  lemma StartedShape(flows: seq<Flow>, nodes: seq<FlowNode>, options: seq<NodeOption>, states: seq<FlowState>,
                     refuses: (nat, Request) -> bool, clienteId: int, telefone: string, text: string,
                     client: Option<nat>)
    ensures var r := Started(flows, nodes, options, states, refuses, clienteId, telefone, text, client);
      || r.states == states
      || exists flowId, nodeId :: r.states == states + [FlowState(clienteId, telefone, flowId, nodeId)]
  {
  }

  /** Whether a row belongs to a contact other than (clienteId, telefone). */
  function OtherContact(clienteId: int, telefone: string): FlowState -> bool
  {
    (s: FlowState) => s.clienteId != clienteId || s.telefone != telefone
  }

  /** The rows that belong to other contacts. */
  function Others(states: seq<FlowState>, clienteId: int, telefone: string): (r: seq<FlowState>)
    ensures forall s :: s in r <==> s in states && (s.clienteId != clienteId || s.telefone != telefone)
  {
    Filter(states, OtherContact(clienteId, telefone))
  }

  lemma OthersAppend(a: seq<FlowState>, b: seq<FlowState>, clienteId: int, telefone: string)
    requires forall s :: s in b ==> s.clienteId == clienteId && s.telefone == telefone
    ensures Others(a + b, clienteId, telefone) == Others(a, clienteId, telefone)
  {
    FilterAppend(a, b, OtherContact(clienteId, telefone));
    FilterNone(b, OtherContact(clienteId, telefone));
  }

  lemma OthersIgnoresSlot(states: seq<FlowState>, i: nat, clienteId: int, telefone: string)
    requires i < |states| && states[i].clienteId == clienteId && states[i].telefone == telefone
    ensures forall id :: Others(states[i := states[i].(nodeId := id)], clienteId, telefone) == Others(states, clienteId, telefone)
    ensures Others(Remove(states, i), clienteId, telefone) == Others(states, clienteId, telefone)
  {
    FilterDrop(states, i, OtherContact(clienteId, telefone));
    forall id ensures Others(states[i := states[i].(nodeId := id)], clienteId, telefone) == Others(states, clienteId, telefone)
    {
      var t := states[i := states[i].(nodeId := id)];
      assert t[..i] + t[i + 1..] == states[..i] + states[i + 1..];
      FilterDrop(t, i, OtherContact(clienteId, telefone));
    }
  }

  /** A reply at a question node that is no option's label changes nothing and sends nothing. */
  lemma UnknownAnswerIgnored(flows: seq<Flow>, nodes: seq<FlowNode>, options: seq<NodeOption>,
                             states: seq<FlowState>, refuses: (nat, Request) -> bool, clienteId: int,
                             telefone: string, text: string, client: Option<nat>, i: nat, current: FlowNode)
    requires FindState(states, clienteId, telefone) == Some(i)
    requires FindNode(nodes, states[i].nodeId) == Some(current) && IsQuestion(current.tipo)
    requires forall o :: o in options ==> o.nodeId != current.id || o.optionLabel != text
    ensures Process(flows, nodes, options, states, refuses, clienteId, telefone, text, client) == Reply(states, [], Pass)
  {
  }

  /** A state whose node is null or gone is deleted, and nothing is sent. */
  lemma DanglingStateDeleted(flows: seq<Flow>, nodes: seq<FlowNode>, options: seq<NodeOption>,
                             states: seq<FlowState>, refuses: (nat, Request) -> bool, clienteId: int,
                             telefone: string, text: string, client: Option<nat>, i: nat)
    requires FindState(states, clienteId, telefone) == Some(i)
    requires states[i].nodeId.None? || forall n :: n in nodes ==> n.id != states[i].nodeId.value
    ensures Process(flows, nodes, options, states, refuses, clienteId, telefone, text, client) == Reply(Remove(states, i), [], Pass)
  {
  }

  /** A matching option moves the state to its next node (`MoveTo`), or deletes the state
      when it has none. */
  lemma MatchedAnswer(flows: seq<Flow>, nodes: seq<FlowNode>, options: seq<NodeOption>,
                      states: seq<FlowState>, refuses: (nat, Request) -> bool, clienteId: int,
                      telefone: string, text: string, client: Option<nat>, i: nat, current: FlowNode, o: NodeOption)
    requires FindState(states, clienteId, telefone) == Some(i)
    requires FindNode(nodes, states[i].nodeId) == Some(current) && IsQuestion(current.tipo)
    requires FindOption(options, current.id, text) == Some(o)
    ensures var r := Process(flows, nodes, options, states, refuses, clienteId, telefone, text, client);
      && (IsRef(o.nextNodeId) ==> r == MoveTo(nodes, options, states, i, o.nextNodeId.value, refuses, client, telefone))
      && (!IsRef(o.nextNodeId) ==> r == Reply(Remove(states, i), [], Pass))
  {
  }

  /** A node that is not a question advances along its own `next_node_id`, whatever the
      reply, or else the state is deleted. */
  lemma OtherNodeFollowsOwnNext(flows: seq<Flow>, nodes: seq<FlowNode>, options: seq<NodeOption>,
                                states: seq<FlowState>, refuses: (nat, Request) -> bool, clienteId: int,
                                telefone: string, text: string, client: Option<nat>, i: nat, current: FlowNode)
    requires FindState(states, clienteId, telefone) == Some(i)
    requires FindNode(nodes, states[i].nodeId) == Some(current) && !IsQuestion(current.tipo)
    ensures var r := Process(flows, nodes, options, states, refuses, clienteId, telefone, text, client);
      && (IsRef(current.nextNodeId) ==> r == MoveTo(nodes, options, states, i, current.nextNodeId.value, refuses, client, telefone))
      && (!IsRef(current.nextNodeId) ==> r == Reply(Remove(states, i), [], Pass))
  {
  }

  /** Following an edge: the next node, if it exists and is of a kind that sends, is sent,
      and only then does the state move; a throwing send leaves the state as it was; a
      missing next node sends nothing yet still moves the state. */
  lemma MoveToEffects(nodes: seq<FlowNode>, options: seq<NodeOption>, states: seq<FlowState>, i: nat, nextId: int,
                      refuses: (nat, Request) -> bool, client: Option<nat>, telefone: string)
    requires i < |states|
    ensures var r := MoveTo(nodes, options, states, i, nextId, refuses, client, telefone);
      && (r.outcome.Pass? ==> r.states == states[i := states[i].(nodeId := Some(nextId))])
      && (r.outcome.Fail? ==> r.states == states && r.sent == [])
      && (FindNode(nodes, Some(nextId)).None? ==> r == Reply(states[i := states[i].(nodeId := Some(nextId))], [], Pass))
      && (FindNode(nodes, Some(nextId)).Some? && client.None?
          && (IsMessage(FindNode(nodes, Some(nextId)).value.tipo) || IsQuestion(FindNode(nodes, Some(nextId)).value.tipo))
          ==> r == Reply(states, [], Fail(WhatsApp.NotStarted)))
  {
  }

  /** A contact in no flow starts the tenant's active flow (`ativo` 1) whose trigger is the
      text at the flow's lowest-id node: it is sent, then exactly one state, pointing at it,
      is created. Without such a flow or node nothing is sent or created. */
  lemma StartingAFlow(flows: seq<Flow>, nodes: seq<FlowNode>, options: seq<NodeOption>,
                      states: seq<FlowState>, refuses: (nat, Request) -> bool, clienteId: int,
                      telefone: string, text: string, client: Option<nat>)
    requires FindState(states, clienteId, telefone).None?
    ensures var r := Process(flows, nodes, options, states, refuses, clienteId, telefone, text, client);
      var flow := FindFlow(flows, clienteId, text);
      && (flow.None? || FirstNode(nodes, flow.value.id).None? ==> r == Reply(states, [], Pass))
      && (r.states != states ==>
            && flow.Some? && FirstNode(nodes, flow.value.id).Some?
            && var first := FirstNode(nodes, flow.value.id).value;
            && (forall n :: n in nodes && n.flowId == flow.value.id ==> first.id <= n.id)
            && r.states == states + [FlowState(clienteId, telefone, flow.value.id, Some(first.id))]
            && r.sent == SendNode(refuses, client, telefone, Some(first), options).emitted)
      && (r.outcome.Fail? ==> r.states == states && r.sent == [])
  {
  }

  /** A send that throws leaves the state table as it was: every send comes before the
      state update or create it belongs to. */
  lemma FailedSendChangesNothing(flows: seq<Flow>, nodes: seq<FlowNode>, options: seq<NodeOption>,
                                 states: seq<FlowState>, refuses: (nat, Request) -> bool, clienteId: int,
                                 telefone: string, text: string, client: Option<nat>)
    ensures var r := Process(flows, nodes, options, states, refuses, clienteId, telefone, text, client);
      r.outcome.Fail? ==> r.states == states && r.sent == []
  {
  }

  /** A question's text always begins with its content line (empty when it has none), one
      `- label` line per option follows; a message node sends its content; any other kind of
      node sends nothing. */
  lemma NodeTexts(refuses: (nat, Request) -> bool, client: Option<nat>, telefone: string,
                  node: FlowNode, options: seq<NodeOption>)
    ensures IsQuestion(node.tipo) ==>
      var opts := OptionsOf(options, node.id);
      && (opts == [] ==> NodeText(node, options) == OrEmpty(node.conteudo))
      && (opts != [] ==> NodeText(node, options) == OrEmpty(node.conteudo) + "\n" + Join(OptionLines(opts), "\n"))
    ensures IsMessage(node.tipo) ==> NodeText(node, options) == OrEmpty(node.conteudo)
    ensures !IsMessage(node.tipo) && !IsQuestion(node.tipo) ==>
      SendNode(refuses, client, telefone, Some(node), options) == WhatsApp.Attempt(Pass, [])
  {
    var lines := OptionLines(OptionsOf(options, node.id));
    if lines != [] {
      assert ([OrEmpty(node.conteudo)] + lines)[1..] == lines;
    }
  }
}
