/** Saving a flow from the editor (`services/flowService`): the flow row, then one node row per
    input node in input order, then one option row per option, whose `next_node_id` is the
    editor's reference translated through a map from each node's remap key (its `client_id`
    when truthy, otherwise its 0-based position) to the id the node got. The whole save runs in
    one transaction: a rejected write leaves every table as it was. */
module FlowService {
  import opened Util

  /** A JavaScript value used as a reference: an absent `client_id`, a number or a string. */
  datatype JsKey = Undefined | Null | Num(n: int) | Str(s: string)

  predicate KeyTruthy(k: JsKey)
  {
    match k
    case Num(n) => n != 0
    case Str(s) => s != ""
    case _ => false
  }

  /** The property name a value becomes when it indexes a plain object. */
  function PropertyKey(k: JsKey): string
  {
    match k
    case Undefined => "undefined"
    case Null => "null"
    case Num(n) => IntToString(n)
    case Str(s) => s
  }

  // ---- Editor input ----

  datatype OptionInput = OptionInput(optionText: string, nextNodeId: JsKey)
  datatype NodeInput = NodeInput(clientId: JsKey, nodeType: string, messageText: Option<string>,
                                 isStartNode: Option<bool>, options: Option<seq<OptionInput>>)
  /** `flowData`; `nodes` is `None` when it is not an array. */
  datatype FlowInput = FlowInput(name: Option<string>, triggerKeyword: Option<string>, isActive: Option<bool>,
                                 nodes: Option<seq<NodeInput>>)

  // ---- Rows ----

  datatype FlowRow = FlowRow(id: int, userId: int, name: Option<string>, triggerKeyword: Option<string>, isActive: bool)
  datatype NodeRow = NodeRow(id: int, flowId: int, nodeType: string, messageText: Option<string>, isStartNode: bool)
  datatype OptionRow = OptionRow(id: int, sourceNodeId: int, optionText: string, nextNodeId: Option<int>)

  /** The three tables and their auto-increment counters, as one value. */
  datatype Tables = Tables(flows: seq<FlowRow>, nodes: seq<NodeRow>, options: seq<OptionRow>,
                           nextFlowId: int, nextNodeId: int, nextOptionId: int)

  /** One statement of the transaction, as the database sees it. */
  datatype Write = InsertFlow(flow: FlowRow) | UpdateFlowRow(flowId: int) | DestroyNodes(flowId: int)
                 | InsertNode(node: NodeRow) | InsertOption(option: OptionRow)

  const WriteRejected := "write rejected"

  // ---- The rows a save creates ----

  /** `FlowNode.create` for input node `n`: an empty text is stored as null, an absent start
      flag as false. */
  function NodeRowFor(flowId: int, id: int, n: NodeInput): NodeRow
  {
    NodeRow(id, flowId, n.nodeType, if Truthy(n.messageText) then n.messageText else None, n.isStartNode == Some(true))
  }

  /** The node rows for `ns`, numbered from `firstId` in input order. */
  function NodeRowsFrom(flowId: int, firstId: int, ns: seq<NodeInput>): (r: seq<NodeRow>)
    ensures |r| == |ns|
  {
    seq(|ns|, i requires 0 <= i < |ns| => NodeRowFor(flowId, firstId + i, ns[i]))
  }

  /** An entry of `created`: the editor's reference, the new id and the node's options. */
  datatype Created = Created(tempId: JsKey, id: int, options: seq<OptionInput>)

  function CreatedFrom(firstId: int, ns: seq<NodeInput>): (r: seq<Created>)
    ensures |r| == |ns|
  {
    seq(|ns|, i requires 0 <= i < |ns| =>
      Created(ns[i].clientId, firstId + i, if ns[i].options.Some? then ns[i].options.value else []))
  }

  /** `c.tempId || idx` as a property name. */
  function RemapKey(c: Created, idx: nat): string
  {
    if KeyTruthy(c.tempId) then PropertyKey(c.tempId) else NatToString(idx)
  }

  /** `Object.fromEntries(created.map((c, idx) => [c.tempId || idx, c.id]))`: a later entry
      with the same key wins. */
  function IdMap(cs: seq<Created>): (m: map<string, int>)
    decreases |cs|
  {
    if cs == [] then map[]
    else IdMap(cs[..|cs| - 1])[RemapKey(cs[|cs| - 1], |cs| - 1) := cs[|cs| - 1].id]
  }

  /** `idMap[opt.next_node_id] || null` */
  function Target(idMap: map<string, int>, ref: JsKey): Option<int>
  {
    var k := PropertyKey(ref);
    if k in idMap && idMap[k] != 0 then Some(idMap[k]) else None
  }

  /** The options of one created node, each with its source id. */
  function PairsOf(c: Created): (r: seq<(int, OptionInput)>)
    ensures |r| == |c.options|
  {
    seq(|c.options|, j requires 0 <= j < |c.options| => (c.id, c.options[j]))
  }

  /** Every option of every created node, in creation order. */
  function OptionPairs(cs: seq<Created>): seq<(int, OptionInput)>
    decreases |cs|
  {
    if cs == [] then [] else OptionPairs(cs[..|cs| - 1]) + PairsOf(cs[|cs| - 1])
  }

  function OptionRowFor(id: int, pair: (int, OptionInput), idMap: map<string, int>): OptionRow
  {
    OptionRow(id, pair.0, pair.1.optionText, Target(idMap, pair.1.nextNodeId))
  }

  /** The option rows, numbered from `firstId`. */
  function OptionRowsFrom(firstId: int, pairs: seq<(int, OptionInput)>, idMap: map<string, int>): (r: seq<OptionRow>)
    ensures |r| == |pairs|
  {
    seq(|pairs|, k requires 0 <= k < |pairs| => OptionRowFor(firstId + k, pairs[k], idMap))
  }

  /** The tables after creating the nodes `ns` of flow `flowId` and their options. */
  function WithNodes(t: Tables, flowId: int, ns: seq<NodeInput>): Tables
  {
    var created := CreatedFrom(t.nextNodeId, ns);
    var pairs := OptionPairs(created);
    t.(nodes := t.nodes + NodeRowsFrom(flowId, t.nextNodeId, ns), nextNodeId := t.nextNodeId + |ns|,
       options := t.options + OptionRowsFrom(t.nextOptionId, pairs, IdMap(created)),
       nextOptionId := t.nextOptionId + |pairs|)
  }

  /** Whether the database rejects the insert of one of the option rows `rows`. */
  predicate OptionsRejected(rejects: Write -> bool, rows: seq<OptionRow>)
  {
    exists o :: o in rows && rejects(InsertOption(o))
  }

  /** Whether the database rejects one of the inserts `WithNodes` performs. */
  predicate NodesRejected(rejects: Write -> bool, t: Tables, flowId: int, ns: seq<NodeInput>)
  {
    var created := CreatedFrom(t.nextNodeId, ns);
    || (exists r :: r in NodeRowsFrom(flowId, t.nextNodeId, ns) && rejects(InsertNode(r)))
    || OptionsRejected(rejects, OptionRowsFrom(t.nextOptionId, OptionPairs(created), IdMap(created)))
  }

  /** The nodes part of a save; `nodes` that is not an array creates nothing. */
  function SaveNodes(rejects: Write -> bool, t: Tables, flowId: int, nodes: Option<seq<NodeInput>>): (r: Option<Tables>)
  {
    if nodes.None? then Some(t)
    else if NodesRejected(rejects, t, flowId, nodes.value) then None
    else Some(WithNodes(t, flowId, nodes.value))
  }

  /** The row `createFlow` inserts: `is_active` defaults to true. */
  function NewFlowRow(t: Tables, userId: int, data: FlowInput): FlowRow
  {
    FlowRow(t.nextFlowId, userId, data.name, data.triggerKeyword, if data.isActive.Some? then data.isActive.value else true)
  }

  /** `createFlow(userId, flowData)`: the tables afterwards and the created flow. */
  function Create(rejects: Write -> bool, t: Tables, userId: int, data: FlowInput): (Tables, Result<FlowRow>)
  {
    var flow := NewFlowRow(t, userId, data);
    if rejects(InsertFlow(flow)) then (t, Err(WriteRejected))
    else
      match SaveNodes(rejects, t.(flows := t.flows + [flow], nextFlowId := t.nextFlowId + 1), flow.id, data.nodes)
      case None => (t, Err(WriteRejected))
      case Some(t') => (t', Ok(flow))
  }

  /** `Flow.update`: fields that are undefined in `data` are not written. */
  function UpdatedRow(f: FlowRow, data: FlowInput): FlowRow
  {
    f.(name := if data.name.Some? then data.name else f.name,
       triggerKeyword := if data.triggerKeyword.Some? then data.triggerKeyword else f.triggerKeyword,
       isActive := if data.isActive.Some? then data.isActive.value else f.isActive)
  }

  function UpdatedFlows(flows: seq<FlowRow>, flowId: int, data: FlowInput): (r: seq<FlowRow>)
    ensures |r| == |flows|
  {
    seq(|flows|, i requires 0 <= i < |flows| => if flows[i].id == flowId then UpdatedRow(flows[i], data) else flows[i])
  }

  function OfOtherFlows(flowId: int): NodeRow -> bool
  {
    (n: NodeRow) => n.flowId != flowId
  }

  function OfFlow(flowId: int): NodeRow -> bool
  {
    (n: NodeRow) => n.flowId == flowId
  }

  /** `Flow.findByPk(flowId)` */
  function FindFlowRow(flows: seq<FlowRow>, flowId: int): (r: Option<FlowRow>)
    ensures r.Some? ==> r.value in flows && r.value.id == flowId
    ensures r.None? ==> forall f :: f in flows ==> f.id != flowId
  {
    match FindFirst(flows, (f: FlowRow) => f.id == flowId)
    case None => None
    case Some(k) => Some(flows[k])
  }

  /** `updateFlow(flowId, flowData)`: update the flow row, destroy its nodes, recreate them;
      the answer is the flow re-read after the commit. */
  function Update(rejects: Write -> bool, t: Tables, flowId: int, data: FlowInput): (Tables, Result<Option<FlowRow>>)
  {
    if rejects(UpdateFlowRow(flowId)) || rejects(DestroyNodes(flowId)) then (t, Err(WriteRejected))
    else
      var cleared := t.(flows := UpdatedFlows(t.flows, flowId, data), nodes := Filter(t.nodes, OfOtherFlows(flowId)));
      match SaveNodes(rejects, cleared, flowId, data.nodes)
      case None => (t, Err(WriteRejected))
      case Some(t') => (t', Ok(FindFlowRow(t'.flows, flowId)))
  }

  // ---- The store ----

  class FlowTables {
    var flows: seq<FlowRow>
    var nodes: seq<NodeRow>
    var options: seq<OptionRow>
    var nextFlowId: int
    var nextNodeId: int
    var nextOptionId: int
    /** Which writes the database refuses (constraint violations, I/O errors). */
    const rejects: Write -> bool

    constructor (rejects: Write -> bool)
      ensures Snapshot() == Tables([], [], [], 1, 1, 1) && this.rejects == rejects
    {
      flows, nodes, options := [], [], [];
      nextFlowId, nextNodeId, nextOptionId := 1, 1, 1;
      this.rejects := rejects;
    }

    function Snapshot(): Tables
      reads this
    {
      Tables(flows, nodes, options, nextFlowId, nextNodeId, nextOptionId)
    }

    /** `tx.rollback()` */
    method Rollback(saved: Tables)
      modifies this
      ensures Snapshot() == saved
    {
      flows, nodes, options := saved.flows, saved.nodes, saved.options;
      nextFlowId, nextNodeId, nextOptionId := saved.nextFlowId, saved.nextNodeId, saved.nextOptionId;
    }

    /** `FlowNode.create` for each input node, pushing into `created`. */
    method CreateNodes(flowId: int, ns: seq<NodeInput>) returns (failed: bool, created: seq<Created>)
      modifies this`nodes, this`nextNodeId
      ensures failed <==> exists r :: r in NodeRowsFrom(flowId, old(nextNodeId), ns) && rejects(InsertNode(r))
      ensures !failed ==> (nodes == old(nodes) + NodeRowsFrom(flowId, old(nextNodeId), ns)
                           && nextNodeId == old(nextNodeId) + |ns| && created == CreatedFrom(old(nextNodeId), ns))
    {
      ghost var rows := NodeRowsFrom(flowId, nextNodeId, ns);
      ghost var first := nextNodeId;
      created := [];
      var i := 0;
      while i < |ns|
        invariant 0 <= i <= |ns|
        invariant nextNodeId == first + i
        invariant nodes == old(nodes) + rows[..i]
        invariant created == CreatedFrom(first, ns)[..i]
        invariant forall k :: 0 <= k < i ==> !rejects(InsertNode(rows[k]))
      {
        var n := ns[i];
        var row := NodeRowFor(flowId, nextNodeId, n);
        assert row == rows[i];
        if rejects(InsertNode(row)) {
          return true, created;
        }
        nodes := nodes + [row];
        nextNodeId := nextNodeId + 1;
        created := created + [Created(n.clientId, row.id, if n.options.Some? then n.options.value else [])];
        assert rows[..i + 1] == rows[..i] + [rows[i]];
        assert CreatedFrom(first, ns)[..i + 1] == CreatedFrom(first, ns)[..i] + [CreatedFrom(first, ns)[i]];
        i := i + 1;
      }
      assert rows[..i] == rows;
      assert CreatedFrom(first, ns)[..i] == CreatedFrom(first, ns);
      failed := false;
    }

    /** `NodeOption.create` for each option of one created node. */
    method CreateOptionsOf(c: Created, idMap: map<string, int>) returns (failed: bool)
      modifies this`options, this`nextOptionId
      ensures failed <==> OptionsRejected(rejects, OptionRowsFrom(old(nextOptionId), PairsOf(c), idMap))
      ensures !failed ==> (options == old(options) + OptionRowsFrom(old(nextOptionId), PairsOf(c), idMap)
                           && nextOptionId == old(nextOptionId) + |c.options|)
    {
      ghost var rows := OptionRowsFrom(nextOptionId, PairsOf(c), idMap);
      ghost var first := nextOptionId;
      var j := 0;
      while j < |c.options|
        invariant 0 <= j <= |c.options|
        invariant nextOptionId == first + j
        invariant options == old(options) + rows[..j]
        invariant forall k :: 0 <= k < j ==> !rejects(InsertOption(rows[k]))
      {
        var opt := c.options[j];
        var row := OptionRow(nextOptionId, c.id, opt.optionText, Target(idMap, opt.nextNodeId));
        assert row == rows[j];
        if rejects(InsertOption(row)) {
          return true;
        }
        options := options + [row];
        nextOptionId := nextOptionId + 1;
        assert rows[..j + 1] == rows[..j] + [rows[j]];
        j := j + 1;
      }
      assert rows[..j] == rows;
      failed := false;
    }

    /** The option loop over every created node, all against the one `idMap`. */
    method CreateOptions(created: seq<Created>) returns (failed: bool)
      modifies this`options, this`nextOptionId
      ensures failed <==> OptionsRejected(rejects, OptionRowsFrom(old(nextOptionId), OptionPairs(created), IdMap(created)))
      ensures !failed ==> (options == old(options) + OptionRowsFrom(old(nextOptionId), OptionPairs(created), IdMap(created))
                           && nextOptionId == old(nextOptionId) + |OptionPairs(created)|)
    {
      var idMap := IdMap(created);
      ghost var first := nextOptionId;
      var i := 0;
      while i < |created|
        invariant 0 <= i <= |created|
        invariant nextOptionId == first + |OptionPairs(created[..i])|
        invariant options == old(options) + OptionRowsFrom(first, OptionPairs(created[..i]), idMap)
        invariant !OptionsRejected(rejects, OptionRowsFrom(first, OptionPairs(created[..i]), idMap))
      {
        failed := CreateOptionsOf(created[i], idMap);
        OptionRowsStep(first, created, i, idMap);
        if failed {
          RejectedStep(rejects, first, created, i, idMap);
          return;
        }
        OptionsRejectedAppend(rejects, OptionRowsFrom(first, OptionPairs(created[..i]), idMap),
                              OptionRowsFrom(first + |OptionPairs(created[..i])|, PairsOf(created[i]), idMap));
        i := i + 1;
      }
      assert created[..i] == created;
      failed := false;
    }

    /** The shared body of `createFlow` and `updateFlow` inside `Array.isArray(flowData.nodes)`. */
    method SaveNodesOf(flowId: int, nodes: Option<seq<NodeInput>>) returns (failed: bool)
      modifies this`nodes, this`nextNodeId, this`options, this`nextOptionId
      ensures failed <==> SaveNodes(rejects, old(Snapshot()), flowId, nodes).None?
      ensures !failed ==> Snapshot() == SaveNodes(rejects, old(Snapshot()), flowId, nodes).value
    {
      if nodes.None? {
        return false;
      }
      var created;
      failed, created := CreateNodes(flowId, nodes.value);
      if failed {
        return;
      }
      failed := CreateOptions(created);
    }

    /** `createFlow(userId, flowData)` */
    method CreateFlow(userId: int, data: FlowInput) returns (r: Result<FlowRow>)
      modifies this
      ensures (Snapshot(), r) == Create(rejects, old(Snapshot()), userId, data)
    {
      var saved := Snapshot();
      var flow := FlowRow(nextFlowId, userId, data.name, data.triggerKeyword,
                          if data.isActive.Some? then data.isActive.value else true);
      if rejects(InsertFlow(flow)) {
        return Err(WriteRejected);
      }
      flows := flows + [flow];
      nextFlowId := nextFlowId + 1;
      var failed := SaveNodesOf(flow.id, data.nodes);
      if failed {
        Rollback(saved);
        return Err(WriteRejected);
      }
      return Ok(flow);
    }

    /** `updateFlow(flowId, flowData)` */
    method UpdateFlow(flowId: int, data: FlowInput) returns (r: Result<Option<FlowRow>>)
      modifies this
      ensures (Snapshot(), r) == Update(rejects, old(Snapshot()), flowId, data)
    {
      var saved := Snapshot();
      if rejects(UpdateFlowRow(flowId)) || rejects(DestroyNodes(flowId)) {
        return Err(WriteRejected);
      }
      flows := UpdatedFlows(flows, flowId, data);
      nodes := Filter(nodes, OfOtherFlows(flowId));
      var failed := SaveNodesOf(flowId, data.nodes);
      if failed {
        Rollback(saved);
        return Err(WriteRejected);
      }
      return Ok(FindFlowRow(flows, flowId));
    }
  }

  // ---- Lemmas the loops use ----

  lemma OptionPairsStep(cs: seq<Created>, i: nat)
    requires i < |cs|
    ensures OptionPairs(cs[..i + 1]) == OptionPairs(cs[..i]) + PairsOf(cs[i])
  {
    assert cs[..i + 1][..i] == cs[..i];
  }

  /** The pairs of a prefix of the nodes are a prefix of all the pairs. */
  lemma {:induction false} OptionPairsPrefix(cs: seq<Created>, i: nat)
    requires i <= |cs|
    ensures |OptionPairs(cs[..i])| <= |OptionPairs(cs)|
    ensures OptionPairs(cs[..i]) == OptionPairs(cs)[..|OptionPairs(cs[..i])|]
    decreases |cs| - i
  {
    if i == |cs| {
      assert cs[..i] == cs;
    } else {
      OptionPairsPrefix(cs, i + 1);
      OptionPairsStep(cs, i);
    }
  }

  lemma RowsAppend(first: int, p: seq<(int, OptionInput)>, q: seq<(int, OptionInput)>, m: map<string, int>)
    ensures OptionRowsFrom(first, p + q, m) == OptionRowsFrom(first, p, m) + OptionRowsFrom(first + |p|, q, m)
  {
  }

  /** The option rows of one more node extend the rows so far. */
  lemma OptionRowsStep(first: int, cs: seq<Created>, i: nat, m: map<string, int>)
    requires i < |cs|
    ensures |OptionPairs(cs[..i + 1])| == |OptionPairs(cs[..i])| + |cs[i].options|
    ensures OptionRowsFrom(first, OptionPairs(cs[..i + 1]), m)
         == OptionRowsFrom(first, OptionPairs(cs[..i]), m) + OptionRowsFrom(first + |OptionPairs(cs[..i])|, PairsOf(cs[i]), m)
  {
    OptionPairsStep(cs, i);
    RowsAppend(first, OptionPairs(cs[..i]), PairsOf(cs[i]), m);
  }

  /** A rejected option row of node `i` is a rejected option row of the whole loop. */
  lemma RejectedStep(rejects: Write -> bool, first: int, cs: seq<Created>, i: nat, m: map<string, int>)
    requires i < |cs|
    requires OptionsRejected(rejects, OptionRowsFrom(first + |OptionPairs(cs[..i])|, PairsOf(cs[i]), m))
    ensures OptionsRejected(rejects, OptionRowsFrom(first, OptionPairs(cs), m))
  {
    var o :| o in OptionRowsFrom(first + |OptionPairs(cs[..i])|, PairsOf(cs[i]), m) && rejects(InsertOption(o));
    OptionRowsStep(first, cs, i, m);
    assert o in OptionRowsFrom(first, OptionPairs(cs[..i + 1]), m);
    OptionPairsPrefix(cs, i + 1);
    RowsPrefix(first, OptionPairs(cs[..i + 1]), OptionPairs(cs), m);
  }

  lemma OptionsRejectedAppend(rejects: Write -> bool, a: seq<OptionRow>, b: seq<OptionRow>)
    ensures OptionsRejected(rejects, a + b) <==> OptionsRejected(rejects, a) || OptionsRejected(rejects, b)
  {
    if OptionsRejected(rejects, a + b) {
      var o :| o in a + b && rejects(InsertOption(o));
      assert o in a || o in b;
    }
    if OptionsRejected(rejects, b) {
      var o :| o in b && rejects(InsertOption(o));
      assert o in a + b;
    }
  }

  lemma RowsPrefix(first: int, p: seq<(int, OptionInput)>, full: seq<(int, OptionInput)>, m: map<string, int>)
    requires |p| <= |full| && p == full[..|p|]
    ensures forall o :: o in OptionRowsFrom(first, p, m) ==> o in OptionRowsFrom(first, full, m)
  {
    forall o | o in OptionRowsFrom(first, p, m) ensures o in OptionRowsFrom(first, full, m)
    {
      var k :| 0 <= k < |p| && OptionRowsFrom(first, p, m)[k] == o;
      assert OptionRowsFrom(first, full, m)[k] == o;
    }
  }

  // ---- Properties ----

  /** Every value of the id map is the id of a created node. */
  lemma {:induction false} IdMapValues(cs: seq<Created>)
    ensures forall k :: k in IdMap(cs) ==> exists j :: 0 <= j < |cs| && IdMap(cs)[k] == cs[j].id
    decreases |cs|
  {
    if cs != [] {
      var init := cs[..|cs| - 1];
      IdMapValues(init);
      forall k | k in IdMap(cs) ensures exists j :: 0 <= j < |cs| && IdMap(cs)[k] == cs[j].id
      {
        if k != RemapKey(cs[|cs| - 1], |cs| - 1) {
          var j :| 0 <= j < |init| && IdMap(init)[k] == init[j].id;
          assert cs[j] == init[j];
        }
      }
    }
  }

  /** An option row's target is a value of the id map. */
  lemma RowTargets(first: int, pairs: seq<(int, OptionInput)>, m: map<string, int>)
    ensures forall o :: o in OptionRowsFrom(first, pairs, m) && o.nextNodeId.Some? ==>
      exists key :: key in m && m[key] == o.nextNodeId.value
  {
    forall o | o in OptionRowsFrom(first, pairs, m) && o.nextNodeId.Some?
      ensures exists key :: key in m && m[key] == o.nextNodeId.value
    {
      var k :| 0 <= k < |pairs| && OptionRowsFrom(first, pairs, m)[k] == o;
      assert PropertyKey(pairs[k].1.nextNodeId) in m;
    }
  }

  /** A saved option points at a node created in the same save, or nowhere. */
  lemma TargetsAreSavedNodes(t: Tables, flowId: int, ns: seq<NodeInput>)
    ensures var after := WithNodes(t, flowId, ns);
      forall o :: o in after.options[|t.options|..] ==>
        o.nextNodeId.None? || exists n :: n in NodeRowsFrom(flowId, t.nextNodeId, ns) && n.id == o.nextNodeId.value
  {
    var created := CreatedFrom(t.nextNodeId, ns);
    var m := IdMap(created);
    var rows := OptionRowsFrom(t.nextOptionId, OptionPairs(created), m);
    var nodeRows := NodeRowsFrom(flowId, t.nextNodeId, ns);
    assert WithNodes(t, flowId, ns).options[|t.options|..] == rows;
    IdMapValues(created);
    RowTargets(t.nextOptionId, OptionPairs(created), m);
    forall o | o in rows && o.nextNodeId.Some?
      ensures exists n :: n in nodeRows && n.id == o.nextNodeId.value
    {
      var key :| key in m && m[key] == o.nextNodeId.value;
      var j :| 0 <= j < |created| && m[key] == created[j].id;
      assert nodeRows[j].id == created[j].id;
    }
  }

  /** The same for a whole `createFlow`: the new options point only at the new flow's nodes. */
  lemma CreatedOptionsStayInFlow(rejects: Write -> bool, t: Tables, userId: int, data: FlowInput)
    ensures var (after, r) := Create(rejects, t, userId, data);
      r.Ok? ==>
        && |t.options| <= |after.options| && |t.nodes| <= |after.nodes|
        && forall o :: o in after.options[|t.options|..] ==>
             o.nextNodeId.None? ||
             exists n :: n in after.nodes[|t.nodes|..] && n.flowId == r.value.id && n.id == o.nextNodeId.value
  {
    var flow := NewFlowRow(t, userId, data);
    var t1 := t.(flows := t.flows + [flow], nextFlowId := t.nextFlowId + 1);
    var (after, r) := Create(rejects, t, userId, data);
    if r.Ok? {
      assert r.value == flow;
      if data.nodes.None? {
        assert after == t1;
        assert after.options[|t.options|..] == [];
      } else {
        var ns := data.nodes.value;
        assert after == WithNodes(t1, flow.id, ns);
        TargetsAreSavedNodes(t1, flow.id, ns);
        NewNodesOfFlow(t1, flow.id, ns);
      }
    }
  }

  /** The nodes a save appends are the rows for the input nodes, all in the saved flow. */
  lemma NewNodesOfFlow(t: Tables, flowId: int, ns: seq<NodeInput>)
    ensures var after := WithNodes(t, flowId, ns);
      && after.nodes[|t.nodes|..] == NodeRowsFrom(flowId, t.nextNodeId, ns)
      && forall n :: n in NodeRowsFrom(flowId, t.nextNodeId, ns) ==> n.flowId == flowId
  {
    assert WithNodes(t, flowId, ns).nodes[|t.nodes|..] == NodeRowsFrom(flowId, t.nextNodeId, ns);
  }

  /** The entry for node `j` is its own id unless a later node has the same remap key. */
  lemma {:induction false} IdMapLookup(cs: seq<Created>, j: nat)
    requires j < |cs|
    requires forall l :: j < l < |cs| ==> RemapKey(cs[l], l) != RemapKey(cs[j], j)
    ensures RemapKey(cs[j], j) in IdMap(cs) && IdMap(cs)[RemapKey(cs[j], j)] == cs[j].id
    decreases |cs|
  {
    if j < |cs| - 1 {
      var init := cs[..|cs| - 1];
      assert init[j] == cs[j];
      forall l | j < l < |init| ensures RemapKey(init[l], l) != RemapKey(init[j], j)
      {
        assert init[l] == cs[l];
      }
      IdMapLookup(init, j);
    }
  }

  /** When no node has a `client_id`, references are 0-based positions: a reference `k` finds
      the node at index `k`. The editors number steps from 1, so their reference to step `k`
      lands on step `k + 1`, and a reference to the last step lands nowhere. */
  lemma PositionalReferences(first: int, ns: seq<NodeInput>, k: int)
    requires first >= 1
    requires forall i :: 0 <= i < |ns| ==> !KeyTruthy(ns[i].clientId)
    ensures 0 <= k < |ns| ==> Target(IdMap(CreatedFrom(first, ns)), Num(k)) == Some(first + k)
    ensures (k < 0 || k >= |ns|) ==> Target(IdMap(CreatedFrom(first, ns)), Num(k)) == None
  {
    var cs := CreatedFrom(first, ns);
    if 0 <= k < |ns| {
      forall l | k < l < |cs| ensures RemapKey(cs[l], l) != RemapKey(cs[k], k)
      {
        if NatToString(l) == NatToString(k) {
          NatToStringInjective(l, k);
        }
      }
      IdMapLookup(cs, k);
    } else {
      IdMapKeys(cs);
      forall j: nat | j < |cs| ensures PropertyKey(Num(k)) != NatToString(j)
      {
        if k < 0 {
          NegativeIsNoPosition(k, j);
        } else if NatToString(k) == NatToString(j) {
          NatToStringInjective(k, j);
        }
      }
    }
  }

  lemma NegativeIsNoPosition(k: int, j: nat)
    requires k < 0
    ensures IntToString(k) != NatToString(j)
  {
    assert IntToString(k)[0] == '-';
    assert IsDigit(NatToString(j)[0]);
  }

  /** `key` is the name of one of the positions `0 .. n - 1`. */
  predicate IsPositionKey(key: string, n: nat)
  {
    exists j: nat :: j < n && key == NatToString(j)
  }

  /** Without truthy `client_id`s the keys are exactly the positions. */
  lemma {:induction false} IdMapKeys(cs: seq<Created>)
    requires forall i :: 0 <= i < |cs| ==> !KeyTruthy(cs[i].tempId)
    ensures forall key :: key in IdMap(cs) ==> IsPositionKey(key, |cs|)
    decreases |cs|
  {
    if cs != [] {
      var init := cs[..|cs| - 1];
      assert forall i :: 0 <= i < |init| ==> init[i] == cs[i];
      IdMapKeys(init);
      assert IdMap(cs) == IdMap(init)[RemapKey(cs[|cs| - 1], |cs| - 1) := cs[|cs| - 1].id];
      forall key | key in IdMap(cs) ensures IsPositionKey(key, |cs|)
      {
        if key != RemapKey(cs[|cs| - 1], |cs| - 1) {
          var j: nat :| j < |init| && key == NatToString(j);
          assert j < |cs|;
        } else {
          assert key == NatToString(|cs| - 1);
        }
      }
    } else {
      assert IdMap(cs) == map[];
    }
  }

  /** What `createFlow` stores: the flow (active unless `is_active` says otherwise), then the
      nodes in input order with empty texts as null and absent start flags as false, each
      option under the node it belongs to. */
  lemma CreateStores(rejects: Write -> bool, t: Tables, userId: int, data: FlowInput)
    ensures var (after, r) := Create(rejects, t, userId, data);
      r.Ok? ==>
        && r.value.id == t.nextFlowId && r.value.userId == userId
        && r.value.isActive == (data.isActive != Some(false))
        && after.flows == t.flows + [r.value]
        && (data.nodes.None? ==> after.nodes == t.nodes && after.options == t.options)
        && (data.nodes.Some? ==>
              var ns := data.nodes.value;
              && after.nodes == t.nodes + NodeRowsFrom(r.value.id, t.nextNodeId, ns)
              && forall i :: 0 <= i < |ns| ==>
                   var row := after.nodes[|t.nodes| + i];
                   && row.id == t.nextNodeId + i && row.flowId == r.value.id
                   && row.nodeType == ns[i].nodeType
                   && (row.messageText.None? <==> !Truthy(ns[i].messageText))
                   && (row.isStartNode <==> ns[i].isStartNode == Some(true)))
  {
  }

  /** A rejected write rolls the whole save back. */
  lemma AllOrNothing(rejects: Write -> bool, t: Tables, userId: int, flowId: int, data: FlowInput)
    ensures Create(rejects, t, userId, data).1.Err? ==> Create(rejects, t, userId, data).0 == t
    ensures Update(rejects, t, flowId, data).1.Err? ==> Update(rejects, t, flowId, data).0 == t
    ensures Create(rejects, t, userId, data).1.Err? <==>
      || rejects(InsertFlow(NewFlowRow(t, userId, data)))
      || (data.nodes.Some? &&
          NodesRejected(rejects, t.(flows := t.flows + [NewFlowRow(t, userId, data)], nextFlowId := t.nextFlowId + 1),
                        t.nextFlowId, data.nodes.value))
  {
  }

  /** Keeping the other flows' nodes and appending the new ones of this flow. */
  lemma ReplaceFlowNodes(kept: seq<NodeRow>, added: seq<NodeRow>, flowId: int)
    requires forall n :: n in kept ==> n.flowId != flowId
    requires forall n :: n in added ==> n.flowId == flowId
    ensures Filter(kept + added, OfFlow(flowId)) == added
    ensures Filter(kept + added, OfOtherFlows(flowId)) == kept
  {
    FilterAppend(kept, added, OfFlow(flowId));
    FilterAppend(kept, added, OfOtherFlows(flowId));
    FilterNone(kept, OfFlow(flowId));
    FilterNone(added, OfOtherFlows(flowId));
    FilterAll(kept, OfOtherFlows(flowId));
    FilterAll(added, OfFlow(flowId));
  }

  /** After `updateFlow` the flow's nodes are exactly the recreated ones, in input order (none
      when `nodes` is not an array); every other flow keeps its nodes. */
  lemma UpdateReplacesNodes(rejects: Write -> bool, t: Tables, flowId: int, data: FlowInput)
    ensures Update(rejects, t, flowId, data).1.Ok? ==>
      var after := Update(rejects, t, flowId, data).0;
      && Filter(after.nodes, OfFlow(flowId)) == (if data.nodes.Some? then NodeRowsFrom(flowId, t.nextNodeId, data.nodes.value) else [])
      && Filter(after.nodes, OfOtherFlows(flowId)) == Filter(t.nodes, OfOtherFlows(flowId))
  {
    var kept := Filter(t.nodes, OfOtherFlows(flowId));
    var added := if data.nodes.Some? then NodeRowsFrom(flowId, t.nextNodeId, data.nodes.value) else [];
    if Update(rejects, t, flowId, data).1.Ok? {
      assert Update(rejects, t, flowId, data).0.nodes == kept + added;
      ReplaceFlowNodes(kept, added, flowId);
    }
  }
}
