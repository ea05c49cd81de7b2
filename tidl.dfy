/** The subgraph bookkeeping of the TIDL execution provider: the decision to
    use subgraphs at all, the Conv/BatchNormalization/Relu fusion rule, the
    per-node update of the subgraph under construction, and the closing of
    a subgraph into a meta definition with its end nodes and its counter. */
module Tidl {
  import opened Common
  import opened Decimal

  // ---------------------------------------------------------------------
  // Graph nodes, as the provider sees them
  // ---------------------------------------------------------------------

  /** An input definition: its name and, when known, its type string. */
  datatype Input = Input(name: string, typeName: Option<string>)

  /** The value of a node attribute; the provider only copies it. */
  datatype AttributeValue =
    | NodeAttribute(raw: string)
    | InitializerList(names: seq<string>)   // the `initializers` attribute of a meta definition
    | SubgraphId(id: string)                // the `subgraph_id` attribute

  /** A graph node: op type, input and output definitions, attributes in
      iteration order, and the op types of the nodes feeding it. */
  datatype Node = Node(opType: string, inputs: seq<Input>, outputs: seq<string>,
                       attributes: seq<(string, AttributeValue)>, inputNodeOpTypes: seq<string>)

  /** `ort_tidl::TidlNode`. `outputIndex` is `None` until the subgraph is
      closed and the node turns out to be an end node. */
  datatype TidlNode = TidlNode(name: string, numInputs: int, inputStartIndex: int, nodeIndex: int,
                               outputName: string, weightName: string, parentNodes: seq<nat>,
                               outputIndex: Option<int>)

  function Names(inputs: seq<Input>): (r: seq<string>)
    ensures |r| == |inputs| && forall i :: 0 <= i < |r| ==> r[i] == inputs[i].name
  {
    if inputs == [] then [] else [inputs[0].name] + Names(inputs[1..])
  }

  // ---------------------------------------------------------------------
  // UseSubgraph
  // ---------------------------------------------------------------------

  /** `std::string::find(pat) != npos`. */
  predicate Contains(s: string, pat: string)
    decreases |s|
  {
    |pat| <= |s| && (s[..|pat|] == pat || Contains(s[1..], pat))
  }

  /** A node whose first input definition carries a type. */
  predicate Typed(n: Option<Node>)
  {
    n.Some? && |n.value.inputs| > 0 && n.value.inputs[0].typeName.Some?
  }

  function FirstInputType(n: Option<Node>): string
    requires Typed(n)
  {
    n.value.inputs[0].typeName.value
  }

  /** Slot `i` holds the first typed node of the graph. */
  predicate IsFirstTyped(graph: seq<Option<Node>>, i: int)
  {
    0 <= i < |graph| && Typed(graph[i]) && forall j :: 0 <= j < i ==> !Typed(graph[j])
  }

  /** `atoi`: white space is skipped, a sign is read, then the longest run
      of digits; no digit gives 0. */
  function Atoi(s: string): (r: int)
    ensures r == 0 <==> DigitsValue(LeadingDigits(SignDropped(SkipSpace(s)))) == 0
  {
    var t := SkipSpace(s);
    var v: int := DigitsValue(LeadingDigits(SignDropped(t)));
    if t != [] && t[0] == '-' then -v else v
  }

  function SignDropped(t: string): (u: string)
    ensures |u| <= |t|
  {
    if t != [] && (t[0] == '+' || t[0] == '-') then t[1..] else t
  }

  /** A value of the variable that starts with anything but white space,
      a sign or a digit, such as "yes", reads as 0 and so turns subgraphs
      off. */
  lemma AtoiOfWord(s: string)
    requires s != [] && !IsSpace(s[0]) && !IsDigit(s[0]) && s[0] != '+' && s[0] != '-'
    ensures Atoi(s) == 0
  {
    assert SkipSpace(s) == s;
  }

  /** A decimal number reads as itself; so "0" turns subgraphs off and any
      other number keeps them on. */
  lemma AtoiOfDecimal(n: nat)
    ensures Atoi(ToDecimal(n)) == n
  {
    var s := ToDecimal(n);
    DecimalDigitsRead(n);
    assert IsDigit(s[0]);
    assert SignDropped(s) == s;
  }

  // ---------------------------------------------------------------------
  // The fusion rule of GetCapability
  // ---------------------------------------------------------------------

  const BatchNormalization := "BatchNormalization"
  const ConvBatchNormalization := "Conv-BatchNormalization"

  /** The new name of the last TIDL node when the incoming node of type
      `opType` fuses into it, `count` being the number of subgraph nodes
      including the incoming one; `None` when it does not fuse. */
  function FusedName(count: nat, opType: string, last: string): (r: Option<string>)
    ensures r.Some? ==> count > 1 && (opType == BatchNormalization || opType == "Relu")
    ensures r.Some? ==> |last| < |r.value| && r.value[..|last|] == last
  {
    if count > 1 && opType == BatchNormalization && last == "Conv" then Some(ConvBatchNormalization)
    else if count > 1 && opType == "Relu" &&
            (last == ConvBatchNormalization || last == BatchNormalization || last == "Conv")
    then Some(last + "-Relu")
    else None
  }

  /** A BatchNormalization node fuses exactly after a lone "Conv". */
  lemma BatchNormalizationFusion(count: nat, last: string)
    ensures FusedName(count, BatchNormalization, last).Some? <==> count > 1 && last == "Conv"
    ensures FusedName(count, BatchNormalization, last).Some? ==>
      FusedName(count, BatchNormalization, last).value == ConvBatchNormalization
  {
  }

  /** A Relu fuses after "Conv", "BatchNormalization" or
      "Conv-BatchNormalization" and gets "-Relu" appended; it never fuses
      into a node that already took a Relu. */
  lemma ReluFusion(count: nat, last: string)
    ensures FusedName(count, "Relu", last).Some? <==>
      count > 1 && (last == ConvBatchNormalization || last == BatchNormalization || last == "Conv")
    ensures FusedName(count, "Relu", last).Some? ==> FusedName(count, "Relu", last).value == last + "-Relu"
    ensures FusedName(count, "Relu", last + "-Relu").None?
  {
    var l := last + "-Relu";
    assert l[|l| - 1] == 'u';
    assert ConvBatchNormalization[|ConvBatchNormalization| - 1] == 'n';
    assert BatchNormalization[|BatchNormalization| - 1] == 'n';
    assert |l| > |"Conv"|;
  }

  /** Conv, BatchNormalization, Relu in a row end as one node named
      "Conv-BatchNormalization-Relu". */
  lemma ConvBatchNormalizationRelu(count: nat)
    requires count > 1
    ensures FusedName(count, BatchNormalization, "Conv") == Some(ConvBatchNormalization)
    ensures FusedName(count + 1, "Relu", ConvBatchNormalization) == Some("Conv-BatchNormalization-Relu")
  {
    assert ConvBatchNormalization + "-Relu" == "Conv-BatchNormalization-Relu";
  }

  // ---------------------------------------------------------------------
  // The subgraph under construction
  // ---------------------------------------------------------------------

  /** The parent nodes of a new TIDL node: the indices its known inputs map
      to, in input order. */
  function ParentNodes(names: seq<string>, m: map<string, nat>): (r: seq<nat>)
    ensures |r| <= |names|
    ensures forall k :: 0 <= k < |r| ==> r[k] in m.Values
    ensures forall i :: 0 <= i < |names| && names[i] in m ==> m[names[i]] in r
  {
    if names == [] then []
    else ParentNodes(names[..|names| - 1], m) +
         (if names[|names| - 1] in m then [m[names[|names| - 1]]] else [])
  }

  /** The parent list read from the front: the first input contributes its
      node, if known, ahead of the parents of the remaining inputs. */
  lemma {:induction false} ParentNodesFront(x: string, rest: seq<string>, m: map<string, nat>)
    ensures ParentNodes([x] + rest, m) == (if x in m then [m[x]] else []) + ParentNodes(rest, m)
    decreases |rest|
  {
    if rest != [] {
      var init := rest[..|rest| - 1];
      assert ([x] + rest)[..|rest|] == [x] + init;
      ParentNodesFront(x, init, m);
      assert rest[..|rest| - 1] == init;
    }
  }

  /** When every input is the output of a known node, the parents are those
      nodes, one per input and in input order. */
  lemma {:induction false} ParentNodesAllKnown(names: seq<string>, m: map<string, nat>)
    requires forall i :: 0 <= i < |names| ==> names[i] in m
    ensures |ParentNodes(names, m)| == |names|
    ensures forall k :: 0 <= k < |names| ==> ParentNodes(names, m)[k] == m[names[k]]
  {
    if names != [] {
      ParentNodesAllKnown(names[..|names| - 1], m);
    }
  }

  /** The TIDL node list and output map after `CreateOrUpdateTidlNode`,
      `inputCount` being the size of `sub_var.inputs` beforehand. Unfused, a
      new TIDL node is appended, numbered one past the old count, its input
      start one before `inputCount`, and its output is inserted into the
      map; fused, the last TIDL node takes over the inputs beyond the first
      and the new output, and the map moves from the old output to the new
      one. */
  function NodeStep(nodes: seq<TidlNode>, m: map<string, nat>, inputCount: nat, node: Node, fused: bool):
    (r: (seq<TidlNode>, map<string, nat>))
    requires |node.outputs| > 0
    requires !fused && node.opType == "Conv" ==> |node.inputs| > 1
    requires fused ==> |nodes| > 0
    ensures |r.0| == |nodes| + (if fused then 0 else 1)
    ensures r.0[|r.0| - 1].outputName == node.outputs[0] && node.outputs[0] in r.1
    ensures r.0[..|r.0| - 1] == nodes[..|r.0| - 1]
    ensures r.1.Keys <= m.Keys + {node.outputs[0]}
  {
    if !fused then
      (nodes + [TidlNode(node.opType, |node.inputs|, inputCount - 1, |nodes| + 1, node.outputs[0],
                         if node.opType == "Conv" then node.inputs[1].name else "",
                         ParentNodes(Names(node.inputs), m), None)],
       Insert(m, node.outputs[0], |nodes|))
    else
      var last := nodes[|nodes| - 1];
      (nodes[|nodes| - 1 := last.(numInputs := last.numInputs + |node.inputs| - 1, outputName := node.outputs[0])],
       Insert(m - {last.outputName}, node.outputs[0], |nodes| - 1))
  }

  /** The node list with its last TIDL node renamed, as a fusion does
      before the node step. */
  function Renamed(nodes: seq<TidlNode>, name: string): (r: seq<TidlNode>)
    requires |nodes| > 0
    ensures |r| == |nodes| && r[..|r| - 1] == nodes[..|nodes| - 1]
    ensures r[|r| - 1] == nodes[|nodes| - 1].(name := name)
  {
    nodes[|nodes| - 1 := nodes[|nodes| - 1].(name := name)]
  }

  predicate AllBelow(s: seq<nat>, n: nat)
  {
    forall x :: x in s ==> x < n
  }

  /** What a node step promises: an unfused node adds exactly one TIDL
      node, a fused one none, the earlier TIDL nodes are untouched, the
      output maps to the node that now produces it when it was not mapped
      before, a fused node's old output leaves the map, every other entry
      keeps its value, and the map keeps naming existing TIDL nodes. */
  lemma NodeStepFacts(nodes: seq<TidlNode>, m: map<string, nat>, inputCount: nat, node: Node, fused: bool)
    requires |node.outputs| > 0
    requires !fused && node.opType == "Conv" ==> |node.inputs| > 1
    requires fused ==> |nodes| > 0
    requires forall o :: o in m ==> m[o] < |nodes|
    ensures var (nodes', m') := NodeStep(nodes, m, inputCount, node, fused);
      |nodes'| == |nodes| + (if fused then 0 else 1) &&
      nodes'[..|nodes'| - 1] == nodes[..|nodes'| - 1] &&
      nodes'[|nodes'| - 1].outputName == node.outputs[0] &&
      (!fused ==> nodes'[|nodes'| - 1].nodeIndex == |nodes| + 1 &&
                  nodes'[|nodes'| - 1].inputStartIndex == inputCount - 1 &&
                  AllBelow(nodes'[|nodes'| - 1].parentNodes, |nodes|)) &&
      (fused ==> nodes'[|nodes'| - 1].name == nodes[|nodes| - 1].name &&
                 nodes'[|nodes'| - 1].numInputs == nodes[|nodes| - 1].numInputs + |node.inputs| - 1) &&
      node.outputs[0] in m' &&
      (node.outputs[0] !in m ==> m'[node.outputs[0]] == |nodes'| - 1) &&
      (forall o :: o in m' ==> m'[o] < |nodes'|) &&
      (fused && nodes[|nodes| - 1].outputName != node.outputs[0] ==> nodes[|nodes| - 1].outputName !in m') &&
      (forall o :: o in m && o != node.outputs[0] && !(fused && o == nodes[|nodes| - 1].outputName) ==>
         o in m' && m'[o] == m[o])
  {
  }

  /** `std::map::insert`: an existing key keeps its value. */
  function Insert(m: map<string, nat>, k: string, v: nat): (r: map<string, nat>)
    ensures k in r && r.Keys == m.Keys + {k}
    ensures k !in m ==> r[k] == v
    ensures forall k' :: k' in m ==> r[k'] == m[k']
  {
    if k in m then m else m[k := v]
  }

  /** The attributes of a node copied into the subgraph's attributes, each
      under `prefix + name`, in iteration order. */
  function WithAttributes(m: map<string, AttributeValue>, prefix: string,
                          attrs: seq<(string, AttributeValue)>): (r: map<string, AttributeValue>)
    ensures m.Keys <= r.Keys
    ensures forall i :: 0 <= i < |attrs| ==> prefix + attrs[i].0 in r
  {
    if attrs == [] then m
    else WithAttributes(m, prefix, attrs[..|attrs| - 1])[prefix + attrs[|attrs| - 1].0 := attrs[|attrs| - 1].1]
  }

  /** The op name in the attribute keys of a node: its own op type, or,
      fused, the op type of the last node feeding it ("" when none). */
  function AttributeOpName(node: Node, fused: bool): (r: string)
    ensures !fused ==> r == node.opType
    ensures fused ==> (if node.inputNodeOpTypes == [] then r == "" else r in node.inputNodeOpTypes)
  {
    if !fused then node.opType
    else if node.inputNodeOpTypes == [] then ""
    else node.inputNodeOpTypes[|node.inputNodeOpTypes| - 1]
  }

  /** The key under which an attribute of the node that makes TIDL node
      number `index` is recorded: `op_name-index-name`. */
  function AttributePrefix(opName: string, index: nat): (p: string)
    ensures |p| >= |opName| + 3 && p[..|opName|] == opName
    ensures p[|opName|] == '-' && p[|p| - 1] == '-' && AllDigits(p[|opName| + 1..|p| - 1])
  {
    opName + "-" + ToDecimal(index) + "-"
  }

  /** Attributes of two different TIDL nodes made from the same op type
      never share a prefix, so neither overwrites the other's keys. */
  lemma AttributePrefixDistinct(opName: string, i: nat, j: nat)
    requires i != j
    ensures AttributePrefix(opName, i) != AttributePrefix(opName, j)
  {
    var p, q := AttributePrefix(opName, i), AttributePrefix(opName, j);
    if p == q {
      assert p[|opName| + 1..|p| - 1] == ToDecimal(i);
      assert q[|opName| + 1..|q| - 1] == ToDecimal(j);
      ToDecimalValue(i);
      ToDecimalValue(j);
    }
  }

  /** Every attribute lands under its prefixed name, with the value of
      its last occurrence, and no other key is added. */
  lemma {:induction false} AttributeKeys(m: map<string, AttributeValue>, prefix: string,
                                         attrs: seq<(string, AttributeValue)>)
    ensures forall k :: k in WithAttributes(m, prefix, attrs) ==>
      k in m || exists i :: 0 <= i < |attrs| && k == prefix + attrs[i].0
    ensures forall i :: 0 <= i < |attrs| ==> prefix + attrs[i].0 in WithAttributes(m, prefix, attrs)
    ensures forall k :: k in m && (forall i :: 0 <= i < |attrs| ==> k != prefix + attrs[i].0) ==>
      k in WithAttributes(m, prefix, attrs) && WithAttributes(m, prefix, attrs)[k] == m[k]
    ensures |attrs| > 0 ==>
      WithAttributes(m, prefix, attrs)[prefix + attrs[|attrs| - 1].0] == attrs[|attrs| - 1].1
  {
    if attrs != [] {
      var init := attrs[..|attrs| - 1];
      AttributeKeys(m, prefix, init);
      forall k | k in WithAttributes(m, prefix, attrs)
        ensures k in m || exists i :: 0 <= i < |attrs| && k == prefix + attrs[i].0
      {
        if k != prefix + attrs[|attrs| - 1].0 && k !in m {
          var i :| 0 <= i < |init| && k == prefix + init[i].0;
          assert attrs[i] == init[i];
        }
      }
      forall i | 0 <= i < |attrs| - 1
        ensures prefix + attrs[i].0 in WithAttributes(m, prefix, attrs)
      {
        assert attrs[i] == init[i];
      }
      forall k | k in m && (forall i :: 0 <= i < |attrs| ==> k != prefix + attrs[i].0)
        ensures k in WithAttributes(m, prefix, attrs) && WithAttributes(m, prefix, attrs)[k] == m[k]
      {
        assert forall i :: 0 <= i < |init| ==> init[i] == attrs[i];
        assert k != prefix + attrs[|attrs| - 1].0;
      }
    }
  }

  /** `sub_var`, the TIDL node list of `subgraph_ptr`, the output-to-node
      map and the subgraph attributes of `GetCapability`. */
  class SubgraphBuilder {
    var subgraphNodeIndexes: seq<nat>
    var inputs: seq<string>
    var outputs: seq<string>
    var outputsAsInputOtherNode: seq<string>
    var tidlNodes: seq<TidlNode>
    var outputToSourceNode: map<string, nat>
    var attributes: map<string, AttributeValue>

    /** Nodes are only fused into an existing TIDL node, and the map only
        names TIDL nodes that exist. */
    predicate Valid()
      reads this
    {
      (|subgraphNodeIndexes| > 0 ==> |tidlNodes| > 0) && MapValid()
    }

    predicate MapValid()
      reads this
    {
      forall o :: o in outputToSourceNode ==> outputToSourceNode[o] < |tidlNodes|
    }

    constructor ()
      ensures Valid()
      ensures subgraphNodeIndexes == [] && inputs == [] && outputs == [] && outputsAsInputOtherNode == []
      ensures tidlNodes == [] && outputToSourceNode == map[] && attributes == map[]
    {
      subgraphNodeIndexes := [];
      inputs := [];
      outputs := [];
      outputsAsInputOtherNode := [];
      tidlNodes := [];
      outputToSourceNode := map[];
      attributes := map[];
    }

    /** A fresh `subgraph_ptr`, cleared attributes and a cleared map, as
        `GetCapability` does after each `CreateMetaDef`. */
    method NewSubgraph()
      modifies this`tidlNodes, this`attributes, this`outputToSourceNode
      ensures Valid() == (|subgraphNodeIndexes| == 0)
      ensures tidlNodes == [] && attributes == map[] && outputToSourceNode == map[]
    {
      tidlNodes := [];
      attributes := map[];
      outputToSourceNode := map[];
    }

    /** `SubgraphVariables::Reset`: the node indices, inputs, outputs and
        consumed outputs start empty again. */
    method Reset()
      modifies this`inputs, this`outputs, this`outputsAsInputOtherNode, this`subgraphNodeIndexes
      ensures inputs == [] && outputs == [] && outputsAsInputOtherNode == [] && subgraphNodeIndexes == []
    {
      inputs, outputs, outputsAsInputOtherNode, subgraphNodeIndexes := [], [], [], [];
    }

    /** The parent-node loop of a new TIDL node. */
    method CollectParents(names: seq<string>) returns (parents: seq<nat>)
      ensures parents == ParentNodes(names, outputToSourceNode)
    {
      parents := [];
      for i := 0 to |names|
        invariant parents == ParentNodes(names[..i], outputToSourceNode)
      {
        assert names[..i + 1][..i] == names[..i];
        if names[i] in outputToSourceNode {
          parents := parents + [outputToSourceNode[names[i]]];
        }
      }
      assert names[..|names|] == names;
    }

    /** The loop that files each input name either as a subgraph input (not
        produced inside the subgraph yet) or as an output consumed by
        another node. */
    method ClassifyInputs(names: seq<string>)
      modifies this`inputs, this`outputsAsInputOtherNode
      ensures inputs == old(inputs) + DropIn(names, outputs)
      ensures outputsAsInputOtherNode == old(outputsAsInputOtherNode) + KeepIn(names, outputs)
    {
      var produced := outputs;
      var external: seq<string>, consumed: seq<string> := [], [];
      for i := 0 to |names|
        invariant external == DropIn(names[..i], produced)
        invariant consumed == KeepIn(names[..i], produced)
        invariant inputs == old(inputs) && outputsAsInputOtherNode == old(outputsAsInputOtherNode)
      {
        PrefixStep(names, i, produced);
        if names[i] !in produced {
          external := external + [names[i]];
        } else {
          consumed := consumed + [names[i]];
        }
      }
      assert names[..|names|] == names;
      inputs := inputs + external;
      outputsAsInputOtherNode := outputsAsInputOtherNode + consumed;
    }

    /** The attribute loop: each attribute is recorded under its prefixed
        name. */
    method RecordAttributes(prefix: string, attrs: seq<(string, AttributeValue)>)
      modifies this`attributes
      ensures attributes == WithAttributes(old(attributes), prefix, attrs)
    {
      for i := 0 to |attrs|
        invariant attributes == WithAttributes(old(attributes), prefix, attrs[..i])
      {
        assert attrs[..i + 1][..i] == attrs[..i];
        attributes := attributes[prefix + attrs[i].0 := attrs[i].1];
      }
      assert attrs[..|attrs|] == attrs;
    }

    /** The TIDL node list and map part of `CreateOrUpdateTidlNode`. */
    method UpdateTidlNodes(node: Node, fused: bool)
      requires MapValid()
      requires |node.outputs| > 0
      requires !fused && node.opType == "Conv" ==> |node.inputs| > 1
      requires fused ==> |tidlNodes| > 0
      modifies this`tidlNodes, this`outputToSourceNode
      ensures MapValid()
      ensures NodeStep(old(tidlNodes), old(outputToSourceNode), |inputs|, node, fused) ==
        (tidlNodes, outputToSourceNode)
    {
      NodeStepFacts(tidlNodes, outputToSourceNode, |inputs|, node, fused);
      if !fused {
        var parents := CollectParents(Names(node.inputs));
        var t := TidlNode(node.opType, |node.inputs|, |inputs| - 1, |tidlNodes| + 1, node.outputs[0],
                          if node.opType == "Conv" then node.inputs[1].name else "", parents, None);
        tidlNodes := tidlNodes + [t];
        outputToSourceNode := Insert(outputToSourceNode, node.outputs[0], |tidlNodes| - 1);
      } else {
        var last := tidlNodes[|tidlNodes| - 1];
        var n := last.(numInputs := last.numInputs + |node.inputs| - 1, outputName := node.outputs[0]);
        outputToSourceNode := outputToSourceNode - {last.outputName};
        tidlNodes := tidlNodes[|tidlNodes| - 1 := n];
        outputToSourceNode := Insert(outputToSourceNode, node.outputs[0], |tidlNodes| - 1);
      }
    }

    /** The attribute part of `CreateOrUpdateTidlNode`: a node with
        attributes records each under `op_name-index-name`, `index` being
        the TIDL node count and `op_name` the node's op type, or, fused, the
        op type of the last node feeding it. */
    method CopyAttributes(node: Node, fused: bool)
      modifies this`attributes
      ensures attributes ==
        if node.attributes == [] then old(attributes)
        else WithAttributes(old(attributes), AttributePrefix(AttributeOpName(node, fused), |tidlNodes|),
                            node.attributes)
    {
      if node.attributes != [] {
        var opName := node.opType;
        if fused {
          opName := "";
          for i := 0 to |node.inputNodeOpTypes|
            invariant opName == if i == 0 then "" else node.inputNodeOpTypes[i - 1]
          {
            opName := node.inputNodeOpTypes[i];
          }
        }
        RecordAttributes(AttributePrefix(opName, |tidlNodes|), node.attributes);
      }
    }

    /** `CreateOrUpdateTidlNode`: the node's first output joins `outputs`,
        the TIDL node list and the map are updated, the inputs are
        classified against the grown `outputs`, and the attributes copied. */
    method CreateOrUpdateTidlNode(node: Node, fused: bool)
      requires MapValid()
      requires |node.outputs| > 0
      requires !fused && node.opType == "Conv" ==> |node.inputs| > 1
      requires fused ==> |tidlNodes| > 0
      modifies this`outputs, this`tidlNodes, this`outputToSourceNode, this`inputs,
               this`outputsAsInputOtherNode, this`attributes
      ensures Valid()
      ensures outputs == old(outputs) + [node.outputs[0]]
      ensures NodeStep(old(tidlNodes), old(outputToSourceNode), |old(inputs)|, node, fused) ==
        (tidlNodes, outputToSourceNode)
      ensures inputs == old(inputs) + DropIn(Names(node.inputs), outputs)
      ensures outputsAsInputOtherNode == old(outputsAsInputOtherNode) + KeepIn(Names(node.inputs), outputs)
      ensures attributes ==
        if node.attributes == [] then old(attributes)
        else WithAttributes(old(attributes), AttributePrefix(AttributeOpName(node, fused), |tidlNodes|),
                            node.attributes)
    {
      outputs := outputs + [node.outputs[0]];
      UpdateTidlNodes(node, fused);
      ClassifyInputs(Names(node.inputs));
      CopyAttributes(node, fused);
    }

    /** The handling of a TIDL-supported node in `GetCapability`: its index
        joins the subgraph, it fuses into the last TIDL node when
        `FusedName` says so (that node is renamed), and
        `CreateOrUpdateTidlNode` runs. */
    method AddNode(node: Node, index: nat) returns (fused: bool)
      requires Valid()
      requires |node.outputs| > 0
      requires node.opType == "Conv" ==> |node.inputs| > 1
      modifies this`subgraphNodeIndexes, this`outputs, this`tidlNodes, this`outputToSourceNode, this`inputs,
               this`outputsAsInputOtherNode, this`attributes
      ensures Valid()
      ensures subgraphNodeIndexes == old(subgraphNodeIndexes) + [index]
      ensures fused <==>
        |old(tidlNodes)| > 0 &&
        FusedName(|subgraphNodeIndexes|, node.opType, old(tidlNodes)[|old(tidlNodes)| - 1].name).Some?
      ensures fused ==>
        |tidlNodes| == |old(tidlNodes)| &&
        tidlNodes[|tidlNodes| - 1].name ==
          FusedName(|subgraphNodeIndexes|, node.opType, old(tidlNodes)[|old(tidlNodes)| - 1].name).value &&
        tidlNodes[..|tidlNodes| - 1] == old(tidlNodes)[..|old(tidlNodes)| - 1]
      ensures !fused ==>
        |tidlNodes| == |old(tidlNodes)| + 1 && tidlNodes[..|old(tidlNodes)|] == old(tidlNodes) &&
        tidlNodes[|old(tidlNodes)|].name == node.opType
      ensures outputs == old(outputs) + [node.outputs[0]]
      ensures node.outputs[0] in outputToSourceNode
      ensures fused ==>
        (tidlNodes, outputToSourceNode) ==
          NodeStep(Renamed(old(tidlNodes),
                           FusedName(|subgraphNodeIndexes|, node.opType, old(tidlNodes)[|old(tidlNodes)| - 1].name).value),
                   old(outputToSourceNode), |old(inputs)|, node, true)
      ensures !fused ==>
        (tidlNodes, outputToSourceNode) == NodeStep(old(tidlNodes), old(outputToSourceNode), |old(inputs)|, node, false)
      ensures inputs == old(inputs) + DropIn(Names(node.inputs), outputs)
      ensures outputsAsInputOtherNode == old(outputsAsInputOtherNode) + KeepIn(Names(node.inputs), outputs)
      ensures attributes ==
        if node.attributes == [] then old(attributes)
        else WithAttributes(old(attributes), AttributePrefix(AttributeOpName(node, fused), |tidlNodes|),
                            node.attributes)
    {
      fused := FuseWithLast(node, index);
      CreateOrUpdateTidlNode(node, fused);
    }

    /** The first half of `AddNode`: the node's index joins the subgraph
        and, when `FusedName` says so, the last TIDL node takes the fused
        name. */
    method FuseWithLast(node: Node, index: nat) returns (fused: bool)
      requires Valid()
      modifies this`subgraphNodeIndexes, this`tidlNodes
      ensures MapValid()
      ensures subgraphNodeIndexes == old(subgraphNodeIndexes) + [index]
      ensures fused <==>
        |old(tidlNodes)| > 0 &&
        FusedName(|subgraphNodeIndexes|, node.opType, old(tidlNodes)[|old(tidlNodes)| - 1].name).Some?
      ensures fused ==>
        tidlNodes ==
          Renamed(old(tidlNodes),
                  FusedName(|subgraphNodeIndexes|, node.opType, old(tidlNodes)[|old(tidlNodes)| - 1].name).value)
      ensures !fused ==> tidlNodes == old(tidlNodes)
    {
      subgraphNodeIndexes := subgraphNodeIndexes + [index];
      fused := false;
      if |subgraphNodeIndexes| > 1 {
        var last := tidlNodes[|tidlNodes| - 1];
        var name := FusedName(|subgraphNodeIndexes|, node.opType, last.name);
        if name.Some? {
          tidlNodes := Renamed(tidlNodes, name.value);
          fused := true;
        }
      }
    }
  }

  /** Every input of the node goes to exactly one of the two lists. */
  lemma InputClassification(names: seq<string>, outputs: seq<string>)
    ensures |DropIn(names, outputs)| + |KeepIn(names, outputs)| == |names|
    ensures forall x :: x in names ==>
      (x in DropIn(names, outputs) <==> x !in outputs) && (x in KeepIn(names, outputs) <==> x in outputs)
  {
    KeepDropPartition(names, outputs);
  }

  // ---------------------------------------------------------------------
  // CreateMetaDef
  // ---------------------------------------------------------------------

  /** The output names of the end nodes: the TIDL nodes whose output no
      other subgraph node consumes, in node order. */
  function EndOutputs(nodes: seq<TidlNode>, consumed: seq<string>): (r: seq<string>)
    ensures |r| <= |nodes|
  {
    if nodes == [] then []
    else EndOutputs(nodes[..|nodes| - 1], consumed) +
         (if nodes[|nodes| - 1].outputName in consumed then [] else [nodes[|nodes| - 1].outputName])
  }

  /** The end outputs are exactly the output names of the TIDL nodes that
      no subgraph node consumes. */
  lemma {:induction false} EndOutputsMembers(nodes: seq<TidlNode>, consumed: seq<string>)
    ensures forall x :: x in EndOutputs(nodes, consumed) <==>
      x !in consumed && exists i :: 0 <= i < |nodes| && nodes[i].outputName == x
  {
    if nodes != [] {
      var init := nodes[..|nodes| - 1];
      EndOutputsMembers(init, consumed);
      assert forall i :: 0 <= i < |init| ==> init[i] == nodes[i];
    }
  }

  lemma {:induction false} EndOutputsAppend(a: seq<TidlNode>, b: seq<TidlNode>, consumed: seq<string>)
    ensures EndOutputs(a + b, consumed) == EndOutputs(a, consumed) + EndOutputs(b, consumed)
    decreases |b|
  {
    if b == [] {
      assert a + b == a;
    } else {
      var b0 := b[..|b| - 1];
      assert (a + b)[..|a + b| - 1] == a + b0;
      EndOutputsAppend(a, b0, consumed);
    }
  }

  /** TIDL node `i` after the end-node loop: an end node's `outputIndex` is
      the number of end nodes before it. */
  function NumberedAt(nodes: seq<TidlNode>, i: nat, consumed: seq<string>): TidlNode
    requires i < |nodes|
  {
    if nodes[i].outputName in consumed then nodes[i]
    else nodes[i].(outputIndex := Some(|EndOutputs(nodes[..i], consumed)|))
  }

  /** The node list after the end-node loop. */
  function Numbered(nodes: seq<TidlNode>, consumed: seq<string>): (r: seq<TidlNode>)
    ensures |r| == |nodes| && forall i :: 0 <= i < |nodes| ==> r[i] == NumberedAt(nodes, i, consumed)
  {
    seq(|nodes|, i requires 0 <= i < |nodes| => NumberedAt(nodes, i, consumed))
  }

  /** The `outputIndex` of an end node points at its own output name in the
      meta definition's outputs. */
  lemma EndNodeIndex(nodes: seq<TidlNode>, consumed: seq<string>, i: nat)
    requires i < |nodes| && nodes[i].outputName !in consumed
    ensures |EndOutputs(nodes[..i], consumed)| < |EndOutputs(nodes, consumed)|
    ensures EndOutputs(nodes, consumed)[|EndOutputs(nodes[..i], consumed)|] == nodes[i].outputName
  {
    var head := nodes[..i + 1];
    assert head[..|head| - 1] == nodes[..i];
    assert EndOutputs(head, consumed) == EndOutputs(nodes[..i], consumed) + [nodes[i].outputName];
    assert nodes == head + nodes[i + 1..];
    EndOutputsAppend(head, nodes[i + 1..], consumed);
  }

  /** Numbering changes only `outputIndex`, sets it exactly on the end
      nodes, and each end node's index points at its own output name. */
  lemma NumberedFacts(nodes: seq<TidlNode>, consumed: seq<string>)
    ensures forall i :: 0 <= i < |nodes| ==>
      Numbered(nodes, consumed)[i] == nodes[i].(outputIndex := Numbered(nodes, consumed)[i].outputIndex)
    ensures forall i :: 0 <= i < |nodes| && nodes[i].outputName in consumed ==>
      Numbered(nodes, consumed)[i] == nodes[i]
    ensures forall i :: 0 <= i < |nodes| && nodes[i].outputName !in consumed ==>
      Numbered(nodes, consumed)[i].outputIndex.Some? &&
      0 <= Numbered(nodes, consumed)[i].outputIndex.value < |EndOutputs(nodes, consumed)| &&
      EndOutputs(nodes, consumed)[Numbered(nodes, consumed)[i].outputIndex.value] == nodes[i].outputName
  {
    forall i | 0 <= i < |nodes| && nodes[i].outputName !in consumed
      ensures Numbered(nodes, consumed)[i].outputIndex.Some? &&
        0 <= Numbered(nodes, consumed)[i].outputIndex.value < |EndOutputs(nodes, consumed)| &&
        EndOutputs(nodes, consumed)[Numbered(nodes, consumed)[i].outputIndex.value] == nodes[i].outputName
    {
      EndNodeIndex(nodes, consumed, i);
    }
  }

  /** What `CreateMetaDef` hands to `result`: the subgraph's node indices
      and its meta definition. */
  datatype MetaDef = MetaDef(name: string, inputs: seq<string>, outputs: seq<string>,
                             attributes: map<string, AttributeValue>, nodes: seq<nat>)

  /** The counter field `subgraph_index_` and the `mkl_subgraphs_` map of
      the provider, with its set of TIDL op types. */
  class Provider {
    const tidlOps: set<string>
    var subgraphIndex: nat
    var subgraphs: map<string, seq<TidlNode>>

    /** The counter is taken to be a `size_t` (its declaration is not part
        of this model). */
    predicate Valid()
      reads this
    {
      subgraphIndex < SizeLimit
    }

    constructor (tidlOps: set<string>)
      ensures this.tidlOps == tidlOps && subgraphIndex == 0 && subgraphs == map[] && Valid()
    {
      this.tidlOps := tidlOps;
      subgraphIndex := 0;
      subgraphs := map[];
    }

    /** The id under which the next subgraph is recorded, the counter
        moving on: `std::to_string(subgraph_index_)`, then
        `subgraph_index_++` wrapping as a `size_t` would. */
    method NextId() returns (id: string)
      requires Valid()
      modifies this`subgraphIndex
      ensures Valid()
      ensures id == ToDecimal(old(subgraphIndex)) && subgraphIndex == (old(subgraphIndex) + 1) % SizeLimit
    {
      id := ToDecimal(subgraphIndex);
      subgraphIndex := (subgraphIndex + 1) % SizeLimit;
    }

    /** `mkl_subgraphs_.insert`: an id already present keeps its subgraph. */
    method Record(id: string, nodes: seq<TidlNode>)
      modifies this`subgraphs
      ensures subgraphs == if id in old(subgraphs) then old(subgraphs) else old(subgraphs)[id := nodes]
    {
      if id !in subgraphs {
        subgraphs := subgraphs[id := nodes];
      }
    }

    /** `UseSubgraph`, the value of `ORT_TIDL_SUBGRAPH` given as `env`:
        subgraphs are used when the first typed input of the graph is not a
        16-bit type, at least one node is a TIDL op, and the variable is
        not set to a text that `atoi` reads as 0. */
    method UseSubgraph(graph: seq<Option<Node>>, env: Option<string>) returns (r: bool)
      ensures r <==>
        (forall i :: IsFirstTyped(graph, i) ==> !Contains(FirstInputType(graph[i]), "16")) &&
        (exists i :: 0 <= i < |graph| && graph[i].Some? && graph[i].value.opType in tidlOps) &&
        !(env.Some? && Atoi(env.value) == 0)
    {
      var i := 0;
      while i < |graph| && !(graph[i].Some? && |graph[i].value.inputs| > 0 &&
                             graph[i].value.inputs[0].typeName.Some?)
        invariant 0 <= i <= |graph|
        invariant forall j :: 0 <= j < i ==> !Typed(graph[j])
      {
        i := i + 1;
      }
      var fp16 := i < |graph| && Contains(graph[i].value.inputs[0].typeName.value, "16");
      assert i < |graph| ==> IsFirstTyped(graph, i);
      var k := 0;
      while k < |graph| && !(graph[k].Some? && graph[k].value.opType in tidlOps)
        invariant 0 <= k <= |graph|
        invariant forall j :: 0 <= j < k ==> !(graph[j].Some? && graph[j].value.opType in tidlOps)
      {
        k := k + 1;
      }
      var found := k < |graph|;
      if fp16 || !found {
        r := false;
      } else {
        r := !(env.Some? && Atoi(env.value) == 0);
      }
    }

    /** The end-node loop of `CreateMetaDef`. */
    method FindEndNodes(b: SubgraphBuilder) returns (outputs: seq<string>)
      modifies b`tidlNodes
      ensures outputs == EndOutputs(old(b.tidlNodes), b.outputsAsInputOtherNode)
      ensures b.tidlNodes == Numbered(old(b.tidlNodes), b.outputsAsInputOtherNode)
    {
      ghost var nodes := b.tidlNodes;
      var consumed := b.outputsAsInputOtherNode;
      outputs := [];
      for i := 0 to |b.tidlNodes|
        invariant |b.tidlNodes| == |nodes|
        invariant outputs == EndOutputs(nodes[..i], consumed)
        invariant forall j :: 0 <= j < i ==> b.tidlNodes[j] == NumberedAt(nodes, j, consumed)
        invariant forall j :: i <= j < |nodes| ==> b.tidlNodes[j] == nodes[j]
      {
        assert nodes[..i + 1][..i] == nodes[..i];
        if b.tidlNodes[i].outputName !in consumed {
          outputs := outputs + [b.tidlNodes[i].outputName];
          b.tidlNodes := b.tidlNodes[i := b.tidlNodes[i].(outputIndex := Some(|outputs| - 1))];
        }
      }
      assert nodes[..|nodes|] == nodes;
    }

    /** `CreateMetaDef`. The `subgraph_id` attribute is the counter's value
        before the increment and the name `TidlCustomOp` followed by its
        value after; the inputs are `sub_var.inputs`, the initializers the
        inputs that are initialized tensors, the outputs those of the end
        nodes; the numbered node list is recorded under the id unless the
        id is already taken, and `sub_var` is reset. */
    method CreateMetaDef(b: SubgraphBuilder, initialized: set<string>) returns (m: MetaDef)
      requires Valid()
      modifies this`subgraphIndex, this`subgraphs, b`tidlNodes, b`inputs, b`outputs,
               b`outputsAsInputOtherNode, b`subgraphNodeIndexes
      ensures Valid()
      ensures subgraphIndex == (old(subgraphIndex) + 1) % SizeLimit
      ensures var id := ToDecimal(old(subgraphIndex));
        m == MetaDef("TidlCustomOp" + ToDecimal(subgraphIndex), old(b.inputs),
                     EndOutputs(old(b.tidlNodes), old(b.outputsAsInputOtherNode)),
                     (b.attributes + map["initializers" := InitializerList(Initializers(old(b.inputs), initialized))])
                       ["subgraph_id" := SubgraphId(id)],
                     old(b.subgraphNodeIndexes)) &&
        b.tidlNodes == Numbered(old(b.tidlNodes), old(b.outputsAsInputOtherNode)) &&
        subgraphs == (if id in old(subgraphs) then old(subgraphs) else old(subgraphs)[id := b.tidlNodes])
      ensures b.inputs == [] && b.outputs == [] && b.outputsAsInputOtherNode == [] && b.subgraphNodeIndexes == []
    {
      var id := NextId();
      var inits := CollectInitializers(b.inputs, initialized);
      var name := "TidlCustomOp" + ToDecimal(subgraphIndex);
      var attrs := b.attributes + map["initializers" := InitializerList(inits)];
      var outputs := FindEndNodes(b);
      attrs := attrs["subgraph_id" := SubgraphId(id)];
      m := MetaDef(name, b.inputs, outputs, attrs, b.subgraphNodeIndexes);
      Record(id, b.tidlNodes);
      b.Reset();
    }
  }

  /** The initializer tensors of a subgraph: its inputs that are
      initialized tensors, in input order. */
  function Initializers(inputs: seq<string>, initialized: set<string>): (r: seq<string>)
    ensures forall x :: x in r <==> x in inputs && x in initialized
  {
    if inputs == [] then []
    else Initializers(inputs[..|inputs| - 1], initialized) +
         (if inputs[|inputs| - 1] in initialized then [inputs[|inputs| - 1]] else [])
  }

  method CollectInitializers(inputs: seq<string>, initialized: set<string>) returns (r: seq<string>)
    ensures r == Initializers(inputs, initialized)
  {
    r := [];
    for i := 0 to |inputs|
      invariant r == Initializers(inputs[..i], initialized)
    {
      assert inputs[..i + 1][..i] == inputs[..i];
      if inputs[i] in initialized {
        r := r + [inputs[i]];
      }
    }
    assert inputs[..|inputs|] == inputs;
  }

  /** The counter values that the subgraph ids stand for are all below `n`. */
  predicate KeysBelow(subgraphs: map<string, seq<TidlNode>>, n: nat)
  {
    forall k :: k in subgraphs ==> FromString(k, 0).ok && FromString(k, 0).stored < n
  }

  /** While the counter has not wrapped, the id `CreateMetaDef` takes is
      fresh, so the insert records the subgraph, and every id stays behind
      the counter. */
  lemma FreshId(subgraphs: map<string, seq<TidlNode>>, n: nat, nodes: seq<TidlNode>)
    requires KeysBelow(subgraphs, n) && n + 1 < SizeLimit
    ensures ToDecimal(n) !in subgraphs
    ensures KeysBelow(subgraphs[ToDecimal(n) := nodes], n + 1)
  {
    DecimalRoundTrip(n);
  }

  /** Two calls of `CreateMetaDef` at different counter values use
      different ids and different names. */
  lemma DistinctIds(a: nat, b: nat)
    requires a < SizeLimit && b < SizeLimit && a != b
    ensures ToDecimal(a) != ToDecimal(b)
    ensures "TidlCustomOp" + ToDecimal(a) != "TidlCustomOp" + ToDecimal(b)
  {
    DecimalRoundTrip(a);
    DecimalRoundTrip(b);
    assert FromString(ToDecimal(a), 0).stored != FromString(ToDecimal(b), 0).stored;
    var p := "TidlCustomOp";
    assert (p + ToDecimal(a))[|p|..] == ToDecimal(a);
    assert (p + ToDecimal(b))[|p|..] == ToDecimal(b);
  }
}
