/**
 * The canvas layout document: positioned nodes and directed edges, as the
 * task canvas builds it and as the server stores it in a diagram's `layout`
 * column.
 */
module Layouts {
  import opened Common

  /** A canvas coordinate: any number, including NaN (the only falsy number besides 0). */
  datatype Coord = Num(value: real) | NaN

  datatype Position = Position(x: Coord, y: Coord)

  /** The task fields a task node displays. */
  datatype TaskView = TaskView(
    id: string,
    title: string,
    description: Option<string>,
    status: string,
    owner: Option<string>,
    required: Option<bool>)

  /**
   * A node's data: the task it shows (absent for a node whose data carries no
   * task fields) and whether the delete/toggle callbacks are attached.
   */
  datatype NodeData = NodeData(view: Option<TaskView>, callbacks: bool)

  /** A canvas node; `kind` is the node's `type` ("task"), absent when not set. */
  datatype FlowNode = FlowNode(id: string, kind: Option<string>, position: Position, data: NodeData)

  datatype FlowEdge = FlowEdge(id: string, source: string, target: string)

  /** A layout document; a missing `nodes` or `edges` array reads as empty. */
  datatype Layout = Layout(nodes: seq<FlowNode>, edges: seq<FlowEdge>)

  function NodeIds(nodes: seq<FlowNode>): (ids: seq<string>)
    ensures |ids| == |nodes|
    ensures forall i :: 0 <= i < |nodes| ==> ids[i] == nodes[i].id
  {
    if nodes == [] then [] else [nodes[0].id] + NodeIds(nodes[1..])
  }
}
