/** The topology shapes of pkg/config/config.go (reading and YAML parsing are
    not part of this model). */
module Config {
  import opened Common

  datatype NodeConfig = NodeConfig(id: NodeId, neighbors: seq<NodeId>)

  /** The node records in file order; ids are not checked for uniqueness. */
  datatype Topology = Topology(nodes: seq<NodeConfig>)
}
