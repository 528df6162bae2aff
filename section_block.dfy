/** One labelled block of a section tag, and the mutable builder the parser
    fills while it reads the block's content (core/src/main/java/io/quarkus/qute/SectionBlock.java).

    The node type N stands for TemplateNode, which is not part of this model. */
module SectionBlocks {

  import opened Options

  /** The parameter map of a builder: a java.util.HashMap that the builder
      updates in place. It is an object of its own because `build` hands the
      very same map to the block it builds. */
  class Parameters {
    var entries: map<string, string>

    constructor ()
      ensures entries == map[]
    {
      entries := map[];
    }
  }

  /** A built block. Its node sequence is a copy of the builder's list; its
      parameter map is the builder's own map, not a copy. */
  class SectionBlock<N> {
    /** Generated by the parser; "main" for the main block. */
    const id: string
    /** The tag-local label; None stands for Java's null. */
    const blockLabel: Option<string>
    const parameters: Parameters
    const nodes: seq<N>

    constructor (id: string, blockLabel: Option<string>, parameters: Parameters, nodes: seq<N>)
      ensures this.id == id && this.blockLabel == blockLabel
      ensures this.parameters == parameters
      ensures this.nodes == nodes
    {
      this.id := id;
      this.blockLabel := blockLabel;
      this.parameters := parameters;
      this.nodes := nodes;
    }

    /** The static factory `SectionBlock.builder(id)`. */
    static method CreateBuilder(id: string) returns (b: Builder<N>)
      ensures fresh(b) && fresh(b.parameters)
      ensures b.id == id && b.blockLabel == None && b.parameters.entries == map[] && b.nodes == []
    {
      b := new Builder(id);
    }
  }

  /** The accumulator for one block. Every mutator returns the builder
      itself, so that calls can be chained. */
  class Builder<N> {
    const id: string
    var blockLabel: Option<string>
    const parameters: Parameters
    var nodes: seq<N>

    constructor (id: string)
      ensures this.id == id && blockLabel == None
      ensures fresh(parameters) && parameters.entries == map[]
      ensures nodes == []
    {
      this.id := id;
      blockLabel := None;
      parameters := new Parameters();
      nodes := [];
    }

    method AddNode(node: N) returns (self: Builder<N>)
      modifies this`nodes
      ensures self == this
      ensures nodes == old(nodes) + [node]
      ensures blockLabel == old(blockLabel) && parameters.entries == old(parameters.entries)
    {
      nodes := nodes + [node];
      self := this;
    }

    /** Collections.addAll: the given nodes are added one by one, in order. */
    method AddNodes(more: seq<N>) returns (self: Builder<N>)
      modifies this`nodes
      ensures self == this
      ensures nodes == old(nodes) + more
      ensures blockLabel == old(blockLabel) && parameters.entries == old(parameters.entries)
    {
      self := this;
      for i := 0 to |more|
        invariant self == this
        invariant nodes == old(nodes) + more[..i]
      {
        self := AddNode(more[i]);
      }
      assert more[..|more|] == more;
    }

    method SetLabel(newLabel: string) returns (self: Builder<N>)
      modifies this`blockLabel
      ensures self == this
      ensures this.blockLabel == Some(newLabel)
      ensures nodes == old(nodes) && parameters.entries == old(parameters.entries)
    {
      this.blockLabel := Some(newLabel);
      self := this;
    }

    method AddParameter(name: string, value: string) returns (self: Builder<N>)
      modifies parameters
      ensures self == this
      ensures parameters.entries == old(parameters.entries)[name := value]
      ensures nodes == old(nodes) && blockLabel == old(blockLabel)
    {
      parameters.entries := parameters.entries[name := value];
      self := this;
    }

    method GetLabel() returns (l: Option<string>)
      ensures l == blockLabel
    {
      l := blockLabel;
    }

    /** Freezes the current state into a new block. */
    method Build() returns (block: SectionBlock<N>)
      ensures fresh(block)
      ensures block.id == id && block.blockLabel == blockLabel
      ensures block.parameters == parameters
      ensures block.nodes == nodes
    {
      block := new SectionBlock(id, blockLabel, parameters, nodes);
    }
  }

  /** Two calls to setLabel followed by getLabel: the last label set is the one read back. */
  method LastLabelWins<N>(b: Builder<N>, first: string, second: string) returns (l: Option<string>)
    modifies b
    ensures l == Some(second)
    ensures b.nodes == old(b.nodes)
  {
    var self := b.SetLabel(first);
    self := b.SetLabel(second);
    l := b.GetLabel();
  }

  /** Nodes added to a builder after `build` do not reach the block already
      built: the block holds a copy of the node list. */
  method BuildSnapshotsNodes<N>(b: Builder<N>, later: seq<N>) returns (block: SectionBlock<N>)
    modifies b
    ensures block.nodes == old(b.nodes)
    ensures b.nodes == old(b.nodes) + later
    ensures block.id == b.id && block.blockLabel == b.blockLabel
  {
    block := b.Build();
    var self := b.AddNodes(later);
  }

  /** A parameter added to a builder after `build` does reach the block
      already built: the block shares the builder's parameter map. */
  method BuildSharesParameters<N>(b: Builder<N>, name: string, value: string) returns (block: SectionBlock<N>)
    modifies b.parameters
    ensures block.parameters == b.parameters
    ensures block.parameters.entries == old(b.parameters.entries)[name := value]
    ensures block.nodes == b.nodes
  {
    block := b.Build();
    var self := b.AddParameter(name, value);
  }
}
