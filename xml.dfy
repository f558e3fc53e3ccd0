/**
 * The XML the renderer produces, as a tree: elements with ordered attributes
 * and ordered children, and text nodes. Serialising the tree to bytes is the
 * XML builder library's business and is not modelled.
 */
module Xml {
  import opened Seqs

  datatype Attr = Attr(name: string, value: string)

  datatype Node =
    | Element(name: string, attrs: seq<Attr>, children: seq<Node>)
    | Text(text: string)

  /**
   * A builder that already holds `acc` runs `xs.each { |x| x.to_xml builder }`:
   * one node appended per element, in order.
   */
  method AppendEach<T>(acc: seq<Node>, xs: seq<T>, toXml: T -> Node) returns (r: seq<Node>)
    ensures r == acc + Map(xs, toXml)
  {
    r := acc;
    for i := 0 to |xs|
      invariant r == acc + Map(xs[..i], toXml)
    {
      assert Map(xs[..i + 1], toXml) == Map(xs[..i], toXml) + [toXml(xs[i])];
      r := r + [toXml(xs[i])];
    }
    assert xs[..|xs|] == xs;
  }
}
