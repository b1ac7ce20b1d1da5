/** The MDX `code` element override: decides whether a code element is shown
    inline (`CodeInline`) or as a block (the local `CodeBlock` wrapper, which
    renders a plain `<code>` element). */
module Code {
  import opened Wrappers

  /** One child of a code element after `React.Children.toArray` has flattened
      it: a string, or anything that is not a string (a React element). */
  datatype Child = Text(s: string) | Element

  /** The props of a code element. `children` is `None` when
      `props.children` is `undefined`; otherwise it holds the flattened
      children. `others` stands for every other prop, which this component
      never inspects. */
  datatype CodeProps<O> = CodeProps(children: Option<seq<Child>>, others: O)

  /** Which component `MDXCode` hands its props to. */
  datatype View<O> = Inline(props: CodeProps<O>) | Block(props: CodeProps<O>)

  /** The `<code>` element that the local `CodeBlock` wrapper renders. */
  datatype CodeTag<O> = CodeTag(attributes: CodeProps<O>)

  /** The callback given to `every`: the child is a string with no line feed. */
  predicate IsSingleLineText(c: Child) {
    c.Text? && '\n' !in c.s
  }

  /** `Array.prototype.every` with that callback, left to right. */
  function Every(cs: seq<Child>): bool {
    |cs| == 0 || (IsSingleLineText(cs[0]) && Every(cs[1..]))
  }

  /** `every` holds exactly when its callback holds of each element; on an
      empty sequence it holds vacuously. */
  lemma {:induction false} EverySpec(cs: seq<Child>)
    ensures Every(cs) <==> forall i :: 0 <= i < |cs| ==> IsSingleLineText(cs[i])
  {
    if |cs| > 0 {
      EverySpec(cs[1..]);
      assert forall i :: 1 <= i < |cs| ==> cs[1..][i - 1] == cs[i];
    }
  }

  /** `every` over a concatenation is the conjunction over the two parts. */
  lemma {:induction false} EveryAppend(a: seq<Child>, b: seq<Child>)
    ensures Every(a + b) == (Every(a) && Every(b))
  {
    if |a| > 0 {
      assert (a + b)[0] == a[0];
      assert (a + b)[1..] == a[1..] + b;
      EveryAppend(a[1..], b);
    } else {
      assert a + b == b;
    }
  }

  /** `shouldBeInline`: inline exactly when the children are defined and every
      flattened child is a string without a line feed. */
  function ShouldBeInline(children: Option<seq<Child>>): (r: bool)
    ensures r <==> (children.Some? &&
                    forall i :: 0 <= i < |children.value| ==> IsSingleLineText(children.value[i]))
  {
    match children
    case None => false
    case Some(cs) => EverySpec(cs); Every(cs)
  }

  /** `MDXCode`: hands the unchanged props to `CodeInline` when the children
      should be inline, and to `CodeBlock` otherwise. */
  function MdxCode<O>(p: CodeProps<O>): (r: View<O>)
    ensures r.props == p
    ensures r.Inline? <==> ShouldBeInline(p.children)
  {
    if ShouldBeInline(p.children) then Inline(p) else Block(p)
  }

  /** The local `CodeBlock` wrapper: a `<code>` element carrying every prop. */
  function CodeBlock<O>(p: CodeProps<O>): (r: CodeTag<O>)
    ensures r.attributes == p
  {
    CodeTag(p)
  }

  /** A code element whose children are `undefined` (an empty fenced block)
      is never inline. */
  lemma UndefinedChildrenIsBlock<O>(others: O)
    ensures MdxCode(CodeProps(None, others)) == Block(CodeProps(None, others))
  {
  }

  /** Defined children that flatten to nothing are inline, because `every`
      over an empty array is vacuously true. */
  lemma EmptyChildrenIsInline<O>(others: O)
    ensures MdxCode(CodeProps(Some([]), others)) == Inline(CodeProps(Some([]), others))
  {
  }

  /** A string child that contains a line feed forces a block. */
  lemma NewlineForcesBlock<O>(p: CodeProps<O>, i: nat)
    requires p.children.Some? && i < |p.children.value|
    requires p.children.value[i].Text? && '\n' in p.children.value[i].s
    ensures MdxCode(p) == Block(p)
  {
  }

  /** A child that is not a string forces a block. */
  lemma ElementForcesBlock<O>(p: CodeProps<O>, i: nat)
    requires p.children.Some? && i < |p.children.value|
    requires p.children.value[i] == Element
    ensures MdxCode(p) == Block(p)
  {
  }

  /** When the children are defined and all single-line strings, the element
      is inline. */
  lemma SingleLineTextIsInline<O>(p: CodeProps<O>)
    requires p.children.Some?
    requires forall i :: 0 <= i < |p.children.value| ==> p.children.value[i].Text?
    requires forall i :: 0 <= i < |p.children.value| ==> '\n' !in p.children.value[i].s
    ensures MdxCode(p) == Inline(p)
  {
  }

  /** Children concatenated from two parts are inline exactly when both parts
      are: appending children can turn inline into block, never block into
      inline. */
  lemma {:induction false} AppendChildren(a: seq<Child>, b: seq<Child>)
    ensures ShouldBeInline(Some(a + b)) <==> ShouldBeInline(Some(a)) && ShouldBeInline(Some(b))
  {
    EveryAppend(a, b);
    EverySpec(a);
    EverySpec(b);
    EverySpec(a + b);
  }

  /** Appending one child keeps an inline element inline exactly when that
      child is a single-line string; a block stays a block. */
  lemma {:induction false} AppendChild(cs: seq<Child>, c: Child)
    ensures ShouldBeInline(Some(cs + [c])) <==> ShouldBeInline(Some(cs)) && IsSingleLineText(c)
    ensures !ShouldBeInline(Some(cs)) ==> !ShouldBeInline(Some(cs + [c]))
  {
    AppendChildren(cs, [c]);
  }

  /** Splitting one string child into two adjacent string children does not
      change the decision: a line feed lies in the whole string iff it lies in
      one of the two parts. */
  lemma {:induction false} SplitTextChild(a: seq<Child>, s: string, t: string, b: seq<Child>)
    ensures ShouldBeInline(Some(a + [Text(s + t)] + b)) == ShouldBeInline(Some(a + [Text(s), Text(t)] + b))
  {
    assert ('\n' in s + t) <==> ('\n' in s || '\n' in t) by {
      if '\n' in s + t {
        var k :| 0 <= k < |s + t| && (s + t)[k] == '\n';
        if k < |s| { assert s[k] == '\n'; } else { assert t[k - |s|] == '\n'; }
      }
      if '\n' in s {
        var k :| 0 <= k < |s| && s[k] == '\n';
        assert (s + t)[k] == '\n';
      }
      if '\n' in t {
        var k :| 0 <= k < |t| && t[k] == '\n';
        assert (s + t)[|s| + k] == '\n';
      }
    }
    AppendChildren(a + [Text(s + t)], b);
    AppendChildren(a, [Text(s + t)]);
    AppendChildren(a + [Text(s), Text(t)], b);
    AppendChildren(a, [Text(s), Text(t)]);
    AppendChildren([Text(s)], [Text(t)]);
    assert [Text(s)] + [Text(t)] == [Text(s), Text(t)];
  }

  /** Both branches of `MDXCode` pass the props through unchanged, and in the
      block branch `CodeBlock` forwards all of them to `<code>`. */
  lemma BlockForwardsProps<O>(p: CodeProps<O>)
    ensures MdxCode(p).Block? ==> CodeBlock(MdxCode(p).props).attributes == p
    ensures MdxCode(p).Inline? ==> MdxCode(p).props == p
  {
  }
}
