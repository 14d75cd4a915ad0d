/**
 * A card's child list and what the script does to it: blocking appends a
 * blur layer (holding copies of the card's non-DIV children) and a notice
 * overlay, and a click on the card removes both again.
 */
module Annotation {
  import opened Wrappers

  /** A child of a card. Deep clones are equal values. */
  datatype Node =
    | Element(tag: string, kids: seq<Node>)   // a host-page element; tag is its upper-case tagName
    | BlurLayer(clones: seq<Node>)            // the script's blurred wrapper, a DIV
    | Overlay                                  // the script's notice, a DIV

  function TagName(n: Node): string {
    if n.Element? then n.tag else "DIV"
  }

  /** A child list that holds only host-page elements, none of the script's layers. */
  predicate HostOnly(c: seq<Node>) {
    forall k :: 0 <= k < |c| ==> c[k].Element?
  }

  /** The children copied into the blur layer: every child whose tagName is not "DIV". */
  function NonDivs(c: seq<Node>): (r: seq<Node>)
    ensures |r| <= |c|
    ensures forall n :: n in r ==> n in c && TagName(n) != "DIV"
  {
    if c == [] then []
    else (if TagName(c[0]) != "DIV" then [c[0]] else []) + NonDivs(c[1..])
  }

  /** Every non-DIV child is copied. */
  lemma {:induction false} NonDivsKeepsEveryNonDiv(c: seq<Node>, k: nat)
    requires k < |c| && TagName(c[k]) != "DIV"
    ensures c[k] in NonDivs(c)
  {
    if k > 0 {
      NonDivsKeepsEveryNonDiv(c[1..], k - 1);
    }
  }

  /** The filter keeps the original order: it distributes over concatenation. */
  lemma {:induction false} NonDivsAppend(a: seq<Node>, b: seq<Node>)
    ensures NonDivs(a + b) == NonDivs(a) + NonDivs(b)
  {
    if a == [] {
      assert a + b == b;
    } else {
      var head := if TagName(a[0]) != "DIV" then [a[0]] else [];
      calc {
        NonDivs(a + b);
        { assert (a + b)[0] == a[0]; assert (a + b)[1..] == a[1..] + b; }
        head + NonDivs(a[1..] + b);
        { NonDivsAppend(a[1..], b); }
        head + (NonDivs(a[1..]) + NonDivs(b));
        (head + NonDivs(a[1..])) + NonDivs(b);
      }
    }
  }

  /** The two layers the click handler holds on to. */
  datatype Handler = Handler(blur: Node, overlay: Node)

  /** The layers created when a card with children c is blocked. */
  function Layers(c: seq<Node>): Handler {
    Handler(BlurLayer(NonDivs(c)), Overlay)
  }

  /** The child list of a blocked card: the old children, then the blur layer, then the overlay. */
  function Annotated(c: seq<Node>): (r: seq<Node>)
    ensures |r| == |c| + 2 && r[..|c|] == c
    ensures r[|c|].BlurLayer? && r[|c| + 1] == Overlay
  {
    c + [Layers(c).blur, Layers(c).overlay]
  }

  /**
   * The layers are DIVs, so copying the non-DIV children of a blocked card
   * again would copy the same children and not the layers.
   */
  lemma AnnotatedClonesSame(c: seq<Node>)
    ensures NonDivs(Annotated(c)) == NonDivs(c)
  {
    NonDivsAppend(c, [Layers(c).blur, Layers(c).overlay]);
    assert NonDivs([Layers(c).blur, Layers(c).overlay]) == [];
  }

  /** `node.remove()`: the first occurrence of n leaves the list. */
  function Detach(c: seq<Node>, n: Node): (r: seq<Node>)
    ensures n in c ==> |r| == |c| - 1
    ensures n !in c ==> r == c
  {
    if c == [] then []
    else if c[0] == n then c[1..]
    else [c[0]] + Detach(c[1..], n)
  }

  /** Removing a node takes exactly one copy of it out of the children, and nothing else. */
  lemma {:induction false} DetachRemovesOneCopy(c: seq<Node>, n: Node)
    ensures multiset(Detach(c, n)) == multiset(c) - multiset{n}
  {
    if c != [] {
      assert c == [c[0]] + c[1..];
      DetachRemovesOneCopy(c[1..], n);
    }
  }

  /** `if (node.parentNode) node.remove()`. */
  function DetachIfAttached(c: seq<Node>, n: Node): (r: seq<Node>) {
    if n in c then Detach(c, n) else c
  }

  /** What the click handler does to the children: drop the blur layer, then the overlay. */
  function Reveal(c: seq<Node>, h: Handler): (r: seq<Node>)
    ensures multiset(r) == multiset(c) - multiset{h.blur} - multiset{h.overlay}
  {
    DetachRemovesOneCopy(c, h.blur);
    DetachRemovesOneCopy(DetachIfAttached(c, h.blur), h.overlay);
    DetachIfAttached(DetachIfAttached(c, h.blur), h.overlay)
  }

  /** Children, listener and whether the event was suppressed, after a click. */
  datatype Clicked = Clicked(children: seq<Node>, handler: Option<Handler>, suppressed: bool)

  /**
   * A click as the script is written: the handler suppresses the event and
   * removes the layers; its self-removal throws, so the handler stays.
   */
  function OnClick(children: seq<Node>, handler: Option<Handler>): (r: Clicked)
    ensures r.suppressed <==> handler.Some?
    ensures r.handler == handler
    ensures handler.None? ==> r.children == children
  {
    match handler
    case None => Clicked(children, None, false)
    case Some(h) => Clicked(Reveal(children, h), handler, true)
  }

  /** A click as the script evidently intends it: the handler detaches itself. */
  function OnClickDetaching(children: seq<Node>, handler: Option<Handler>): (r: Clicked)
    ensures r.suppressed <==> handler.Some?
    ensures r.handler == None
    ensures handler.None? ==> r.children == children
  {
    match handler
    case None => Clicked(children, None, false)
    case Some(h) => Clicked(Reveal(children, h), None, true)
  }

  lemma {:induction false} DetachAfterAbsent(a: seq<Node>, b: seq<Node>, n: Node)
    requires n !in a
    ensures Detach(a + b, n) == a + Detach(b, n)
  {
    if a != [] {
      var c := a + b;
      assert c[0] == a[0] && c[1..] == a[1..] + b;
      assert Detach(c, n) == [a[0]] + Detach(a[1..] + b, n);
      DetachAfterAbsent(a[1..], b, n);
      assert a == [a[0]] + a[1..];
    } else {
      assert a + b == b;
    }
  }

  /** Removing the two appended layers restores the children the card had before blocking. */
  lemma RevealUndoesAnnotation(c: seq<Node>)
    requires HostOnly(c)
    ensures Reveal(Annotated(c), Layers(c)) == c
  {
    var h := Layers(c);
    assert h.blur !in c && h.overlay !in c;
    DetachAfterAbsent(c, [h.blur, h.overlay], h.blur);
    assert Detach([h.blur, h.overlay], h.blur) == [h.overlay];
    DetachAfterAbsent(c, [h.overlay], h.overlay);
    assert Detach([h.overlay], h.overlay) == [];
  }

  /**
   * The first click on a blocked card is suppressed and restores its children;
   * the handler stays registered.
   */
  lemma FirstClickReveals(c: seq<Node>)
    requires HostOnly(c)
    ensures OnClick(Annotated(c), Some(Layers(c))) == Clicked(c, Some(Layers(c)), true)
  {
    RevealUndoesAnnotation(c);
  }

  /**
   * As written, the handler never detaches: a second click on a revealed card
   * changes nothing on the card and is still suppressed, so it never reaches the page.
   */
  lemma SecondClickStillSuppressed(c: seq<Node>)
    requires HostOnly(c)
    ensures var first := OnClick(Annotated(c), Some(Layers(c)));
            var second := OnClick(first.children, first.handler);
            second.children == c && second.suppressed
  {
    RevealUndoesAnnotation(c);
    var h := Layers(c);
    assert h.blur !in c && h.overlay !in c;
  }

  /** With the intended detach, the second click is left to the page. */
  lemma IntendedSecondClickPassesThrough(c: seq<Node>)
    requires HostOnly(c)
    ensures var first := OnClickDetaching(Annotated(c), Some(Layers(c)));
            var second := OnClickDetaching(first.children, first.handler);
            first.suppressed && first.children == c && second.children == c && !second.suppressed
  {
    RevealUndoesAnnotation(c);
  }

  /** A video card element: its links, its children, its `checked` marker, its click listener. */
  class Card {
    /** The hrefs of the card's descendant links, in document order. */
    const hrefs: seq<string>
    var children: seq<Node>
    var checked: bool
    var handler: Option<Handler>

    /** A card gets a listener only after it was marked. */
    ghost predicate Valid()
      reads this
    {
      handler.Some? ==> checked
    }

    constructor (hrefs: seq<string>, children: seq<Node>)
      ensures this.hrefs == hrefs && this.children == children
      ensures !checked && handler.None? && Valid()
    {
      this.hrefs := hrefs;
      this.children := children;
      checked := false;
      handler := None;
    }

    /** Blocking: append the blur layer and the overlay, and register the click listener. */
    method Annotate()
      requires handler.None?
      modifies this
      ensures children == Annotated(old(children))
      ensures handler == Some(Layers(old(children)))
      ensures checked == old(checked)
    {
      var toBlur := NonDivs(children);
      var clones: seq<Node> := [];
      for i := 0 to |toBlur|
        invariant clones == toBlur[..i]
      {
        clones := clones + [toBlur[i]];
      }
      assert clones == toBlur;
      var blur := BlurLayer(clones);
      children := children + [blur];
      var overlay := Overlay;
      children := children + [overlay];
      handler := Some(Handler(blur, overlay));
    }

    /** The listener's removals: the blur layer, then the overlay, each only if it is still attached. */
    method RemoveLayers(h: Handler)
      modifies this
      ensures children == Reveal(old(children), h)
      ensures handler == old(handler) && checked == old(checked)
    {
      var afterBlur := DetachIfAttached(children, h.blur);
      if h.blur in children {
        children := Detach(children, h.blur);
      }
      assert children == afterBlur;
      if h.overlay in children {
        children := Detach(children, h.overlay);
      }
    }

    /**
     * A click on the card with the listener as written: the event is
     * suppressed and the layers removed, then the self-removal throws and the
     * listener stays registered.
     */
    method Click() returns (suppressed: bool)
      modifies this
      ensures Clicked(children, handler, suppressed) == OnClick(old(children), old(handler))
      ensures checked == old(checked)
    {
      suppressed := false;
      if handler.Some? {
        suppressed := true;
        RemoveLayers(handler.value);
      }
    }

    /** A click on the card with a listener that removes itself after running once, as intended. */
    method ClickDetaching() returns (suppressed: bool)
      modifies this
      ensures Clicked(children, handler, suppressed) == OnClickDetaching(old(children), old(handler))
      ensures checked == old(checked)
    {
      suppressed := false;
      if handler.Some? {
        suppressed := true;
        RemoveLayers(handler.value);
        handler := None;
      }
    }
  }
}
