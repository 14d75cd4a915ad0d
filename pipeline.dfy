/**
 * The per-card pipeline and the scan loop. The page-lifetime set of handled
 * identifiers is a field of `Filter`; the lookup server is an oracle from
 * identifier to `Reply`, and the requests issued are logged in order.
 */
module Pipeline {
  import opened Wrappers
  import opened Config
  import opened BvId
  import opened Duration
  import opened Annotation

  /** What processing one card came to. */
  datatype Outcome =
    | Skipped            // card already marked, no identifier, or identifier already handled
    | Passed(id: string) // looked up, long enough
    | Blocked(id: string)// looked up, shorter than MinDuration: annotated

  /** `processItem`'s decision for a card whose extracted identifier is `bvid`. */
  function Decide(processed: set<string>, bvid: Option<string>, server: string -> Reply): (o: Outcome)
    ensures o.Skipped? <==> bvid.None? || bvid.value in processed
    ensures !o.Skipped? ==> bvid == Some(o.id) && o.id !in processed
    ensures o.Blocked? <==> !o.Skipped? && Resolve(server(o.id)) < MinDuration
  {
    match bvid
    case None => Skipped
    case Some(id) =>
      if id in processed then Skipped
      else if Resolve(server(id)) < MinDuration then Blocked(id)
      else Passed(id)
  }

  /** The identifiers an outcome adds to the handled set and to the request log. */
  function Looked(o: Outcome): (r: seq<string>)
    ensures |r| <= 1
    ensures r == [] <==> o.Skipped?
  {
    if o.Skipped? then [] else [o.id]
  }

  /** A fresh identifier whose lookup failed is blocked: the failure reads as 0 seconds. */
  lemma FailedLookupBlocks(processed: set<string>, id: string, server: string -> Reply)
    requires id !in processed
    requires !(server(id).Parsed? && server(id).duration.Some?)
    ensures Decide(processed, Some(id), server) == Blocked(id)
  {
    FailureIsZero(server(id));
  }

  /** What the scan loop sees of a card: its marker and the identifier its links give. */
  datatype CardView = CardView(checked: bool, bvid: Option<string>)

  /** One card met by the scan loop: skipped when marked, otherwise decided by `processItem`. */
  function Visit(processed: set<string>, v: CardView, server: string -> Reply): (o: Outcome)
    ensures o.Skipped? <==> v.checked || v.bvid.None? || v.bvid.value in processed
    ensures !o.Skipped? ==> !v.checked && v.bvid == Some(o.id) && o.id !in processed
    ensures o.Blocked? <==> !o.Skipped? && Resolve(server(o.id)) < MinDuration
  {
    if v.checked then Skipped else Decide(processed, v.bvid, server)
  }

  /** The request log of a run of outcomes, in order. */
  function Requested(outs: seq<Outcome>): (r: seq<string>)
    ensures |r| <= |outs|
    decreases |outs|
  {
    if outs == [] then []
    else Requested(outs[..|outs| - 1]) + Looked(outs[|outs| - 1])
  }

  /** The identifier an outcome adds to the handled set. */
  function IdsOf(o: Outcome): set<string> {
    if o.Skipped? then {} else {o.id}
  }

  /** The handled set after a run of outcomes that started from p. */
  function Handled(p: set<string>, outs: seq<Outcome>): (r: set<string>)
    ensures p <= r
    decreases |outs|
  {
    if outs == [] then p
    else Handled(p, outs[..|outs| - 1]) + IdsOf(outs[|outs| - 1])
  }

  lemma RequestedSnoc(outs: seq<Outcome>, o: Outcome)
    ensures Requested(outs + [o]) == Requested(outs) + Looked(o)
    ensures Handled({}, outs + [o]) == Handled({}, outs) + IdsOf(o)
  {
    assert (outs + [o])[..|outs|] == outs;
  }

  lemma HandledSnoc(p: set<string>, outs: seq<Outcome>, o: Outcome)
    ensures Handled(p, outs + [o]) == Handled(p, outs) + IdsOf(o)
  {
    assert (outs + [o])[..|outs|] == outs;
  }

  function ToSet(s: seq<string>): set<string> {
    set x | x in s
  }

  lemma ToSetAppend(s: seq<string>, t: seq<string>)
    ensures ToSet(s + t) == ToSet(s) + ToSet(t)
  {
  }

  /** The handled set grows by exactly the identifiers requested. */
  lemma {:induction false} HandledIsRequested(p: set<string>, outs: seq<Outcome>)
    ensures Handled(p, outs) == p + ToSet(Requested(outs))
    decreases |outs|
  {
    if outs != [] {
      var init, o := outs[..|outs| - 1], outs[|outs| - 1];
      HandledIsRequested(p, init);
      ToSetAppend(Requested(init), Looked(o));
      assert ToSet(Looked(o)) == IdsOf(o);
    }
  }

  /** The outcomes of one scan over cards `vs`, starting from the handled set p. */
  function ScanOutcomes(p: set<string>, vs: seq<CardView>, server: string -> Reply): (outs: seq<Outcome>)
    ensures |outs| == |vs|
    decreases |vs|
  {
    if vs == [] then []
    else
      var prev := ScanOutcomes(p, vs[..|vs| - 1], server);
      prev + [Visit(Handled(p, prev), vs[|vs| - 1], server)]
  }

  /** One more card extends the scan by that card's outcome. */
  lemma ScanOutcomesSnoc(p: set<string>, vs: seq<CardView>, v: CardView, server: string -> Reply)
    ensures var prev := ScanOutcomes(p, vs, server);
            ScanOutcomes(p, vs + [v], server) == prev + [Visit(Handled(p, prev), v, server)]
  {
    assert (vs + [v])[..|vs|] == vs;
  }

  predicate NoDuplicates(s: seq<string>) {
    forall i, j :: 0 <= i < j < |s| ==> s[i] != s[j]
  }

  lemma {:induction false} RequestedHasEveryLookup(outs: seq<Outcome>, k: nat)
    requires k < |outs| && !outs[k].Skipped?
    ensures outs[k].id in Requested(outs)
    decreases |outs|
  {
    var init := outs[..|outs| - 1];
    if k < |outs| - 1 {
      RequestedHasEveryLookup(init, k);
    }
  }

  /**
   * A scan never requests an identifier twice, nor one that was handled
   * before it began.
   */
  lemma {:induction false} ScanRequestsFresh(p: set<string>, vs: seq<CardView>, server: string -> Reply)
    ensures var req := Requested(ScanOutcomes(p, vs, server));
            NoDuplicates(req) && forall x :: x in req ==> x !in p
    decreases |vs|
  {
    if vs != [] {
      var init := vs[..|vs| - 1];
      var prev := ScanOutcomes(p, init, server);
      var o := Visit(Handled(p, prev), vs[|vs| - 1], server);
      var outs := prev + [o];
      assert outs[..|outs| - 1] == prev;
      assert Requested(outs) == Requested(prev) + Looked(o);
      ScanRequestsFresh(p, init, server);
      HandledIsRequested(p, prev);
      if !o.Skipped? {
        assert o.id !in ToSet(Requested(prev));
      }
    }
  }

  /**
   * The handled set stays exactly the set of identifiers looked up, each
   * looked up once, across a whole scan.
   */
  lemma ScanKeepsHandledSetExact(p: set<string>, r: seq<string>, vs: seq<CardView>, server: string -> Reply)
    requires p == ToSet(r) && NoDuplicates(r)
    ensures var outs := ScanOutcomes(p, vs, server);
            Handled(p, outs) == ToSet(r + Requested(outs)) && NoDuplicates(r + Requested(outs))
  {
    var outs := ScanOutcomes(p, vs, server);
    var req := Requested(outs);
    ScanRequestsFresh(p, vs, server);
    HandledIsRequested(p, outs);
    ToSetAppend(r, req);
    forall i, j | 0 <= i < j < |r + req| ensures (r + req)[i] != (r + req)[j] {
      if j < |r| {
      } else if i < |r| {
        assert (r + req)[j] == req[j - |r|];
        assert (r + req)[i] == r[i];
        assert r[i] in ToSet(r);
      } else {
        assert (r + req)[i] == req[i - |r|] && (r + req)[j] == req[j - |r|];
      }
    }
  }

  /** Among cards sharing an identifier, at most one is looked up: the first. */
  lemma {:induction false} AtMostOneLookupPerId(p: set<string>, vs: seq<CardView>, server: string -> Reply, i: nat, j: nat)
    requires i < j < |vs|
    ensures var outs := ScanOutcomes(p, vs, server);
            !outs[i].Skipped? && !outs[j].Skipped? ==> outs[i].id != outs[j].id
    decreases |vs|
  {
    var init := vs[..|vs| - 1];
    var prev := ScanOutcomes(p, init, server);
    if j < |vs| - 1 {
      AtMostOneLookupPerId(p, init, server, i, j);
    } else if !prev[i].Skipped? {
      RequestedHasEveryLookup(prev, i);
      HandledIsRequested(p, prev);
    }
  }

  /** The outcomes of a scan over a prefix of the cards are the prefix of the scan's outcomes. */
  lemma {:induction false} ScanOutcomesPrefix(p: set<string>, vs: seq<CardView>, server: string -> Reply, n: nat)
    requires n <= |vs|
    ensures ScanOutcomes(p, vs[..n], server) == ScanOutcomes(p, vs, server)[..n]
    decreases |vs|
  {
    if n < |vs| {
      var init := vs[..|vs| - 1];
      assert init[..n] == vs[..n];
      ScanOutcomesPrefix(p, init, server, n);
    } else {
      assert vs[..n] == vs;
    }
  }

  /** An identifier enters the handled set only through an outcome that looked it up. */
  lemma {:induction false} HandledComesFromLookup(p: set<string>, outs: seq<Outcome>, x: string)
    requires x in Handled(p, outs)
    ensures x in p || exists j :: 0 <= j < |outs| && outs[j] != Skipped && outs[j].id == x
    decreases |outs|
  {
    if outs != [] {
      var init := outs[..|outs| - 1];
      if x in Handled(p, init) {
        HandledComesFromLookup(p, init, x);
        if x !in p {
          var j :| 0 <= j < |init| && init[j] != Skipped && init[j].id == x;
          assert outs[j] == init[j];
        }
      }
    }
  }

  /** A scan looks an identifier up only for an unmarked card that carries it. */
  lemma {:induction false} LookupComesFromCard(p: set<string>, vs: seq<CardView>, server: string -> Reply, j: nat)
    requires j < |vs| && ScanOutcomes(p, vs, server)[j] != Skipped
    ensures !vs[j].checked && vs[j].bvid == Some(ScanOutcomes(p, vs, server)[j].id)
    decreases |vs|
  {
    var init := vs[..|vs| - 1];
    if j < |vs| - 1 {
      assert vs[j] == init[j];
      LookupComesFromCard(p, init, server, j);
    }
  }

  /** An identifier enters the handled set only through an unmarked card that carries it. */
  lemma HandledComesFromCard(p: set<string>, vs: seq<CardView>, server: string -> Reply, x: string)
    requires x in Handled(p, ScanOutcomes(p, vs, server))
    ensures x in p || exists j :: 0 <= j < |vs| && !vs[j].checked && vs[j].bvid == Some(x)
  {
    var outs := ScanOutcomes(p, vs, server);
    HandledComesFromLookup(p, outs, x);
    if x !in p {
      var j :| 0 <= j < |outs| && outs[j] != Skipped && outs[j].id == x;
      LookupComesFromCard(p, vs, server, j);
    }
  }

  /**
   * The first unmarked card that carries an identifier not handled before the
   * scan is looked up, so with `AtMostOneLookupPerId` it is the only card with
   * that identifier that can be blocked.
   */
  lemma FirstCardWithIdIsLookedUp(p: set<string>, vs: seq<CardView>, server: string -> Reply, k: nat, x: string)
    requires k < |vs| && !vs[k].checked && vs[k].bvid == Some(x) && x !in p
    requires forall j :: 0 <= j < k ==> vs[j].checked || vs[j].bvid != Some(x)
    ensures !ScanOutcomes(p, vs, server)[k].Skipped? && ScanOutcomes(p, vs, server)[k].id == x
  {
    var pre := vs[..k];
    var prev := ScanOutcomes(p, pre, server);
    var h := Handled(p, prev);
    if x in h {
      HandledComesFromCard(p, pre, server, x);
      assert false;
    }
    var o := Visit(h, vs[k], server);
    assert !o.Skipped? && o.id == x;
    ScanOutcomesSnoc(p, pre, vs[k], server);
    assert vs[..k + 1] == pre + [vs[k]];
    ScanOutcomesPrefix(p, vs, server, k + 1);
    assert ScanOutcomes(p, vs, server)[k] == ScanOutcomes(p, vs[..k + 1], server)[k] == o;
  }

  /** A second scan over the same, now marked, cards issues no request and changes nothing. */
  lemma {:induction false} RescanOfMarkedCardsIsNoOp(p: set<string>, vs: seq<CardView>, server: string -> Reply)
    requires forall k :: 0 <= k < |vs| ==> vs[k].checked
    ensures forall k :: 0 <= k < |vs| ==> ScanOutcomes(p, vs, server)[k] == Skipped
    ensures Requested(ScanOutcomes(p, vs, server)) == []
    decreases |vs|
  {
    if vs != [] {
      var init := vs[..|vs| - 1];
      RescanOfMarkedCardsIsNoOp(p, init, server);
      var prev := ScanOutcomes(p, init, server);
      var outs := prev + [Skipped];
      assert outs[..|outs| - 1] == prev;
    }
  }

  /** One more card seen by the scan: its outcome extends the outcomes, the handled set and the request log. */
  lemma ScanStep(p: set<string>, r: seq<string>, vs: seq<CardView>, i: nat, outs: seq<Outcome>, handled: set<string>, server: string -> Reply)
    requires i < |vs| && outs == ScanOutcomes(p, vs[..i], server) && handled == Handled(p, outs)
    ensures var o := Visit(handled, vs[i], server);
      && outs + [o] == ScanOutcomes(p, vs[..i + 1], server)
      && handled + IdsOf(o) == Handled(p, outs + [o])
      && r + Requested(outs) + Looked(o) == r + Requested(outs + [o])
  {
    var o := Visit(handled, vs[i], server);
    assert vs[..i + 1] == vs[..i] + [vs[i]];
    ScanOutcomesSnoc(p, vs[..i], vs[i], server);
    HandledSnoc(p, outs, o);
    RequestedSnoc(outs, o);
  }

  function Views(cs: seq<Card>): (r: seq<CardView>)
    reads cs
    ensures |r| == |cs|
    ensures forall k :: 0 <= k < |cs| ==> r[k] == CardView(cs[k].checked, GetBvid(cs[k].hrefs))
  {
    seq(|cs|, k requires 0 <= k < |cs| reads cs => CardView(cs[k].checked, GetBvid(cs[k].hrefs)))
  }

  function ChildrenOf(cs: seq<Card>): (r: seq<seq<Node>>)
    reads cs
    ensures |r| == |cs| && forall k :: 0 <= k < |cs| ==> r[k] == cs[k].children
  {
    seq(|cs|, k requires 0 <= k < |cs| reads cs => cs[k].children)
  }

  function HandlersOf(cs: seq<Card>): (r: seq<Option<Handler>>)
    reads cs
    ensures |r| == |cs| && forall k :: 0 <= k < |cs| ==> r[k] == cs[k].handler
  {
    seq(|cs|, k requires 0 <= k < |cs| reads cs => cs[k].handler)
  }

  /** A card the scan has passed: marked, and annotated exactly when its outcome is Blocked. */
  ghost predicate Done(c: Card, kids: seq<Node>, h: Option<Handler>, o: Outcome)
    reads c
  {
    && c.checked && c.Valid()
    && c.children == (if o.Blocked? then Annotated(kids) else kids)
    && c.handler == (if o.Blocked? then Some(Layers(kids)) else h)
  }

  /** A card the scan has not reached yet. */
  ghost predicate Untouched(c: Card, v: CardView, kids: seq<Node>, h: Option<Handler>)
    reads c
  {
    c.checked == v.checked && GetBvid(c.hrefs) == v.bvid && c.Valid() && c.children == kids && c.handler == h
  }

  /** The cards of a scan that has reached card i: those before it done, the rest untouched. */
  ghost predicate Progress(cards: seq<Card>, i: nat, views: seq<CardView>, kids: seq<seq<Node>>, hs: seq<Option<Handler>>,
                           outs: seq<Outcome>)
    reads cards
  {
    && i <= |cards| == |views| == |kids| == |hs|
    && |outs| == i
    && (forall k :: 0 <= k < i ==> Done(cards[k], kids[k], hs[k], outs[k]))
    && (forall k :: i <= k < |cards| ==> Untouched(cards[k], views[k], kids[k], hs[k]))
  }

  /** The script's page-lifetime state: the handled identifiers and the lookups issued. */
  class Filter {
    /** `processedBV`. */
    var processed: set<string>
    /** The identifiers looked up so far, in order. */
    ghost var requests: seq<string>
    /** The remote service's answer for each identifier. */
    const server: string -> Reply

    /** Every identifier handled was looked up exactly once. */
    ghost predicate Valid()
      reads this
    {
      processed == ToSet(requests) && NoDuplicates(requests)
    }

    constructor (server: string -> Reply)
      ensures this.server == server && processed == {} && requests == [] && Valid()
    {
      this.server := server;
      processed := {};
      requests := [];
    }

    /** `processItem`. */
    method ProcessItem(card: Card)
      requires card.handler.None?
      modifies this, card
      ensures var o := Decide(old(processed), GetBvid(card.hrefs), server);
        && processed == old(processed) + IdsOf(o)
        && requests == old(requests) + Looked(o)
        && card.children == (if o.Blocked? then Annotated(old(card.children)) else old(card.children))
        && card.handler == (if o.Blocked? then Some(Layers(old(card.children))) else None)
        && card.checked == old(card.checked)
      ensures old(Valid()) ==> Valid()
    {
      var bvid := GetBvid(card.hrefs);
      if bvid.None? || bvid.value in processed {
        return;
      }
      var id := bvid.value;
      processed := processed + {id};
      // the `requestDelay` pause is not modelled
      requests := requests + [id];
      var duration := Resolve(server(id));
      if duration < MinDuration {
        card.Annotate();
      }
      ToSetAppend(old(requests), [id]);
    }

    /** One turn of `batchProcessor`'s loop: a marked card is skipped, any other is marked, then processed. */
    method CheckItem(item: Card)
      requires item.Valid()
      modifies this, item
      ensures var o := Visit(old(processed), CardView(old(item.checked), GetBvid(item.hrefs)), server);
        && processed == old(processed) + IdsOf(o)
        && requests == old(requests) + Looked(o)
        && Done(item, old(item.children), old(item.handler), o)
    {
      if item.checked {
        return;
      }
      item.checked := true;
      ProcessItem(item);
    }

    /** The handled set and the request log of a scan over `views` that has reached card i. */
    ghost predicate Tally(i: nat, views: seq<CardView>, p0: set<string>, r0: seq<string>, outs: seq<Outcome>)
      reads this
    {
      && i <= |views|
      && outs == ScanOutcomes(p0, views[..i], server)
      && processed == Handled(p0, outs)
      && requests == r0 + Requested(outs)
    }

    /** One turn of the scan loop. */
    method Advance(cards: seq<Card>, i: nat, ghost views: seq<CardView>, ghost kids: seq<seq<Node>>, ghost hs: seq<Option<Handler>>,
                   ghost p0: set<string>, ghost r0: seq<string>, ghost outs: seq<Outcome>) returns (ghost outs': seq<Outcome>)
      requires i < |cards|
      requires forall a, b :: 0 <= a < b < |cards| ==> cards[a] != cards[b]
      requires Tally(i, views, p0, r0, outs) && Progress(cards, i, views, kids, hs, outs)
      modifies this, cards[i]
      ensures Tally(i + 1, views, p0, r0, outs') && Progress(cards, i + 1, views, kids, hs, outs')
    {
      var item := cards[i];
      ghost var o := Visit(processed, views[i], server);
      ScanStep(p0, r0, views, i, outs, processed, server);
      assert Untouched(item, views[i], kids[i], hs[i]);
      assert forall k :: 0 <= k < |cards| && k != i ==> cards[k] != item;
      CheckItem(item);
      outs' := outs + [o];
      assert Tally(i + 1, views, p0, r0, outs');
    }

    /** A scan that has reached the end has visited every card. */
    lemma ScannedAll(cards: seq<Card>, views: seq<CardView>, kids: seq<seq<Node>>, hs: seq<Option<Handler>>,
                     p0: set<string>, r0: seq<string>, outs: seq<Outcome>)
      requires Tally(|cards|, views, p0, r0, outs) && Progress(cards, |cards|, views, kids, hs, outs)
      ensures outs == ScanOutcomes(p0, views, server)
      ensures processed == Handled(p0, outs) && requests == r0 + Requested(outs)
      ensures forall k :: 0 <= k < |cards| ==> Done(cards[k], kids[k], hs[k], outs[k])
    {
      assert views[..|cards|] == views;
    }

    /** `batchProcessor`: one pass over the cards the selector matched, in order. */
    method BatchProcess(cards: seq<Card>)
      requires forall i, j :: 0 <= i < j < |cards| ==> cards[i] != cards[j]
      requires forall i :: 0 <= i < |cards| ==> cards[i].Valid()
      modifies this, cards
      ensures forall i :: 0 <= i < |cards| ==> cards[i].checked && cards[i].Valid()
      ensures var outs := ScanOutcomes(old(processed), old(Views(cards)), server);
        && processed == Handled(old(processed), outs)
        && requests == old(requests) + Requested(outs)
        && forall i :: 0 <= i < |cards| ==>
             && cards[i].children == (if outs[i].Blocked? then Annotated(old(cards[i].children)) else old(cards[i].children))
             && cards[i].handler == (if outs[i].Blocked? then Some(Layers(old(cards[i].children))) else old(cards[i].handler))
      ensures old(Valid()) ==> Valid()
    {
      ghost var views := Views(cards);
      ghost var kids := ChildrenOf(cards);
      ghost var hs := HandlersOf(cards);
      ghost var p0, r0 := processed, requests;
      ghost var outs: seq<Outcome> := [];
      var i := 0;
      while i < |cards|
        invariant i <= |cards|
        invariant Tally(i, views, p0, r0, outs) && Progress(cards, i, views, kids, hs, outs)
      {
        outs := Advance(cards, i, views, kids, hs, p0, r0, outs);
        i := i + 1;
      }
      ScannedAll(cards, views, kids, hs, p0, r0, outs);
      if old(Valid()) {
        ScanKeepsHandledSetExact(p0, r0, views, server);
      }
    }
  }
}
