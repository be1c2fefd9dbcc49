/** The middleware chain of a request: a list shared with the client, or the request's own copy of it. */
module Middleware {
  import opened Wrappers
  import opened Lists

  type MiddlewareId = nat

  /** The client's list, shared by all its requests. */
  class SharedList {
    var list: seq<MiddlewareId>

    constructor (list: seq<MiddlewareId>)
      ensures this.list == list
    {
      this.list := list;
    }
  }

  /**
   * What a middleware does when called, in order: actions of its own, and runs of the rest of the chain, each
   * with a request of its choice.
   */
  datatype Behaviour<A> = Behaviour(acts: seq<Act<A>>)

  datatype Act<A> = Do(action: A) | RunNext(target: nat, rest: Behaviour<A>)

  datatype Event<A> = Enter(m: MiddlewareId) | Exit(m: MiddlewareId) | Acted(action: A) | WireSend(target: nat)

  /** What happens when a chain runs from position `current` with the request `target`. */
  function RunTrace<A>(chain: seq<MiddlewareId>, current: nat, target: nat, b: Behaviour<A>): seq<Event<A>>
    requires current <= |chain|
    decreases |chain| - current, 0
  {
    if current == |chain| then [WireSend(target)]
    else [Enter(chain[current])] + RunActs(chain, current + 1, b.acts) + [Exit(chain[current])]
  }

  function ActTrace<A>(chain: seq<MiddlewareId>, current: nat, act: Act<A>): seq<Event<A>>
    requires current <= |chain|
    decreases |chain| - current, 1
  {
    match act
    case Do(action) => [Acted(action)]
    case RunNext(target, rest) => RunTrace(chain, current, target, rest)
  }

  function RunActs<A>(chain: seq<MiddlewareId>, current: nat, acts: seq<Act<A>>): seq<Event<A>>
    requires current <= |chain|
    decreases |chain| - current, 2 + |acts|
  {
    if acts == [] then []
    else RunActs(chain, current, acts[..|acts| - 1]) + ActTrace(chain, current, acts[|acts| - 1])
  }

  /** The acts of a middleware happen one after the other. */
  lemma {:induction false} ActsInOrder<A>(chain: seq<MiddlewareId>, current: nat, a: seq<Act<A>>, b: seq<Act<A>>)
    requires current <= |chain|
    ensures RunActs(chain, current, a + b) == RunActs(chain, current, a) + RunActs(chain, current, b)
    decreases |b|
  {
    if b == [] {
      assert a + b == a;
    } else {
      var c, last := b[..|b| - 1], b[|b| - 1];
      ActsInOrder(chain, current, a, c);
      assert (a + b)[..|a + b| - 1] == a + c;
      Associative(RunActs(chain, current, a), RunActs(chain, current, c), ActTrace(chain, current, last));
    }
  }

  /** What one act is: an action, or a run of the rest of the chain, which ends at the wire. */
  lemma OneAct<A>(chain: seq<MiddlewareId>, current: nat, action: A, target: nat, rest: Behaviour<A>)
    requires current <= |chain|
    ensures RunActs(chain, current, [Do(action)]) == [Acted(action)]
    ensures RunActs(chain, current, [RunNext(target, rest)])
         == if current == |chain| then [WireSend(target)]
            else [Enter(chain[current])] + RunActs(chain, current + 1, rest.acts) + [Exit(chain[current])]
  {
    var act, run: Act<A> := Do(action), RunNext(target, rest);
    assert [act][..0] == [] && [run][..0] == [];
    assert RunActs(chain, current, [run]) == [] + RunTrace(chain, current, target, rest);
  }

  class NextInner {
    var middlewares: SharedList?
    var current: nat
    var overrideMiddlewares: Option<seq<MiddlewareId>>

    /** Exactly one of the two lists is there. */
    ghost predicate Valid()
      reads this, middlewares
    {
      && (middlewares == null <==> overrideMiddlewares.Some?)
      && current <= |Chain()|
    }

    /** The middlewares of this request, in order. */
    function Chain(): seq<MiddlewareId>
      reads this, middlewares
    {
      if overrideMiddlewares.Some? then overrideMiddlewares.value
      else if middlewares != null then middlewares.list else []
    }

    constructor Make(middlewares: SharedList?, current: nat, overrideMiddlewares: Option<seq<MiddlewareId>>)
      ensures this.middlewares == middlewares && this.current == current
      ensures this.overrideMiddlewares == overrideMiddlewares
    {
      this.middlewares := middlewares;
      this.current := current;
      this.overrideMiddlewares := overrideMiddlewares;
    }

    static method New(middlewares: SharedList) returns (r: Option<NextInner>)
      ensures r.None? <==> middlewares.list == []
      ensures r.Some? ==>
                fresh(r.value) && r.value.Valid() && r.value.current == 0 && r.value.Chain() == middlewares.list
    {
      if middlewares.list == [] {
        return None;
      }
      var next := new NextInner.Make(middlewares, 0, None);
      r := Some(next);
    }

    /** The middleware whose turn it is, from whichever list this request has. */
    method CurrentMiddleware() returns (m: Option<MiddlewareId>)
      requires Valid()
      ensures m == if current < |Chain()| then Some(Chain()[current]) else None
    {
      if overrideMiddlewares.Some? {
        var own := overrideMiddlewares.value;
        m := if current < |own| then Some(own[current]) else None;
      } else {
        m := if current < |middlewares.list| then Some(middlewares.list[current]) else None;
      }
    }

    /** The same chain, one position on. */
    method CreateNext() returns (next: NextInner)
      requires Valid() && current < |Chain()|
      ensures fresh(next) && next.Valid() && next.Chain() == Chain() && next.current == current + 1
    {
      next := new NextInner.Make(middlewares, current + 1, overrideMiddlewares);
    }

    /** Appends to the chain of this request; the shared list, and so every other request, stays as it is. */
    method AddMiddleware(m: MiddlewareId)
      requires Valid()
      modifies this
      ensures Valid() && Chain() == old(Chain()) + [m] && current == old(current)
      ensures overrideMiddlewares.Some?
    {
      if middlewares != null {
        overrideMiddlewares := Some(middlewares.list);
        middlewares := null;
      }
      overrideMiddlewares := Some(overrideMiddlewares.value + [m]);
    }

    /** A copy for a copied request: it starts equal and goes its own way. */
    method CloneRef() returns (copy: NextInner)
      ensures fresh(copy) && copy.Chain() == Chain() && copy.current == current && copy.middlewares == middlewares
      ensures Valid() ==> copy.Valid()
    {
      copy := new NextInner.Make(middlewares, current, overrideMiddlewares);
    }

    /** Calls the current middleware with the rest of the chain, or sends at the end of the chain. */
    method Run<A>(target: nat, b: Behaviour<A>) returns (trace: seq<Event<A>>)
      requires Valid()
      ensures trace == RunTrace(Chain(), current, target, b)
      decreases |Chain()| - current, 0
    {
      var m := CurrentMiddleware();
      if m.None? {
        return [WireSend(target)];
      }
      var next := CreateNext();
      var inner := next.RunAsMiddleware(b.acts);
      trace := [Enter(m.value)] + inner + [Exit(m.value)];
    }

    /** A middleware that was given this chain acts, and runs the chain as often as it likes. */
    method RunAsMiddleware<A>(acts: seq<Act<A>>) returns (trace: seq<Event<A>>)
      requires Valid()
      ensures trace == RunActs(Chain(), current, acts)
      decreases |Chain()| - current, 1
    {
      trace := [];
      for i := 0 to |acts|
        invariant trace == RunActs(Chain(), current, acts[..i])
      {
        assert acts[..i + 1][..i] == acts[..i];
        match acts[i]
        case Do(action) =>
          trace := trace + [Acted(action)];
        case RunNext(target, rest) =>
          var inner := Run(target, rest);
          trace := trace + inner;
      }
      assert acts[..|acts|] == acts;
    }
  }

  /** The chains of a client's requests, all different objects. */
  ghost predicate Chains(chains: seq<NextInner>)
    reads chains, set n <- chains :: n.middlewares
  {
    && (forall i, j | 0 <= i < j < |chains| :: chains[i] != chains[j])
    && (forall n <- chains :: n.Valid())
  }

  /** The chains have grown from `start` by these additions, each by its own. */
  ghost predicate Grown(chains: seq<NextInner>, start: seq<seq<MiddlewareId>>, additions: seq<(nat, MiddlewareId)>)
    requires |start| == |chains|
    reads chains, set n <- chains :: n.middlewares
  {
    forall i | 0 <= i < |chains| :: chains[i].Chain() == start[i] + Project(additions, i)
  }

  /** Adds to one chain; the client's list and all other chains stay as they are. */
  method AddOne(chains: seq<NextInner>, i: nat, m: MiddlewareId,
                ghost start: seq<seq<MiddlewareId>>, ghost before: seq<(nat, MiddlewareId)>)
    requires Chains(chains) && |start| == |chains| && Grown(chains, start, before)
    modifies chains
    ensures Chains(chains) && Grown(chains, start, before + [(i, m)])
  {
    if i < |chains| {
      chains[i].AddMiddleware(m);
      assert forall j | 0 <= j < |chains| && j != i :: chains[j].Chain() == old(chains[j].Chain());
    }
    forall j | 0 <= j < |chains|
      ensures chains[j].Chain() == start[j] + Project(before + [(i, m)], j)
    {
      ProjectAppend(before, (i, m), j);
      Associative(start[j], Project(before, j), if j == i then [m] else []);
    }
  }

  /**
   * Any additions to any chains of one client: each chain grows by exactly its own additions, in order. The
   * client's list is outside the frame.
   */
  method AddAll(chains: seq<NextInner>, additions: seq<(nat, MiddlewareId)>)
    requires Chains(chains)
    modifies chains
    ensures Chains(chains)
    ensures forall i | 0 <= i < |chains| :: chains[i].Chain() == old(chains[i].Chain()) + Project(additions, i)
  {
    ghost var start :=
      seq(|chains|, i requires 0 <= i < |chains| reads chains, set n <- chains :: n.middlewares => chains[i].Chain());
    for k := 0 to |additions|
      invariant Chains(chains) && Grown(chains, start, additions[..k])
    {
      AddOne(chains, additions[k].0, additions[k].1, start, additions[..k]);
      assert additions[..k + 1] == additions[..k] + [additions[k]];
    }
    assert additions[..|additions|] == additions;
  }

  // ----- Nesting -----

  /**
   * Follows which middlewares are open. An exit must close the innermost one, and the request may go on the
   * wire only inside the whole chain.
   */
  function OpenAfter<A>(trace: seq<Event<A>>, open: seq<MiddlewareId>, chain: seq<MiddlewareId>): Option<seq<MiddlewareId>> {
    if trace == [] then Some(open)
    else
      var before := OpenAfter(trace[..|trace| - 1], open, chain);
      if before.None? then None
      else
        match trace[|trace| - 1]
        case Enter(m) => Some(before.value + [m])
        case Exit(m) =>
          if before.value != [] && before.value[|before.value| - 1] == m
          then Some(before.value[..|before.value| - 1]) else None
        case Acted(_) => before
        case WireSend(_) => if before.value == chain then before else None
  }

  lemma {:induction false} OpenAfterConcat<A>(a: seq<Event<A>>, b: seq<Event<A>>, open: seq<MiddlewareId>, chain: seq<MiddlewareId>)
    ensures OpenAfter(a + b, open, chain)
         == (if OpenAfter(a, open, chain).None? then None
             else OpenAfter(b, OpenAfter(a, open, chain).value, chain))
  {
    if b == [] {
      assert a + b == a;
    } else {
      var c := b[..|b| - 1];
      OpenAfterConcat(a, c, open, chain);
      assert (a + b)[..|a + b| - 1] == a + c;
    }
  }

  lemma OpenOne<A>(e: Event<A>, open: seq<MiddlewareId>, chain: seq<MiddlewareId>)
    ensures OpenAfter([e], open, chain)
         == match e
            case Enter(m) => Some(open + [m])
            case Exit(m) => if open != [] && open[|open| - 1] == m then Some(open[..|open| - 1]) else None
            case Acted(_) => Some(open)
            case WireSend(_) => if open == chain then Some(open) else None
  {
    assert [e][..0] == [];
  }

  /**
   * Whatever the middlewares do, and however often they run the rest of the chain, every send happens inside
   * all middlewares of the chain, entered in order, and every middleware is left in the reverse order.
   */
  lemma {:induction false} ChainNests<A>(chain: seq<MiddlewareId>, current: nat, target: nat, b: Behaviour<A>)
    requires current <= |chain|
    ensures OpenAfter(RunTrace(chain, current, target, b), chain[..current], chain) == Some(chain[..current])
    decreases |chain| - current, 0
  {
    var open := chain[..current];
    if current == |chain| {
      OpenOne<A>(WireSend(target), open, chain);
    } else {
      var m := chain[current];
      var inner := RunActs(chain, current + 1, b.acts);
      ActsNest(chain, current + 1, b.acts);
      OpenOne<A>(Enter(m), open, chain);
      OpenOne<A>(Exit(m), chain[..current + 1], chain);
      OpenAfterConcat([Enter(m)], inner, open, chain);
      OpenAfterConcat([Enter(m)] + inner, [Exit(m)], open, chain);
      assert open + [m] == chain[..current + 1];
      assert chain[..current + 1][..current] == open;
    }
  }

  lemma {:induction false} ActsNest<A>(chain: seq<MiddlewareId>, current: nat, acts: seq<Act<A>>)
    requires current <= |chain|
    ensures OpenAfter(RunActs(chain, current, acts), chain[..current], chain) == Some(chain[..current])
    decreases |chain| - current, 1 + |acts|
  {
    if acts != [] {
      var n := |acts| - 1;
      ActsNest(chain, current, acts[..n]);
      match acts[n] {
        case Do(action) => OpenOne<A>(Acted(action), chain[..current], chain);
        case RunNext(target, rest) => ChainNests(chain, current, target, rest);
      }
      OpenAfterConcat(RunActs(chain, current, acts[..n]), ActTrace(chain, current, acts[n]), chain[..current], chain);
    }
  }

  /** Every middleware down to the wire runs the rest of the chain exactly once, and does nothing else. */
  predicate PassesOn<A>(b: Behaviour<A>, target: nat, depth: nat) {
    depth > 0 ==>
      |b.acts| == 1 && b.acts[0].RunNext? && b.acts[0].target == target && PassesOn(b.acts[0].rest, target, depth - 1)
  }

  function Enters<A>(chain: seq<MiddlewareId>): seq<Event<A>> {
    seq(|chain|, i requires 0 <= i < |chain| => Enter(chain[i]))
  }

  function Exits<A>(chain: seq<MiddlewareId>): seq<Event<A>> {
    seq(|chain|, i requires 0 <= i < |chain| => Exit(chain[|chain| - 1 - i]))
  }

  /** A chain of such middlewares visits all of them in order, sends once, and comes back in reverse. */
  lemma {:induction false} ChainOrder<A>(chain: seq<MiddlewareId>, current: nat, target: nat, b: Behaviour<A>)
    requires current <= |chain| && PassesOn(b, target, |chain| - current)
    ensures RunTrace(chain, current, target, b)
         == Enters<A>(chain[current..]) + [WireSend(target)] + Exits<A>(chain[current..])
    decreases |chain| - current
  {
    if current < |chain| {
      var next := b.acts[0].rest;
      ChainOrder(chain, current + 1, target, next);
      var rest := chain[current + 1..];
      assert chain[current..] == [chain[current]] + rest;
      assert b.acts[..0] == [];
      assert RunActs(chain, current + 1, b.acts) == RunTrace(chain, current + 1, target, next);
      assert Enters<A>(chain[current..]) == [Enter(chain[current])] + Enters<A>(rest);
      assert Exits<A>(chain[current..]) == Exits<A>(rest) + [Exit(chain[current])];
    }
  }
}
