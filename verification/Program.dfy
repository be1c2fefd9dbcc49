/** A program that holds a request and the copies it makes of it, and its steps on the real objects. */
module Program {
  import opened Wrappers
  import opened Headers
  import opened Middleware
  import opened RequestWorld
  import opened Request
  import HeaderMap

  ghost function NextOf(r: Request): NextInner?
    reads r
  {
    if r.inner.Some? && r.inner.value.next.Some? then r.inner.value.next.value else null
  }

  ghost function ListOf(r: Request): SharedList?
    reads r, NextOf(r)
  {
    if NextOf(r) != null then NextOf(r).middlewares else null
  }

  ghost function ChainOf(r: Request): Option<Chain>
    reads r, NextOf(r), ListOf(r)
  {
    if NextOf(r) == null then None else Some(Chain(NextOf(r).Chain(), NextOf(r).current))
  }

  /** The body of a request is the one of its cell. */
  ghost predicate RefersTo(r: Request, c: Option<nat>, cells: seq<RequestBody>)
    reads r
  {
    r.inner.Some? && match c
                     case None => r.inner.value.body.None?
                     case Some(k) => k < |cells| && r.BodyHandle() == cells[k]
  }

  /** Python has not seen the body handle. */
  ghost predicate OwnsBody(r: Request)
    reads r
  {
    r.inner.Some? && r.inner.value.body.Some? && r.inner.value.body.value.OwnBody?
  }

  /** Two requests have headers of their own. */
  ghost predicate Apart(r: Request, s: Request)
    reads r, s
  {
    r.HeaderHandle() != null ==> r.HeaderHandle() != s.HeaderHandle()
  }

  /** The request with the handles it refers to. */
  ghost function Held(r: Request): set<object>
    reads r
  {
    {r} + (if r.HeaderHandle() != null then {r.HeaderHandle() as object} else {})
    + (if r.BodyHandle() != null then {r.BodyHandle() as object} else {})
  }

  /** The object is what the value says. */
  ghost predicate Stands(r: Request, live: Option<Live>, cells: seq<RequestBody>)
    reads r, r.HeaderHandle(), NextOf(r), ListOf(r)
  {
    match live
    case None => r.inner.None?
    case Some(a) =>
      && r.inner.Some? && r.inner.value.base == a.base
      && r.AbsHeaders() == a.headers
      && RefersTo(r, a.body, cells)
      && ChainOf(r) == a.chain
      && (NextOf(r) != null ==> NextOf(r).Valid())
  }

  class Program {
    var pool: seq<Request>
    var wires: seq<(nat, Wire)>
    ghost var cells: seq<RequestBody>
    ghost var world: World
    ghost var Repr: set<object>
    ghost var Frozen: set<object>

    /** The objects of the program are its own and all different; the chains are frozen. */
    ghost predicate Shape()
      reads this, Repr, Frozen
    {
      && this in Repr && Repr !! Frozen
      && (forall i | 0 <= i < |pool| :: pool[i] in Repr && Handled(pool[i]))
      && (forall c | 0 <= c < |cells| :: cells[c] in Repr)
      && (forall i, j | 0 <= i < j < |pool| :: pool[i] != pool[j] && Apart(pool[i], pool[j]))
      && (forall c, d | 0 <= c < d < |cells| :: cells[c] != cells[d])
    }

    /** The headers belong to the program; the chain, and the list that it may share, are frozen. */
    ghost predicate Handled(r: Request)
      reads this, r, Frozen
    {
      && (r.HeaderHandle() != null ==> r.HeaderHandle() in Repr)
      && (NextOf(r) != null ==> NextOf(r) in Frozen && (ListOf(r) != null ==> ListOf(r) in Frozen))
    }

    /** A body that Python has not seen has one owner and is still there. */
    ghost predicate Owned()
      reads this, pool
    {
      forall i | 0 <= i < |pool| && OwnsBody(pool[i]) && IsLive(world, i) ::
        && Cell(world, world.requests[i].value.body).Some?
        && forall j: nat | j != i && IsLive(world, j) :: world.requests[j].value.body != world.requests[i].value.body
    }

    ghost predicate Valid()
      reads this, Repr, Frozen
    {
      && Shape() && Owned()
      && |pool| == |world.requests| && wires == world.wires
      && (forall i | 0 <= i < |pool| :: Stands(pool[i], world.requests[i], cells))
      && CellsHold(world.cells)
    }

    /** The cells hold what these values say. */
    ghost predicate CellsHold(values: seq<Option<InnerBody>>)
      reads this, cells
    {
      |cells| == |values| && forall c | 0 <= c < |cells| :: cells[c].inner == values[c]
    }

    /** The first request, and nothing else. */
    constructor (first: Request)
      requires first.inner.Some? && (NextOf(first) != null ==> NextOf(first).Valid())
      requires OwnsBody(first) ==> first.BodyCell().Some?
      ensures Valid() && IsStart(world) && pool == [first]
      ensures fresh(Repr - {first, first.HeaderHandle(), first.BodyHandle()})
      ensures world.requests[0] == Some(Live(first.inner.value.base, first.AbsHeaders(),
                                             if first.inner.value.body.Some? then Some(0) else None, ChainOf(first)))
      ensures world.cells == if first.inner.value.body.Some? then [first.BodyCell()] else []
    {
      pool := [first];
      wires := [];
      cells := if first.inner.value.body.Some? then [first.inner.value.body.value.handle] else [];
      world := World([Some(Live(first.inner.value.base, first.AbsHeaders(),
                                if first.inner.value.body.Some? then Some(0) else None, ChainOf(first)))],
                     if first.inner.value.body.Some? then [first.BodyCell()] else [], 0, []);
      Repr := Held(first) + {this};
      Frozen := (if NextOf(first) != null then {NextOf(first) as object} else {})
                + (if ListOf(first) != null then {ListOf(first) as object} else {});
    }

    /** Nothing but one request and the handles it refers to has changed. */
    twostate predicate OnlyChanged(k: nat)
      reads *
    {
      && pool == old(pool) && k < |pool| && Frozen == old(Frozen)
      && (forall o <- old(Repr) | o != this && o != pool[k] && o != old(pool[k].HeaderHandle()) && o != old(pool[k].BodyHandle()) ::
            unchanged(o))
      && (forall o <- Frozen :: unchanged(o))
    }

    /** The request refers to handles of its own. */
    twostate predicate Kept(k: nat)
      requires k < |pool| && k < |old(pool)|
      reads *
    {
      && old(Repr) <= Repr && fresh(Repr - old(Repr)) && Held(pool[k]) <= Repr
      && (NextOf(pool[k]) == null || NextOf(pool[k]) == old(NextOf(pool[k])))
      && (pool[k].HeaderHandle() == null || pool[k].HeaderHandle() == old(pool[k].HeaderHandle()) || fresh(pool[k].HeaderHandle()))
    }

    /** The other requests are what they were. */
    twostate lemma OthersStay(k: nat)
      requires old(Valid()) && OnlyChanged(k)
      ensures forall j | 0 <= j < |pool| && j != k ::
                pool[j].inner == old(pool[j].inner) && ListOf(pool[j]) == old(ListOf(pool[j]))
      ensures forall j | 0 <= j < |pool| && j != k :: Stands(pool[j], old(world).requests[j], old(cells))
    {
    }

    twostate lemma ShapeStays(k: nat)
      requires old(Valid()) && OnlyChanged(k) && Kept(k)
      requires forall b <- cells :: b in Repr
      requires forall i, j | 0 <= i < j < |cells| :: cells[i] != cells[j]
      ensures Shape()
    {
      OthersStay(k);
    }

    /** A change in which the request keeps its body handle, or goes, keeps the program in step. */
    twostate lemma BodyStays(k: nat)
      requires old(Valid()) && OnlyChanged(k) && Kept(k) && cells == old(cells)
      requires |world.requests| == |pool| && world.wires == wires && CellsHold(world.cells) && |cells| == |old(world).cells|
      requires forall j | 0 <= j < |pool| && j != k :: world.requests[j] == old(world).requests[j]
      requires world.requests[k].Some? ==>
                 && pool[k].inner.Some? && old(pool[k].inner).Some? && pool[k].inner.value.body == old(pool[k].inner).value.body
                 && old(world).requests[k].Some? && world.requests[k].value.body == old(world).requests[k].value.body
      requires Stands(pool[k], world.requests[k], cells)
      requires forall c | 0 <= c < |cells| && world.cells[c] != old(world).cells[c] ::
                 old(world).requests[k].Some? && old(world).requests[k].value.body == Some(c) && (world.requests[k].None? || world.cells[c].Some?)
      ensures Valid()
    {
      ShapeStays(k);
      OthersStay(k);
    }

    // ----- Operations on headers -----

    /** The getter of the headers, on the object. */
    method GetHeadersOf(i: nat) returns (h: HeaderMap.HeaderMap?)
      requires Valid() && IsLive(world, i)
      modifies pool[i], pool[i].HeaderHandle()
      ensures pool[i].inner.Some? && pool[i].inner.value == old(pool[i].inner).value.(headers := pool[i].inner.value.headers)
      ensures Stands(pool[i], world.requests[i], cells)
      ensures pool[i].HeaderHandle() == null || pool[i].HeaderHandle() == old(pool[i].HeaderHandle()) || fresh(pool[i].HeaderHandle())
      ensures h != null <==> world.requests[i].value.headers.Some?
      ensures h != null ==> pool[i].HeaderHandle() == h
    {
      var got := pool[i].GetHeaders();
      h := if got.Ok? && got.value.inner.Some? then got.value else null;
    }

    /** The live headers handle of a request, if there is one to be had. */
    method ReadHeadersAt(i: nat) returns (h: HeaderMap.HeaderMap?)
      requires Valid()
      modifies Repr
      ensures Valid() && fresh(Repr - old(Repr)) && world == Apply(old(world), ReadHeaders(i)) && pool == old(pool)
      ensures h != null <==> IsLive(world, i) && world.requests[i].value.headers.Some?
      ensures h != null ==> pool[i].HeaderHandle() == h
    {
      h := null;
      if i < |pool| && pool[i].inner.Some? {
        h := GetHeadersOf(i);
        Repr := Repr + Held(pool[i]);
        BodyStays(i);
      }
    }

    /** Python changes the headers through the live handle. */
    method EditThrough(i: nat, h: HeaderMap.HeaderMap, entries: Entries)
      requires Valid() && i < |pool| && pool[i].HeaderHandle() == h && h.inner.Some?
      modifies Repr
      ensures Valid() && Repr == old(Repr) && world == Apply(old(world), EditHeaders(i, entries))
    {
      h.inner := Some(entries);
      world := Apply(world, EditHeaders(i, entries));
      assert OnlyChanged(i) && Kept(i);
      assert Stands(pool[i], world.requests[i], cells);
      BodyStays(i);
    }

    method EditHeadersAt(i: nat, entries: Entries)
      requires Valid()
      modifies Repr
      ensures Valid() && fresh(Repr - old(Repr)) && world == Apply(old(world), EditHeaders(i, entries))
    {
      var h := ReadHeadersAt(i);
      if h != null {
        EditThrough(i, h, entries);
      }
    }

    method WriteHeadersAt(i: nat, entries: Entries)
      requires Valid()
      modifies Repr
      ensures Valid() && fresh(Repr - old(Repr)) && world == Apply(old(world), WriteHeaders(i, entries))
    {
      if i < |pool| {
        var ok := pool[i].SetHeaders(entries);
        if ok {
          Repr := Repr + {pool[i].HeaderHandle()};
        }
        world := Apply(world, WriteHeaders(i, entries));
        assert OnlyChanged(i) && Kept(i);
        assert Stands(pool[i], world.requests[i], cells);
        BodyStays(i);
      }
    }

    // ----- Operations on bodies -----

    /** A body moved to the Python heap keeps its cell, which has a new handle. */
    twostate lemma BodyMoves(k: nat)
      requires old(Valid()) && OnlyChanged(k) && Kept(k) && world == old(world) && wires == old(wires)
      requires IsLive(world, k) && world.requests[k].value.body.Some? && old(OwnsBody(pool[k])) && !OwnsBody(pool[k])
      requires Stands(pool[k], world.requests[k], cells) && |cells| == |world.cells|
      requires var c := world.requests[k].value.body.value;
               cells == old(cells)[c := cells[c]] && fresh(cells[c]) && cells[c].inner == world.cells[c]
      ensures Valid()
    {
      OthersStay(k);
      ShapeStays(k);
      var c := world.requests[k].value.body;
      assert forall j: nat | j != k && IsLive(world, j) :: world.requests[j].value.body != c;
    }

    /** The first getter moves a body to the Python heap. */
    method MoveBodyAt(i: nat)
      requires Valid() && i < |pool| && OwnsBody(pool[i])
      modifies Repr
      ensures Valid() && fresh(Repr - old(Repr)) && world == old(world) && pool == old(pool) && !OwnsBody(pool[i])
    {
      ghost var c := world.requests[i].value.body.value;
      var got := pool[i].GetBody();
      var handle := got.value.value;
      Repr := Repr + Held(pool[i]);
      cells := cells[c := handle];
      assert OnlyChanged(i) && Kept(i);
      assert Stands(pool[i], world.requests[i], cells);
      BodyMoves(i);
    }

    method ReadBodyAt(i: nat)
      requires Valid()
      modifies Repr
      ensures Valid() && fresh(Repr - old(Repr)) && world == Apply(old(world), ReadBody(i)) && pool == old(pool)
      ensures i < |pool| ==> !OwnsBody(pool[i])
    {
      if i < |pool| && pool[i].inner.Some? && pool[i].inner.value.body.Some? && pool[i].inner.value.body.value.OwnBody? {
        MoveBodyAt(i);
      } else if i < |pool| {
        var _ := pool[i].GetBody();
        assert OnlyChanged(i) && Kept(i);
        assert Stands(pool[i], world.requests[i], cells);
        BodyStays(i);
      }
    }

    /** A request refers to another body, of a new cell or of one that has no owner. */
    twostate predicate Replaced(k: nat)
      requires k < |pool|
      reads *
    {
      && |world.requests| == |pool| && wires == world.wires && wires == old(wires)
      && old(cells) <= cells && old(world).cells <= world.cells && |cells| <= |old(cells)| + 1
      && (|cells| > |old(cells)| ==> fresh(cells[|old(cells)|]) && cells[|old(cells)|] in Repr)
      && CellsHold(world.cells)
      && |old(world).requests| == |pool|
      && (forall j | 0 <= j < |pool| && j != k :: world.requests[j] == old(world).requests[j])
      && IsLive(world, k) && Stands(pool[k], world.requests[k], cells) && !OwnsBody(pool[k])
    }

    twostate lemma ReplacedOwned(k: nat)
      requires old(Valid()) && OnlyChanged(k) && Replaced(k)
      requires forall j: nat | j != k && IsLive(old(world), j) && old(OwnsBody(pool[j])) ::
                 old(world).requests[j].value.body != world.requests[k].value.body
      ensures Owned()
    {
      OthersStay(k);
    }

    twostate lemma BodyReplaced(k: nat)
      requires old(Valid()) && OnlyChanged(k) && Kept(k) && Replaced(k)
      requires forall j: nat | j != k && IsLive(old(world), j) && old(OwnsBody(pool[j])) ::
                 old(world).requests[j].value.body != world.requests[k].value.body
      ensures Valid()
    {
      OthersStay(k);
      ShapeStays(k);
      ReplacedOwned(k);
    }

    method WriteBodyAt(i: nat, body: Option<InnerBody>)
      requires Valid()
      modifies Repr
      ensures Valid() && fresh(Repr - old(Repr)) && world == Apply(old(world), WriteBody(i, body))
    {
      if i < |pool| && pool[i].inner.Some? {
        if body.Some? {
          NewBodyAt(i, body.value);
        } else {
          var _ := pool[i].SetBody(None);
          world := Apply(world, WriteBody(i, None));
          BodyReplaced(i);
        }
      }
    }

    method NewBodyAt(i: nat, body: InnerBody)
      requires Valid() && IsLive(world, i)
      modifies Repr
      ensures Valid() && fresh(Repr - old(Repr)) && world == Apply(old(world), WriteBody(i, Some(body)))
    {
      var handle := new RequestBody(Some(body));
      var _ := pool[i].SetBody(Some(handle));
      cells := cells + [handle];
      Repr := Repr + {handle};
      world := Apply(world, WriteBody(i, Some(body)));
      BodyReplaced(i);
    }

    /** Request `i` gets the body handle of request `j`. */
    method ShareBodyAt(i: nat, j: nat)
      requires Valid()
      modifies Repr
      ensures Valid() && fresh(Repr - old(Repr)) && world == Apply(old(world), ShareBody(i, j))
    {
      if i < |pool| && j < |pool| && pool[i].inner.Some? && pool[j].inner.Some? {
        ReadBodyAt(j);
        GiveBody(i, j);
      }
    }

    /** The setter of the body, on the object. */
    method SetBodyOf(i: nat, j: nat)
      requires Valid() && IsLive(world, i) && IsLive(world, j)
      modifies pool[i]
      ensures pool[i].inner.Some? && pool[i].inner.value == old(pool[i].inner).value.(body := pool[i].inner.value.body)
      ensures Stands(pool[i], Some(world.requests[i].value.(body := world.requests[j].value.body)), cells) && !OwnsBody(pool[i])
    {
      var body := pool[j].inner.value.body;
      var _ := pool[i].SetBody(if body.Some? then Some(body.value.handle) else None);
    }

    method GiveBody(i: nat, j: nat)
      requires Valid() && IsLive(world, i) && IsLive(world, j) && !OwnsBody(pool[j])
      modifies Repr
      ensures Valid() && fresh(Repr - old(Repr)) && world == Apply(old(world), ShareBody(i, j))
    {
      assert forall m: nat | IsLive(world, m) && OwnsBody(pool[m]) ::
          world.requests[m].value.body != world.requests[j].value.body;
      SetBodyOf(i, j);
      world := Apply(world, ShareBody(i, j));
      BodyReplaced(i);
    }

    // ----- Copies and sends -----

    /** What the object of a request says, the values say. */
    lemma ReadyMeans(i: nat, isBlocking: bool, hasLoop: bool)
      requires Valid() && IsLive(world, i)
      ensures pool[i].inner.Some? && pool[i].BodyCell() == Cell(world, world.requests[i].value.body)
      ensures Ready(world, i, isBlocking, hasLoop) <==> pool[i].BodySendable(isBlocking, hasLoop) && pool[i].AbsHeaders().Some?
      ensures Ready(world, i, isBlocking, hasLoop) ==> pool[i].AbsWire() == WireOf(world, i)
    {
    }

    /** Takes a request apart; the rest of the program is not touched. */
    method TakeApart(i: nat, isBlocking: bool, hasLoop: bool) returns (sent: Option<Wire>)
      requires Valid() && IsLive(world, i)
      modifies pool[i], pool[i].HeaderHandle(), pool[i].BodyHandle()
      ensures pool[i].inner.None?
      ensures sent == if Ready(world, i, isBlocking, hasLoop) then Some(WireOf(world, i)) else None
      ensures CellsHold(SendWire(world, i, isBlocking, hasLoop).cells)
    {
      ReadyMeans(i, isBlocking, hasLoop);
      var r := pool[i].PrepareSpawnRequest(isBlocking, hasLoop);
      sent := if r.Ok? then Some(r.value) else None;
    }

    /** The end of a chain. */
    method SendWireAt(i: nat, isBlocking: bool, hasLoop: bool)
      requires Valid()
      modifies Repr
      ensures Valid() && fresh(Repr - old(Repr)) && world == SendWire(old(world), i, isBlocking, hasLoop)
    {
      if i < |pool| && pool[i].inner.Some? {
        var sent := TakeApart(i, isBlocking, hasLoop);
        if sent.Some? {
          wires := wires + [(i, sent.value)];
        }
        world := SendWire(world, i, isBlocking, hasLoop);
        BodyStays(i);
      }
    }

    /** The first part of a send, on the object. */
    method BeginSendOf(i: nat, isBlocking: bool, hasLoop: bool) returns (r: Result<Option<NextInner>, RequestError>)
      requires Valid() && IsLive(world, i)
      modifies pool[i], pool[i].BodyHandle()
      ensures var begun := CanBegin(world, i, isBlocking, hasLoop);
              var after := if begun then Begin(world, i, hasLoop) else world;
              && Stands(pool[i], after.requests[i], cells) && CellsHold(after.cells)
              && pool[i].inner == (if begun then Some(old(pool[i].inner).value.(next := None)) else old(pool[i].inner))
              && (r.Ok? <==> begun && (world.requests[i].value.chain.Some? ==> isBlocking || hasLoop))
      ensures r.Ok? ==> (r.value.Some? <==> world.requests[i].value.chain.Some?)
      ensures r.Ok? && r.value.Some? ==>
                r.value.value.Valid()
                && Chain(r.value.value.Chain(), r.value.value.current) == world.requests[i].value.chain.value
    {
      ReadyMeans(i, isBlocking, hasLoop);
      r := pool[i].BeginSend(isBlocking, hasLoop);
    }

    method BeginAt(i: nat, isBlocking: bool, hasLoop: bool) returns (r: Result<Option<NextInner>, RequestError>)
      requires Valid() && IsLive(world, i)
      modifies Repr
      ensures Valid() && fresh(Repr - old(Repr))
      ensures world == if CanBegin(old(world), i, isBlocking, hasLoop) then Begin(old(world), i, hasLoop) else old(world)
      ensures r.Ok? <==> CanBegin(old(world), i, isBlocking, hasLoop)
                         && (old(world).requests[i].value.chain.Some? ==> isBlocking || hasLoop)
      ensures r.Ok? ==> (r.value.Some? <==> old(world).requests[i].value.chain.Some?)
      ensures r.Ok? && r.value.Some? ==>
                r.value.value.Valid()
                && Chain(r.value.value.Chain(), r.value.value.current) == old(world).requests[i].value.chain.value
    {
      r := BeginSendOf(i, isBlocking, hasLoop);
      world := if CanBegin(world, i, isBlocking, hasLoop) then Begin(world, i, hasLoop) else world;
      BodyStays(i);
    }

    /** A request from outside the program, with handles that are not the program's either. */
    ghost predicate Newcomer(copy: Request)
      reads this, copy, NextOf(copy)
    {
      && copy !in Repr && copy !in Frozen
      && (copy.HeaderHandle() != null ==> copy.HeaderHandle() !in Repr && copy.HeaderHandle() !in Frozen)
      && (copy.BodyHandle() != null ==> copy.BodyHandle() !in Repr && copy.BodyHandle() !in Frozen)
      && (NextOf(copy) != null ==> NextOf(copy) !in Repr && (ListOf(copy) != null ==> ListOf(copy) in Frozen))
    }

    ghost function HandlesOf(copy: Request): seq<RequestBody>
      reads copy
    {
      if copy.BodyHandle() != null then [copy.BodyHandle()] else []
    }

    /** The copy of a request, on the object. */
    method CopyRequestOf(i: nat) returns (made: Option<Request>)
      requires Valid() && IsLive(world, i)
      ensures made.Some? <==> Copyable(world, world.requests[i].value)
      ensures made.Some? ==>
                var copy := made.value;
                && fresh(copy) && fresh(Held(copy)) && Newcomer(copy)
                && Stands(copy, CopyOf(world, i).requests[|pool|], cells + HandlesOf(copy))
                && CopyOf(world, i).cells == world.cells + (if copy.BodyHandle() != null then [copy.BodyCell()] else [])
    {
      ReadyMeans(i, true, true);
      var r := pool[i].Copy(None);
      made := if r.Ok? then Some(r.value) else None;
    }

    /** The copy has joined the program; nothing else has changed. */
    twostate predicate Adopted(copy: Request)
      reads *
    {
      && pool == old(pool) + [copy] && cells == old(cells) + HandlesOf(copy) && wires == old(wires)
      && Repr == old(Repr) + Held(copy)
      && Frozen == old(Frozen) + (if NextOf(copy) != null then {NextOf(copy) as object} else {})
      && (forall o <- old(Repr) | o != this :: unchanged(o)) && (forall o <- old(Frozen) :: unchanged(o))
      && old(Newcomer(copy)) && unchanged(copy) && (NextOf(copy) != null ==> unchanged(NextOf(copy)))
    }

    twostate lemma AdoptedShape(copy: Request)
      requires old(Valid()) && Adopted(copy)
      ensures Shape()
    {
      assert forall j | 0 <= j < |old(pool)| :: pool[j] == old(pool)[j] && Handled(pool[j]);
      assert Handled(copy);
      assert this !in Frozen && Repr !! Frozen;
      assert forall j | 0 <= j < |old(pool)| :: pool[j] != copy && Apart(pool[j], copy);
    }

    twostate lemma AdoptedCells(copy: Request)
      requires old(Valid()) && Adopted(copy)
      ensures forall j | 0 <= j < |old(pool)| :: pool[j].inner == old(pool[j].inner) && Stands(pool[j], old(world).requests[j], cells)
      ensures forall c | 0 <= c < |old(cells)| :: cells[c].inner == old(world).cells[c]
    {
      assert forall j | 0 <= j < |old(pool)| :: Stands(pool[j], old(world).requests[j], old(cells));
    }

    /** The values have grown by one request with a cell of its own. */
    twostate predicate Grown()
      reads *
    {
      && |world.requests| == |old(world).requests| + 1 && old(world).requests <= world.requests
      && |world.cells| == |cells| && old(world).cells <= world.cells && world.wires == old(world).wires
      && var live := world.requests[|old(world).requests|];
         live.Some? && (live.value.body.Some? ==>
                          live.value.body.value == |old(cells)| < |cells| && world.cells[|old(cells)|].Some?)
    }

    /** The bodies of the others lie before the new cell, and are what they were. */
    twostate lemma OldBodies(copy: Request)
      requires old(Valid()) && Adopted(copy) && Grown()
      ensures forall j | 0 <= j < |old(pool)| :: OwnsBody(pool[j]) == old(OwnsBody(pool[j])) && world.requests[j] == old(world).requests[j]
      ensures forall j | 0 <= j < |old(pool)| && IsLive(world, j) && world.requests[j].value.body.Some? ::
                world.requests[j].value.body.value < |old(cells)|
    {
      AdoptedCells(copy);
    }

    twostate lemma AdoptedOwned(copy: Request)
      requires old(Valid()) && Adopted(copy) && Grown() && Stands(copy, world.requests[|old(pool)|], cells)
      ensures Owned()
    {
      OldBodies(copy);
    }

    twostate lemma CopyJoins(copy: Request)
      requires old(Valid()) && Adopted(copy) && Grown()
      requires Stands(copy, world.requests[|old(pool)|], cells)
      requires copy.BodyHandle() != null ==> copy.BodyCell() == world.cells[|old(cells)|]
      ensures Valid()
    {
      AdoptedShape(copy);
      AdoptedCells(copy);
      AdoptedOwned(copy);
    }

    method Adopt(i: nat, copy: Request)
      requires Valid() && IsLive(world, i) && Copyable(world, world.requests[i].value)
      requires Newcomer(copy) && Stands(copy, CopyOf(world, i).requests[|pool|], cells + HandlesOf(copy))
      requires CopyOf(world, i).cells == world.cells + (if copy.BodyHandle() != null then [copy.BodyCell()] else [])
      modifies this
      ensures Valid() && Repr == old(Repr) + Held(copy) && world == CopyOf(old(world), i)
    {
      pool := pool + [copy];
      cells := cells + HandlesOf(copy);
      Repr := Repr + Held(copy);
      Frozen := Frozen + (if NextOf(copy) != null then {NextOf(copy) as object} else {});
      world := CopyOf(world, i);
      assert Adopted(copy);
      assert Grown();
      CopyJoins(copy);
    }

    method CopyAt(i: nat)
      requires Valid()
      modifies Repr
      ensures Valid() && fresh(Repr - old(Repr)) && world == Apply(old(world), CopyRequest(i))
    {
      if i < |pool| && pool[i].inner.Some? {
        var made := CopyRequestOf(i);
        if made.Some? {
          Adopt(i, made.value);
        }
      }
    }

    // ----- Programs -----

    /** One operation on the real objects does what it does to the values. */
    method Perform(op: Op)
      requires Valid()
      modifies Repr
      ensures Valid() && fresh(Repr - old(Repr)) && world == Apply(old(world), op)
      decreases Depth(op), 0
    {
      match op
      case ReadHeaders(i) =>
        var _ := ReadHeadersAt(i);
      case EditHeaders(i, entries) => EditHeadersAt(i, entries);
      case WriteHeaders(i, entries) => WriteHeadersAt(i, entries);
      case ReadBody(i) => ReadBodyAt(i);
      case WriteBody(i, body) => WriteBodyAt(i, body);
      case ShareBody(i, j) => ShareBodyAt(i, j);
      case CopyRequest(i) => CopyAt(i);
      case Send(i, isBlocking, hasLoop, b) => SendAt(i, isBlocking, hasLoop, b);
    }

    /** Sends through the chain of the request, or straight to the wire. */
    method SendAt(i: nat, isBlocking: bool, hasLoop: bool, b: Behaviour<Op>)
      requires Valid()
      modifies Repr
      ensures Valid() && fresh(Repr - old(Repr)) && world == Apply(old(world), Send(i, isBlocking, hasLoop, b))
      decreases ActsDepth(b.acts), 2, 0
    {
      if i >= |pool| || pool[i].inner.None? {
        return;
      }
      var begun := BeginAt(i, isBlocking, hasLoop);
      if begun.Ok? {
        if begun.value.None? {
          SendWireAt(i, isBlocking, hasLoop);
        } else {
          var trace := begun.value.value.Run(i, b);
          TraceWithin(begun.value.value.Chain(), begun.value.value.current, i, b);
          PerformAll(trace, isBlocking, hasLoop, ActsDepth(b.acts));
        }
      }
    }

    method PerformAll(events: seq<Event<Op>>, isBlocking: bool, hasLoop: bool, ghost depth: nat)
      requires Valid() && Within(events, depth)
      modifies Repr
      ensures Valid() && fresh(Repr - old(Repr)) && world == ApplyEvents(old(world), events, isBlocking, hasLoop, depth)
      decreases depth, 1
    {
      for k := 0 to |events|
        invariant Valid() && fresh(Repr - old(Repr)) && Within(events[..k], depth)
        invariant world == ApplyEvents(old(world), events[..k], isBlocking, hasLoop, depth)
      {
        assert events[k] in events;
        assert events[..k + 1][..k] == events[..k];
        match events[k]
        case Acted(op) => Perform(op);
        case WireSend(j) => SendWireAt(j, isBlocking, hasLoop);
        case _ =>
      }
      assert events[..|events|] == events;
    }
  }

  /**
   * Any program on any request: the real objects follow the values through every operation, so all that holds
   * of histories holds of them. Each wire request is what its request stood for when it came to the end of its
   * chain, and together they are at most one more than the copies.
   */
  method History(first: Request, ops: seq<Op>) returns (wires: seq<(nat, Wire)>, ghost start: World)
    requires first.inner.Some? && (NextOf(first) != null ==> NextOf(first).Valid())
    requires OwnsBody(first) ==> first.BodyCell().Some?
    modifies first, first.HeaderHandle(), first.BodyHandle()
    ensures IsStart(start)
    ensures start.requests[0] == Some(Live(old(first.inner.value.base), old(first.AbsHeaders()),
                                           if old(first.inner).value.body.Some? then Some(0) else None, old(ChainOf(first))))
    ensures start.cells == if old(first.inner).value.body.Some? then [old(first.BodyCell())] else []
    ensures wires == Replay(start, ops).wires && |wires| <= 1 + Replay(start, ops).copies
    ensures forall k, m | 0 <= k < m < |wires| :: wires[k].0 != wires[m].0
  {
    var program := new Program(first);
    start := program.world;
    for k := 0 to |ops|
      invariant program.Valid() && program.world == Replay(start, ops[..k])
      invariant fresh(program.Repr - {first, old(first.HeaderHandle()), old(first.BodyHandle())})
    {
      assert ops[..k + 1][..k] == ops[..k];
      program.Perform(ops[k]);
    }
    assert ops[..|ops|] == ops;
    HistoryIsLinear(start, ops);
    wires := program.wires;
  }
}
