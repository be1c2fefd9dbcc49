/** How the headers of a request builder and the defaults of its client become the headers of a request. */
module RequestHeaders {
  import opened Wrappers
  import opened Headers

  /** The calls that name headers explicitly. */
  datatype Call = Header(key: Name, value: Value) | AllHeaders(headers: Entries)

  predicate ValidCalls(calls: seq<Call>) {
    forall c <- calls :: c.AllHeaders? ==> Valid(c.headers)
  }

  /** The explicit values of a name: one call appends a value, the other replaces the names that it carries. */
  function Explicit(calls: seq<Call>, n: Name): seq<Value> {
    if calls == [] then []
    else
      var before := Explicit(calls[..|calls| - 1], n);
      match calls[|calls| - 1]
      case Header(key, value) => if key == n then before + [value] else before
      case AllHeaders(headers) => if Lookup(headers, n) != [] then Lookup(headers, n) else before
  }

  /** Some call named the header. */
  predicate Named(calls: seq<Call>, n: Name) {
    exists c <- calls :: if c.Header? then c.key == n else Lookup(c.headers, n) != []
  }

  lemma {:induction false} NamedHasValues(calls: seq<Call>, n: Name)
    ensures Named(calls, n) <==> Explicit(calls, n) != []
  {
    if calls != [] {
      var front, last := calls[..|calls| - 1], calls[|calls| - 1];
      NamedHasValues(front, n);
      assert calls == front + [last];
      assert last in calls;
      if Named(front, n) {
        var c :| c in front && if c.Header? then c.key == n else Lookup(c.headers, n) != [];
        assert c in calls;
      }
    }
  }

  function LookupOpt(m: Option<Entries>, n: Name): seq<Value> {
    if m.None? then [] else Lookup(m.value, n)
  }

  /** What the finished request must carry: explicit values, else client defaults, else its own. */
  function Resolved(calls: seq<Call>, defaults: Option<Entries>, request: Entries, n: Name): seq<Value> {
    if Named(calls, n) then Explicit(calls, n)
    else if LookupOpt(defaults, n) != [] then LookupOpt(defaults, n)
    else Lookup(request, n)
  }

  class RequestBuilderHeaders {
    var defaultHeaders: Option<Entries>
    var headers: Option<Entries>
    ghost const clientDefaults: Option<Entries>
    ghost var calls: seq<Call>

    ghost predicate WellFormed()
      reads this
    {
      && ValidCalls(calls)
      && (headers.Some? ==> Valid(headers.value))
      && (defaultHeaders.Some? ==> Valid(defaultHeaders.value))
      && (forall n :: LookupOpt(headers, n) == Explicit(calls, n))
      && (forall n :: LookupOpt(defaultHeaders, n) == if Explicit(calls, n) != [] then [] else LookupOpt(clientDefaults, n))
    }

    constructor (defaultHeaders: Option<Entries>)
      requires defaultHeaders.Some? ==> Valid(defaultHeaders.value)
      ensures WellFormed() && calls == [] && clientDefaults == defaultHeaders
    {
      this.defaultHeaders := defaultHeaders;
      this.headers := None;
      this.clientDefaults := defaultHeaders;
      this.calls := [];
    }

    /** Defaults and explicit headers never hold the same name. */
    lemma Disjoint(n: Name)
      requires WellFormed()
      ensures LookupOpt(headers, n) == [] || LookupOpt(defaultHeaders, n) == []
    {
    }

    method RemoveDefault(key: Name)
      requires defaultHeaders.Some? ==> Valid(defaultHeaders.value)
      modifies this`defaultHeaders
      ensures defaultHeaders.Some? ==> Valid(defaultHeaders.value)
      ensures forall n :: LookupOpt(defaultHeaders, n) == if n == key then [] else old(LookupOpt(defaultHeaders, n))
    {
      if defaultHeaders.Some? {
        LookupRemove(defaultHeaders.value, key);
        defaultHeaders := Some(Remove(defaultHeaders.value, key));
      }
    }

    method AppendExplicit(key: Name, value: Value)
      requires headers.Some? ==> Valid(headers.value)
      modifies this`headers
      ensures headers.Some? && Valid(headers.value)
      ensures forall n ::
                LookupOpt(headers, n) == if n == key then old(LookupOpt(headers, n)) + [value] else old(LookupOpt(headers, n))
    {
      if headers.Some? {
        LookupAppend(headers.value, key, value);
        headers := Some(Append(headers.value, key, value));
      } else {
        LookupAppend([], key, value);
        headers := Some([Entry(key, [value])]);
        assert headers.value == Append([], key, value);
      }
    }

    method AddHeader(key: Name, value: Value)
      requires WellFormed()
      modifies this
      ensures WellFormed() && calls == old(calls) + [Header(key, value)]
      // One more explicit value of this name, and no default of it any more
      ensures forall n ::
                && LookupOpt(headers, n) == old(LookupOpt(headers, n)) + (if n == key then [value] else [])
                && LookupOpt(defaultHeaders, n) == if n == key then [] else old(LookupOpt(defaultHeaders, n))
    {
      RemoveDefault(key);
      AppendExplicit(key, value);
      calls := calls + [Header(key, value)];
      assert calls[..|calls| - 1] == old(calls);
    }

    method RemoveDefaults(other: Entries)
      requires Valid(other)
      requires defaultHeaders.Some? ==> Valid(defaultHeaders.value)
      modifies this`defaultHeaders
      ensures defaultHeaders.Some? ==> Valid(defaultHeaders.value)
      ensures forall n ::
                LookupOpt(defaultHeaders, n) == if Lookup(other, n) != [] then [] else old(LookupOpt(defaultHeaders, n))
    {
      for i := 0 to |other|
        invariant defaultHeaders.Some? ==> Valid(defaultHeaders.value)
        invariant forall n ::
                    LookupOpt(defaultHeaders, n)
                    == if exists k | 0 <= k < i :: other[k].name == n then [] else old(LookupOpt(defaultHeaders, n))
      {
        RemoveDefault(other[i].name);
      }
      forall n
        ensures Lookup(other, n) != [] <==> exists k | 0 <= k < |other| :: other[k].name == n
      {
        LookupNamed(other, n);
      }
    }

    method AddHeaders(other: Entries)
      requires WellFormed() && Valid(other)
      modifies this
      ensures WellFormed() && calls == old(calls) + [AllHeaders(other)]
      // The names that the other map carries are replaced, and their defaults are gone
      ensures forall n ::
                && LookupOpt(headers, n) == (if Lookup(other, n) != [] then Lookup(other, n) else old(LookupOpt(headers, n)))
                && LookupOpt(defaultHeaders, n) == if Lookup(other, n) != [] then [] else old(LookupOpt(defaultHeaders, n))
    {
      RemoveDefaults(other);
      if headers.Some? {
        LookupExtend(headers.value, other);
        headers := Some(Extend(headers.value, other));
      } else {
        headers := Some(other);
      }
      calls := calls + [AllHeaders(other)];
      assert calls[..|calls| - 1] == old(calls);
    }

    /** Hands everything over to the headers of the request. */
    method DrainInto(request: Entries) returns (result: Entries)
      requires WellFormed() && Valid(request)
      modifies this
      ensures defaultHeaders.None? && headers.None?
      ensures Valid(result)
      ensures forall n :: Lookup(result, n) == Resolved(old(calls), clientDefaults, request, n)
      ensures forall n ::
                Lookup(result, n) == if old(LookupOpt(headers, n)) != [] then old(LookupOpt(headers, n))
                                     else if old(LookupOpt(defaultHeaders, n)) != [] then old(LookupOpt(defaultHeaders, n))
                                     else Lookup(request, n)
    {
      ghost var d, h := defaultHeaders, headers;
      result := request;
      if defaultHeaders.Some? {
        LookupExtend(result, defaultHeaders.value);
        result := Extend(result, defaultHeaders.value);
        defaultHeaders := None;
      }
      ghost var middle := result;
      if headers.Some? {
        LookupExtend(result, headers.value);
        result := Extend(result, headers.value);
        headers := None;
      }
      forall n
        ensures Lookup(result, n) == Resolved(old(calls), clientDefaults, request, n)
      {
        NamedHasValues(old(calls), n);
        assert Lookup(middle, n) == if LookupOpt(d, n) != [] then LookupOpt(d, n) else Lookup(request, n);
        assert Lookup(result, n) == if LookupOpt(h, n) != [] then LookupOpt(h, n) else Lookup(middle, n);
      }
    }
  }

  lemma {:induction false} LookupNamed(m: Entries, n: Name)
    requires Valid(m)
    ensures Lookup(m, n) != [] <==> exists k | 0 <= k < |m| :: m[k].name == n
  {
    if m != [] {
      LookupNamed(m[1..], n);
      if m[0].name != n && Lookup(m[1..], n) != [] {
        var k :| 0 <= k < |m[1..]| && m[1..][k].name == n;
        assert m[k + 1].name == n;
      }
    }
  }
}
