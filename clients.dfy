/** The base class of service clients (lib/BaseClient.js): option validation,
    the default pathname, query and headers lists, the auth credential and
    the transport.

    `Object.keys(o).forEach(function(k) { ... o[k] ... })` is modelled as a
    walk over the own entries `(k, o[k])` of `o`, which is what that loop
    reads: `JsValues.OwnEntryRead` shows that `o[k]` is the entry's value. */
module Clients {
  import opened Results
  import opened JsValues
  import opened Validation

  /** A flat header list `[name, value, name, value, ...]`: even length, and a
      plain string at every name position. */
  predicate IsHeaderList(l: seq<HeaderValue>) {
    |l| % 2 == 0 && forall i :: 0 <= i < |l| && i % 2 == 0 ==> l[i].Single?
  }

  lemma HeaderListConcat(a: seq<HeaderValue>, b: seq<HeaderValue>)
    requires IsHeaderList(a) && IsHeaderList(b)
    ensures IsHeaderList(a + b)
  {
    forall i | 0 <= i < |a + b| && i % 2 == 0
      ensures (a + b)[i].Single?
    {
      if i >= |a| {
        assert (a + b)[i] == b[i - |a|];
        assert (i - |a|) % 2 == 0;
      }
    }
  }

  // ---------------------------------------------------------------------
  // `_normalizeQuery(query)`
  // ---------------------------------------------------------------------

  /** The list `_normalizeQuery` builds after visiting the own entries
      `entries` of `query`, one at a time and in order; the first entry that
      fails throws. */
  function QueryList(entries: seq<Property>): (r: Result<seq<string>>)
    ensures r.Ok? ==> |r.value| == 2 * |entries|
    decreases |entries|
  {
    if entries == [] then Ok([])
    else
      var result :- QueryList(entries[..|entries| - 1]);
      var (p, x) := entries[|entries| - 1];
      if p == "" then Err(EmptyParamName)
      else
        var v :- CastQueryValue(x, p);
        Ok(result + [p, v])
  }

  /** One step of the walk: the entry after the prefix `entries[..i]`. */
  lemma QueryListStep(entries: seq<Property>, i: nat, result: seq<string>)
    requires i < |entries| && QueryList(entries[..i]) == Ok(result)
    ensures QueryList(entries[..i + 1]) ==
      if entries[i].0 == "" then Err(EmptyParamName)
      else match CastQueryValue(entries[i].1, entries[i].0)
           case Err(m) => Err(m)
           case Ok(v) => Ok(result + [entries[i].0, v])
  {
    assert entries[..i + 1][..i] == entries[..i];
  }

  /** Once a prefix of the entries throws, the whole walk throws the same
      error. */
  lemma {:induction false} QueryErrorSticks(entries: seq<Property>, n: nat)
    requires n <= |entries|
    requires QueryList(entries[..n]).Err?
    ensures QueryList(entries) == QueryList(entries[..n])
    decreases |entries| - n
  {
    if n < |entries| {
      var init := entries[..|entries| - 1];
      assert init[..n] == entries[..n];
      QueryErrorSticks(init, n);
    } else {
      assert entries[..n] == entries;
    }
  }

  /** What makes an entry throw, if anything. */
  function QueryKeyFault(e: Property): Option<string> {
    if e.0 == "" then Some(EmptyParamName)
    else if !IsCastable(e.1) then Some(QueryValueError(e.0))
    else None
  }

  /** `_normalizeQuery` succeeds iff no entry is faulty. */
  lemma {:induction false} QueryListOk(entries: seq<Property>)
    ensures QueryList(entries).Ok? <==>
      forall i :: 0 <= i < |entries| ==> QueryKeyFault(entries[i]).None?
    decreases |entries|
  {
    if entries != [] {
      var init := entries[..|entries| - 1];
      QueryListOk(init);
      forall i | 0 <= i < |init| ensures init[i] == entries[i] { }
    }
  }

  /** A successful `_normalizeQuery` alternates each own key, in key order,
      with its value cast to a string. */
  lemma {:induction false} QueryListPairs(entries: seq<Property>)
    requires QueryList(entries).Ok?
    ensures var r := QueryList(entries).value;
      forall i :: 0 <= i < |entries| ==>
        r[2 * i] == entries[i].0 && CastQueryValue(entries[i].1, entries[i].0) == Ok(r[2 * i + 1])
    decreases |entries|
  {
    if entries != [] {
      var n := |entries| - 1;
      var init := entries[..n];
      var prev := QueryList(init).value;
      QueryListPairs(init);
      QueryListStep(entries, n, prev);
      assert entries[..n + 1] == entries;
      var r := QueryList(entries).value;
      assert r == prev + [entries[n].0, CastQueryValue(entries[n].1, entries[n].0).value];
      forall i | 0 <= i < |entries|
        ensures r[2 * i] == entries[i].0 && CastQueryValue(entries[i].1, entries[i].0) == Ok(r[2 * i + 1])
      {
        if i < n {
          assert init[i] == entries[i];
          assert r[2 * i] == prev[2 * i] && r[2 * i + 1] == prev[2 * i + 1];
        }
      }
    }
  }

  /** When `_normalizeQuery` throws, it is with the fault of the first faulty
      entry. */
  lemma {:induction false} QueryListError(entries: seq<Property>)
    requires QueryList(entries).Err?
    ensures exists j :: (0 <= j < |entries| &&
      (forall i :: 0 <= i < j ==> QueryKeyFault(entries[i]).None?) &&
      QueryKeyFault(entries[j]) == Some(QueryList(entries).message))
    decreases |entries|
  {
    var init := entries[..|entries| - 1];
    var j := |entries| - 1;
    forall i | 0 <= i < |init| ensures init[i] == entries[i] { }
    if QueryList(init).Err? {
      QueryListError(init);
      var j' :| 0 <= j' < |init| &&
        (forall i :: 0 <= i < j' ==> QueryKeyFault(init[i]).None?) &&
        QueryKeyFault(init[j']) == Some(QueryList(init).message);
      assert QueryKeyFault(entries[j']) == Some(QueryList(entries).message);
    } else {
      QueryListOk(init);
      assert forall i :: 0 <= i < j ==> QueryKeyFault(entries[i]).None?;
      assert QueryKeyFault(entries[j]) == Some(QueryList(entries).message);
    }
  }

  /** `_normalizeQuery({foo: 'bar'})` is `['foo', 'bar']`. */
  lemma NormalizeQueryExample()
    ensures QueryList(OwnProps(Literal([("foo", Str("bar"))]))) == Ok(["foo", "bar"])
  {
    var entries := [("foo", Str("bar"))];
    assert entries[..0] == [];
    assert QueryList([]) == Ok([]);
    assert [] + ["foo", "bar"] == ["foo", "bar"];
  }

  // ---------------------------------------------------------------------
  // `_normalizeHeaders(headers)`
  // ---------------------------------------------------------------------

  /** The lower-cased names, as recorded in the `encountered` dictionary. */
  function Lowered(entries: seq<Property>): (r: seq<string>)
    ensures |r| == |entries|
  {
    if entries == [] then []
    else Lowered(entries[..|entries| - 1]) + [ToLowerCase(entries[|entries| - 1].0)]
  }

  lemma {:induction false} LoweredMember(entries: seq<Property>, x: string)
    ensures x in Lowered(entries) <==> exists i :: 0 <= i < |entries| && ToLowerCase(entries[i].0) == x
    decreases |entries|
  {
    if entries != [] {
      var init := entries[..|entries| - 1];
      LoweredMember(init, x);
      forall i | 0 <= i < |init| ensures init[i] == entries[i] { }
    }
  }

  /** The list `_normalizeHeaders` builds after visiting the own entries
      `entries` of `headers`, in order; the first entry that fails throws. */
  function HeaderList(entries: seq<Property>): (r: Result<seq<HeaderValue>>)
    ensures r.Ok? ==> |r.value| == 2 * |entries|
    decreases |entries|
  {
    if entries == [] then Ok([])
    else
      var init := entries[..|entries| - 1];
      var result :- HeaderList(init);
      var (h, x) := entries[|entries| - 1];
      if h == "" then Err(EmptyHeaderName)
      else if ToLowerCase(h) in Lowered(init) then Err(DuplicateHeader(h))
      else
        var v :- CastHeaderValue(x, h, false);
        Ok(result + [Single(ToLowerCase(h)), v])
  }

  /** One step of the walk: the entry after the prefix `entries[..i]`. */
  lemma HeaderListStep(entries: seq<Property>, i: nat, result: seq<HeaderValue>)
    requires i < |entries| && HeaderList(entries[..i]) == Ok(result)
    ensures HeaderList(entries[..i + 1]) ==
      var (h, x) := entries[i];
      if h == "" then Err(EmptyHeaderName)
      else if ToLowerCase(h) in Lowered(entries[..i]) then Err(DuplicateHeader(h))
      else match CastHeaderValue(x, h, false)
           case Err(m) => Err(m)
           case Ok(v) => Ok(result + [Single(ToLowerCase(h)), v])
    ensures Lowered(entries[..i + 1]) == Lowered(entries[..i]) + [ToLowerCase(entries[i].0)]
  {
    assert entries[..i + 1][..i] == entries[..i];
  }

  lemma {:induction false} HeaderErrorSticks(entries: seq<Property>, n: nat)
    requires n <= |entries|
    requires HeaderList(entries[..n]).Err?
    ensures HeaderList(entries) == HeaderList(entries[..n])
    decreases |entries| - n
  {
    if n < |entries| {
      var init := entries[..|entries| - 1];
      assert init[..n] == entries[..n];
      HeaderErrorSticks(init, n);
    } else {
      assert entries[..n] == entries;
    }
  }

  /** No two names are equal once lower-cased. */
  predicate NamesDistinct(entries: seq<Property>) {
    forall i, j :: 0 <= i < j < |entries| ==> ToLowerCase(entries[i].0) != ToLowerCase(entries[j].0)
  }

  /** Every name is non-empty and every value casts. */
  predicate HeadersCast(entries: seq<Property>) {
    forall i :: 0 <= i < |entries| ==>
      entries[i].0 != "" && CastHeaderValue(entries[i].1, entries[i].0, false).Ok?
  }

  lemma NamesDistinctSnoc(init: seq<Property>, e: Property)
    ensures NamesDistinct(init + [e]) <==> NamesDistinct(init) && ToLowerCase(e.0) !in Lowered(init)
  {
    var entries := init + [e];
    forall i | 0 <= i < |init| ensures entries[i] == init[i] { }
    LoweredMember(init, ToLowerCase(e.0));
    if ToLowerCase(e.0) in Lowered(init) {
      var i :| 0 <= i < |init| && ToLowerCase(init[i].0) == ToLowerCase(e.0);
      assert ToLowerCase(entries[i].0) == ToLowerCase(entries[|init|].0);
    }
  }

  lemma HeadersCastSnoc(init: seq<Property>, e: Property)
    ensures HeadersCast(init + [e]) <==>
      HeadersCast(init) && e.0 != "" && CastHeaderValue(e.1, e.0, false).Ok?
  {
    var entries := init + [e];
    forall i | 0 <= i < |init| ensures entries[i] == init[i] { }
    assert entries[|init|] == e;
  }

  /** `_normalizeHeaders` succeeds iff every own name is non-empty, no two
      names are equal once lower-cased, and every value casts. */
  lemma {:induction false} HeaderListOk(entries: seq<Property>)
    ensures HeaderList(entries).Ok? <==> HeadersCast(entries) && NamesDistinct(entries)
    decreases |entries|
  {
    if entries != [] {
      var init := entries[..|entries| - 1];
      var e := entries[|entries| - 1];
      assert entries == init + [e];
      HeaderListOk(init);
      NamesDistinctSnoc(init, e);
      HeadersCastSnoc(init, e);
    }
  }

  /** A successful `_normalizeHeaders` alternates each lower-cased name, in
      key order, with its cast value. */
  lemma {:induction false} HeaderListPairs(entries: seq<Property>)
    requires HeaderList(entries).Ok?
    ensures var r := HeaderList(entries).value;
      forall i :: 0 <= i < |entries| ==>
        r[2 * i] == Single(ToLowerCase(entries[i].0)) &&
        CastHeaderValue(entries[i].1, entries[i].0, false) == Ok(r[2 * i + 1])
    decreases |entries|
  {
    if entries != [] {
      var n := |entries| - 1;
      var init := entries[..n];
      var prev := HeaderList(init).value;
      HeaderListPairs(init);
      HeaderListStep(entries, n, prev);
      assert entries[..n + 1] == entries;
      var r := HeaderList(entries).value;
      var (h, x) := entries[n];
      assert r == prev + [Single(ToLowerCase(h)), CastHeaderValue(x, h, false).value];
      forall i | 0 <= i < |entries|
        ensures r[2 * i] == Single(ToLowerCase(entries[i].0)) &&
                CastHeaderValue(entries[i].1, entries[i].0, false) == Ok(r[2 * i + 1])
      {
        if i < n {
          assert init[i] == entries[i];
          assert r[2 * i] == prev[2 * i] && r[2 * i + 1] == prev[2 * i + 1];
        }
      }
    }
  }

  /** The list `_normalizeHeaders` builds is a flat header list. */
  lemma {:induction false} HeaderListFlat(entries: seq<Property>)
    requires HeaderList(entries).Ok?
    ensures IsHeaderList(HeaderList(entries).value)
    decreases |entries|
  {
    if entries != [] {
      var init := entries[..|entries| - 1];
      var (h, x) := entries[|entries| - 1];
      HeaderListFlat(init);
      var v := CastHeaderValue(x, h, false).value;
      assert IsHeaderList([Single(ToLowerCase(h)), v]);
      HeaderListConcat(HeaderList(init).value, [Single(ToLowerCase(h)), v]);
    }
  }

  /** The names `_normalizeHeaders` produces are already lower case. */
  lemma HeaderNamesLowered(entries: seq<Property>)
    requires HeaderList(entries).Ok?
    ensures var r := HeaderList(entries).value;
      forall i :: 0 <= i < |r| && i % 2 == 0 ==> r[i].Single? && ToLowerCase(r[i].text) == r[i].text
  {
    HeaderListPairs(entries);
    var r := HeaderList(entries).value;
    forall i | 0 <= i < |r| && i % 2 == 0
      ensures r[i].Single? && ToLowerCase(r[i].text) == r[i].text
    {
      var k := i / 2;
      assert i == 2 * k;
      ToLowerCaseIdempotent(entries[k].0);
    }
  }

  /** `_normalizeHeaders({foo: 'bar', FOO: 'baz'})` throws
      "Unexpected duplicate `FOO` header.". */
  lemma DuplicateHeaderExample()
    ensures HeaderList(OwnProps(Literal([("foo", Str("bar")), ("FOO", Str("baz"))])))
      == Err(DuplicateHeader("FOO"))
  {
    var entries := [("foo", Str("bar")), ("FOO", Str("baz"))];
    assert entries[..1] == [("foo", Str("bar"))];
    assert entries[..1][..0] == [];
    assert ToLowerCase("FOO") == "foo";
    assert ToLowerCase("foo") == "foo";
    assert Lowered(entries[..1]) == ["foo"];
  }

  /** What makes the entry at `j` throw, given the entries visited before it:
      an empty name, a name already encountered once lower-cased (reported in
      its own spelling), or a value that does not cast. */
  function HeaderKeyFault(entries: seq<Property>, j: nat): Option<string>
    requires j < |entries|
  {
    var (h, x) := entries[j];
    if h == "" then Some(EmptyHeaderName)
    else if ToLowerCase(h) in Lowered(entries[..j]) then Some(DuplicateHeader(h))
    else if CastHeaderValue(x, h, false).Err? then Some(HeaderValueError(h))
    else None
  }

  /** The fault of an entry depends only on the entries up to it. */
  lemma HeaderKeyFaultPrefix(entries: seq<Property>, n: nat, j: nat)
    requires j < n <= |entries|
    ensures HeaderKeyFault(entries[..n], j) == HeaderKeyFault(entries, j)
  {
    assert entries[..n][..j] == entries[..j];
  }

  /** `_normalizeHeaders` succeeds iff no entry is faulty. */
  lemma {:induction false} HeaderListFaults(entries: seq<Property>)
    ensures HeaderList(entries).Ok? <==>
      forall i :: 0 <= i < |entries| ==> HeaderKeyFault(entries, i).None?
    decreases |entries|
  {
    if entries != [] {
      var n := |entries| - 1;
      var init := entries[..n];
      HeaderListFaults(init);
      forall i | 0 <= i < n ensures HeaderKeyFault(init, i) == HeaderKeyFault(entries, i) {
        HeaderKeyFaultPrefix(entries, n, i);
      }
      assert HeaderList(entries).Ok? <==> HeaderList(init).Ok? && HeaderKeyFault(entries, n).None?;
    }
  }

  /** When `_normalizeHeaders` throws, it is with the fault of the first
      faulty entry: `EmptyHeaderName`, `DuplicateHeader` of the name as
      written, or `HeaderValueError`. */
  lemma {:induction false} HeaderListError(entries: seq<Property>)
    requires HeaderList(entries).Err?
    ensures exists j :: (0 <= j < |entries| &&
      (forall i :: 0 <= i < j ==> HeaderKeyFault(entries, i).None?) &&
      HeaderKeyFault(entries, j) == Some(HeaderList(entries).message))
    decreases |entries|
  {
    var n := |entries| - 1;
    var init := entries[..n];
    forall i | 0 <= i < n ensures HeaderKeyFault(init, i) == HeaderKeyFault(entries, i) {
      HeaderKeyFaultPrefix(entries, n, i);
    }
    if HeaderList(init).Err? {
      HeaderListError(init);
      var j :| 0 <= j < |init| &&
        (forall i :: 0 <= i < j ==> HeaderKeyFault(init, i).None?) &&
        HeaderKeyFault(init, j) == Some(HeaderList(init).message);
      assert HeaderKeyFault(entries, j) == Some(HeaderList(entries).message);
    } else {
      HeaderListFaults(init);
      assert forall i :: 0 <= i < n ==> HeaderKeyFault(entries, i).None?;
      assert init == entries[..n];
      assert HeaderKeyFault(entries, n) == Some(HeaderList(entries).message);
    }
  }

  // ---------------------------------------------------------------------
  // The constructor
  // ---------------------------------------------------------------------

  /** The instance fields the constructor sets. Values that a subclass puts on
      the prototype or the instance before the constructor runs are the
      initial state; a missing initial `query` or `headers` list is `[]` and a
      missing initial `pathname` is `""`. */
  datatype ClientState = ClientState(
    pathname: string,
    query: seq<string>,
    headers: seq<HeaderValue>,
    auth: Value,
    transport: Value)

  /** The constructor's local variables after option validation. */
  datatype ClientOptions = ClientOptions(
    pathname: Option<string>,
    query: Option<Value>,
    headers: Option<Value>,
    overrideAuth: bool,
    auth: Value,
    transport: Option<Value>)

  const BadPathname := "Expected `pathname` to be a non-empty string."

  const PathnameWithQuery := "`pathname` cannot contain `?`."

  /** `pathname` must be a non-empty string without `?`. */
  function CheckPathname(p: Value): (r: Result<string>)
    ensures r.Ok? <==> p.Str? && p.s != "" && '?' !in p.s
    ensures r.Ok? ==> Str(r.value) == p
  {
    if !p.Str? || p.s == "" then Err(BadPathname)
    else if '?' in p.s then Err(PathnameWithQuery)
    else Ok(p.s)
  }

  function NotAnObject(name: string): string {
    "Expected `" + name + "` to be an object."
  }

  /** An own option `name`, which must be an object when present. */
  function ObjectOption(options: Value, name: string): (r: Result<Option<Value>>)
    ensures r.Ok? <==> !HasOwn(options, name) || IsObject(Get(options, name))
    ensures r.Ok? ==> r.value == (if HasOwn(options, name) then Some(Get(options, name)) else None)
    ensures r.Err? ==> r.message == NotAnObject(name)
  {
    if !HasOwn(options, name) then Ok(None)
    else if !IsObject(Get(options, name)) then Err(NotAnObject(name))
    else Ok(Some(Get(options, name)))
  }

  /** The validation at the top of the constructor: a falsy `options` means no
      options; otherwise it must be an object whose own properties are
      checked in the order pathname, query, headers, transport. */
  function ClientOptionsOf(options: Value): Result<ClientOptions> {
    if !Truthy(options) then Ok(ClientOptions(None, None, None, false, Undefined, None))
    else if TypeOf(options) != "object" then Err("Expected `options` to be an object.")
    else
      var pathname :- if HasOwn(options, "pathname") then
                        var p :- CheckPathname(Get(options, "pathname")); Ok(Some(p))
                      else Ok(None);
      var query :- ObjectOption(options, "query");
      var headers :- ObjectOption(options, "headers");
      var transport :- ObjectOption(options, "transport");
      Ok(ClientOptions(pathname, query, headers, HasOwn(options, "auth"), Get(options, "auth"), transport))
  }

  const MissingTransport := "Expected `transport` option."

  /** The query and header lists are flat lists of names and values. */
  predicate Flat(s: ClientState) {
    |s.query| % 2 == 0 && IsHeaderList(s.headers)
  }

  /** `pathname || this.pathname || '/'` */
  function ResolvePathname(s: ClientState, o: ClientOptions): string {
    if o.pathname.Some? then o.pathname.value
    else if s.pathname != "" then s.pathname else "/"
  }

  /** The assignments that follow validation, in order. A query or header
      object that throws leaves the fields assigned before it updated. */
  function Assign(s: ClientState, o: ClientOptions): (ClientState, Outcome) {
    var s1 := s.(pathname := ResolvePathname(s, o));
    match (if o.query.Some? then QueryList(OwnProps(o.query.value)) else Ok([]))
    case Err(m) => (s1, Fail(m))
    case Ok(q) =>
      var s2 := s1.(query := s.query + q);
      match (if o.headers.Some? then HeaderList(OwnProps(o.headers.value)) else Ok([]))
      case Err(m) => (s2, Fail(m))
      case Ok(h) =>
        var s3 := s2.(headers := s.headers + h,
                      auth := if o.overrideAuth then o.auth else s.auth,
                      transport := if o.transport.Some? then o.transport.value else s.transport);
        (s3, if Truthy(s3.transport) then Pass else Fail(MissingTransport))
  }

  /** The constructor keeps the lists flat, whatever its outcome. */
  lemma AssignKeepsFlat(s: ClientState, o: ClientOptions)
    requires Flat(s)
    ensures Flat(Assign(s, o).0)
  {
    if o.headers.Some? && HeaderList(OwnProps(o.headers.value)).Ok? {
      HeaderListFlat(OwnProps(o.headers.value));
      HeaderListConcat(s.headers, HeaderList(OwnProps(o.headers.value)).value);
    }
  }

  /** The state after the constructor runs on initial state `s`, with its
      outcome. */
  function Construct(s: ClientState, options: Value): (ClientState, Outcome) {
    match ClientOptionsOf(options)
    case Err(m) => (s, Fail(m))
    case Ok(o) => Assign(s, o)
  }

  class BaseClient {
    var pathname: string
    var query: seq<string>
    var headers: seq<HeaderValue>
    var auth: Value
    var transport: Value

    /** The fields hold the documented flat list formats. */
    predicate Valid()
      reads this
    {
      Flat(State())
    }

    function State(): ClientState
      reads this
    {
      ClientState(pathname, query, headers, auth, transport)
    }

    /** The defaults a subclass provides before the base constructor runs. */
    constructor Inherit(pathname: string, query: seq<string>, headers: seq<HeaderValue>, auth: Value, transport: Value)
      ensures State() == ClientState(pathname, query, headers, auth, transport)
    {
      this.pathname := pathname;
      this.query := query;
      this.headers := headers;
      this.auth := auth;
      this.transport := transport;
    }

    /** `_normalizeQuery(query)` */
    method NormalizeQuery(query: Value) returns (r: Result<seq<string>>)
      ensures r == QueryList(OwnProps(query))
    {
      var entries := OwnProps(query);
      var result: seq<string> := [];
      for i := 0 to |entries|
        invariant QueryList(entries[..i]) == Ok(result)
      {
        var (p, x) := entries[i];
        QueryListStep(entries, i, result);
        if p == "" {
          QueryErrorSticks(entries, i + 1);
          return Err(EmptyParamName);
        }
        var v := CastQueryValue(x, p);
        if v.Err? {
          QueryErrorSticks(entries, i + 1);
          return Err(v.message);
        }
        result := result + [p, v.value];
      }
      assert entries[..|entries|] == entries;
      return Ok(result);
    }

    /** `_normalizeHeaders(headers)` */
    method NormalizeHeaders(headers: Value) returns (r: Result<seq<HeaderValue>>)
      ensures r == HeaderList(OwnProps(headers))
    {
      var entries := OwnProps(headers);
      var encountered: set<string> := {};
      var result: seq<HeaderValue> := [];
      for i := 0 to |entries|
        invariant HeaderList(entries[..i]) == Ok(result)
        invariant forall x :: x in encountered <==> x in Lowered(entries[..i])
      {
        var (h, x) := entries[i];
        HeaderListStep(entries, i, result);
        if h == "" {
          HeaderErrorSticks(entries, i + 1);
          return Err(EmptyHeaderName);
        }
        var lowercased := ToLowerCase(h);
        if lowercased in encountered {
          HeaderErrorSticks(entries, i + 1);
          return Err(DuplicateHeader(h));
        }
        encountered := encountered + {lowercased};
        var v := CastHeaderValue(x, h, false);
        if v.Err? {
          HeaderErrorSticks(entries, i + 1);
          return Err(v.message);
        }
        result := result + [Single(lowercased), v.value];
      }
      assert entries[..|entries|] == entries;
      return Ok(result);
    }

    /** The body of `BaseClient(options)`, run on the fields as the subclass
        left them. */
    method Init(options: Value) returns (outcome: Outcome)
      requires Valid()
      modifies this
      ensures Valid()
      ensures (State(), outcome) == Construct(old(State()), options)
    {
      var parsed := ClientOptionsOf(options);
      if parsed.Err? {
        return Fail(parsed.message);
      }
      outcome := AssignFields(parsed.value);
    }

    /** The field assignments of the constructor, once its options are
        validated. */
    method AssignFields(o: ClientOptions) returns (outcome: Outcome)
      requires Valid()
      modifies this
      ensures Valid()
      ensures (State(), outcome) == Assign(old(State()), o)
    {
      AssignKeepsFlat(State(), o);
      pathname := if o.pathname.Some? then o.pathname.value
                  else if pathname != "" then pathname else "/";
      if o.query.Some? {
        var q := NormalizeQuery(o.query.value);
        if q.Err? {
          return Fail(q.message);
        }
        query := query + q.value;
      } else {
        assert query + [] == query;
      }
      if o.headers.Some? {
        var h := NormalizeHeaders(o.headers.value);
        if h.Err? {
          return Fail(h.message);
        }
        headers := headers + h.value;
      } else {
        assert headers + [] == headers;
      }
      if o.overrideAuth {
        auth := o.auth;
      }
      if o.transport.Some? {
        transport := o.transport.value;
      }
      if !Truthy(transport) {
        return Fail(MissingTransport);
      }
      return Pass;
    }
  }

  // ---------------------------------------------------------------------
  // What the constructor promises
  // ---------------------------------------------------------------------

  /** A truthy non-object `options` throws before any field is touched. */
  lemma RejectsNonObjectOptions(s: ClientState, options: Value)
    requires Truthy(options) && !IsObject(options)
    ensures Construct(s, options) == (s, Fail("Expected `options` to be an object."))
  {
  }

  /** Without options every field keeps its initial value, the pathname
      defaults to `/`, and the constructor throws iff there is no transport. */
  lemma NoOptions(s: ClientState, options: Value)
    requires !Truthy(options)
    ensures Construct(s, options).0 == s.(pathname := if s.pathname == "" then "/" else s.pathname)
    ensures Construct(s, options).1 == (if Truthy(s.transport) then Pass else Fail(MissingTransport))
  {
  }

  /** A successful construction: the pathname is the option, else the
      initial value, else `/`; the query and header lists are the initial
      lists followed by the normalized options; `auth` is overridden iff the
      option is an own property; the transport is the option, else the
      initial one, and it is truthy. */
  lemma ConstructedFields(s: ClientState, options: Value)
    requires Construct(s, options).1 == Pass
    requires IsObject(options)
    ensures var t := Construct(s, options).0;
      (HasOwn(options, "pathname") ==> Str(t.pathname) == Get(options, "pathname")) &&
      (!HasOwn(options, "pathname") ==> t.pathname == if s.pathname != "" then s.pathname else "/") &&
      (HasOwn(options, "pathname") ==> '?' !in t.pathname) &&
      t.pathname != "" &&
      (t.query == if HasOwn(options, "query")
                  then s.query + QueryList(OwnProps(Get(options, "query"))).value
                  else s.query) &&
      (t.headers == if HasOwn(options, "headers")
                    then s.headers + HeaderList(OwnProps(Get(options, "headers"))).value
                    else s.headers) &&
      (t.auth == if HasOwn(options, "auth") then Get(options, "auth") else s.auth) &&
      (t.transport == if HasOwn(options, "transport") then Get(options, "transport") else s.transport) &&
      Truthy(t.transport)
  {
  }

  /** Construction succeeds on object options iff every option present is
      valid, its query and header objects normalize, and a transport is
      available. */
  lemma ConstructSucceeds(s: ClientState, options: Value)
    requires IsObject(options)
    ensures Construct(s, options).1 == Pass <==>
      (HasOwn(options, "pathname") ==> CheckPathname(Get(options, "pathname")).Ok?) &&
      (HasOwn(options, "query") ==> (IsObject(Get(options, "query")) &&
        forall i :: 0 <= i < |OwnProps(Get(options, "query"))| ==>
          QueryKeyFault(OwnProps(Get(options, "query"))[i]).None?)) &&
      (HasOwn(options, "headers") ==> (IsObject(Get(options, "headers")) &&
        HeaderList(OwnProps(Get(options, "headers"))).Ok?)) &&
      (HasOwn(options, "transport") ==> IsObject(Get(options, "transport"))) &&
      Truthy(if HasOwn(options, "transport") then Get(options, "transport") else s.transport)
  {
    if HasOwn(options, "query") {
      QueryListOk(OwnProps(Get(options, "query")));
    }
  }

  /** A rejected pathname option throws first, with the field untouched:
      `BadPathname` for anything but a non-empty string, `PathnameWithQuery`
      for a string holding `?`. */
  lemma ConstructPathnameFailures(s: ClientState, options: Value)
    requires IsObject(options)
    ensures (HasOwn(options, "pathname") && !(Get(options, "pathname").Str? && Get(options, "pathname").s != "")) ==>
      Construct(s, options) == (s, Fail(BadPathname))
    ensures (HasOwn(options, "pathname") && Get(options, "pathname").Str? && Get(options, "pathname").s != "" &&
             '?' in Get(options, "pathname").s) ==>
      Construct(s, options) == (s, Fail(PathnameWithQuery))
  {
  }

  /** After the pathname, the `query`, `headers` and `transport` options are
      checked in that order, each throwing its own message before any field
      is touched. */
  lemma ConstructObjectFailures(s: ClientState, options: Value)
    requires IsObject(options)
    requires !HasOwn(options, "pathname") || CheckPathname(Get(options, "pathname")).Ok?
    ensures (HasOwn(options, "query") && !IsObject(Get(options, "query"))) ==>
      Construct(s, options) == (s, Fail(NotAnObject("query")))
    ensures (ObjectOption(options, "query").Ok? &&
             HasOwn(options, "headers") && !IsObject(Get(options, "headers"))) ==>
      Construct(s, options) == (s, Fail(NotAnObject("headers")))
    ensures (ObjectOption(options, "query").Ok? && ObjectOption(options, "headers").Ok? &&
             HasOwn(options, "transport") && !IsObject(Get(options, "transport"))) ==>
      Construct(s, options) == (s, Fail(NotAnObject("transport")))
  {
  }

  /** Once every option is accepted, the query object's error comes first,
      then the header object's, then the missing transport. */
  lemma ConstructNormalizeFailures(s: ClientState, options: Value)
    requires IsObject(options)
    requires ClientOptionsOf(options).Ok?
    ensures var queryList := if HasOwn(options, "query") then QueryList(OwnProps(Get(options, "query"))) else Ok([]);
      var headerList := if HasOwn(options, "headers") then HeaderList(OwnProps(Get(options, "headers"))) else Ok([]);
      (queryList.Err? ==> Construct(s, options).1 == Fail(queryList.message)) &&
      (queryList.Ok? && headerList.Err? ==> Construct(s, options).1 == Fail(headerList.message)) &&
      (queryList.Ok? && headerList.Ok? &&
       !Truthy(if HasOwn(options, "transport") then Get(options, "transport") else s.transport) ==>
        Construct(s, options).1 == Fail(MissingTransport))
  {
  }

  /** Object options pass validation exactly when the pathname, `query`,
      `headers` and `transport` options are each acceptable. */
  lemma ClientOptionsAccepted(options: Value)
    requires IsObject(options)
    ensures ClientOptionsOf(options).Ok? <==>
      (!HasOwn(options, "pathname") || CheckPathname(Get(options, "pathname")).Ok?) &&
      ObjectOption(options, "query").Ok? && ObjectOption(options, "headers").Ok? &&
      ObjectOption(options, "transport").Ok?
  {
  }

  /** The initial lists are kept as prefixes: options only add entries. */
  lemma ListsExtended(s: ClientState, options: Value)
    ensures var t := Construct(s, options).0;
      s.query <= t.query && s.headers <= t.headers
  {
  }

  /** A query object that throws leaves the pathname already assigned but the
      lists and the credential untouched. */
  lemma QueryFailureIsPartial(s: ClientState, options: Value)
    requires IsObject(options) && CheckPathname(Get(options, "pathname")).Ok?
    requires HasOwn(options, "pathname") && HasOwn(options, "query") && IsObject(Get(options, "query"))
    requires ObjectOption(options, "headers").Ok? && ObjectOption(options, "transport").Ok?
    requires QueryList(OwnProps(Get(options, "query"))).Err?
    ensures Construct(s, options) ==
      (s.(pathname := CheckPathname(Get(options, "pathname")).value),
       Fail(QueryList(OwnProps(Get(options, "query"))).message))
  {
  }
}
