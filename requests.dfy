/** The request descriptor (lib/Request.js): its path with the merged query,
    its header object, its body and its credential, built from a client's
    defaults and per-request options. */
module Requests {
  import opened Results
  import opened JsValues
  import opened Validation
  import opened UriEncoding
  import opened Text
  import opened Clients

  const DefaultJsonContentType := "application/json; charset=utf-8"

  const DefaultFormContentType := "application/x-www-form-urlencoded; charset=utf-8"

  // ---------------------------------------------------------------------
  // Query pairs
  // ---------------------------------------------------------------------

  /** `encodeURIComponent(p) + '=' + encodeURIComponent(v)` */
  function EncodePair(p: string, v: string): string {
    EncodeUriComponent(p) + "=" + EncodeUriComponent(v)
  }

  /** A base parameter named `p` survives unless `query` is truthy and owns `p`. */
  predicate Kept(query: Value, p: string) {
    !Truthy(query) || !HasOwn(query, p)
  }

  /** The pairs the loop over `base` pushes. */
  function KeptPairs(base: seq<string>, query: Value): seq<string>
    requires |base| % 2 == 0
  {
    if base == [] then []
    else
      var p, v := base[|base| - 2], base[|base| - 1];
      KeptPairs(base[..|base| - 2], query) + (if Kept(query, p) then [EncodePair(p, v)] else [])
  }

  /** The entries the `forEach` visits: the own entries of a truthy `query`,
      none otherwise. */
  function QueryEntries(query: Value): seq<Property> {
    if Truthy(query) then OwnProps(query) else []
  }

  /** The pairs the `forEach` over the own entries `entries` of `query`
      pushes; the first entry that fails throws. */
  function OverridePairs(entries: seq<Property>): Result<seq<string>>
    decreases |entries|
  {
    if entries == [] then Ok([])
    else
      var pairs :- OverridePairs(entries[..|entries| - 1]);
      var (p, x) := entries[|entries| - 1];
      if p == "" then Err(EmptyParamName)
      else
        var v :- CastQueryValue(x, p);
        Ok(pairs + [EncodePair(p, v)])
  }

  /** `buildQueryPairs(base, query)` */
  function QueryPairs(base: seq<string>, query: Value): Result<seq<string>>
    requires |base| % 2 == 0
  {
    var extra :- OverridePairs(QueryEntries(query));
    Ok(KeptPairs(base, query) + extra)
  }

  /** `QueryPairs` in terms of the two loops. */
  lemma QueryPairsUnfold(base: seq<string>, query: Value)
    requires |base| % 2 == 0
    ensures OverridePairs(QueryEntries(query)).Err? ==>
      QueryPairs(base, query) == Err(OverridePairs(QueryEntries(query)).message)
    ensures OverridePairs(QueryEntries(query)).Ok? ==>
      QueryPairs(base, query) == Ok(KeptPairs(base, query) + OverridePairs(QueryEntries(query)).value)
  {
  }

  lemma OverridePairsStep(entries: seq<Property>, i: nat, pairs: seq<string>)
    requires i < |entries| && OverridePairs(entries[..i]) == Ok(pairs)
    ensures OverridePairs(entries[..i + 1]) ==
      if entries[i].0 == "" then Err(EmptyParamName)
      else match CastQueryValue(entries[i].1, entries[i].0)
           case Err(m) => Err(m)
           case Ok(v) => Ok(pairs + [EncodePair(entries[i].0, v)])
  {
    assert entries[..i + 1][..i] == entries[..i];
  }

  lemma {:induction false} OverrideErrorSticks(entries: seq<Property>, n: nat)
    requires n <= |entries|
    requires OverridePairs(entries[..n]).Err?
    ensures OverridePairs(entries) == OverridePairs(entries[..n])
    decreases |entries| - n
  {
    if n < |entries| {
      var init := entries[..|entries| - 1];
      assert init[..n] == entries[..n];
      OverrideErrorSticks(init, n);
    } else {
      assert entries[..n] == entries;
    }
  }

  // The reference: which names and values end up in the query.

  /** The `(name, value)` pairs of a flat list `[name, value, name, value, ...]`. */
  function PairsOf(flat: seq<string>): (r: seq<(string, string)>)
    requires |flat| % 2 == 0
    ensures 2 * |r| == |flat|
  {
    if flat == [] then []
    else PairsOf(flat[..|flat| - 2]) + [(flat[|flat| - 2], flat[|flat| - 1])]
  }

  /** The pairs whose names `query` does not override, in their order. */
  function Surviving(pairs: seq<(string, string)>, query: Value): seq<(string, string)> {
    if pairs == [] then []
    else
      var last := pairs[|pairs| - 1];
      Surviving(pairs[..|pairs| - 1], query) + (if Kept(query, last.0) then [last] else [])
  }

  /** The encoded `name=value` components of a list of pairs, in order. */
  function EncodeAll(pairs: seq<(string, string)>): (r: seq<string>)
    ensures |r| == |pairs|
  {
    if pairs == [] then []
    else
      var last := pairs[|pairs| - 1];
      EncodeAll(pairs[..|pairs| - 1]) + [EncodePair(last.0, last.1)]
  }

  /** The merged parameters: the surviving base pairs, then the override
      parameters as `_normalizeQuery` would list them. */
  function MergedQuery(base: seq<string>, query: Value): Result<seq<(string, string)>>
    requires |base| % 2 == 0
  {
    Merge(Surviving(PairsOf(base), query), QueryEntries(query))
  }

  /** The pairs `kept`, then the parameters `_normalizeQuery` lists for the
      entries `entries`. */
  function Merge(kept: seq<(string, string)>, entries: seq<Property>): Result<seq<(string, string)>> {
    var extra :- QueryList(entries);
    Ok(kept + PairsOf(extra))
  }

  /** The i-th pair of a flat list is its (2i)-th and (2i+1)-th entry. */
  lemma {:induction false} PairsOfAt(flat: seq<string>, i: nat)
    requires |flat| % 2 == 0 && 2 * i < |flat|
    ensures PairsOf(flat)[i] == (flat[2 * i], flat[2 * i + 1])
    decreases |flat|
  {
    var init := flat[..|flat| - 2];
    if 2 * i < |init| {
      PairsOfAt(init, i);
      assert PairsOf(flat)[i] == PairsOf(init)[i];
    }
  }

  /** The i-th component is the encoding of the i-th pair. */
  lemma {:induction false} EncodeAllAt(pairs: seq<(string, string)>, i: nat)
    requires i < |pairs|
    ensures EncodeAll(pairs)[i] == EncodePair(pairs[i].0, pairs[i].1)
    decreases |pairs|
  {
    var init := pairs[..|pairs| - 1];
    if i < |init| {
      EncodeAllAt(init, i);
      assert EncodeAll(pairs)[i] == EncodeAll(init)[i];
    }
  }

  lemma {:induction false} EncodeAllConcat(a: seq<(string, string)>, b: seq<(string, string)>)
    ensures EncodeAll(a + b) == EncodeAll(a) + EncodeAll(b)
    decreases |b|
  {
    if b == [] {
      assert a + b == a;
    } else {
      var init := b[..|b| - 1];
      EncodeAllConcat(a, init);
      assert (a + b)[..|a + b| - 1] == a + init;
      assert (a + b)[|a + b| - 1] == b[|b| - 1];
    }
  }

  /** A pair survives exactly when it is a base pair whose name is kept. */
  lemma {:induction false} SurvivingMember(pairs: seq<(string, string)>, query: Value, x: (string, string))
    ensures x in Surviving(pairs, query) <==> x in pairs && Kept(query, x.0)
    decreases |pairs|
  {
    if pairs != [] {
      var init := pairs[..|pairs| - 1];
      SurvivingMember(init, query, x);
      assert pairs == init + [pairs[|pairs| - 1]];
    }
  }

  /** The loop over `base` pushes the encodings of the surviving base pairs. */
  lemma {:induction false} KeptPairsEncode(base: seq<string>, query: Value)
    requires |base| % 2 == 0
    ensures KeptPairs(base, query) == EncodeAll(Surviving(PairsOf(base), query))
    decreases |base|
  {
    if base != [] {
      var init := base[..|base| - 2];
      var p, v := base[|base| - 2], base[|base| - 1];
      KeptPairsEncode(init, query);
      var ps := PairsOf(base);
      assert ps == PairsOf(init) + [(p, v)];
      assert ps[..|ps| - 1] == PairsOf(init) && ps[|ps| - 1] == (p, v);
      var s := Surviving(PairsOf(init), query);
      if Kept(query, p) {
        assert Surviving(ps, query) == s + [(p, v)];
        assert (s + [(p, v)])[..|s|] == s;
      } else {
        assert Surviving(ps, query) == s + [] == s;
        assert KeptPairs(base, query) == KeptPairs(init, query) + [];
      }
    }
  }

  /** The `forEach` over the entries pushes the encodings of the list
      `_normalizeQuery` builds from the same object, and fails with the same
      error. */
  lemma {:induction false} OverridePairsEncode(entries: seq<Property>)
    ensures QueryList(entries).Ok? ==>
      OverridePairs(entries) == Ok(EncodeAll(PairsOf(QueryList(entries).value)))
    ensures QueryList(entries).Err? ==>
      OverridePairs(entries) == Err(QueryList(entries).message)
    decreases |entries|
  {
    if entries != [] {
      var i := |entries| - 1;
      var init := entries[..i];
      assert entries[..i + 1] == entries;
      OverridePairsEncode(init);
      match QueryList(init)
      case Err(m) =>
        assert OverridePairs(init) == Err(m);
      case Ok(flat) =>
        OverridePairsStep(entries, i, EncodeAll(PairsOf(flat)));
        QueryListStep(entries, i, flat);
        var (p, x) := entries[i];
        if p != "" {
          match CastQueryValue(x, p)
          case Err(_) =>
          case Ok(v) =>
            PairsOfSnoc(flat, p, v);
            EncodeAllSnoc(PairsOf(flat), (p, v));
        }
    }
  }

  lemma PairsOfSnoc(flat: seq<string>, p: string, v: string)
    requires |flat| % 2 == 0
    ensures PairsOf(flat + [p, v]) == PairsOf(flat) + [(p, v)]
  {
    var flat' := flat + [p, v];
    assert flat'[..|flat'| - 2] == flat;
  }

  lemma EncodeAllSnoc(pairs: seq<(string, string)>, x: (string, string))
    ensures EncodeAll(pairs + [x]) == EncodeAll(pairs) + [EncodePair(x.0, x.1)]
  {
    var pairs' := pairs + [x];
    assert pairs'[..|pairs'| - 1] == pairs;
  }

  /** `buildQueryPairs` encodes the merged parameters, pair by pair, and
      fails exactly when `_normalizeQuery` would, with its message. */
  lemma QueryPairsEncodeMerged(base: seq<string>, query: Value)
    requires |base| % 2 == 0
    ensures QueryPairs(base, query) ==
      match MergedQuery(base, query)
      case Ok(merged) => Ok(EncodeAll(merged))
      case Err(m) => Err(m)
  {
    KeptPairsEncode(base, query);
    var s := Surviving(PairsOf(base), query);
    var entries := QueryEntries(query);
    assert PairsOf([]) == [];
    EncodeAppend(KeptPairs(base, query), s, entries);
  }

  /** The step of `QueryPairsEncodeMerged` about lists alone: `kept`
      followed by the override pairs of `entries` encodes the pairs `s`
      followed by those of `_normalizeQuery`. */
  lemma EncodeAppend(kept: seq<string>, s: seq<(string, string)>, entries: seq<Property>)
    requires kept == EncodeAll(s)
    ensures QueryList(entries).Ok? ==> (OverridePairs(entries).Ok? &&
      kept + OverridePairs(entries).value == EncodeAll(s + PairsOf(QueryList(entries).value)))
    ensures QueryList(entries).Err? ==> OverridePairs(entries) == Err(QueryList(entries).message)
  {
    OverridePairsEncode(entries);
    if QueryList(entries).Ok? {
      EncodeAllConcat(s, PairsOf(QueryList(entries).value));
    }
  }

  /** The merged query lists the kept base pairs first (for `MergedQuery`,
      which those are `SurvivingMember` says); after them come the override
      parameters, one per entry, in order, each with its value cast to a
      string. */
  lemma MergeContents(kept: seq<(string, string)>, entries: seq<Property>)
    requires Merge(kept, entries).Ok?
    ensures var merged := Merge(kept, entries).value;
      |merged| == |kept| + |entries| &&
      merged[..|kept|] == kept &&
      (forall i :: 0 <= i < |entries| ==>
        merged[|kept| + i].0 == entries[i].0 &&
        CastQueryValue(entries[i].1, entries[i].0) == Ok(merged[|kept| + i].1))
  {
    var extra := PairsOf(QueryList(entries).value);
    var merged := kept + extra;
    OverrideParams(entries);
    forall i | 0 <= i < |entries|
      ensures merged[|kept| + i] == extra[i]
    {
    }
  }

  /** The pairs of a successful `_normalizeQuery` are the own entries, in
      order, each with its value cast to a string. */
  lemma OverrideParams(entries: seq<Property>)
    requires QueryList(entries).Ok?
    ensures var ps := PairsOf(QueryList(entries).value);
      |ps| == |entries| &&
      forall i :: 0 <= i < |entries| ==>
        ps[i].0 == entries[i].0 && CastQueryValue(entries[i].1, entries[i].0) == Ok(ps[i].1)
  {
    var flat := QueryList(entries).value;
    var ps := PairsOf(flat);
    QueryListPairs(entries);
    forall i | 0 <= i < |entries|
      ensures ps[i].0 == entries[i].0 && CastQueryValue(entries[i].1, entries[i].0) == Ok(ps[i].1)
    {
      PairsOfAt(flat, i);
    }
  }

  /** Without a truthy `query` every base pair is kept, in order. */
  lemma {:induction false} NoQueryKeepsBase(base: seq<string>, query: Value)
    requires |base| % 2 == 0 && !Truthy(query)
    ensures MergedQuery(base, query) == Ok(PairsOf(base))
    ensures QueryPairs(base, query) == Ok(EncodeAll(PairsOf(base)))
  {
    SurvivingAll(PairsOf(base), query);
    assert PairsOf([]) == [];
    assert PairsOf(base) + [] == PairsOf(base);
    QueryPairsEncodeMerged(base, query);
  }

  lemma {:induction false} SurvivingAll(pairs: seq<(string, string)>, query: Value)
    requires !Truthy(query)
    ensures Surviving(pairs, query) == pairs
    decreases |pairs|
  {
    if pairs != [] {
      SurvivingAll(pairs[..|pairs| - 1], query);
      assert pairs[..|pairs| - 1] + [pairs[|pairs| - 1]] == pairs;
    }
  }

  /** `buildQueryPairs(['foo', '---', 'baz', 'qux'], {foo: 'bar', quux: 'corge'})`
      is `['baz=qux', 'foo=bar', 'quux=corge']`. */
  lemma QueryPairsExample()
    ensures QueryPairs(["foo", "---", "baz", "qux"], Literal([("foo", Str("bar")), ("quux", Str("corge"))]))
      == Ok(["baz=qux", "foo=bar", "quux=corge"])
  {
    var q := Literal([("foo", Str("bar")), ("quux", Str("corge"))]);
    KeptExample(q);
    OverrideExample();
    assert Truthy(q) && OwnProps(q) == [("foo", Str("bar")), ("quux", Str("corge"))];
    assert ["baz=qux"] + ["foo=bar", "quux=corge"] == ["baz=qux", "foo=bar", "quux=corge"];
  }

  lemma KeptExample(q: Value)
    requires q == Literal([("foo", Str("bar")), ("quux", Str("corge"))])
    ensures KeptPairs(["foo", "---", "baz", "qux"], q) == ["baz=qux"]
  {
    ExampleQueryOwns(q);
    KeptStep([], q, "foo", "---");
    assert KeptPairs(["foo", "---"], q) == [] by {
      assert [] + ["foo", "---"] == ["foo", "---"];
    }
    KeptStep(["foo", "---"], q, "baz", "qux");
    assert ["foo", "---"] + ["baz", "qux"] == ["foo", "---", "baz", "qux"];
    assert EncodePair("baz", "qux") == "baz=qux" by {
      UnreservedPair("baz", "qux");
    }
  }

  lemma ExampleQueryOwns(q: Value)
    requires q == Literal([("foo", Str("bar")), ("quux", Str("corge"))])
    ensures !Kept(q, "foo") && Kept(q, "baz")
  {
    assert OwnProps(q)[0].0 == "foo";
    assert Lookup(OwnProps(q), "baz") == None;
  }

  /** A name and a value of unreserved characters are encoded as they are. */
  lemma UnreservedPair(p: string, v: string)
    requires forall i :: 0 <= i < |p| ==> Unreserved(p[i])
    requires forall i :: 0 <= i < |v| ==> Unreserved(v[i])
    ensures EncodePair(p, v) == p + "=" + v
  {
    EncodeUnreserved(p);
    EncodeUnreserved(v);
  }

  lemma KeptStep(init: seq<string>, query: Value, p: string, v: string)
    requires |init| % 2 == 0
    ensures KeptPairs(init + [p, v], query) ==
      KeptPairs(init, query) + (if Kept(query, p) then [EncodePair(p, v)] else [])
  {
    var base := init + [p, v];
    assert base[..|base| - 2] == init;
  }

  lemma OverrideExample()
    ensures OverridePairs([("foo", Str("bar")), ("quux", Str("corge"))]) == Ok(["foo=bar", "quux=corge"])
  {
    var one := [("foo", Str("bar"))];
    ExampleLists();
    OverrideStepExample([], [], "foo", "bar");
    OverrideStepExample(one, ["foo=bar"], "quux", "corge");
  }

  /** The list identities the examples rest on. */
  lemma ExampleLists()
    ensures [] + [("foo", Str("bar"))] == [("foo", Str("bar"))]
    ensures [] + ["foo" + "=" + "bar"] == ["foo=bar"]
    ensures [("foo", Str("bar"))] + [("quux", Str("corge"))] == [("foo", Str("bar")), ("quux", Str("corge"))]
    ensures ["foo=bar"] + ["quux" + "=" + "corge"] == ["foo=bar", "quux=corge"]
  {
    assert "foo" + "=" + "bar" == "foo=bar";
    assert "quux" + "=" + "corge" == "quux=corge";
  }

  /** One step of the examples: a string entry with an unreserved name and value. */
  lemma OverrideStepExample(init: seq<Property>, pairs: seq<string>, p: string, v: string)
    requires OverridePairs(init) == Ok(pairs)
    requires p != [] && forall i :: 0 <= i < |p| ==> Unreserved(p[i])
    requires forall i :: 0 <= i < |v| ==> Unreserved(v[i])
    ensures OverridePairs(init + [(p, Str(v))]) == Ok(pairs + [p + "=" + v])
  {
    var entries := init + [(p, Str(v))];
    assert entries[..|entries| - 1] == init;
    UnreservedPair(p, v);
  }

  // ---------------------------------------------------------------------
  // The path
  // ---------------------------------------------------------------------

  /** The pathname `buildPath` uses: `options.pathname` when it is an own
      property (a non-empty string), else the default; neither may hold `?`. */
  function ChosenPathname(defaultPathname: string, options: Value): Result<string> {
    var path :- if HasOwn(options, "pathname") then
                  var p := Get(options, "pathname");
                  if !p.Str? || p.s == "" then Err(BadPathname) else Ok(p.s)
                else Ok(defaultPathname);
    if '?' in path then Err(PathnameWithQuery) else Ok(path)
  }

  const BadQuery := "Expected `query` to be an object."

  /** `buildPath(defaultPathname, baseQuery, options)` */
  function PathOf(defaultPathname: string, baseQuery: seq<string>, options: Value): Result<string>
    requires |baseQuery| % 2 == 0
  {
    var pathname :- ChosenPathname(defaultPathname, options);
    if HasOwn(options, "query") && !IsObject(Get(options, "query")) then Err(BadQuery)
    else
      var pairs :- QueryPairs(baseQuery, Get(options, "query"));
      Ok(if |pairs| > 0 then pathname + "?" + Join(pairs, '&') else pathname)
  }

  /** The pathname is the option exactly when it is an own key, and then it
      must be a non-empty string; the `?` check applies to whichever was
      chosen. */
  lemma PathnameChoice(defaultPathname: string, options: Value)
    ensures var r := ChosenPathname(defaultPathname, options);
      (HasOwn(options, "pathname") ==>
        r == CheckPathname(Get(options, "pathname"))) &&
      (!HasOwn(options, "pathname") ==>
        r == if '?' in defaultPathname then Err(PathnameWithQuery) else Ok(defaultPathname))
  {
  }

  /** `buildPath` throws the pathname's error first, then rejects an own
      `query` option that is not an object, and otherwise fails exactly when
      the merged query does, with its message. */
  lemma PathErrors(defaultPathname: string, baseQuery: seq<string>, options: Value)
    requires |baseQuery| % 2 == 0
    ensures ChosenPathname(defaultPathname, options).Err? ==>
      PathOf(defaultPathname, baseQuery, options) == Err(ChosenPathname(defaultPathname, options).message)
    ensures (ChosenPathname(defaultPathname, options).Ok? && HasOwn(options, "query") &&
             !IsObject(Get(options, "query"))) ==>
      PathOf(defaultPathname, baseQuery, options) == Err(BadQuery)
    ensures (ChosenPathname(defaultPathname, options).Ok? &&
             !(HasOwn(options, "query") && !IsObject(Get(options, "query")))) ==>
      (PathOf(defaultPathname, baseQuery, options).Ok? <==> MergedQuery(baseQuery, Get(options, "query")).Ok?) &&
      (MergedQuery(baseQuery, Get(options, "query")).Err? ==>
        PathOf(defaultPathname, baseQuery, options) == Err(MergedQuery(baseQuery, Get(options, "query")).message))
  {
    QueryPairsEncodeMerged(baseQuery, Get(options, "query"));
  }

  /** One name and value, read back from a `name=value` component. */
  function DecodePair(component: string): Option<(seq<byte>, seq<byte>)> {
    var parts := Split(component, '=');
    if |parts| != 2 then None
    else match (PercentDecode(parts[0]), PercentDecode(parts[1]))
         case (Some(n), Some(v)) => Some((n, v))
         case _ => None
  }

  lemma EncodePairDecodes(n: string, v: string)
    ensures '&' !in EncodePair(n, v) && '?' !in EncodePair(n, v)
    ensures DecodePair(EncodePair(n, v)) == Some((Utf8Encode(n), Utf8Encode(v)))
  {
    EncodedHasNoSeparators(n);
    EncodedHasNoSeparators(v);
    var a, b := EncodeUriComponent(n), EncodeUriComponent(v);
    assert EncodePair(n, v) == a + ['='] + b;
    SplitAfter(a, '=', b);
    SplitNone(b, '=');
    DecodeEncode(n);
    DecodeEncode(v);
  }

  /** Round trip: a built path splits at its only `?` into the chosen
      pathname and a search component; that splits at `&` into one component
      per merged parameter, each of which percent-decodes to the UTF-8 of
      the parameter's name and value. Without parameters the path is the
      pathname alone. */
  lemma PathRoundTrip(defaultPathname: string, baseQuery: seq<string>, options: Value)
    requires |baseQuery| % 2 == 0
    requires PathOf(defaultPathname, baseQuery, options).Ok?
    ensures MergedQuery(baseQuery, Get(options, "query")).Ok?
    ensures var path := PathOf(defaultPathname, baseQuery, options).value;
      var pathname := ChosenPathname(defaultPathname, options).value;
      var merged := MergedQuery(baseQuery, Get(options, "query")).value;
      (merged == [] ==> path == pathname) &&
      (merged != [] ==> SearchDecodes(path, pathname, merged))
  {
    var query := Get(options, "query");
    QueryPairsEncodeMerged(baseQuery, query);
    var path := PathOf(defaultPathname, baseQuery, options).value;
    var pathname := ChosenPathname(defaultPathname, options).value;
    var merged := MergedQuery(baseQuery, query).value;
    assert QueryPairs(baseQuery, query) == Ok(EncodeAll(merged));
    if merged != [] {
      assert path == pathname + "?" + Join(EncodeAll(merged), '&');
      JoinedDecodes(pathname, merged);
    }
  }

  /** `path` is `pathname`, `?`, and one `&`-separated component per pair,
      each decoding to the UTF-8 of the pair's name and value. */
  ghost predicate SearchDecodes(path: string, pathname: string, merged: seq<(string, string)>) {
    var parts := Split(path, '?');
    |parts| == 2 && parts[0] == pathname &&
    var components := Split(parts[1], '&');
    |components| == |merged| &&
    forall i :: 0 <= i < |components| ==>
      DecodePair(components[i]) == Some((Utf8Encode(merged[i].0), Utf8Encode(merged[i].1)))
  }

  lemma JoinedDecodes(pathname: string, merged: seq<(string, string)>)
    requires merged != [] && '?' !in pathname
    ensures SearchDecodes(pathname + "?" + Join(EncodeAll(merged), '&'), pathname, merged)
  {
    var pairs := EncodeAll(merged);
    forall i | 0 <= i < |pairs|
      ensures '&' !in pairs[i] && '?' !in pairs[i]
      ensures DecodePair(pairs[i]) == Some((Utf8Encode(merged[i].0), Utf8Encode(merged[i].1)))
    {
      EncodeAllAt(merged, i);
      EncodePairDecodes(merged[i].0, merged[i].1);
    }
    var joined := Join(pairs, '&');
    JoinAvoids(pairs, '&', '?');
    assert pathname + "?" + joined == pathname + ['?'] + joined;
    SplitAfter(pathname, '?', joined);
    SplitNone(joined, '?');
    SplitJoin(pairs, '&');
  }

  /** `buildPath('/foo', [], {pathname: '/bar'})` is `'/bar'`. */
  lemma PathExample()
    ensures PathOf("/foo", [], Literal([("pathname", Str("/bar"))])) == Ok("/bar")
    ensures PathOf("/foo", [], Literal([])) == Ok("/foo")
  {
    var o := Literal([("pathname", Str("/bar"))]);
    assert HasOwn(o, "pathname") && Get(o, "pathname") == Str("/bar");
    assert !HasOwn(o, "query") && Get(o, "query") == Undefined;
  }
  // ---------------------------------------------------------------------
  // Headers
  // ---------------------------------------------------------------------

  /** A header object: its own entries, in insertion order. */
  type HeaderMap = seq<(string, HeaderValue)>

  /** The value stored under `k`: the first entry with that name. */
  function Find<V>(m: seq<(string, V)>, k: string): Option<V> {
    if m == [] then None
    else if m[0].0 == k then Some(m[0].1)
    else Find(m[1..], k)
  }

  /** `hasOwnProperty(k)` on a header object. */
  predicate HasKey(m: HeaderMap, k: string) {
    Find(m, k).Some?
  }

  /** No name occurs twice, as in every JavaScript object. */
  predicate UniqueKeys(m: HeaderMap) {
    forall i, j :: 0 <= i < j < |m| ==> m[i].0 != m[j].0
  }

  /** The property key a header list entry stands for when used as a name:
      a string names itself, an array names the join of its items. */
  function KeyString(name: HeaderValue): string {
    match name
    case Single(text) => text
    case Multiple(items) => Join(items, ',')
  }

  /** The `(name, value)` pairs of a flat header list, in order. */
  function BasePairs(base: seq<HeaderValue>): (r: HeaderMap)
    requires |base| % 2 == 0
    ensures 2 * |r| == |base|
  {
    if base == [] then []
    else BasePairs(base[..|base| - 2]) + [(KeyString(base[|base| - 2]), base[|base| - 1])]
  }

  lemma {:induction false} FindSnoc<V>(m: seq<(string, V)>, x: (string, V), k: string)
    ensures Find(m + [x], k) ==
      if Find(m, k).Some? then Find(m, k) else if x.0 == k then Some(x.1) else None
    decreases |m|
  {
    if m == [] {
      assert [] + [x] == [x] && [x][1..] == [];
    } else {
      assert (m + [x])[0] == m[0];
      assert (m + [x])[1..] == m[1..] + [x];
      FindSnoc(m[1..], x, k);
    }
  }

  /** A name is found exactly when some entry carries it. */
  lemma {:induction false} FindMember<V>(m: seq<(string, V)>, k: string)
    ensures Find(m, k).Some? <==> exists i :: 0 <= i < |m| && m[i].0 == k
    decreases |m|
  {
    if m != [] {
      FindMember(m[1..], k);
      if exists i :: 0 <= i < |m| && m[i].0 == k {
        var i :| 0 <= i < |m| && m[i].0 == k;
        if i > 0 {
          assert m[1..][i - 1].0 == k;
        }
      }
      if exists i :: 0 <= i < |m[1..]| && m[1..][i].0 == k {
        var i :| 0 <= i < |m[1..]| && m[1..][i].0 == k;
        assert m[i + 1].0 == k;
      }
    }
  }

  /** With unique names, looking up the name of an entry finds that entry. */
  lemma {:induction false} FindAt(m: HeaderMap, i: nat)
    requires UniqueKeys(m) && i < |m|
    ensures Find(m, m[i].0) == Some(m[i].1)
  {
    if i > 0 {
      var rest := m[1..];
      assert rest[i - 1] == m[i];
      assert m[0].0 != m[i].0;
      assert UniqueKeys(rest) by {
        forall a, b | 0 <= a < b < |rest| ensures rest[a].0 != rest[b].0 {
          assert rest[a] == m[a + 1] && rest[b] == m[b + 1];
        }
      }
      FindAt(rest, i - 1);
    }
  }

  /** Adding an entry under a new name keeps the names unique. */
  lemma UniqueSnoc(m: HeaderMap, x: (string, HeaderValue))
    requires UniqueKeys(m) && !HasKey(m, x.0)
    ensures UniqueKeys(m + [x])
  {
    FindMember(m, x.0);
    var m' := m + [x];
    forall i, j | 0 <= i < j < |m'| ensures m'[i].0 != m'[j].0 {
      if j < |m| {
        assert m'[i] == m[i] && m'[j] == m[j];
      } else {
        assert m'[i] == m[i] && m'[j] == x;
      }
    }
  }

  /** The header object the `forEach` over the entries of `options.headers`
      fills; the first entry that fails throws. */
  function OverrideHeaders(entries: seq<Property>): Result<HeaderMap>
    decreases |entries|
  {
    if entries == [] then Ok([])
    else
      var headers :- OverrideHeaders(entries[..|entries| - 1]);
      var (h, x) := entries[|entries| - 1];
      if h == "" then Err(EmptyHeaderName)
      else if HasKey(headers, ToLowerCase(h)) then Err(DuplicateHeader(h))
      else
        var v :- CastHeaderValue(x, h, false);
        Ok(headers + [(ToLowerCase(h), v)])
  }

  lemma OverrideHeadersStep(entries: seq<Property>, i: nat, headers: HeaderMap)
    requires i < |entries| && OverrideHeaders(entries[..i]) == Ok(headers)
    ensures OverrideHeaders(entries[..i + 1]) ==
      var (h, x) := entries[i];
      if h == "" then Err(EmptyHeaderName)
      else if HasKey(headers, ToLowerCase(h)) then Err(DuplicateHeader(h))
      else match CastHeaderValue(x, h, false)
           case Err(m) => Err(m)
           case Ok(v) => Ok(headers + [(ToLowerCase(h), v)])
  {
    assert entries[..i + 1][..i] == entries[..i];
  }

  lemma {:induction false} OverrideHeadersErrorSticks(entries: seq<Property>, n: nat)
    requires n <= |entries|
    requires OverrideHeaders(entries[..n]).Err?
    ensures OverrideHeaders(entries) == OverrideHeaders(entries[..n])
    decreases |entries| - n
  {
    if n < |entries| {
      var init := entries[..|entries| - 1];
      assert init[..n] == entries[..n];
      OverrideHeadersErrorSticks(init, n);
    } else {
      assert entries[..n] == entries;
    }
  }

  /** The override loop agrees with `_normalizeHeaders` on the same object:
      both fail together with the same message, and on success the names in
      the object are the lower-cased own names. */
  lemma {:induction false} OverrideHeadersAgree(entries: seq<Property>)
    ensures OverrideHeaders(entries).Ok? <==> HeaderList(entries).Ok?
    ensures OverrideHeaders(entries).Err? ==>
      HeaderList(entries) == Err(OverrideHeaders(entries).message)
    ensures OverrideHeaders(entries).Ok? ==>
      forall k :: HasKey(OverrideHeaders(entries).value, k) <==> k in Lowered(entries)
    decreases |entries|
  {
    if entries != [] {
      var n := |entries| - 1;
      var init := entries[..n];
      assert entries[..n + 1] == entries;
      OverrideHeadersAgree(init);
      if OverrideHeaders(init).Ok? {
        var m := OverrideHeaders(init).value;
        OverrideHeadersStep(entries, n, m);
        HeaderListStep(entries, n, HeaderList(init).value);
        var (h, x) := entries[n];
        if OverrideHeaders(entries).Ok? {
          var e := (ToLowerCase(h), CastHeaderValue(x, h, false).value);
          forall k ensures HasKey(m + [e], k) <==> k in Lowered(entries) {
            FindSnoc(m, e, k);
          }
        }
      }
    }
  }

  /** A successful override loop holds one entry per own entry, in order,
      under the lower-cased name, with the cast value, and no name twice. */
  lemma {:induction false} OverrideHeadersContents(entries: seq<Property>)
    requires OverrideHeaders(entries).Ok?
    ensures var m := OverrideHeaders(entries).value;
      |m| == |entries| && UniqueKeys(m) &&
      forall i :: 0 <= i < |entries| ==>
        m[i].0 == ToLowerCase(entries[i].0) &&
        CastHeaderValue(entries[i].1, entries[i].0, false) == Ok(m[i].1)
    decreases |entries|
  {
    if entries != [] {
      var n := |entries| - 1;
      var init := entries[..n];
      assert entries[..n + 1] == entries;
      var m := OverrideHeaders(init).value;
      OverrideHeadersContents(init);
      OverrideHeadersStep(entries, n, m);
      var (h, x) := entries[n];
      var e := (ToLowerCase(h), CastHeaderValue(x, h, false).value);
      var m' := m + [e];
      assert OverrideHeaders(entries) == Ok(m');
      UniqueSnoc(m, e);
      forall i | 0 <= i < n
        ensures m'[i].0 == ToLowerCase(entries[i].0) &&
                CastHeaderValue(entries[i].1, entries[i].0, false) == Ok(m'[i].1)
      {
        assert init[i] == entries[i] && m'[i] == m[i];
      }
    }
  }

  /** The base loop: each base pair whose name is not yet a key is added. */
  function FillHeaders(m: HeaderMap, base: seq<HeaderValue>): HeaderMap
    requires |base| % 2 == 0
  {
    if base == [] then m
    else
      var headers := FillHeaders(m, base[..|base| - 2]);
      var name := KeyString(base[|base| - 2]);
      if HasKey(headers, name) then headers
      else headers + [(name, base[|base| - 1])]
  }

  /** Overrides win; any other name reads the first base pair with that
      name; no other name appears. */
  lemma {:induction false} FillFind(m: HeaderMap, base: seq<HeaderValue>, k: string)
    requires |base| % 2 == 0
    ensures Find(FillHeaders(m, base), k) ==
      if HasKey(m, k) then Find(m, k) else Find(BasePairs(base), k)
    decreases |base|
  {
    if base != [] {
      var init := base[..|base| - 2];
      var name := KeyString(base[|base| - 2]);
      var x := (name, base[|base| - 1]);
      FillFind(m, init, k);
      FindSnoc(BasePairs(init), x, k);
      var headers := FillHeaders(m, init);
      FillFind(m, init, name);
      if !HasKey(headers, name) {
        FindSnoc(headers, x, k);
      }
    }
  }

  /** The override entries come first, unchanged, and the names stay
      unique. */
  lemma {:induction false} FillKeeps(m: HeaderMap, base: seq<HeaderValue>)
    requires |base| % 2 == 0
    requires UniqueKeys(m)
    ensures m <= FillHeaders(m, base)
    ensures UniqueKeys(FillHeaders(m, base))
    decreases |base|
  {
    if base != [] {
      var init := base[..|base| - 2];
      FillKeeps(m, init);
      var headers := FillHeaders(m, init);
      var name := KeyString(base[|base| - 2]);
      if !HasKey(headers, name) {
        UniqueSnoc(headers, (name, base[|base| - 1]));
      }
    }
  }

  const BadHeaders := "Expected `headers` to be an object."

  /** The entries of `options.headers` the `forEach` visits. */
  function HeaderEntries(options: Value): seq<Property> {
    if HasOwn(options, "headers") then OwnProps(Get(options, "headers")) else []
  }

  /** `buildHeaders(base, options)` */
  function HeadersOf(base: seq<HeaderValue>, options: Value): Result<HeaderMap>
    requires |base| % 2 == 0
  {
    if HasOwn(options, "headers") && !IsObject(Get(options, "headers")) then Err(BadHeaders)
    else
      var extra :- OverrideHeaders(HeaderEntries(options));
      Ok(FillHeaders(extra, base))
  }

  /** The list-level content of `buildHeaders`: each override is found
      under its lower-cased name with its cast value; any other name reads
      the first base pair with that name, and is absent when there is none. */
  lemma MergedHeaders(entries: seq<Property>, base: seq<HeaderValue>)
    requires |base| % 2 == 0
    requires OverrideHeaders(entries).Ok?
    ensures var h := FillHeaders(OverrideHeaders(entries).value, base);
      UniqueKeys(h) &&
      (forall i :: 0 <= i < |entries| ==>
        Find(h, ToLowerCase(entries[i].0)).Some? &&
        CastHeaderValue(entries[i].1, entries[i].0, false) == Ok(Find(h, ToLowerCase(entries[i].0)).value)) &&
      (forall k :: k !in Lowered(entries) ==> Find(h, k) == Find(BasePairs(base), k))
  {
    var m := OverrideHeaders(entries).value;
    var h := FillHeaders(m, base);
    OverrideHeadersContents(entries);
    FillKeeps(m, base);
    forall i | 0 <= i < |entries|
      ensures Find(h, ToLowerCase(entries[i].0)) == Some(m[i].1)
    {
      FillFind(m, base, m[i].0);
      FindAt(m, i);
    }
    OverrideHeadersAgree(entries);
    forall k | k !in Lowered(entries)
      ensures Find(h, k) == Find(BasePairs(base), k)
    {
      FillFind(m, base, k);
    }
  }

  /** `buildHeaders` fails for a present header option that is not an object,
      and otherwise exactly when `_normalizeHeaders` fails on it, with its
      message. */
  lemma HeadersOfErrors(base: seq<HeaderValue>, options: Value)
    requires |base| % 2 == 0
    ensures HasOwn(options, "headers") && !IsObject(Get(options, "headers")) ==>
      HeadersOf(base, options) == Err(BadHeaders)
    ensures !(HasOwn(options, "headers") && !IsObject(Get(options, "headers"))) ==>
      (HeadersOf(base, options).Ok? <==> HeaderList(HeaderEntries(options)).Ok?) &&
      (HeadersOf(base, options).Err? ==> HeaderList(HeaderEntries(options)) == Err(HeadersOf(base, options).message))
  {
    OverrideHeadersAgree(HeaderEntries(options));
  }

  /** `buildHeaders([], {headers: {FoO: 'bar'}})` is `{foo: 'bar'}`. */
  lemma LowercasedExample()
    ensures HeadersOf([], Literal([("headers", Literal([("FoO", Str("bar"))]))])) == Ok([("foo", Single("bar"))])
  {
    var o := Literal([("headers", Literal([("FoO", Str("bar"))]))]);
    assert HasOwn(o, "headers") && HeaderEntries(o) == [("FoO", Str("bar"))];
    HeaderExampleFacts();
    OverrideHeadersStepExample([], [], "FoO", "bar");
  }

  /** `buildHeaders(['foo', '---', 'baz', 'qux'], {headers: {foo: 'bar', quux: 'corge'}})`
      is `{foo: 'bar', quux: 'corge', baz: 'qux'}`. */
  lemma CombinedExample()
    ensures HeadersOf([Single("foo"), Single("---"), Single("baz"), Single("qux")],
                      Literal([("headers", Literal([("foo", Str("bar")), ("quux", Str("corge"))]))]))
      == Ok([("foo", Single("bar")), ("quux", Single("corge")), ("baz", Single("qux"))])
  {
    var o := Literal([("headers", Literal([("foo", Str("bar")), ("quux", Str("corge"))]))]);
    assert HasOwn(o, "headers") && HeaderEntries(o) == [("foo", Str("bar")), ("quux", Str("corge"))];
    HeaderExampleFacts();
    OverrideHeadersStepExample([], [], "foo", "bar");
    OverrideHeadersStepExample([("foo", Str("bar"))], [("foo", Single("bar"))], "quux", "corge");
    var m := [("foo", Single("bar")), ("quux", Single("corge"))];
    FillStep(m, [], Single("foo"), Single("---"));
    FillStep(m, [Single("foo"), Single("---")], Single("baz"), Single("qux"));
  }

  /** The list and name identities the header examples rest on. */
  lemma HeaderExampleFacts()
    ensures ToLowerCase("FoO") == "foo" && ToLowerCase("foo") == "foo" && ToLowerCase("quux") == "quux"
    ensures [] + [("FoO", Str("bar"))] == [("FoO", Str("bar"))]
    ensures [] + [("foo", Str("bar"))] == [("foo", Str("bar"))]
    ensures [] + [("foo", Single("bar"))] == [("foo", Single("bar"))]
    ensures [("foo", Str("bar"))] + [("quux", Str("corge"))] == [("foo", Str("bar")), ("quux", Str("corge"))]
    ensures [("foo", Single("bar"))] + [("quux", Single("corge"))] == [("foo", Single("bar")), ("quux", Single("corge"))]
    ensures [] + [Single("foo"), Single("---")] == [Single("foo"), Single("---")]
    ensures [Single("foo"), Single("---")] + [Single("baz"), Single("qux")] ==
      [Single("foo"), Single("---"), Single("baz"), Single("qux")]
    ensures !HasKey([], "foo") && !HasKey([("foo", Single("bar"))], "quux")
    ensures HasKey([("foo", Single("bar")), ("quux", Single("corge"))], "foo")
    ensures !HasKey([("foo", Single("bar")), ("quux", Single("corge"))], "baz")
    ensures [("foo", Single("bar")), ("quux", Single("corge"))] + [("baz", Single("qux"))] ==
      [("foo", Single("bar")), ("quux", Single("corge")), ("baz", Single("qux"))]
  {
    HeaderExampleNames();
    HeaderExampleKeys();
  }

  lemma HeaderExampleNames()
    ensures ToLowerCase("FoO") == "foo" && ToLowerCase("foo") == "foo" && ToLowerCase("quux") == "quux"
  {
    assert ToLowerCase("oO") == "oo";
    assert ToLowerCase("ux") == "ux";
  }

  lemma HeaderExampleKeys()
    ensures !HasKey([], "foo") && !HasKey([("foo", Single("bar"))], "quux")
    ensures HasKey([("foo", Single("bar")), ("quux", Single("corge"))], "foo")
    ensures !HasKey([("foo", Single("bar")), ("quux", Single("corge"))], "baz")
  {
    var m := [("foo", Single("bar")), ("quux", Single("corge"))];
    assert m[1..] == [("quux", Single("corge"))];
    assert "foo" != "quux" by { assert "foo"[0] != "quux"[0]; }
    assert "baz" != "foo" by { assert "baz"[0] != "foo"[0]; }
    assert "baz" != "quux" by { assert "baz"[0] != "quux"[0]; }
  }

  /** One step of the header examples: a string entry under a fresh name. */
  lemma OverrideHeadersStepExample(init: seq<Property>, m: HeaderMap, h: string, v: string)
    requires OverrideHeaders(init) == Ok(m)
    requires h != "" && !HasKey(m, ToLowerCase(h))
    ensures OverrideHeaders(init + [(h, Str(v))]) == Ok(m + [(ToLowerCase(h), Single(v))])
  {
    var entries := init + [(h, Str(v))];
    assert entries[..|entries| - 1] == init;
  }

  lemma FillStep(m: HeaderMap, base: seq<HeaderValue>, name: HeaderValue, v: HeaderValue)
    requires |base| % 2 == 0
    ensures FillHeaders(m, base + [name, v]) ==
      var headers := FillHeaders(m, base);
      if HasKey(headers, KeyString(name)) then headers else headers + [(KeyString(name), v)]
  {
    var base' := base + [name, v];
    assert base'[..|base'| - 2] == base;
  }

  // ---------------------------------------------------------------------
  // The body
  // ---------------------------------------------------------------------

  /** The bytes a chunk body carries: a buffer's own bytes, or the UTF-8
      encoding of `JSON.stringify(value)`, which is not part of this model. */
  datatype Chunk = Bytes(data: seq<byte>) | JsonText(value: Value)

  /** `null`, `{stream: stream}` or `{chunk: chunk}`. */
  datatype Body = NoBody | StreamBody(stream: Value) | ChunkBody(chunk: Chunk)

  const BadStream := "Expected `stream` to be pipe()able."

  const BadChunk := "Expected `chunk` to be a buffer."

  const UndefinedJson := "Unexpected undefined value for `json`."

  const BadForm := "Expected `form` to be an object."

  function Conflict(extra: string, present: string): string {
    "Unexpected `" + extra + "` option when `" + present + "` is present."
  }

  /** The body options, in the order `buildBody` looks at them. */
  const BodyKeys: seq<string> := ["stream", "chunk", "json", "form"]

  /** Whether `buildBody` accepts `v` as the value of the body option `key`. */
  predicate ValidBodyValue(key: string, v: Value) {
    if key == "stream" then Truthy(v) && Get(v, "pipe").Func?
    else if key == "chunk" then v.Buf?
    else if key == "json" then !v.Undefined?
    else IsObject(v)
  }

  /** The error for an unacceptable value of the body option `key`. */
  function BodyValueError(key: string): string {
    if key == "stream" then BadStream
    else if key == "chunk" then BadChunk
    else if key == "json" then UndefinedJson
    else BadForm
  }

  /** The default `content-type`, written only when the header is absent. */
  function WithContentType(m: HeaderMap, contentType: string): HeaderMap {
    if HasKey(m, "content-type") then m else m + [("content-type", Single(contentType))]
  }

  /** `buildBody(options)` on a request whose header object is `m`: the
      header object afterwards, and the body or the error. */
  function BodyOf(m: HeaderMap, options: Value): (HeaderMap, Result<Body>) {
    if HasOwn(options, "stream") then
      var stream := Get(options, "stream");
      if !Truthy(stream) || !Get(stream, "pipe").Func? then (m, Err(BadStream))
      else if HasOwn(options, "chunk") then (m, Err(Conflict("chunk", "stream")))
      else if HasOwn(options, "json") then (m, Err(Conflict("json", "stream")))
      else if HasOwn(options, "form") then (m, Err(Conflict("form", "stream")))
      else (m, Ok(StreamBody(stream)))
    else if HasOwn(options, "chunk") then
      var chunk := Get(options, "chunk");
      if !chunk.Buf? then (m, Err(BadChunk))
      else if HasOwn(options, "json") then (m, Err(Conflict("json", "chunk")))
      else if HasOwn(options, "form") then (m, Err(Conflict("form", "chunk")))
      else (m, Ok(ChunkBody(Bytes(chunk.bytes))))
    else if HasOwn(options, "json") then
      var json := Get(options, "json");
      if json.Undefined? then (m, Err(UndefinedJson))
      else if HasOwn(options, "form") then (m, Err(Conflict("form", "json")))
      else (WithContentType(m, DefaultJsonContentType), Ok(ChunkBody(JsonText(json))))
    else if HasOwn(options, "form") then
      var form := Get(options, "form");
      if !IsObject(form) then (m, Err(BadForm))
      else
        var headers := WithContentType(m, DefaultFormContentType);
        match QueryPairs([], form)
        case Err(e) => (headers, Err(e))
        case Ok(pairs) => (headers, Ok(ChunkBody(Bytes(Utf8Encode(Join(pairs, '&'))))))
    else (m, Ok(NoBody))
  }

  /** Without any body option there is no body and the headers are kept. */
  lemma NoBodyOption(m: HeaderMap, options: Value)
    requires forall k :: 0 <= k < |BodyKeys| ==> !HasOwn(options, BodyKeys[k])
    ensures BodyOf(m, options) == (m, Ok(NoBody))
  {
    assert BodyKeys[0] == "stream" && BodyKeys[1] == "chunk" && BodyKeys[2] == "json" && BodyKeys[3] == "form";
  }

  /** The first body option present must have an acceptable value; when it
      has not, that is the error and the headers are kept. */
  lemma BadBodyOption(m: HeaderMap, options: Value, i: nat)
    requires i < |BodyKeys| && HasOwn(options, BodyKeys[i])
    requires forall k :: 0 <= k < i ==> !HasOwn(options, BodyKeys[k])
    requires !ValidBodyValue(BodyKeys[i], Get(options, BodyKeys[i]))
    ensures BodyOf(m, options) == (m, Err(BodyValueError(BodyKeys[i])))
  {
    assert BodyKeys[0] == "stream" && BodyKeys[1] == "chunk" && BodyKeys[2] == "json" && BodyKeys[3] == "form";
  }

  /** Once the first body option present is acceptable, the next one present
      is reported as unexpected alongside it, and the headers are kept. */
  lemma SecondBodyOption(m: HeaderMap, options: Value, i: nat, j: nat)
    requires i < j < |BodyKeys|
    requires HasOwn(options, BodyKeys[i]) && ValidBodyValue(BodyKeys[i], Get(options, BodyKeys[i]))
    requires forall k :: 0 <= k < j && k != i ==> !HasOwn(options, BodyKeys[k])
    requires HasOwn(options, BodyKeys[j])
    ensures BodyOf(m, options) == (m, Err(Conflict(BodyKeys[j], BodyKeys[i])))
  {
    assert BodyKeys[0] == "stream" && BodyKeys[1] == "chunk" && BodyKeys[2] == "json" && BodyKeys[3] == "form";
  }

  /** A lone, acceptable `stream`, `chunk` or `json` option: the stream
      itself, the buffer's bytes, or the JSON text; only `json` writes the
      default JSON content type. */
  lemma SingleBodyOption(m: HeaderMap, options: Value, i: nat)
    requires i < 3 && HasOwn(options, BodyKeys[i]) && ValidBodyValue(BodyKeys[i], Get(options, BodyKeys[i]))
    requires forall k :: 0 <= k < |BodyKeys| && k != i ==> !HasOwn(options, BodyKeys[k])
    ensures var v := Get(options, BodyKeys[i]);
      BodyOf(m, options) ==
        if i == 0 then (m, Ok(StreamBody(v)))
        else if i == 1 then (m, Ok(ChunkBody(Bytes(v.bytes))))
        else (WithContentType(m, DefaultJsonContentType), Ok(ChunkBody(JsonText(v))))
  {
    assert BodyKeys[0] == "stream" && BodyKeys[1] == "chunk" && BodyKeys[2] == "json" && BodyKeys[3] == "form";
  }

  /** A lone `form` object: the default form content type is written, and
      the body is the UTF-8 of the encoded merged parameters of the form,
      joined by `&`; it fails exactly when `_normalizeQuery` would. */
  lemma FormBody(m: HeaderMap, options: Value)
    requires HasOwn(options, "form") && IsObject(Get(options, "form"))
    requires !HasOwn(options, "stream") && !HasOwn(options, "chunk") && !HasOwn(options, "json")
    ensures var form := Get(options, "form");
      BodyOf(m, options).0 == WithContentType(m, DefaultFormContentType) &&
      BodyOf(m, options).1 ==
        match MergedQuery([], form)
        case Ok(merged) => Ok(ChunkBody(Bytes(Utf8Encode(Join(EncodeAll(merged), '&')))))
        case Err(e) => Err(e)
  {
    QueryPairsEncodeMerged([], Get(options, "form"));
  }

  /** `buildBody` changes no header but `content-type`, which it only adds,
      as the default for `json` or `form`, when it is absent; names stay
      unique. */
  lemma BodyHeaders(m: HeaderMap, options: Value)
    ensures var h := BodyOf(m, options).0;
      h == m ||
      (!HasKey(m, "content-type") &&
       (h == m + [("content-type", Single(DefaultJsonContentType))] ||
        h == m + [("content-type", Single(DefaultFormContentType))]))
    ensures var h := BodyOf(m, options).0;
      forall k :: k != "content-type" || HasKey(m, k) ==> Find(h, k) == Find(m, k)
    ensures UniqueKeys(m) ==> UniqueKeys(BodyOf(m, options).0)
    ensures (HasOwn(options, "json") || HasOwn(options, "form")) && BodyOf(m, options).1.Ok? ==>
      HasKey(BodyOf(m, options).0, "content-type")
  {
    var h := BodyOf(m, options).0;
    if h != m {
      var x := h[|h| - 1];
      assert h == m + [x];
      FindSnoc(m, x, "content-type");
      forall k | k != "content-type" || HasKey(m, k) ensures Find(h, k) == Find(m, k) {
        FindSnoc(m, x, k);
      }
      if UniqueKeys(m) {
        UniqueSnoc(m, x);
      }
    }
  }

  /** `buildBody({form: {foo: 'bar', baz: 'qux'}})` writes the UTF-8 of
      `'foo=bar&baz=qux'`. */
  lemma FormBodyExample(m: HeaderMap)
    ensures BodyOf(m, Literal([("form", Literal([("foo", Str("bar")), ("baz", Str("qux"))]))])).1
      == Ok(ChunkBody(Bytes(Utf8Encode("foo=bar&baz=qux"))))
  {
    var form := Literal([("foo", Str("bar")), ("baz", Str("qux"))]);
    var o := Literal([("form", form)]);
    FormOnlyOptions(form);
    FormPairsExample(form);
    FormJoinExample();
  }

  lemma FormOnlyOptions(form: Value)
    ensures var o := Literal([("form", form)]);
      HasOwn(o, "form") && Get(o, "form") == form &&
      !HasOwn(o, "stream") && !HasOwn(o, "chunk") && !HasOwn(o, "json")
  {
    var props := [("form", form)];
    assert props[1..] == [];
    assert "form" != "stream" by { assert "form"[0] != "stream"[0]; }
    assert "form" != "chunk" by { assert "form"[0] != "chunk"[0]; }
    assert "form" != "json" by { assert "form"[0] != "json"[0]; }
    assert OwnProps(Literal(props)) == props;
    assert Lookup(props[1..], "stream") == None && Lookup(props[1..], "chunk") == None;
    assert Lookup(props[1..], "json") == None;
  }

  lemma FormPairsExample(form: Value)
    requires form == Literal([("foo", Str("bar")), ("baz", Str("qux"))])
    ensures QueryPairs([], form) == Ok(["foo=bar", "baz=qux"])
  {
    ExampleLists();
    FormListFacts();
    OverrideStepExample([], [], "foo", "bar");
    OverrideStepExample([("foo", Str("bar"))], ["foo=bar"], "baz", "qux");
    assert KeptPairs([], form) == [];
    assert OwnProps(form) == [("foo", Str("bar")), ("baz", Str("qux"))];
  }

  lemma FormListFacts()
    ensures [("foo", Str("bar"))] + [("baz", Str("qux"))] == [("foo", Str("bar")), ("baz", Str("qux"))]
    ensures ["foo=bar"] + ["baz" + "=" + "qux"] == ["foo=bar", "baz=qux"]
    ensures [] + ["foo=bar", "baz=qux"] == ["foo=bar", "baz=qux"]
  {
    assert "baz" + "=" + "qux" == "baz=qux";
  }

  lemma FormJoinExample()
    ensures Join(["foo=bar", "baz=qux"], '&') == "foo=bar&baz=qux"
  {
    var parts := ["foo=bar", "baz=qux"];
    assert parts[1..] == ["baz=qux"];
    assert Join(parts[1..], '&') == "baz=qux";
    assert "foo=bar" + ['&'] + "baz=qux" == "foo=bar&baz=qux";
  }

  // ---------------------------------------------------------------------
  // The request
  // ---------------------------------------------------------------------

  /** `buildAuth(auth, options)`: the credential of the options when they own
      one, else the client's. */
  function AuthOf(auth: Value, options: Value): Value {
    if HasOwn(options, "auth") then Get(options, "auth") else auth
  }

  /** An own `auth` option wins even when it is `undefined`; an inherited one
      is ignored and the client's credential kept. */
  lemma AuthChoice(auth: Value, options: Value)
    ensures HasOwn(options, "auth") ==> AuthOf(auth, options) == Get(options, "auth")
    ensures !HasOwn(options, "auth") ==> AuthOf(auth, options) == auth
    ensures AuthOf(auth, Literal([("auth", Undefined)])) == Undefined
    ensures AuthOf(auth, Obj([], [("auth", Str("bar"))])) == auth
  {
  }

  /** The fields of a constructed request; `verb` is its `method`. */
  datatype Descriptor = Descriptor(verb: string, path: string, headers: HeaderMap, body: Body, auth: Value)

  /** `new Request(client, method, options)` for a client in state `c`: the
      fields it assigns, in the order path, headers, body, credential, or the
      first error one of them throws. */
  function Describe(c: ClientState, verb: string, options: Value): Result<Descriptor>
    requires Flat(c)
  {
    var path :- PathOf(c.pathname, c.query, options);
    var built :- HeadersOf(c.headers, options);
    var (headers, body) := BodyOf(built, options);
    var b :- body;
    Ok(Descriptor(verb, path, headers, b, AuthOf(c.auth, options)))
  }

  /** The path is checked first, then the headers, then the body; the
      request fails with the message of the first that fails. */
  lemma DescribeFailures(c: ClientState, verb: string, options: Value)
    requires Flat(c)
    ensures PathOf(c.pathname, c.query, options).Err? ==>
      Describe(c, verb, options) == Err(PathOf(c.pathname, c.query, options).message)
    ensures PathOf(c.pathname, c.query, options).Ok? && HeadersOf(c.headers, options).Err? ==>
      Describe(c, verb, options) == Err(HeadersOf(c.headers, options).message)
    ensures PathOf(c.pathname, c.query, options).Ok? && HeadersOf(c.headers, options).Ok? ==>
      (Describe(c, verb, options).Ok? <==> BodyOf(HeadersOf(c.headers, options).value, options).1.Ok?)
  {
  }

  /** What a built request holds: the method; the path `buildPath` gives;
      the body `buildBody` gives; header names without repetition; each
      header option under its lower-cased name with its cast value; any
      other name but `content-type` as the client's defaults give it; a
      `content-type` for a JSON or form body; and the credential `buildAuth`
      picks. */
  lemma DescribedRequest(c: ClientState, verb: string, options: Value)
    requires Flat(c) && Describe(c, verb, options).Ok?
    ensures var d := Describe(c, verb, options).value;
      d.verb == verb && PathOf(c.pathname, c.query, options) == Ok(d.path) &&
      HeadersOf(c.headers, options).Ok? &&
      BodyOf(HeadersOf(c.headers, options).value, options) == (d.headers, Ok(d.body)) &&
      d.auth == AuthOf(c.auth, options)
    ensures var d := Describe(c, verb, options).value;
      var entries := HeaderEntries(options);
      UniqueKeys(d.headers) &&
      (forall i :: 0 <= i < |entries| ==>
        Find(d.headers, ToLowerCase(entries[i].0)).Some? &&
        CastHeaderValue(entries[i].1, entries[i].0, false) == Ok(Find(d.headers, ToLowerCase(entries[i].0)).value)) &&
      (forall k :: k !in Lowered(entries) && k != "content-type" ==>
        Find(d.headers, k) == Find(BasePairs(c.headers), k))
    ensures var d := Describe(c, verb, options).value;
      (HasOwn(options, "json") || HasOwn(options, "form")) ==> HasKey(d.headers, "content-type")
  {
    var d := Describe(c, verb, options).value;
    var entries := HeaderEntries(options);
    var built := HeadersOf(c.headers, options).value;
    assert OverrideHeaders(entries).Ok? && built == FillHeaders(OverrideHeaders(entries).value, c.headers);
    MergedHeaders(entries, c.headers);
    BodyHeaders(built, options);
    forall i | 0 <= i < |entries|
      ensures Find(d.headers, ToLowerCase(entries[i].0)) == Find(built, ToLowerCase(entries[i].0))
    {
    }
  }

  /** A request as `new Request(client, method, options)` leaves it. */
  class Request {
    var verb: string
    var path: string
    var headers: HeaderMap
    var body: Body
    var auth: Value

    function Described(): Descriptor
      reads this
    {
      Descriptor(verb, path, headers, body, auth)
    }

    /** The object as the constructor body first sees it, `method` assigned. */
    constructor Blank(verb: string)
      ensures Described() == Descriptor(verb, "", [], NoBody, Undefined)
    {
      this.verb := verb;
      path := "";
      headers := [];
      body := NoBody;
      auth := Undefined;
    }

    /** `buildQueryPairs(base, query)` */
    method BuildQueryPairs(base: seq<string>, query: Value) returns (r: Result<seq<string>>)
      requires |base| % 2 == 0
      ensures r == QueryPairs(base, query)
    {
      var pairs: seq<string> := [];
      var i := 0;
      while i < |base|
        invariant 0 <= i <= |base| && i % 2 == 0
        invariant pairs == KeptPairs(base[..i], query)
      {
        var p, v := base[i], base[i + 1];
        assert base[..i + 2] == base[..i] + [p, v];
        KeptStep(base[..i], query, p, v);
        if !Truthy(query) || !HasOwn(query, p) {
          pairs := pairs + [EncodePair(p, v)];
        }
        i := i + 2;
      }
      assert base[..i] == base;
      QueryPairsUnfold(base, query);
      if Truthy(query) {
        r := PushOverrides(pairs, OwnProps(query));
      } else {
        assert pairs + [] == pairs;
        r := Ok(pairs);
      }
    }

    /** The `forEach` over the own entries of a truthy `query`: each
        entry's encoded pair is pushed onto `pairs`; the first entry that
        fails throws. */
    method PushOverrides(pairs: seq<string>, entries: seq<Property>) returns (r: Result<seq<string>>)
      ensures OverridePairs(entries).Ok? ==> r == Ok(pairs + OverridePairs(entries).value)
      ensures OverridePairs(entries).Err? ==> r == Err(OverridePairs(entries).message)
    {
      var result := pairs;
      ghost var extra: seq<string> := [];
      for j := 0 to |entries|
        invariant OverridePairs(entries[..j]) == Ok(extra)
        invariant result == pairs + extra
      {
        var (p, x) := entries[j];
        OverridePairsStep(entries, j, extra);
        if p == "" {
          OverrideErrorSticks(entries, j + 1);
          return Err(EmptyParamName);
        }
        var v := CastQueryValue(x, p);
        if v.Err? {
          OverrideErrorSticks(entries, j + 1);
          return Err(v.message);
        }
        extra := extra + [EncodePair(p, v.value)];
        result := result + [EncodePair(p, v.value)];
      }
      assert entries[..|entries|] == entries;
      return Ok(result);
    }

    /** `buildPath(defaultPathname, baseQuery, options)` */
    method BuildPath(defaultPathname: string, baseQuery: seq<string>, options: Value) returns (r: Result<string>)
      requires |baseQuery| % 2 == 0
      ensures r == PathOf(defaultPathname, baseQuery, options)
    {
      var path: string;
      if HasOwn(options, "pathname") {
        var p := Get(options, "pathname");
        if !p.Str? || p.s == "" {
          return Err(BadPathname);
        }
        path := p.s;
      } else {
        path := defaultPathname;
      }
      if '?' in path {
        return Err(PathnameWithQuery);
      }
      var query := Get(options, "query");
      if HasOwn(options, "query") && !IsObject(query) {
        return Err(BadQuery);
      }
      var pairs :- BuildQueryPairs(baseQuery, query);
      if |pairs| > 0 {
        path := path + "?" + Join(pairs, '&');
      }
      return Ok(path);
    }

    /** `buildHeaders(base, options)` */
    method BuildHeaders(base: seq<HeaderValue>, options: Value) returns (r: Result<HeaderMap>)
      requires |base| % 2 == 0
      ensures r == HeadersOf(base, options)
    {
      var headers: HeaderMap := [];
      if HasOwn(options, "headers") {
        var extra := Get(options, "headers");
        if !IsObject(extra) {
          return Err(BadHeaders);
        }
        headers :- AddOverrides(OwnProps(extra));
      }
      assert OverrideHeaders(HeaderEntries(options)) == Ok(headers);
      ghost var overrides := headers;
      var i := 0;
      while i < |base|
        invariant 0 <= i <= |base| && i % 2 == 0
        invariant headers == FillHeaders(overrides, base[..i])
      {
        var name := KeyString(base[i]);
        assert base[..i + 2] == base[..i] + [base[i], base[i + 1]];
        FillStep(overrides, base[..i], base[i], base[i + 1]);
        if !HasKey(headers, name) {
          headers := headers + [(name, base[i + 1])];
        }
        i := i + 2;
      }
      assert base[..i] == base;
      return Ok(headers);
    }

    /** The `forEach` over the own entries of `options.headers`: each entry
        is stored under its lower-cased name; the first entry that fails
        throws. */
    method AddOverrides(entries: seq<Property>) returns (r: Result<HeaderMap>)
      ensures r == OverrideHeaders(entries)
    {
      var headers: HeaderMap := [];
      for i := 0 to |entries|
        invariant OverrideHeaders(entries[..i]) == Ok(headers)
      {
        var (h, x) := entries[i];
        OverrideHeadersStep(entries, i, headers);
        if h == "" {
          OverrideHeadersErrorSticks(entries, i + 1);
          return Err(EmptyHeaderName);
        }
        var lowercased := ToLowerCase(h);
        if HasKey(headers, lowercased) {
          OverrideHeadersErrorSticks(entries, i + 1);
          return Err(DuplicateHeader(h));
        }
        var v := CastHeaderValue(x, h, false);
        if v.Err? {
          OverrideHeadersErrorSticks(entries, i + 1);
          return Err(v.message);
        }
        headers := headers + [(lowercased, v.value)];
      }
      assert entries[..|entries|] == entries;
      return Ok(headers);
    }

    /** `buildBody(options)`: the body, and the default `content-type`
        written into `headers` for a JSON or form body. */
    method BuildBody(options: Value) returns (r: Result<Body>)
      modifies this
      ensures (headers, r) == BodyOf(old(headers), options)
      ensures verb == old(verb) && path == old(path) && body == old(body) && auth == old(auth)
    {
      if HasOwn(options, "stream") {
        var stream := Get(options, "stream");
        if !Truthy(stream) || !Get(stream, "pipe").Func? {
          return Err(BadStream);
        }
        if HasOwn(options, "chunk") {
          return Err(Conflict("chunk", "stream"));
        }
        if HasOwn(options, "json") {
          return Err(Conflict("json", "stream"));
        }
        if HasOwn(options, "form") {
          return Err(Conflict("form", "stream"));
        }
        return Ok(StreamBody(stream));
      }
      if HasOwn(options, "chunk") {
        var chunk := Get(options, "chunk");
        if !chunk.Buf? {
          return Err(BadChunk);
        }
        if HasOwn(options, "json") {
          return Err(Conflict("json", "chunk"));
        }
        if HasOwn(options, "form") {
          return Err(Conflict("form", "chunk"));
        }
        return Ok(ChunkBody(Bytes(chunk.bytes)));
      }
      if HasOwn(options, "json") {
        var json := Get(options, "json");
        if json.Undefined? {
          return Err(UndefinedJson);
        }
        if HasOwn(options, "form") {
          return Err(Conflict("form", "json"));
        }
        if !HasKey(headers, "content-type") {
          headers := headers + [("content-type", Single(DefaultJsonContentType))];
        }
        return Ok(ChunkBody(JsonText(json)));
      }
      if HasOwn(options, "form") {
        var form := Get(options, "form");
        if !IsObject(form) {
          return Err(BadForm);
        }
        if !HasKey(headers, "content-type") {
          headers := headers + [("content-type", Single(DefaultFormContentType))];
        }
        var pairs :- BuildQueryPairs([], form);
        return Ok(ChunkBody(Bytes(Utf8Encode(Join(pairs, '&')))));
      }
      return Ok(NoBody);
    }

    /** `new Request(client, method, options)`: a fresh request holding the
        fields `Describe` gives, or the error it gives. */
    static method Create(client: Clients.BaseClient, verb: string, options: Value) returns (r: Result<Request>)
      requires client.Valid()
      ensures r.Ok? <==> Describe(client.State(), verb, options).Ok?
      ensures r.Ok? ==> fresh(r.value) && r.value.Described() == Describe(client.State(), verb, options).value
      ensures r.Err? ==> Describe(client.State(), verb, options) == Err(r.message)
    {
      var request := new Request.Blank(verb);
      var path :- request.BuildPath(client.pathname, client.query, options);
      request.path := path;
      var headers :- request.BuildHeaders(client.headers, options);
      request.headers := headers;
      var body :- request.BuildBody(options);
      request.body := body;
      request.auth := AuthOf(client.auth, options);
      return Ok(request);
    }
  }
}
