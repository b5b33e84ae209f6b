/**
 * query.go: a Query names one selector, a format and the table flags; BuildURL checks
 * it and turns it into the URL the client requests.
 */
module Queries {
  import opened Wrappers
  import opened Text
  import opened Errors

  /** An output format; any string is accepted and passed through. */
  type Format = string

  const FormatTLE: Format := "TLE"
  const Format3LE: Format := "3LE"
  const Format2LE: Format := "2LE"
  const FormatXML: Format := "XML"
  const FormatKVN: Format := "KVN"
  const FormatJSON: Format := "JSON"
  const FormatJSONPretty: Format := "JSON-PRETTY"
  const FormatCSV: Format := "CSV"

  const BaseNilMessage := "base URL is nil"
  const EndpointRequiredMessage := "endpoint is required"
  const AmbiguousMessage := "set exactly one of CATNR/INTDES/GROUP/NAME/SPECIAL"
  const MissingMessage := "missing selector (set one of CATNR/INTDES/GROUP/NAME/SPECIAL)"

  const ElementsPath := "/NORAD/elements/"
  const TableEndpoint := "table.php"

  const SelectorKeys: set<string> := {"CATNR", "INTDES", "GROUP", "NAME", "SPECIAL"}
  const FlagKeys: set<string> := {"BSTAR", "SHOW-OPS", "OLDEST", "DOCKED", "MOVERS"}

  /** Optional flags that only table.php honours. */
  datatype TableFlags = TableFlags(bstar: bool, showOps: bool, oldest: bool, docked: bool, movers: bool)

  const NoFlags := TableFlags(false, false, false, false, false)

  /** A query. The type itself allows any number of selectors; BuildURL enforces exactly one. */
  datatype Query = Query(
    catnr: string, intdes: string, group: string, name: string, special: string,
    format: Format, tableFlags: TableFlags)

  /** One query parameter. */
  datatype Param = Param(key: string, value: string)

  /** The scheme and host of the base URL that a request path is resolved against. */
  datatype Origin = Origin(scheme: string, host: string)

  /**
   * A resolved request URL: the base's origin, the path and the encoded parameters in the
   * order Encode writes them. Rendering it as text (percent-encoding and ResolveReference)
   * is an injective function of these three parts, so the value stands for the string.
   */
  datatype Url = Url(origin: Origin, path: string, query: seq<Param>)

  // ---------------------------------------------------------------- selectors

  /** The five selector fields in the order singleSelector offers them. */
  function Fields(q: Query): seq<Param> {
    [Param("CATNR", q.catnr), Param("INTDES", q.intdes), Param("GROUP", q.group),
     Param("NAME", q.name), Param("SPECIAL", q.special)]
  }

  /** The non-blank fields of s, in order, each with its value trimmed. */
  function NonBlank(s: seq<Param>): (r: seq<Param>)
    ensures |r| <= |s|
    ensures forall j :: 0 <= j < |r| ==> r[j].value != ""
  {
    if s == [] then []
    else
      var init, last := s[..|s| - 1], s[|s| - 1];
      NonBlank(init) + (if IsBlank(last.value) then [] else [Param(last.key, TrimSpace(last.value))])
  }

  /** NonBlank keeps the field names: each key it returns is one of the keys of s. */
  lemma {:induction false} NonBlankKeys(s: seq<Param>, keys: set<string>)
    requires forall i :: 0 <= i < |s| ==> s[i].key in keys
    ensures forall j :: 0 <= j < |NonBlank(s)| ==> NonBlank(s)[j].key in keys
  {
    if s != [] {
      NonBlankKeys(s[..|s| - 1], keys);
    }
  }

  /**
   * The selector a query names, stated by counting: the one non-blank field with its value
   * trimmed, "missing selector" when there is none, "set exactly one" when there are more.
   */
  function Selector(q: Query): (r: Result<Param>)
    ensures r.Ok? ==> r.value.key in SelectorKeys && r.value.value != ""
    ensures r.Err? ==> r.error in {QueryErr(QueryError(MissingMessage)), QueryErr(QueryError(AmbiguousMessage))}
  {
    var nb := NonBlank(Fields(q));
    NonBlankKeys(Fields(q), SelectorKeys);
    if |nb| == 1 then Ok(nb[0])
    else if |nb| == 0 then Err(QueryErr(QueryError(MissingMessage)))
    else Err(QueryErr(QueryError(AmbiguousMessage)))
  }

  /** Field i is the only non-blank selector. */
  predicate OnlyActive(q: Query, i: nat)
    requires i < 5
  {
    !IsBlank(Fields(q)[i].value) && forall j :: 0 <= j < 5 && j != i ==> IsBlank(Fields(q)[j].value)
  }

  /** Exactly one of the five selector fields is non-blank. */
  predicate ExactlyOneSelector(q: Query) {
    exists i :: 0 <= i < 5 && OnlyActive(q, i)
  }

  lemma {:induction false} NonBlankNone(s: seq<Param>)
    requires forall i :: 0 <= i < |s| ==> IsBlank(s[i].value)
    ensures NonBlank(s) == []
  {
    if s != [] {
      NonBlankNone(s[..|s| - 1]);
    }
  }

  lemma {:induction false} NonBlankSome(s: seq<Param>, i: nat)
    requires i < |s| && !IsBlank(s[i].value)
    ensures |NonBlank(s)| >= 1
  {
    if i < |s| - 1 {
      NonBlankSome(s[..|s| - 1], i);
    }
  }

  lemma {:induction false} NonBlankOne(s: seq<Param>, i: nat)
    requires i < |s| && !IsBlank(s[i].value)
    requires forall j :: 0 <= j < |s| && j != i ==> IsBlank(s[j].value)
    ensures NonBlank(s) == [Param(s[i].key, TrimSpace(s[i].value))]
  {
    if i == |s| - 1 {
      NonBlankNone(s[..|s| - 1]);
    } else {
      NonBlankOne(s[..|s| - 1], i);
    }
  }

  lemma {:induction false} NonBlankTwo(s: seq<Param>, i: nat, j: nat)
    requires i < j < |s| && !IsBlank(s[i].value) && !IsBlank(s[j].value)
    ensures |NonBlank(s)| >= 2
  {
    if j == |s| - 1 {
      NonBlankSome(s[..|s| - 1], i);
    } else {
      NonBlankTwo(s[..|s| - 1], i, j);
    }
  }

  /** Exactly one non-blank field: it is the selector, with its key name and trimmed value. */
  lemma SelectorSingle(q: Query, i: nat)
    requires i < 5 && OnlyActive(q, i)
    ensures Selector(q) == Ok(Param(Fields(q)[i].key, TrimSpace(Fields(q)[i].value)))
  {
    NonBlankOne(Fields(q), i);
  }

  /** Two non-blank fields: "set exactly one of ...". */
  lemma SelectorAmbiguous(q: Query, i: nat, j: nat)
    requires i < j < 5 && !IsBlank(Fields(q)[i].value) && !IsBlank(Fields(q)[j].value)
    ensures Selector(q) == Err(QueryErr(QueryError(AmbiguousMessage)))
  {
    NonBlankTwo(Fields(q), i, j);
  }

  /** No non-blank field: "missing selector ...". */
  lemma SelectorMissing(q: Query)
    requires forall i :: 0 <= i < 5 ==> IsBlank(Fields(q)[i].value)
    ensures Selector(q) == Err(QueryErr(QueryError(MissingMessage)))
  {
    NonBlankNone(Fields(q));
  }

  /** The selector is found exactly when one field is non-blank. */
  lemma SelectorSucceedsIff(q: Query)
    ensures Selector(q).Ok? <==> ExactlyOneSelector(q)
  {
    if ExactlyOneSelector(q) {
      var i :| 0 <= i < 5 && OnlyActive(q, i);
      SelectorSingle(q, i);
    } else if forall i :: 0 <= i < 5 ==> IsBlank(Fields(q)[i].value) {
      SelectorMissing(q);
    } else {
      var i :| 0 <= i < 5 && !IsBlank(Fields(q)[i].value);
      assert !OnlyActive(q, i);
      var j :| 0 <= j < 5 && j != i && !IsBlank(Fields(q)[j].value);
      if i < j { SelectorAmbiguous(q, i, j); } else { SelectorAmbiguous(q, j, i); }
    }
  }

  /** The variables the closure set in singleSelector captures. */
  datatype Captured = Captured(key: string, val: string, err: Option<Error>)

  const Unset := Captured("", "", None)

  /** One call set(k, v): skip a blank value or a recorded error, flag a second selector, else record. */
  function SetStep(c: Captured, k: string, v: string): Captured {
    var t := TrimSpace(v);
    if t == "" || c.err.Some? then c
    else if c.key != "" then c.(err := Some(QueryErr(QueryError(AmbiguousMessage))))
    else c.(key := k, val := t)
  }

  /** The captured variables after set has been called on each field of fs in turn. */
  function Offered(fs: seq<Param>): Captured {
    if fs == [] then Unset
    else SetStep(Offered(fs[..|fs| - 1]), fs[|fs| - 1].key, fs[|fs| - 1].value)
  }

  /** What the captured variables say after the fields in seen, stated by counting the non-blank ones. */
  ghost predicate Tracks(seen: seq<Param>, c: Captured) {
    var nb := NonBlank(seen);
    if |nb| == 0 then c == Unset
    else
      c.key == nb[0].key && c.key != "" && c.val == nb[0].value
      && c.err == (if |nb| == 1 then None else Some(QueryErr(QueryError(AmbiguousMessage))))
  }

  /** The closure's bookkeeping is the count: the first non-blank field, flagged once a second one shows. */
  lemma {:induction false} OfferedTracks(fs: seq<Param>)
    requires forall i :: 0 <= i < |fs| ==> fs[i].key != ""
    ensures Tracks(fs, Offered(fs))
  {
    if fs != [] {
      var init := fs[..|fs| - 1];
      OfferedTracks(init);
      assert fs == init + [fs[|fs| - 1]];
    }
  }

  /** Once all five fields are offered, the recorded state is the counted selector. */
  lemma TracksSelector(q: Query, c: Captured)
    requires Tracks(Fields(q), c)
    ensures c.err.None? && c.key != "" ==> Selector(q) == Ok(Param(c.key, c.val))
    ensures c.err.None? && c.key == "" ==> Selector(q) == Err(QueryErr(QueryError(MissingMessage)))
    ensures c.err.Some? ==> Selector(q).Err? && c.err == Some(Selector(q).error)
  {
    NonBlankKeys(Fields(q), SelectorKeys);
  }

  /** One call of the closure set(k, v) on the captured key, val and err. */
  method Offer(k: string, v: string, key: string, val: string, err: Option<Error>)
    returns (key': string, val': string, err': Option<Error>)
    ensures Captured(key', val', err') == SetStep(Captured(key, val, err), k, v)
  {
    key', val', err' := key, val, err;
    var t := TrimSpace(v);
    if t == "" || err.Some? {
      return;
    }
    if key != "" {
      err' := Some(QueryErr(QueryError(AmbiguousMessage)));
      return;
    }
    key', val' := k, t;
  }

  /** Offering one more field is one more step of set. */
  lemma OfferedSnoc(seen: seq<Param>, p: Param)
    ensures Offered(seen + [p]) == SetStep(Offered(seen), p.key, p.value)
  {
    assert (seen + [p])[..|seen|] == seen;
  }

  /** The five calls of set in singleSelector, in the fixed field order. */
  method OfferAll(q: Query) returns (key: string, val: string, err: Option<Error>)
    ensures Captured(key, val, err) == Offered(Fields(q))
  {
    var c, i, g, n, sp := Param("CATNR", q.catnr), Param("INTDES", q.intdes), Param("GROUP", q.group),
                          Param("NAME", q.name), Param("SPECIAL", q.special);
    key, val, err := "", "", None;
    key, val, err := Offer(c.key, c.value, key, val, err);
    OfferedSnoc([], c);
    assert [] + [c] == [c];
    key, val, err := Offer(i.key, i.value, key, val, err);
    OfferedSnoc([c], i);
    assert [c] + [i] == [c, i];
    key, val, err := Offer(g.key, g.value, key, val, err);
    OfferedSnoc([c, i], g);
    assert [c, i] + [g] == [c, i, g];
    key, val, err := Offer(n.key, n.value, key, val, err);
    OfferedSnoc([c, i, g], n);
    assert [c, i, g] + [n] == [c, i, g, n];
    key, val, err := Offer(sp.key, sp.value, key, val, err);
    OfferedSnoc([c, i, g, n], sp);
    assert [c, i, g, n] + [sp] == [c, i, g, n, sp] == Fields(q);
  }

  /** singleSelector: the recorded key and value, or the recorded or "missing selector" error. */
  method SingleSelector(q: Query) returns (key: string, val: string, err: Option<Error>)
    ensures Selector(q).Ok? ==> err.None? && Param(key, val) == Selector(q).value
    ensures Selector(q).Err? ==> err == Some(Selector(q).error) && key == "" && val == ""
  {
    key, val, err := OfferAll(q);
    OfferedTracks(Fields(q));
    TracksSelector(q, Captured(key, val, err));
    if err.Some? {
      return "", "", err;
    }
    if key == "" {
      return "", "", Some(QueryErr(QueryError(MissingMessage)));
    }
  }

  // ---------------------------------------------------------------- constructors

  /** What a query holding only v in the selector named key selects. */
  function OnlySelector(key: string, v: string): Result<Param> {
    if IsBlank(v) then Err(QueryErr(QueryError(MissingMessage))) else Ok(Param(key, TrimSpace(v)))
  }

  lemma OnlyFieldSelects(q: Query, i: nat)
    requires i < 5 && forall j :: 0 <= j < 5 && j != i ==> Fields(q)[j].value == ""
    ensures Selector(q) == OnlySelector(Fields(q)[i].key, Fields(q)[i].value)
  {
    if IsBlank(Fields(q)[i].value) {
      SelectorMissing(q);
    } else {
      SelectorSingle(q, i);
    }
  }

  /** QueryByCATNR: selects by catalog number. */
  function QueryByCATNR(catnr: string, format: Format): (q: Query)
    ensures q.format == format && q.tableFlags == NoFlags
    ensures Selector(q) == OnlySelector("CATNR", catnr)
  {
    var q := Query(catnr, "", "", "", "", format, NoFlags);
    OnlyFieldSelects(q, 0);
    q
  }

  /** QueryByINTDES: selects by international designator. */
  function QueryByINTDES(intdes: string, format: Format): (q: Query)
    ensures q.format == format && q.tableFlags == NoFlags
    ensures Selector(q) == OnlySelector("INTDES", intdes)
  {
    var q := Query("", intdes, "", "", "", format, NoFlags);
    OnlyFieldSelects(q, 1);
    q
  }

  /** QueryByGROUP: selects by group name. */
  function QueryByGROUP(group: string, format: Format): (q: Query)
    ensures q.format == format && q.tableFlags == NoFlags
    ensures Selector(q) == OnlySelector("GROUP", group)
  {
    var q := Query("", "", group, "", "", format, NoFlags);
    OnlyFieldSelects(q, 2);
    q
  }

  /** QueryByName: selects by satellite name. */
  function QueryByName(name: string, format: Format): (q: Query)
    ensures q.format == format && q.tableFlags == NoFlags
    ensures Selector(q) == OnlySelector("NAME", name)
  {
    var q := Query("", "", "", name, "", format, NoFlags);
    OnlyFieldSelects(q, 3);
    q
  }

  /** QueryBySPECIAL: selects a special dataset. */
  function QueryBySPECIAL(special: string, format: Format): (q: Query)
    ensures q.format == format && q.tableFlags == NoFlags
    ensures Selector(q) == OnlySelector("SPECIAL", special)
  {
    var q := Query("", "", "", "", special, format, NoFlags);
    OnlyFieldSelects(q, 4);
    q
  }

  // ---------------------------------------------------------------- url.Values

  /** Some parameter of s is named k. */
  predicate HasKey(s: seq<Param>, k: string) {
    exists i :: 0 <= i < |s| && s[i].key == k
  }

  /** Every key is below every later key in sort.Strings order. */
  predicate SortedByKey(s: seq<Param>) {
    forall i, j :: 0 <= i < j < |s| ==> Less(s[i].key, s[j].key)
  }

  /** No key occurs twice: the sequence is a map from keys to values. */
  predicate DistinctKeys(s: seq<Param>) {
    forall i, j :: 0 <= i < j < |s| ==> s[i].key != s[j].key
  }

  lemma SortedIsDistinct(s: seq<Param>)
    requires SortedByKey(s)
    ensures DistinctKeys(s)
  {
    forall i, j | 0 <= i < j < |s| ensures s[i].key != s[j].key {
      LessIrreflexive(s[i].key);
    }
  }

  /** Two sequences with the same multiset of parameters hold the same parameters. */
  lemma SameMembers(a: seq<Param>, b: seq<Param>)
    requires multiset(a) == multiset(b)
    ensures forall p :: p in a <==> p in b
  {
    forall p ensures p in a <==> p in b {
      assert p in a <==> p in multiset(a);
      assert p in b <==> p in multiset(b);
    }
  }

  /** Joining two key-disjoint sequences without repeated keys repeats no key. */
  lemma DistinctAppend(a: seq<Param>, b: seq<Param>)
    requires DistinctKeys(a) && DistinctKeys(b)
    requires forall x, y :: x in a && y in b ==> x.key != y.key
    ensures DistinctKeys(a + b)
  {
    forall i, j | 0 <= i < j < |a + b| ensures (a + b)[i].key != (a + b)[j].key {
      if j >= |a| && i < |a| {
        assert (a + b)[i] == a[i] && (a + b)[j] == b[j - |a|];
        assert a[i] in a && b[j - |a|] in b;
      }
    }
  }

  /** Values.Set: k now maps to v alone, in k's place if k is set, else appended at the end. */
  function SetPair(s: seq<Param>, k: string, v: string): seq<Param> {
    if s == [] then [Param(k, v)]
    else if s[0].key == k then [Param(k, v)] + s[1..]
    else [s[0]] + SetPair(s[1..], k, v)
  }

  /** Setting a key that is not there appends it. */
  lemma {:induction false} SetPairFresh(s: seq<Param>, k: string, v: string)
    requires !HasKey(s, k)
    ensures SetPair(s, k, v) == s + [Param(k, v)]
  {
    if s != [] {
      assert s[0].key != k;
      assert !HasKey(s[1..], k);
      SetPairFresh(s[1..], k, v);
      assert s == [s[0]] + s[1..];
    }
  }

  /** In a sequence without repeated keys, no later parameter shares the first one's key. */
  lemma HeadKeyUnique(s: seq<Param>)
    requires DistinctKeys(s) && s != []
    ensures forall p :: p in s[1..] ==> p.key != s[0].key
  {
    forall p | p in s[1..] ensures p.key != s[0].key {
      var m :| 0 <= m < |s| - 1 && s[1..][m] == p;
      assert s[m + 1] == p;
    }
  }

  /**
   * Set keeps the keys distinct, and afterwards the parameters are Param(k, v) and
   * those of s under other keys.
   */
  lemma {:induction false} SetPairMembers(s: seq<Param>, k: string, v: string)
    requires DistinctKeys(s)
    ensures DistinctKeys(SetPair(s, k, v))
    ensures forall p :: p in SetPair(s, k, v) <==> p == Param(k, v) || (p in s && p.key != k)
  {
    if s != [] {
      HeadKeyUnique(s);
      assert s == [s[0]] + s[1..];
      if s[0].key == k {
        DistinctAppend([Param(k, v)], s[1..]);
      } else {
        SetPairMembers(s[1..], k, v);
        DistinctAppend([s[0]], SetPair(s[1..], k, v));
      }
    }
  }

  /** Successive Set calls, one per parameter of ps, left to right. */
  function SetAll(s: seq<Param>, ps: seq<Param>): seq<Param> {
    if ps == [] then s
    else SetPair(SetAll(s, ps[..|ps| - 1]), ps[|ps| - 1].key, ps[|ps| - 1].value)
  }

  /** Setting keys that are all new and all different appends them. */
  lemma {:induction false} SetAllFresh(s: seq<Param>, ps: seq<Param>)
    requires DistinctKeys(s + ps)
    ensures SetAll(s, ps) == s + ps
  {
    if ps != [] {
      var init, last := ps[..|ps| - 1], ps[|ps| - 1];
      var u := s + init;
      assert s + ps == u + [last];
      assert DistinctKeys(u) by {
        forall i, j | 0 <= i < j < |u| ensures u[i].key != u[j].key {
          assert u[i] == (s + ps)[i] && u[j] == (s + ps)[j];
        }
      }
      assert !HasKey(u, last.key) by {
        forall i | 0 <= i < |u| ensures u[i].key != last.key {
          assert u[i] == (s + ps)[i] && last == (s + ps)[|s + ps| - 1];
        }
      }
      SetAllFresh(s, init);
      SetPairFresh(u, last.key, last.value);
    }
  }

  /** In a key-sorted sequence every later parameter has a key above the first one's. */
  lemma SortedHeadBelow(s: seq<Param>)
    requires SortedByKey(s) && s != []
    ensures forall x :: x in s[1..] ==> Less(s[0].key, x.key)
  {
    forall x | x in s[1..] ensures Less(s[0].key, x.key) {
      var m :| 0 <= m < |s| - 1 && s[1..][m] == x;
      assert s[m + 1] == x;
    }
  }

  /** Putting a parameter whose key is below all of t's in front of t keeps it sorted. */
  lemma ConsSorted(x: Param, t: seq<Param>)
    requires SortedByKey(t) && forall y :: y in t ==> Less(x.key, y.key)
    ensures SortedByKey([x] + t)
  {
    forall i, j | 0 <= i < j < |[x] + t| ensures Less(([x] + t)[i].key, ([x] + t)[j].key) {
      if i == 0 {
        assert ([x] + t)[j] == t[j - 1];
        assert t[j - 1] in t;
      } else {
        assert ([x] + t)[i] == t[i - 1] && ([x] + t)[j] == t[j - 1];
      }
    }
  }

  /** A key below the first of a key-sorted sequence is below all of them. */
  lemma BelowAll(p: Param, s: seq<Param>)
    requires SortedByKey(s) && s != [] && Less(p.key, s[0].key)
    ensures forall y :: y in s ==> Less(p.key, y.key)
  {
    SortedHeadBelow(s);
    forall y | y in s ensures Less(p.key, y.key) {
      if y != s[0] {
        assert s == [s[0]] + s[1..];
        LessTransitive(p.key, s[0].key, y.key);
      }
    }
  }

  /** Whatever is inserted behind the head of a key-sorted sequence stays above the head. */
  lemma AboveHead(p: Param, s: seq<Param>, t: seq<Param>)
    requires SortedByKey(s) && s != [] && Less(s[0].key, p.key)
    requires multiset(t) == multiset(s[1..]) + multiset{p}
    ensures forall y :: y in t ==> Less(s[0].key, y.key)
  {
    SortedHeadBelow(s);
    forall y | y in t ensures Less(s[0].key, y.key) {
      assert y in multiset(t);
      assert y == p || y in multiset(s[1..]);
    }
  }

  /** Puts p into its place in a key-sorted sequence that lacks its key. */
  function Insert(p: Param, s: seq<Param>): (r: seq<Param>)
    requires SortedByKey(s) && !HasKey(s, p.key)
    ensures SortedByKey(r)
    ensures multiset(r) == multiset(s) + multiset{p}
  {
    if s == [] then [p]
    else if Less(p.key, s[0].key) then
      BelowAll(p, s);
      ConsSorted(p, s);
      [p] + s
    else
      assert s[0].key != p.key;
      LessTotal(p.key, s[0].key);
      assert SortedByKey(s[1..]) && !HasKey(s[1..], p.key);
      var t := Insert(p, s[1..]);
      AboveHead(p, s, t);
      ConsSorted(s[0], t);
      assert s == [s[0]] + s[1..];
      [s[0]] + t
  }

  /** The order url.Values.Encode writes parameters in: sorted by key. */
  function SortByKey(s: seq<Param>): (r: seq<Param>)
    requires DistinctKeys(s)
    ensures SortedByKey(r)
    ensures multiset(r) == multiset(s)
  {
    if s == [] then []
    else
      assert s == [s[0]] + s[1..];
      var t := SortByKey(s[1..]);
      assert !HasKey(t, s[0].key) by {
        forall i | 0 <= i < |t| ensures t[i].key != s[0].key {
          assert t[i] in multiset(s[1..]);
          var m :| 0 <= m < |s| - 1 && s[1..][m] == t[i];
          assert s[m + 1] == t[i];
        }
      }
      Insert(s[0], t)
  }

  /**
   * A key-sorted sequence is fixed by the parameters it holds: whatever order the
   * parameters were set in, Encode writes the same text.
   */
  lemma {:induction false} SortedUnique(a: seq<Param>, b: seq<Param>)
    requires SortedByKey(a) && SortedByKey(b)
    requires multiset(a) == multiset(b)
    ensures a == b
  {
    if a != [] {
      SortedHeadsAgree(a, b);
      assert a == [a[0]] + a[1..] && b == [b[0]] + b[1..];
      assert multiset(a[1..]) == multiset(a) - multiset{a[0]};
      assert multiset(b[1..]) == multiset(b) - multiset{a[0]};
      SortedUnique(a[1..], b[1..]);
    }
  }

  /** Two key-sorted sequences with the same parameters start with the same one. */
  lemma SortedHeadsAgree(a: seq<Param>, b: seq<Param>)
    requires SortedByKey(a) && SortedByKey(b)
    requires multiset(a) == multiset(b) && a != []
    ensures b != [] && a[0] == b[0]
  {
    assert |b| == |multiset(b)| == |multiset(a)| == |a|;
    assert a[0] in multiset(b) && b[0] in multiset(a);
    var j :| 0 <= j < |b| && b[j] == a[0];
    var i :| 0 <= i < |a| && a[i] == b[0];
    if j > 0 {
      if i > 0 {
        LessAsymmetric(a[0].key, a[i].key);
      } else {
        LessIrreflexive(b[0].key);
      }
      assert false;
    }
  }

  /** url.Values as BuildURL uses it: a map from keys to a single value each. */
  class Values {
    var pairs: seq<Param>

    ghost predicate Valid()
      reads this
    {
      DistinctKeys(pairs)
    }

    constructor ()
      ensures Valid() && pairs == []
    {
      pairs := [];
    }

    /** Set: key now maps to value, replacing any earlier value. */
    method Set(key: string, value: string)
      requires Valid()
      modifies this
      ensures Valid() && pairs == SetPair(old(pairs), key, value)
    {
      SetPairMembers(pairs, key, value);
      pairs := SetPair(pairs, key, value);
    }

    /** Encode: the parameters, sorted by key (their text form is left to Url). */
    function Encode(): (r: seq<Param>)
      reads this
      requires Valid()
      ensures SortedByKey(r)
      ensures forall p :: p in r <==> p in pairs
    {
      var r := SortByKey(pairs);
      SameMembers(r, pairs);
      r
    }
  }

  // ---------------------------------------------------------------- BuildURL

  /** The parameter a set flag adds, or nothing. */
  function Flag(on: bool, key: string): seq<Param> {
    if on then [Param(key, "1")] else []
  }

  /** The "1"-valued parameters of the true flags, in the order addTableFlags sets them. */
  function FlagParams(f: TableFlags): seq<Param> {
    Flag(f.bstar, "BSTAR") + Flag(f.showOps, "SHOW-OPS") + Flag(f.oldest, "OLDEST")
    + Flag(f.docked, "DOCKED") + Flag(f.movers, "MOVERS")
  }

  /** Whether the flag whose parameter is called name is set. */
  predicate FlagOn(f: TableFlags, name: string) {
    (name == "BSTAR" && f.bstar) || (name == "SHOW-OPS" && f.showOps)
    || (name == "OLDEST" && f.oldest) || (name == "DOCKED" && f.docked)
    || (name == "MOVERS" && f.movers)
  }

  /** The flag parameters are exactly the set flags, each with value "1". */
  lemma FlagParamsMembers(f: TableFlags)
    ensures forall p :: p in FlagParams(f) <==> p.key in FlagKeys && FlagOn(f, p.key) && p.value == "1"
  {
    var a := Flag(f.bstar, "BSTAR");
    var b := Flag(f.showOps, "SHOW-OPS");
    var c := Flag(f.oldest, "OLDEST");
    var d := Flag(f.docked, "DOCKED");
    var e := Flag(f.movers, "MOVERS");
    assert FlagParams(f) == a + b + c + d + e;
    forall p ensures p in FlagParams(f) <==> p in a || p in b || p in c || p in d || p in e {
    }
  }

  /** No flag key is set twice. */
  lemma FlagParamsDistinct(f: TableFlags)
    ensures DistinctKeys(FlagParams(f))
  {
    var a := Flag(f.bstar, "BSTAR");
    var b := Flag(f.showOps, "SHOW-OPS");
    var c := Flag(f.oldest, "OLDEST");
    var d := Flag(f.docked, "DOCKED");
    var e := Flag(f.movers, "MOVERS");
    DistinctAppend(a, b);
    DistinctAppend(a + b, c);
    DistinctAppend(a + b + c, d);
    DistinctAppend(a + b + c + d, e);
  }

  /** One more Set call, made only when the flag is on. */
  lemma SetAllFlag(s: seq<Param>, done: seq<Param>, on: bool, key: string)
    ensures SetAll(s, done + Flag(on, key)) == if on then SetPair(SetAll(s, done), key, "1") else SetAll(s, done)
  {
    if on {
      assert (done + [Param(key, "1")])[..|done|] == done;
    } else {
      assert done + [] == done;
    }
  }

  /** addTableFlags: one Set per true flag, in the order BSTAR, SHOW-OPS, OLDEST, DOCKED, MOVERS. */
  method AddTableFlags(q: Query, params: Values)
    requires params.Valid()
    modifies params
    ensures params.Valid() && params.pairs == SetAll(old(params.pairs), FlagParams(q.tableFlags))
  {
    var f := q.tableFlags;
    ghost var s := params.pairs;
    SetAllFlag(s, [], f.bstar, "BSTAR");
    if f.bstar {
      params.Set("BSTAR", "1");
    }
    assert params.Valid() && params.pairs == SetAll(s, [] + Flag(f.bstar, "BSTAR"));
    assert [] + Flag(f.bstar, "BSTAR") == Flag(f.bstar, "BSTAR");
    ghost var done := Flag(f.bstar, "BSTAR");
    SetAllFlag(s, done, f.showOps, "SHOW-OPS");
    if f.showOps {
      params.Set("SHOW-OPS", "1");
    }
    assert params.Valid() && params.pairs == SetAll(s, done + Flag(f.showOps, "SHOW-OPS"));
    done := done + Flag(f.showOps, "SHOW-OPS");
    SetAllFlag(s, done, f.oldest, "OLDEST");
    if f.oldest {
      params.Set("OLDEST", "1");
    }
    assert params.Valid() && params.pairs == SetAll(s, done + Flag(f.oldest, "OLDEST"));
    done := done + Flag(f.oldest, "OLDEST");
    SetAllFlag(s, done, f.docked, "DOCKED");
    if f.docked {
      params.Set("DOCKED", "1");
    }
    assert params.Valid() && params.pairs == SetAll(s, done + Flag(f.docked, "DOCKED"));
    done := done + Flag(f.docked, "DOCKED");
    SetAllFlag(s, done, f.movers, "MOVERS");
    if f.movers {
      params.Set("MOVERS", "1");
    }
    assert params.Valid() && params.pairs == SetAll(s, done + Flag(f.movers, "MOVERS"));
    done := done + Flag(f.movers, "MOVERS");
  }

  /** The FORMAT parameter: the query's format, "TLE" when it is empty. */
  function FormatOf(q: Query): (f: Format)
    ensures f != ""
    ensures q.format != "" ==> f == q.format
    ensures q.format == "" ==> f == FormatTLE
  {
    if q.format == "" then FormatTLE else q.format
  }

  /** The parameters in the order BuildURL sets them: selector, FORMAT, then table flags on table.php. */
  function Params(q: Query, sel: Param, endpoint: string): seq<Param> {
    [sel, Param("FORMAT", FormatOf(q))] + (if endpoint == TableEndpoint then FlagParams(q.tableFlags) else [])
  }

  /** No key names both a selector and a flag, and FORMAT names neither. */
  lemma KeysDisjoint()
    ensures SelectorKeys !! FlagKeys
    ensures "FORMAT" !in SelectorKeys && "FORMAT" !in FlagKeys
  {
  }

  /** The selector, FORMAT and flag keys never collide. */
  lemma ParamsDistinct(q: Query, sel: Param, endpoint: string)
    requires sel.key in SelectorKeys
    ensures DistinctKeys(Params(q, sel, endpoint))
  {
    var head := [sel, Param("FORMAT", FormatOf(q))];
    var flags := if endpoint == TableEndpoint then FlagParams(q.tableFlags) else [];
    FlagParamsMembers(q.tableFlags);
    FlagParamsDistinct(q.tableFlags);
    KeysDisjoint();
    assert forall y :: y in flags ==> y.key in FlagKeys;
    DistinctAppend(head, flags);
  }

  /**
   * BuildURL as a function: the two argument checks first, then the selector, then the
   * URL whose query holds the parameters in the order Encode writes them.
   */
  function Build(q: Query, base: Option<Origin>, endpoint: string): (r: Result<Url>)
    ensures base.None? ==> r == Err(QueryErr(QueryError(BaseNilMessage)))
    ensures base.Some? && endpoint == "" ==> r == Err(QueryErr(QueryError(EndpointRequiredMessage)))
    ensures r.Ok? ==> SortedByKey(r.value.query)
  {
    if base.None? then Err(QueryErr(QueryError(BaseNilMessage)))
    else if endpoint == "" then Err(QueryErr(QueryError(EndpointRequiredMessage)))
    else match Selector(q)
      case Err(e) => Err(e)
      case Ok(sel) =>
        ParamsDistinct(q, sel, endpoint);
        Ok(Url(base.value, ElementsPath + endpoint, SortByKey(Params(q, sel, endpoint))))
  }

  /** BuildURL's parameters: a fresh url.Values, Set for the selector and FORMAT, then the table flags. */
  method NewParams(q: Query, key: string, val: string, format: Format, endpoint: string) returns (params: Values)
    requires key in SelectorKeys && format == FormatOf(q)
    ensures fresh(params) && params.Valid()
    ensures params.pairs == Params(q, Param(key, val), endpoint)
  {
    ghost var sel := Param(key, val);
    ghost var head := [sel, Param("FORMAT", format)];
    params := new Values();
    params.Set(key, val);
    SetPairFresh([], key, val);
    assert params.pairs == [sel];
    params.Set("FORMAT", format);
    assert !HasKey([sel], "FORMAT");
    SetPairFresh([sel], "FORMAT", format);
    assert params.pairs == head;
    ParamsDistinct(q, sel, endpoint);
    if endpoint == TableEndpoint {
      AddTableFlags(q, params);
      SetAllFresh(head, FlagParams(q.tableFlags));
    } else {
      assert Params(q, sel, endpoint) == head + [];
    }
  }

  /** BuildURL: the argument checks, singleSelector, the default format, the parameters, Encode. */
  method BuildURL(q: Query, base: Option<Origin>, endpoint: string) returns (r: Result<Url>)
    ensures r == Build(q, base, endpoint)
  {
    if base.None? {
      return Err(QueryErr(QueryError(BaseNilMessage)));
    }
    if endpoint == "" {
      return Err(QueryErr(QueryError(EndpointRequiredMessage)));
    }
    var key, val, err := SingleSelector(q);
    if err.Some? {
      return Err(err.value);
    }
    var format := q.format;
    if format == "" {
      format := FormatTLE;
    }
    var path := ElementsPath + endpoint;
    var params := NewParams(q, key, val, format, endpoint);
    var query := params.Encode();
    return Ok(Url(base.value, path, query));
  }

  // ---------------------------------------------------------------- properties of BuildURL

  /** The argument checks come before the selector: they fire whatever the query holds. */
  lemma BuildChecksFirst(q: Query, q': Query, base: Option<Origin>, endpoint: string)
    requires base.None? || endpoint == ""
    ensures Build(q, base, endpoint) == Build(q', base, endpoint)
    ensures Build(q, base, endpoint).Err? && Build(q, base, endpoint).error.QueryErr?
  {
  }

  /** With a base and an endpoint, BuildURL succeeds exactly when one selector is non-blank. */
  lemma BuildSucceedsIff(q: Query, base: Origin, endpoint: string)
    requires endpoint != ""
    ensures Build(q, Some(base), endpoint).Ok? <==> ExactlyOneSelector(q)
    ensures Build(q, Some(base), endpoint).Err? ==> Build(q, Some(base), endpoint).error == Selector(q).error
  {
    SelectorSucceedsIff(q);
  }

  /**
   * A built URL: the base's origin, the path "/NORAD/elements/" + endpoint, and keys in
   * sorted order holding exactly the selector, FORMAT, and on table.php the set flags with "1".
   */
  lemma BuildQuery(q: Query, base: Option<Origin>, endpoint: string)
    requires Build(q, base, endpoint).Ok?
    ensures var u := Build(q, base, endpoint).value;
      && base.Some? && endpoint != "" && Selector(q).Ok?
      && u.origin == base.value && u.path == ElementsPath + endpoint
      && SortedByKey(u.query) && DistinctKeys(u.query)
      && forall p :: p in u.query <==>
           p == Selector(q).value || p == Param("FORMAT", FormatOf(q))
           || (endpoint == TableEndpoint && p.key in FlagKeys && FlagOn(q.tableFlags, p.key) && p.value == "1")
  {
    BuildHolds(q, base, endpoint);
    ParamsMembers(q, Selector(q).value, endpoint);
    SortedIsDistinct(Build(q, base, endpoint).value.query);
  }

  /** The parameters BuildURL sets: the selector, FORMAT, and on table.php the set flags with "1". */
  lemma ParamsMembers(q: Query, sel: Param, endpoint: string)
    ensures forall p :: p in Params(q, sel, endpoint) <==>
      p == sel || p == Param("FORMAT", FormatOf(q))
      || (endpoint == TableEndpoint && p.key in FlagKeys && FlagOn(q.tableFlags, p.key) && p.value == "1")
  {
    FlagParamsMembers(q.tableFlags);
    if endpoint != TableEndpoint {
      assert Params(q, sel, endpoint) == [sel, Param("FORMAT", FormatOf(q))] + [];
    }
  }

  /** The built query holds the parameters BuildURL sets, and nothing else. */
  lemma BuildHolds(q: Query, base: Option<Origin>, endpoint: string)
    requires Build(q, base, endpoint).Ok?
    ensures Selector(q).Ok? && Selector(q).value.key in SelectorKeys
    ensures forall p :: p in Build(q, base, endpoint).value.query <==> p in Params(q, Selector(q).value, endpoint)
  {
    var ps := Params(q, Selector(q).value, endpoint);
    SameMembers(Build(q, base, endpoint).value.query, ps);
  }

  /** Off table.php no flag key appears, whatever the flags say. */
  lemma BuildNoFlagsOffTable(q: Query, base: Option<Origin>, endpoint: string)
    requires Build(q, base, endpoint).Ok? && endpoint != TableEndpoint
    ensures forall p :: p in Build(q, base, endpoint).value.query ==> p.key !in FlagKeys
  {
    BuildHolds(q, base, endpoint);
    ParamsOffTable(q, Selector(q).value, endpoint);
  }

  lemma ParamsOffTable(q: Query, sel: Param, endpoint: string)
    requires sel.key in SelectorKeys && endpoint != TableEndpoint
    ensures forall p :: p in Params(q, sel, endpoint) ==> p.key !in FlagKeys
  {
    assert Params(q, sel, endpoint) == [sel, Param("FORMAT", FormatOf(q))] + [];
    KeysDisjoint();
  }

  /** Sorting parameters that are already known to have a given sorted arrangement yields it. */
  lemma SortByKeyIs(s: seq<Param>, t: seq<Param>)
    requires DistinctKeys(s) && SortedByKey(t) && multiset(s) == multiset(t)
    ensures SortByKey(s) == t
  {
    SortedUnique(SortByKey(s), t);
  }

  /**
   * Encode's output depends only on which parameters were set, not on the order of the
   * Set calls: the built URL is fixed by (base, query, endpoint).
   */
  lemma EncodeOrderFree(s: seq<Param>, t: seq<Param>)
    requires DistinctKeys(s) && DistinctKeys(t) && multiset(s) == multiset(t)
    ensures SortByKey(s) == SortByKey(t)
  {
    SortedUnique(SortByKey(s), SortByKey(t));
  }

  /** QueryByX with a base and an endpoint builds exactly when its value is non-blank. */
  lemma QueryBySucceedsIff(v: string, format: Format, base: Origin, endpoint: string)
    requires endpoint != ""
    ensures Build(QueryByCATNR(v, format), Some(base), endpoint).Ok? <==> !IsBlank(v)
    ensures Build(QueryByINTDES(v, format), Some(base), endpoint).Ok? <==> !IsBlank(v)
    ensures Build(QueryByGROUP(v, format), Some(base), endpoint).Ok? <==> !IsBlank(v)
    ensures Build(QueryByName(v, format), Some(base), endpoint).Ok? <==> !IsBlank(v)
    ensures Build(QueryBySPECIAL(v, format), Some(base), endpoint).Ok? <==> !IsBlank(v)
  {
  }

  /** CATNR 25544 as JSON from gp.php: CATNR=25544&FORMAT=JSON. */
  lemma ExampleCatalogNumber(q: Query, base: Origin)
    requires q == QueryByCATNR("25544", FormatJSON)
    ensures Build(q, Some(base), "gp.php")
         == Ok(Url(base, "/NORAD/elements/gp.php", [Param("CATNR", "25544"), Param("FORMAT", "JSON")]))
  {
    var sel := Param("CATNR", "25544");
    PlainSelects("CATNR", "25544");
    var ps := [sel, Param("FORMAT", "JSON")];
    assert Params(q, sel, "gp.php") == ps;
    assert SortedByKey(ps) by {
      assert Less("CATNR", "FORMAT");
    }
    SortByKeyIs(ps, ps);
    BuildIs(q, base, "gp.php", sel, ps);
    ExamplePaths();
  }

  /** A value with no white space at either end is selected as it is. */
  lemma PlainSelects(key: string, v: string)
    requires v != [] && !IsSpace(v[0]) && !IsSpace(v[|v| - 1])
    ensures OnlySelector(key, v) == Ok(Param(key, v))
  {
    TrimFixpoint(v, IsSpace);
  }

  /** The table flags play no part in selection. */
  lemma SelectorIgnoresFlags(q: Query, f: TableFlags)
    ensures Selector(q.(tableFlags := f)) == Selector(q)
  {
    assert Fields(q.(tableFlags := f)) == Fields(q);
  }

  /** The STATIONS group as XML from table.php with SHOW-OPS: FORMAT=XML&GROUP=STATIONS&SHOW-OPS=1. */
  lemma ExampleStationsTable(q: Query, base: Origin)
    requires q == QueryByGROUP("STATIONS", FormatXML).(tableFlags := NoFlags.(showOps := true))
    ensures Build(q, Some(base), "table.php")
         == Ok(Url(base, "/NORAD/elements/table.php",
                   [Param("FORMAT", "XML"), Param("GROUP", "STATIONS"), Param("SHOW-OPS", "1")]))
  {
    var sel := Param("GROUP", "STATIONS");
    PlainSelects("GROUP", "STATIONS");
    SelectorIgnoresFlags(QueryByGROUP("STATIONS", FormatXML), NoFlags.(showOps := true));
    var ps := Params(q, sel, "table.php");
    var sorted := [Param("FORMAT", "XML"), sel, Param("SHOW-OPS", "1")];
    StationsOrder(q, sel, ps, sorted);
    SortByKeyIs(ps, sorted);
    BuildIs(q, base, "table.php", sel, sorted);
    ExamplePaths();
  }

  /** A successful build, given its selector and its encoded parameters. */
  lemma BuildIs(q: Query, base: Origin, endpoint: string, sel: Param, query: seq<Param>)
    requires endpoint != "" && Selector(q) == Ok(sel)
    requires DistinctKeys(Params(q, sel, endpoint)) && SortByKey(Params(q, sel, endpoint)) == query
    ensures Build(q, Some(base), endpoint) == Ok(Url(base, ElementsPath + endpoint, query))
  {
  }

  lemma StationsOrder(q: Query, sel: Param, ps: seq<Param>, sorted: seq<Param>)
    requires q.format == FormatXML && q.tableFlags == NoFlags.(showOps := true)
    requires sel == Param("GROUP", "STATIONS") && ps == Params(q, sel, "table.php")
    requires sorted == [Param("FORMAT", "XML"), sel, Param("SHOW-OPS", "1")]
    ensures DistinctKeys(ps) && SortedByKey(sorted) && multiset(ps) == multiset(sorted)
  {
    var fmt, ops := Param("FORMAT", "XML"), Param("SHOW-OPS", "1");
    assert ps == [sel, fmt, ops] by {
      assert FlagParams(q.tableFlags) == [ops];
    }
    assert SortedByKey(sorted) by {
      assert Less("FORMAT", "GROUP") && Less("GROUP", "SHOW-OPS") && Less("FORMAT", "SHOW-OPS");
    }
    assert DistinctKeys(ps) by {
      ParamsDistinct(q, sel, "table.php");
    }
    assert multiset(ps) == multiset(sorted) by {
      assert multiset([sel, fmt, ops]) == multiset{sel, fmt, ops} == multiset([fmt, sel, ops]);
    }
  }

  lemma ExamplePaths()
    ensures ElementsPath + "gp.php" == "/NORAD/elements/gp.php"
    ensures ElementsPath + "table.php" == "/NORAD/elements/table.php"
  {
  }
}
