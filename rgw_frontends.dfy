// The front-end start-up part of the gateway's main(): the list of configured
// front ends (defaulting to fastcgi), one parsed configuration per entry, the
// multimap from framework name to configuration, and the dispatch of each
// entry to the FastCGI or mongoose front end.
//
// The splitting of rgw_frontends on ',' and of each entry on ' ' (get_str_list)
// is not part of this model: the entries are given, and their tokens come from
// a function passed in. Front ends are recorded, not run.

module Frontends {
  import opened Wrappers
  import opened FrontendConfig

  const EINVAL: int := 22

  // ---- The ordering of std::string keys ----

  /** Lexicographic `a <= b` over character codes, as std::string compares. */
  predicate LexLe(a: string, b: string)
    decreases |a|
  {
    a == [] || (b != [] && (a[0] < b[0] || (a[0] == b[0] && LexLe(a[1..], b[1..]))))
  }

  lemma {:induction false} LexLeRefl(a: string)
    ensures LexLe(a, a)
    decreases |a|
  {
    if a != [] {
      LexLeRefl(a[1..]);
    }
  }

  lemma {:induction false} LexLeTotal(a: string, b: string)
    ensures LexLe(a, b) || LexLe(b, a)
    decreases |a|
  {
    if a != [] && b != [] && a[0] == b[0] {
      LexLeTotal(a[1..], b[1..]);
    }
  }

  lemma {:induction false} LexLeAntisym(a: string, b: string)
    requires LexLe(a, b) && LexLe(b, a)
    ensures a == b
    decreases |a|
  {
    if a != [] {
      LexLeAntisym(a[1..], b[1..]);
      assert a == [a[0]] + a[1..] && b == [b[0]] + b[1..];
    }
  }

  lemma {:induction false} LexLeTrans(a: string, b: string, c: string)
    requires LexLe(a, b) && LexLe(b, c)
    ensures LexLe(a, c)
    decreases |a|
  {
    if a != [] && a[0] == b[0] && b[0] == c[0] {
      LexLeTrans(a[1..], b[1..], c[1..]);
    }
  }

  // ---- std::multimap<string, RGWFrontendConfig *> as a key-sorted sequence ----

  /**
   * A multimap entry: the framework name and the configuration it maps to,
   * identified by its position in the list of configurations.
   */
  type Entry = (string, nat)

  predicate SortedByKey(m: seq<Entry>)
  {
    forall i, j :: 0 <= i < j < |m| ==> LexLe(m[i].0, m[j].0)
  }

  /** The upper bound of `k` in a key-sorted `m`: the first position whose key exceeds `k`. */
  function UpperBound(m: seq<Entry>, k: string): (p: nat)
    ensures p <= |m|
    ensures forall i :: 0 <= i < p ==> LexLe(m[i].0, k)
    ensures p < |m| ==> !LexLe(m[p].0, k)
    decreases |m|
  {
    if m == [] || !LexLe(m[0].0, k) then 0 else 1 + UpperBound(m[1..], k)
  }

  /** multimap::insert: after every entry whose key is not greater. */
  function Insert(m: seq<Entry>, e: Entry): (r: seq<Entry>)
    ensures |r| == |m| + 1
    ensures r[UpperBound(m, e.0)] == e
  {
    var p := UpperBound(m, e.0);
    m[..p] + [e] + m[p..]
  }

  /** Insertion keeps the multimap sorted by key. */
  lemma InsertSorted(m: seq<Entry>, e: Entry)
    requires SortedByKey(m)
    ensures SortedByKey(Insert(m, e))
  {
    var p := UpperBound(m, e.0);
    var r := Insert(m, e);
    if p < |m| {
      LexLeTotal(m[p].0, e.0);
      forall i | p <= i < |m|
        ensures LexLe(e.0, m[i].0)
      {
        if i > p {
          LexLeTrans(e.0, m[p].0, m[i].0);
        }
      }
    }
    forall i, j | 0 <= i < j < |r|
      ensures LexLe(r[i].0, r[j].0)
    {
      if i < p && j == p {
      } else if i < p && j > p {
        assert r[j] == m[j - 1];
        assert LexLe(m[i].0, e.0);
        assert LexLe(e.0, m[j - 1].0);
        LexLeTrans(m[i].0, e.0, m[j - 1].0);
      } else if i == p {
        assert r[j] == m[j - 1];
      } else if i > p {
        assert r[i] == m[i - 1] && r[j] == m[j - 1];
      }
    }
  }

  /** Insertion adds exactly the one entry. */
  lemma InsertAdds(m: seq<Entry>, e: Entry)
    ensures multiset(Insert(m, e)) == multiset(m) + multiset{e}
  {
    var p := UpperBound(m, e.0);
    assert m == m[..p] + m[p..];
  }

  /** The multimap after inserting `es` one by one into an empty one. */
  function BuildMap(es: seq<Entry>): (m: seq<Entry>)
    ensures |m| == |es|
    decreases |es|
  {
    if es == [] then [] else Insert(BuildMap(es[..|es| - 1]), es[|es| - 1])
  }

  /** Iterating the multimap visits exactly the inserted entries, in key order. */
  lemma {:induction false} BuildMapSortedPermutation(es: seq<Entry>)
    ensures SortedByKey(BuildMap(es))
    ensures multiset(BuildMap(es)) == multiset(es)
    decreases |es|
  {
    if es != [] {
      var n := |es| - 1;
      BuildMapSortedPermutation(es[..n]);
      InsertSorted(BuildMap(es[..n]), es[n]);
      InsertAdds(BuildMap(es[..n]), es[n]);
      assert es == es[..n] + [es[n]];
    }
  }

  /** Entries under the same key appear in increasing order of their values. */
  predicate StableByKey(m: seq<Entry>)
  {
    forall i, j :: 0 <= i < j < |m| && m[i].0 == m[j].0 ==> m[i].1 < m[j].1
  }

  /** Inserting a value larger than all present ones puts it after its equal keys. */
  lemma InsertStable(m: seq<Entry>, e: Entry)
    requires SortedByKey(m) && StableByKey(m)
    requires forall i :: 0 <= i < |m| ==> m[i].1 < e.1
    ensures StableByKey(Insert(m, e))
  {
    var p := UpperBound(m, e.0);
    var r := Insert(m, e);
    forall i | p <= i < |m|
      ensures m[i].0 != e.0
    {
      LexLeRefl(e.0);
    }
    forall i, j | 0 <= i < j < |r| && r[i].0 == r[j].0
      ensures r[i].1 < r[j].1
    {
      if j < p {
      } else if j == p {
        assert r[i] == m[i];
      } else if i < p {
        assert r[j] == m[j - 1];
      } else if i > p {
        assert r[i] == m[i - 1] && r[j] == m[j - 1];
      }
    }
  }

  /** Inserting entries with increasing values keeps those under one key in insertion order. */
  lemma {:induction false} BuildMapStable(es: seq<Entry>)
    requires forall i, j :: 0 <= i < j < |es| ==> es[i].1 < es[j].1
    ensures StableByKey(BuildMap(es))
    decreases |es|
  {
    if es != [] {
      var n := |es| - 1;
      var pre := es[..n];
      var m := BuildMap(pre);
      BuildMapStable(pre);
      BuildMapSortedPermutation(pre);
      forall i | 0 <= i < |m|
        ensures m[i].1 < es[n].1
      {
        assert m[i] in multiset(m);
        assert m[i] in pre;
      }
      InsertStable(m, es[n]);
    }
  }

  // ---- Configurations and front ends ----

  /** The configured front ends, or fastcgi alone when none is. */
  function DefaultFrontends(frontends: seq<string>): (fs: seq<string>)
    ensures frontends == [] ==> fs == ["fastcgi"]
    ensures frontends != [] ==> fs == frontends
    ensures fs != []
  {
    if frontends == [] then ["fastcgi"] else frontends
  }

  /** init() of RGWFrontendConfig on entry `f`. */
  function Parsed(f: string, tokensOf: string -> seq<string>, kv: string -> KeyValue): ParseOutcome
  {
    ParseTokens("", map[], tokensOf(f), kv)
  }

  /** Every entry's configuration initialises. */
  predicate AllInit(fs: seq<string>, tokensOf: string -> seq<string>, kv: string -> KeyValue)
  {
    forall i :: 0 <= i < |fs| ==> Parsed(fs[i], tokensOf, kv).ret >= 0
  }

  /** The multimap entries of the first `n` configurations, in insertion order. */
  function Keyed(fs: seq<string>, tokensOf: string -> seq<string>, kv: string -> KeyValue, n: nat): (es: seq<Entry>)
    requires n <= |fs|
    ensures |es| == n
    ensures forall i :: 0 <= i < n ==> es[i] == (Parsed(fs[i], tokensOf, kv).framework, i)
  {
    seq(n, (i: nat) requires i < n => (Parsed(fs[i], tokensOf, kv).framework, i))
  }

  /** A started front end: FastCGI on its configuration, or mongoose on a port. */
  datatype Frontend = FcgxFrontend(framework: string, config: string) | MongooseFrontend(config: string, port: int)
  {
    function Framework(): string
    {
      match this
      case FcgxFrontend(f, _) => f
      case MongooseFrontend(_, _) => "mongoose"
    }
  }

  /** The mongoose port: the `port` setting through strict_strtol, 80 when unset. */
  function PortOf(settings: map<string, string>, strtol: string -> Strtol): (port: int)
    ensures "port" !in settings ==> port == 80
    ensures "port" in settings ==> port == strtol(settings["port"]).value
  {
    if "port" in settings then strtol(settings["port"]).value else 80
  }

  /** The front end a configuration starts, or None for an unknown framework. */
  function Dispatch(c: ParseOutcome, text: string, strtol: string -> Strtol): (r: Option<Frontend>)
    ensures r.Some? <==> c.framework in {"fastcgi", "fcgi", "mongoose"}
    ensures r.Some? ==> r.value.Framework() == c.framework
  {
    if c.framework == "fastcgi" || c.framework == "fcgi" then Some(FcgxFrontend(c.framework, text))
    else if c.framework == "mongoose" then Some(MongooseFrontend(text, PortOf(c.configMap, strtol)))
    else None
  }

  predicate IndicesBelow(m: seq<Entry>, n: nat)
  {
    forall i :: 0 <= i < |m| ==> m[i].1 < n
  }

  /** The front end an entry starts. */
  function DispatchEntry(e: Entry, fs: seq<string>, tokensOf: string -> seq<string>, kv: string -> KeyValue,
                         strtol: string -> Strtol): (r: Option<Frontend>)
    requires e.1 < |fs|
    ensures r.Some? <==> Parsed(fs[e.1], tokensOf, kv).framework in {"fastcgi", "fcgi", "mongoose"}
    ensures r.Some? ==> r.value.config == fs[e.1] && r.value.Framework() == Parsed(fs[e.1], tokensOf, kv).framework
  {
    Dispatch(Parsed(fs[e.1], tokensOf, kv), fs[e.1], strtol)
  }

  /** The front ends started when walking the multimap entries `m` in order. */
  function DispatchAll(m: seq<Entry>, fs: seq<string>, tokensOf: string -> seq<string>, kv: string -> KeyValue,
                       strtol: string -> Strtol): (r: seq<Frontend>)
    requires IndicesBelow(m, |fs|)
    ensures |r| <= |m|
    ensures forall x :: x in r ==> x.Framework() in {"fastcgi", "fcgi", "mongoose"}
    decreases |m|
  {
    if m == [] then []
    else
      var n := |m| - 1;
      var rest := DispatchAll(m[..n], fs, tokensOf, kv, strtol);
      match DispatchEntry(m[n], fs, tokensOf, kv, strtol)
      case Some(fe) => rest + [fe]
      case None => rest
  }

  /** What main starts from rgw_frontends once every configuration has initialised. */
  function Started(frontends: seq<string>, tokensOf: string -> seq<string>, kv: string -> KeyValue,
                   strtol: string -> Strtol): (r: seq<Frontend>)
    ensures |r| <= |DefaultFrontends(frontends)|
    ensures forall x :: x in r ==> x.Framework() in {"fastcgi", "fcgi", "mongoose"}
  {
    var fs := DefaultFrontends(frontends);
    var m := BuildMap(Keyed(fs, tokensOf, kv, |fs|));
    BuildMapIndices(fs, tokensOf, kv, |fs|);
    DispatchAll(m, fs, tokensOf, kv, strtol)
  }

  /** Every entry is keyed by the framework of the configuration it points at. */
  predicate KeysMatch(m: seq<Entry>, fs: seq<string>, tokensOf: string -> seq<string>, kv: string -> KeyValue)
  {
    forall i :: 0 <= i < |m| ==> m[i].1 < |fs| && m[i].0 == Parsed(fs[m[i].1], tokensOf, kv).framework
  }

  /** Every multimap entry points at one of the configurations, under that configuration's framework. */
  lemma BuildMapIndices(fs: seq<string>, tokensOf: string -> seq<string>, kv: string -> KeyValue, n: nat)
    requires n <= |fs|
    ensures IndicesBelow(BuildMap(Keyed(fs, tokensOf, kv, n)), n)
    ensures KeysMatch(BuildMap(Keyed(fs, tokensOf, kv, n)), fs, tokensOf, kv)
  {
    var es := Keyed(fs, tokensOf, kv, n);
    var m := BuildMap(es);
    BuildMapSortedPermutation(es);
    forall i | 0 <= i < |m|
      ensures m[i].1 < n && m[i].0 == Parsed(fs[m[i].1], tokensOf, kv).framework
    {
      assert m[i] in multiset(m);
      assert m[i] in es;
    }
  }

  /** Each started front end comes from one of the entries walked. */
  lemma {:induction false} DispatchAllFrom(m: seq<Entry>, fs: seq<string>, tokensOf: string -> seq<string>,
                                          kv: string -> KeyValue, strtol: string -> Strtol, x: Frontend)
    requires IndicesBelow(m, |fs|)
    requires x in DispatchAll(m, fs, tokensOf, kv, strtol)
    ensures exists k :: 0 <= k < |m| && DispatchEntry(m[k], fs, tokensOf, kv, strtol) == Some(x)
    decreases |m|
  {
    var n := |m| - 1;
    var pre := m[..n];
    if x in DispatchAll(pre, fs, tokensOf, kv, strtol) {
      DispatchAllFrom(pre, fs, tokensOf, kv, strtol, x);
      var k :| 0 <= k < n && DispatchEntry(pre[k], fs, tokensOf, kv, strtol) == Some(x);
      assert pre[k] == m[k];
    } else {
      assert DispatchEntry(m[n], fs, tokensOf, kv, strtol) == Some(x);
    }
  }

  /** Each walked entry with a known framework starts its front end. */
  lemma {:induction false} DispatchAllHas(m: seq<Entry>, fs: seq<string>, tokensOf: string -> seq<string>,
                                         kv: string -> KeyValue, strtol: string -> Strtol, k: nat)
    requires IndicesBelow(m, |fs|)
    requires k < |m| && DispatchEntry(m[k], fs, tokensOf, kv, strtol).Some?
    ensures DispatchEntry(m[k], fs, tokensOf, kv, strtol).value in DispatchAll(m, fs, tokensOf, kv, strtol)
    decreases |m|
  {
    var n := |m| - 1;
    if k < n {
      var pre := m[..n];
      assert pre[k] == m[k];
      DispatchAllHas(pre, fs, tokensOf, kv, strtol, k);
    }
  }

  /** Every front end started from entries whose keys are at most `key` has a framework at most `key`. */
  lemma DispatchAllBelow(m: seq<Entry>, fs: seq<string>, tokensOf: string -> seq<string>,
                         kv: string -> KeyValue, strtol: string -> Strtol, key: string)
    requires IndicesBelow(m, |fs|) && KeysMatch(m, fs, tokensOf, kv)
    requires forall i :: 0 <= i < |m| ==> LexLe(m[i].0, key)
    ensures forall x :: x in DispatchAll(m, fs, tokensOf, kv, strtol) ==> LexLe(x.Framework(), key)
  {
    forall x | x in DispatchAll(m, fs, tokensOf, kv, strtol)
      ensures LexLe(x.Framework(), key)
    {
      DispatchAllFrom(m, fs, tokensOf, kv, strtol, x);
      var k :| 0 <= k < |m| && DispatchEntry(m[k], fs, tokensOf, kv, strtol) == Some(x);
      assert x.Framework() == m[k].0;
    }
  }

  /** The front ends are in order of their framework names. */
  predicate FrameworkOrdered(r: seq<Frontend>)
  {
    forall i, j :: 0 <= i < j < |r| ==> LexLe(r[i].Framework(), r[j].Framework())
  }

  /** Appending a front end whose framework bounds all the others keeps a framework-ordered sequence ordered. */
  lemma AppendKeepsOrder(rest: seq<Frontend>, fe: Frontend)
    requires FrameworkOrdered(rest)
    requires forall x :: x in rest ==> LexLe(x.Framework(), fe.Framework())
    ensures FrameworkOrdered(rest + [fe])
  {
    var r := rest + [fe];
    forall i, j | 0 <= i < j < |r|
      ensures LexLe(r[i].Framework(), r[j].Framework())
    {
      assert r[i] == rest[i] && rest[i] in rest;
      if j < |rest| {
        assert r[j] == rest[j];
      }
    }
  }

  /** Dropping the last entry of a key-sorted, well-keyed multimap leaves one, whose keys are at most the last key. */
  lemma PrefixKeepsShape(m: seq<Entry>, fs: seq<string>, tokensOf: string -> seq<string>, kv: string -> KeyValue)
    requires m != [] && IndicesBelow(m, |fs|) && KeysMatch(m, fs, tokensOf, kv) && SortedByKey(m)
    ensures var pre := m[..|m| - 1];
            && IndicesBelow(pre, |fs|) && KeysMatch(pre, fs, tokensOf, kv) && SortedByKey(pre)
            && forall i :: 0 <= i < |pre| ==> LexLe(pre[i].0, m[|m| - 1].0)
  {
    var pre := m[..|m| - 1];
    assert forall i :: 0 <= i < |pre| ==> pre[i] == m[i];
  }

  /** Front ends start in the key order of the multimap. */
  lemma {:induction false} DispatchAllSorted(m: seq<Entry>, fs: seq<string>, tokensOf: string -> seq<string>,
                                            kv: string -> KeyValue, strtol: string -> Strtol)
    requires IndicesBelow(m, |fs|) && KeysMatch(m, fs, tokensOf, kv) && SortedByKey(m)
    ensures FrameworkOrdered(DispatchAll(m, fs, tokensOf, kv, strtol))
    decreases |m|
  {
    if m != [] {
      var n := |m| - 1;
      var pre := m[..n];
      PrefixKeepsShape(m, fs, tokensOf, kv);
      DispatchAllSorted(pre, fs, tokensOf, kv, strtol);
      var rest := DispatchAll(pre, fs, tokensOf, kv, strtol);
      var r := DispatchAll(m, fs, tokensOf, kv, strtol);
      if DispatchEntry(m[n], fs, tokensOf, kv, strtol).Some? {
        var fe := DispatchEntry(m[n], fs, tokensOf, kv, strtol).value;
        assert r == rest + [fe];
        assert fe.Framework() == m[n].0;
        DispatchAllBelow(pre, fs, tokensOf, kv, strtol, m[n].0);
        AppendKeepsOrder(rest, fe);
      } else {
        assert r == rest;
      }
    }
  }

  /** Configurations with the same framework are walked in the order they were configured. */
  lemma SameFrameworkInConfigOrder(fs: seq<string>, tokensOf: string -> seq<string>, kv: string -> KeyValue)
    ensures var m := BuildMap(Keyed(fs, tokensOf, kv, |fs|));
            forall i, j :: 0 <= i < j < |m| && m[i].0 == m[j].0 ==> m[i].1 < m[j].1
  {
    BuildMapStable(Keyed(fs, tokensOf, kv, |fs|));
  }

  /** main starts no more front ends than there are configurations. */
  lemma StartedBound(frontends: seq<string>, tokensOf: string -> seq<string>, kv: string -> KeyValue,
                     strtol: string -> Strtol)
    ensures |Started(frontends, tokensOf, kv, strtol)| <= |DefaultFrontends(frontends)|
  {
    var fs := DefaultFrontends(frontends);
    var es := Keyed(fs, tokensOf, kv, |fs|);
    BuildMapSortedPermutation(es);
    assert |BuildMap(es)| == |multiset(BuildMap(es))| == |multiset(es)| == |es|;
  }

  /** The started front ends are ordered by framework name (the multimap's order). */
  lemma StartedInFrameworkOrder(frontends: seq<string>, tokensOf: string -> seq<string>, kv: string -> KeyValue,
                                strtol: string -> Strtol)
    ensures FrameworkOrdered(Started(frontends, tokensOf, kv, strtol))
  {
    var fs := DefaultFrontends(frontends);
    var es := Keyed(fs, tokensOf, kv, |fs|);
    BuildMapSortedPermutation(es);
    BuildMapIndices(fs, tokensOf, kv, |fs|);
    DispatchAllSorted(BuildMap(es), fs, tokensOf, kv, strtol);
    assert Started(frontends, tokensOf, kv, strtol) == DispatchAll(BuildMap(es), fs, tokensOf, kv, strtol);
  }

  /**
   * A front end is started exactly for the configurations whose framework is
   * fastcgi, fcgi or mongoose; the others are skipped.
   */
  lemma StartedExactlyKnown(frontends: seq<string>, tokensOf: string -> seq<string>, kv: string -> KeyValue,
                            strtol: string -> Strtol)
    ensures var fs := DefaultFrontends(frontends);
            forall x :: x in Started(frontends, tokensOf, kv, strtol)
              <==> exists i :: 0 <= i < |fs| && Dispatch(Parsed(fs[i], tokensOf, kv), fs[i], strtol) == Some(x)
  {
    var fs := DefaultFrontends(frontends);
    var es := Keyed(fs, tokensOf, kv, |fs|);
    var m := BuildMap(es);
    BuildMapSortedPermutation(es);
    BuildMapIndices(fs, tokensOf, kv, |fs|);
    forall x | x in Started(frontends, tokensOf, kv, strtol)
      ensures exists i :: 0 <= i < |fs| && Dispatch(Parsed(fs[i], tokensOf, kv), fs[i], strtol) == Some(x)
    {
      DispatchAllFrom(m, fs, tokensOf, kv, strtol, x);
      var k :| 0 <= k < |m| && DispatchEntry(m[k], fs, tokensOf, kv, strtol) == Some(x);
      assert m[k].1 < |fs|;
    }
    forall x | exists i :: 0 <= i < |fs| && Dispatch(Parsed(fs[i], tokensOf, kv), fs[i], strtol) == Some(x)
      ensures x in Started(frontends, tokensOf, kv, strtol)
    {
      var i :| 0 <= i < |fs| && Dispatch(Parsed(fs[i], tokensOf, kv), fs[i], strtol) == Some(x);
      assert es[i] in multiset(m);
      var k :| 0 <= k < |m| && m[k] == es[i];
      assert DispatchEntry(m[k], fs, tokensOf, kv, strtol) == Some(x);
      DispatchAllHas(m, fs, tokensOf, kv, strtol, k);
    }
  }

  /** With no front end configured, main starts exactly one FastCGI front end. */
  lemma DefaultStartsFastcgi(tokensOf: string -> seq<string>, kv: string -> KeyValue, strtol: string -> Strtol)
    requires tokensOf("fastcgi") == ["fastcgi"]
    ensures AllInit(DefaultFrontends([]), tokensOf, kv)
    ensures Started([], tokensOf, kv, strtol) == [FcgxFrontend("fastcgi", "fastcgi")]
  {
    var fs := DefaultFrontends([]);
    assert Parsed("fastcgi", tokensOf, kv) == ParseOutcome(0, "fastcgi", map[]);
    var es := Keyed(fs, tokensOf, kv, 1);
    assert es == [("fastcgi", 0)];
    assert BuildMap(es) == Insert([], ("fastcgi", 0)) == [("fastcgi", 0)];
  }

  /** The configurations of `fs` hold what their init() produced. */
  predicate ConfigsMatch(configs: seq<Config>, fs: seq<string>, tokensOf: string -> seq<string>,
                         kv: string -> KeyValue, n: nat)
    requires n <= |configs| && n <= |fs|
    reads set j | 0 <= j < n :: configs[j]
  {
    forall j :: 0 <= j < n ==>
      (&& configs[j].config == fs[j]
       && configs[j].framework == Parsed(fs[j], tokensOf, kv).framework
       && configs[j].configMap == Parsed(fs[j], tokensOf, kv).configMap)
  }

  /**
   * The first loop of main: a configuration per entry, each initialised and
   * inserted into the multimap under its framework; it stops at the first
   * configuration that fails to initialise.
   */
  method InitConfigs(fs: seq<string>, tokensOf: string -> seq<string>, kv: string -> KeyValue)
    returns (ok: bool, configs: seq<Config>, feMap: seq<Entry>)
    ensures ok <==> AllInit(fs, tokensOf, kv)
    ensures ok ==> |configs| == |fs| && ConfigsMatch(configs, fs, tokensOf, kv, |fs|)
    ensures ok ==> feMap == BuildMap(Keyed(fs, tokensOf, kv, |fs|))
  {
    configs := [];
    feMap := [];
    var i := 0;
    while i < |fs|
      invariant 0 <= i <= |fs| && |configs| == i
      invariant forall j :: 0 <= j < i ==> Parsed(fs[j], tokensOf, kv).ret >= 0
      invariant ConfigsMatch(configs, fs, tokensOf, kv, i)
      invariant feMap == BuildMap(Keyed(fs, tokensOf, kv, i))
    {
      var f := fs[i];
      var config := new Config(f);
      var r := config.Init(tokensOf(f), kv);
      if r < 0 {
        return false, configs, feMap;
      }
      configs := configs + [config];
      var framework := config.Framework();
      assert Keyed(fs, tokensOf, kv, i + 1)[..i] == Keyed(fs, tokensOf, kv, i);
      feMap := Insert(feMap, (framework, |configs| - 1));
      i := i + 1;
    }
    ok := true;
  }

  /**
   * The second loop of main: walk the multimap in order and start the front
   * end of each entry's configuration, skipping unknown frameworks.
   */
  method StartEntries(fs: seq<string>, configs: seq<Config>, feMap: seq<Entry>,
                      tokensOf: string -> seq<string>, kv: string -> KeyValue, strtol: string -> Strtol)
    returns (started: seq<Frontend>)
    requires |configs| == |fs| && ConfigsMatch(configs, fs, tokensOf, kv, |fs|)
    requires IndicesBelow(feMap, |fs|)
    ensures started == DispatchAll(feMap, fs, tokensOf, kv, strtol)
  {
    started := [];
    var j := 0;
    while j < |feMap|
      invariant 0 <= j <= |feMap|
      invariant started == DispatchAll(feMap[..j], fs, tokensOf, kv, strtol)
    {
      var config := configs[feMap[j].1];
      var framework := config.Framework();
      assert feMap[..j + 1][..j] == feMap[..j];
      if framework == "fastcgi" || framework == "fcgi" {
        started := started + [FcgxFrontend(framework, config.config)];
      } else if framework == "mongoose" {
        var _, port := config.GetIntVal("port", 80, strtol);
        started := started + [MongooseFrontend(config.config, port)];
      }
      j := j + 1;
    }
    assert feMap[..|feMap|] == feMap;
  }

  /**
   * The front-end part of main: default, initialise each configuration (any
   * failure ends main with EINVAL before anything starts), fill the multimap,
   * then start each entry's front end in key order.
   */
  method StartFrontends(frontends: seq<string>, tokensOf: string -> seq<string>, kv: string -> KeyValue,
                        strtol: string -> Strtol) returns (ret: int, started: seq<Frontend>)
    ensures ret == 0 <==> AllInit(DefaultFrontends(frontends), tokensOf, kv)
    ensures ret != 0 ==> ret == EINVAL && started == []
    ensures ret == 0 ==> started == Started(frontends, tokensOf, kv, strtol)
  {
    var fs := frontends;
    if |fs| == 0 {
      fs := fs + ["fastcgi"];
    }
    assert fs == DefaultFrontends(frontends);
    var ok, configs, feMap := InitConfigs(fs, tokensOf, kv);
    if !ok {
      return EINVAL, [];
    }
    BuildMapIndices(fs, tokensOf, kv, |fs|);
    started := StartEntries(fs, configs, feMap, tokensOf, kv, strtol);
    ret := 0;
  }
}
