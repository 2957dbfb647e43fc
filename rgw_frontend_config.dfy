// The gateway's front-end configuration: a space-separated token list whose
// first token names the framework and whose other tokens are `key` or
// `key=val` settings, and the two lookups with defaults.
//
// The token splitter (get_str_list), parse_key_value and strict_strtol are not
// part of this model: the tokens are given, and the other two are passed in as
// functions whose results carry what their callers rely on.

module FrontendConfig {
  import opened Wrappers

  /** A negative error code. */
  type NegInt = x: int | x < 0 witness -1

  /** Result of parse_key_value on one `key=val` token. */
  datatype KeyValue = KvOk(key: string, val: string) | KvErr(code: NegInt)

  /** Result of strict_strtol: the converted value and the error text ("" when none). */
  datatype Strtol = Strtol(value: int, err: string)

  /** What parsing leaves behind: the return code, the framework and the settings. */
  datatype ParseOutcome = ParseOutcome(ret: int, framework: string, configMap: map<string, string>)

  /** The setting a token after the framework name contributes, if it parses. */
  function EntryOf(t: string, kv: string -> KeyValue): (e: Option<(string, string)>)
    ensures '=' !in t ==> e == Some((t, ""))
    ensures '=' in t ==> (e.Some? <==> kv(t).KvOk?)
  {
    if '=' !in t then Some((t, ""))
    else match kv(t)
      case KvOk(k, v) => Some((k, v))
      case KvErr(_) => None
  }

  /** True when token `t` sets key `k`. */
  predicate Defines(t: string, kv: string -> KeyValue, k: string)
  {
    EntryOf(t, kv).Some? && EntryOf(t, kv).value.0 == k
  }

  /**
   * The token loop of parse_config, from the framework and settings held so far.
   * While no framework is known the token becomes the framework; a token
   * without '=' is a key with an empty value; a `key=val` token goes through
   * parse_key_value, whose failure ends the loop with its code.
   */
  function ParseTokens(framework: string, m: map<string, string>, tokens: seq<string>,
                       kv: string -> KeyValue): (r: ParseOutcome)
    ensures r.ret <= 0
    ensures framework != "" ==> r.framework == framework
    decreases |tokens|
  {
    if tokens == [] then ParseOutcome(0, framework, m)
    else
      var entry := tokens[0];
      if framework == "" then ParseTokens(entry, m, tokens[1..], kv)
      else if '=' !in entry then ParseTokens(framework, m[entry := ""], tokens[1..], kv)
      else match kv(entry)
        case KvErr(code) => ParseOutcome(code, framework, m)
        case KvOk(k, v) => ParseTokens(framework, m[k := v], tokens[1..], kv)
  }

  /** The first token of a fresh configuration names the framework and adds no setting. */
  lemma FirstTokenIsFramework(t: string, rest: seq<string>, kv: string -> KeyValue)
    requires t != ""
    ensures ParseTokens("", map[], [t] + rest, kv) == ParseTokens(t, map[], rest, kv)
    ensures ParseTokens("", map[], [t] + rest, kv).framework == t
  {
    assert ([t] + rest)[1..] == rest;
  }

  /** Once the framework is known, parsing succeeds exactly when every token parses. */
  lemma {:induction false} ParseSucceedsIff(framework: string, m: map<string, string>,
                                           tokens: seq<string>, kv: string -> KeyValue)
    requires framework != ""
    ensures ParseTokens(framework, m, tokens, kv).ret == 0
            <==> forall i :: 0 <= i < |tokens| ==> EntryOf(tokens[i], kv).Some?
    decreases |tokens|
  {
    if tokens != [] {
      var e := EntryOf(tokens[0], kv);
      if e.Some? {
        var m' := m[e.value.0 := e.value.1];
        ParseSucceedsIff(framework, m', tokens[1..], kv);
        assert ParseTokens(framework, m, tokens, kv) == ParseTokens(framework, m', tokens[1..], kv);
        assert forall i :: 1 <= i < |tokens| ==> tokens[i] == tokens[1..][i - 1];
      }
    }
  }

  /** A failing parse_key_value returns its own code: the code of the first bad token. */
  lemma {:induction false} ParseStopsAtFirstError(framework: string, m: map<string, string>,
                                                 tokens: seq<string>, kv: string -> KeyValue, i: nat)
    requires framework != ""
    requires i < |tokens| && EntryOf(tokens[i], kv).None?
    requires forall j :: 0 <= j < i ==> EntryOf(tokens[j], kv).Some?
    ensures ParseTokens(framework, m, tokens, kv).ret == kv(tokens[i]).code
    decreases |tokens|
  {
    if i > 0 {
      var e := EntryOf(tokens[0], kv);
      var m' := m[e.value.0 := e.value.1];
      assert ParseTokens(framework, m, tokens, kv) == ParseTokens(framework, m', tokens[1..], kv);
      ParseStopsAtFirstError(framework, m', tokens[1..], kv, i - 1);
    }
  }

  /** A key no token sets keeps whatever value it had. */
  lemma {:induction false} UntouchedKey(framework: string, m: map<string, string>,
                                       tokens: seq<string>, kv: string -> KeyValue, k: string)
    requires framework != ""
    requires forall i :: 0 <= i < |tokens| ==> EntryOf(tokens[i], kv).Some?
    requires forall i :: 0 <= i < |tokens| ==> !Defines(tokens[i], kv, k)
    ensures var r := ParseTokens(framework, m, tokens, kv).configMap;
            (k in r <==> k in m) && (k in m ==> r[k] == m[k])
    decreases |tokens|
  {
    if tokens != [] {
      var e := EntryOf(tokens[0], kv);
      var m' := m[e.value.0 := e.value.1];
      assert ParseTokens(framework, m, tokens, kv) == ParseTokens(framework, m', tokens[1..], kv);
      assert forall i :: 0 <= i < |tokens[1..]| ==> tokens[1..][i] == tokens[i + 1];
      UntouchedKey(framework, m', tokens[1..], kv, k);
    }
  }

  /** When a key is set several times, the last token that sets it wins. */
  lemma {:induction false} LastSettingWins(framework: string, m: map<string, string>,
                                          tokens: seq<string>, kv: string -> KeyValue, i: nat)
    requires framework != ""
    requires forall j :: 0 <= j < |tokens| ==> EntryOf(tokens[j], kv).Some?
    requires i < |tokens|
    requires forall j :: i < j < |tokens| ==> !Defines(tokens[j], kv, EntryOf(tokens[i], kv).value.0)
    ensures var e := EntryOf(tokens[i], kv).value;
            var r := ParseTokens(framework, m, tokens, kv).configMap;
            e.0 in r && r[e.0] == e.1
    decreases |tokens|
  {
    var e := EntryOf(tokens[0], kv);
    var m' := m[e.value.0 := e.value.1];
    assert ParseTokens(framework, m, tokens, kv) == ParseTokens(framework, m', tokens[1..], kv);
    assert forall j :: 0 <= j < |tokens[1..]| ==> tokens[1..][j] == tokens[j + 1];
    if i == 0 {
      UntouchedKey(framework, m', tokens[1..], kv, e.value.0);
    } else {
      LastSettingWins(framework, m', tokens[1..], kv, i - 1);
    }
  }

  /** RGWFrontendConfig: the raw configuration text, its settings and its framework. */
  class Config {
    var config: string
    var configMap: map<string, string>
    var framework: string

    constructor (conf: string)
      ensures config == conf && configMap == map[] && framework == ""
    {
      config := conf;
      configMap := map[];
      framework := "";
    }

    /**
     * parse_config over `tokens`, the space-separated tokens of the text.
     * The settings and the framework are updated in place, also on failure.
     */
    method ParseConfig(tokens: seq<string>, kv: string -> KeyValue) returns (ret: int)
      modifies this
      ensures config == old(config)
      ensures ParseOutcome(ret, framework, configMap)
              == ParseTokens(old(framework), old(configMap), tokens, kv)
    {
      var i := 0;
      while i < |tokens|
        invariant 0 <= i <= |tokens|
        invariant config == old(config)
        invariant ParseTokens(framework, configMap, tokens[i..], kv)
                  == ParseTokens(old(framework), old(configMap), tokens, kv)
      {
        var entry := tokens[i];
        assert tokens[i..][0] == entry && tokens[i..][1..] == tokens[i + 1..];
        if framework == "" {
          framework := entry;
          i := i + 1;
          continue;
        }
        if '=' !in entry {
          configMap := configMap[entry := ""];
          i := i + 1;
          continue;
        }
        match kv(entry)
        case KvErr(code) =>
          return code;
        case KvOk(key, val) =>
          configMap := configMap[key := val];
          i := i + 1;
      }
      assert tokens[i..] == [];
      ret := 0;
    }

    /** init(): parse the configuration text, given its tokens. */
    method Init(tokens: seq<string>, kv: string -> KeyValue) returns (ret: int)
      modifies this
      ensures config == old(config)
      ensures ParseOutcome(ret, framework, configMap)
              == ParseTokens(old(framework), old(configMap), tokens, kv)
    {
      ret := ParseConfig(tokens, kv);
      if ret < 0 {
        return ret;
      }
      ret := 0;
    }

    /** get_val for strings: the stored value, or the default when the key is absent. */
    method GetVal(key: string, defVal: string) returns (found: bool, out: string)
      ensures found <==> key in configMap
      ensures found ==> out == configMap[key]
      ensures !found ==> out == defVal
    {
      if key !in configMap {
        return false, defVal;
      }
      return true, configMap[key];
    }

    /**
     * get_val for integers as written: a present key's text goes through
     * strict_strtol and its value is stored even on error; the bool result is
     * the C++ conversion of 0 (success) and -EINVAL (parse error).
     */
    method GetIntVal(key: string, defVal: int, strtol: string -> Strtol) returns (r: bool, out: int)
      ensures key !in configMap ==> !r && out == defVal
      ensures key in configMap ==> out == strtol(configMap[key]).value
      ensures key in configMap ==> (r <==> strtol(configMap[key]).err != "")
    {
      var found, str := GetVal(key, "");
      if !found {
        return false, defVal;
      }
      var parsed := strtol(str);
      out := parsed.value;
      if parsed.err != "" {
        return true, out;
      }
      return false, out;
    }

    /** get_val for integers as evidently intended: true exactly when a value was found and parsed. */
    method GetIntValIntended(key: string, defVal: int, strtol: string -> Strtol) returns (r: bool, out: int)
      ensures r <==> key in configMap && strtol(configMap[key]).err == ""
      ensures key !in configMap ==> out == defVal
      ensures key in configMap ==> out == strtol(configMap[key]).value
    {
      var found, str := GetVal(key, "");
      if !found {
        return false, defVal;
      }
      var parsed := strtol(str);
      return parsed.err == "", parsed.value;
    }

    /** get_framework(). */
    function Framework(): (f: string)
      reads this
      ensures f == framework
    {
      framework
    }
  }

  /**
   * A mongoose front end configured with `port=8080`: the integer lookup finds
   * and parses the port yet reports false, while the intended lookup reports true.
   */
  method IntLookupReportsFalseOnSuccess() returns (asWritten: bool, intended: bool, port: int)
    ensures !asWritten && intended && port == 8080
  {
    var c := new Config("mongoose port=8080");
    var kv := (e: string) => if e == "port=8080" then KvOk("port", "8080") else KvErr(-22);
    var strtol := (s: string) => if s == "8080" then Strtol(8080, "") else Strtol(0, "not a number");
    var ret := c.Init(["mongoose", "port=8080"], kv);
    assert "mongoose" != "";
    assert '=' in "port=8080";
    assert c.configMap == map["port" := "8080"];
    asWritten, port := c.GetIntVal("port", 80, strtol);
    var p2;
    intended, p2 := c.GetIntValIntended("port", 80, strtol);
  }
}
