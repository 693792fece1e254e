/**
 * The nested configuration dictionaries of the setup wizard (setup_wizard.py):
 * `deep_update`, `get_nested`, `set_nested` and `load_template_data`. A dict
 * that the code mutates in place is a `Dict` object holding a map; the dicts
 * nested inside it are values.
 */
module ConfigTree {
  import opened Wrappers
  import opened JsonValue

  type Fields = map<string, Json>

  // ---------------------------------------------------------------------------
  // Specification functions
  // ---------------------------------------------------------------------------

  /** The value reached by following `path` from `cur`, if every step meets a dict holding the key. */
  function Lookup(cur: Json, path: seq<string>): Option<Json>
    decreases |path|
  {
    if path == [] then Some(cur)
    else if cur.Obj? && path[0] in cur.fields then Lookup(cur.fields[path[0]], path[1..])
    else None
  }

  /** The dict stored under `key`, or a fresh `{}` when there is none or it is not a dict. */
  function Child(m: Fields, key: string): Fields {
    if key in m && m[key].Obj? then m[key].fields else map[]
  }

  /** `m` after writing `v` at `path`, creating or replacing intermediate dicts on the way. */
  function SetPath(m: Fields, path: seq<string>, v: Json): Fields
    decreases |path|
  {
    if path == [] then m
    else if |path| == 1 then m[path[0] := v]
    else m[path[0] := Obj(SetPath(Child(m, path[0]), path[1..], v))]
  }

  /** `base` with `over` merged into it recursively: dicts meeting dicts merge, anything else replaces. */
  function Merge(base: Fields, over: Fields): (r: Fields)
    ensures r.Keys == base.Keys + over.Keys
    decreases Obj(over)
  {
    map k | k in base.Keys + over.Keys ::
      if k in over then
        if over[k].Obj? && k in base && base[k].Obj? then Obj(Merge(base[k].fields, over[k].fields))
        else over[k]
      else base[k]
  }

  /**
   * Merging one more key of `over`: the keys not yet merged still hold the
   * base's values, and the key's merged value is added.
   */
  lemma MergeOneMore(base: Fields, over: Fields, pending: set<string>, key: string)
    requires key in pending && pending <= over.Keys
    ensures var done := Merge(base, over - pending);
            (key in done <==> key in base) && (key in base ==> done[key] == base[key])
    ensures Merge(base, over - (pending - {key})) ==
              Merge(base, over - pending)[key :=
                if over[key].Obj? && key in base && base[key].Obj? then Obj(Merge(base[key].fields, over[key].fields))
                else over[key]]
  {
    var before, after := Merge(base, over - pending), Merge(base, over - (pending - {key}));
    var v := if over[key].Obj? && key in base && base[key].Obj? then Obj(Merge(base[key].fields, over[key].fields))
             else over[key];
    assert after.Keys == before[key := v].Keys;
    forall k | k in after.Keys
      ensures after[k] == before[key := v][k]
    {
    }
  }

  /** Two paths that part ways: neither is a prefix of the other. */
  predicate Diverge(p: seq<string>, q: seq<string>)
    decreases |p|
  {
    |p| > 0 && |q| > 0 && (p[0] != q[0] || Diverge(p[1..], q[1..]))
  }

  /** `over` holds nothing that would replace the value at `path`: it stops short of it through dicts only. */
  predicate Untouched(over: Fields, path: seq<string>)
    decreases |path|
  {
    |path| > 0 &&
    (path[0] !in over || (over[path[0]].Obj? && Untouched(over[path[0]].fields, path[1..])))
  }

  // ---------------------------------------------------------------------------
  // The mutable dict
  // ---------------------------------------------------------------------------

  class Dict {
    var entries: Fields

    constructor (init: Fields)
      ensures entries == init
    {
      entries := init;
    }

    /** `get_nested(self, path, default)`. */
    method GetNested(path: seq<string>, default: Json) returns (r: Json)
      ensures Lookup(Obj(entries), path).Some? ==> r == Lookup(Obj(entries), path).value
      ensures Lookup(Obj(entries), path).None? ==> r == default
    {
      var current := Obj(entries);
      var i := 0;
      while i < |path|
        invariant 0 <= i <= |path|
        invariant Lookup(current, path[i..]) == Lookup(Obj(entries), path)
      {
        assert path[i..][0] == path[i] && path[i..][1..] == path[i + 1..];
        if !current.Obj? || path[i] !in current.fields {
          return default;
        }
        current := current.fields[path[i]];
        i := i + 1;
      }
      assert path[i..] == [];
      return current;
    }

    /**
     * `set_nested(self, path, value)`: walk down to the parent of the last
     * key, replacing what is not a dict by `{}`, then store the value there.
     * The walk records each dict it passes; storing rebuilds them upwards.
     */
    method SetNested(path: seq<string>, value: Json)
      modifies this
      ensures entries == SetPath(old(entries), path, value)
    {
      if path == [] {
        return;
      }
      var last := |path| - 1;
      var chain: seq<Fields> := [entries];
      var i := 0;
      while i < last
        invariant 0 <= i <= last
        invariant |chain| == i + 1 && chain[0] == entries
        invariant forall j :: 0 <= j < i ==> chain[j + 1] == Child(chain[j], path[j])
      {
        chain := chain + [Child(chain[i], path[i])];
        i := i + 1;
      }
      var node := chain[last][path[last] := value];
      assert node == SetPath(chain[last], path[last..], value);
      var j := last;
      while j > 0
        invariant 0 <= j <= last
        invariant node == SetPath(chain[j], path[j..], value)
      {
        j := j - 1;
        assert path[j..][0] == path[j] && path[j..][1..] == path[j + 1..];
        node := chain[j][path[j] := Obj(node)];
      }
      assert path[0..] == path;
      entries := node;
    }

    /** `deep_update(self, over)`: merges in place and returns the same dict. */
    method DeepUpdate(over: Fields) returns (same: Dict)
      modifies this
      ensures same == this
      ensures entries == Merge(old(entries), over)
      decreases Obj(over)
    {
      var pending := over.Keys;
      while pending != {}
        invariant pending <= over.Keys
        invariant entries == Merge(old(entries), over - pending)
        decreases pending
      {
        var key :| key in pending;
        MergeOneMore(old(entries), over, pending, key);
        var value := over[key];
        if value.Obj? && key in entries && entries[key].Obj? {
          var child := new Dict(entries[key].fields);
          var _ := child.DeepUpdate(value.fields);
          entries := entries[key := Obj(child.entries)];
        } else {
          entries := entries[key := value];
        }
        pending := pending - {key};
      }
      assert over - {} == over;
      same := this;
    }
  }

  // ---------------------------------------------------------------------------
  // Paths: get after set, frame, set of get
  // ---------------------------------------------------------------------------

  /** Reading a path just written gives the value written. */
  lemma {:induction false} GetAfterSet(m: Fields, path: seq<string>, v: Json)
    requires path != []
    ensures Lookup(Obj(SetPath(m, path, v)), path) == Some(v)
    decreases |path|
  {
    if |path| == 1 {
      assert path[1..] == [];
    } else {
      GetAfterSet(Child(m, path[0]), path[1..], v);
    }
  }

  /** Writing one path leaves every path that parts ways with it as it was. */
  lemma {:induction false} SetFrame(m: Fields, p: seq<string>, q: seq<string>, v: Json)
    requires Diverge(p, q)
    ensures Lookup(Obj(SetPath(m, p, v)), q) == Lookup(Obj(m), q)
    decreases |p|
  {
    if p[0] != q[0] {
    } else {
      var c := Child(m, p[0]);
      SetFrame(c, p[1..], q[1..], v);
      if p[0] in m && m[p[0]].Obj? {
        assert Lookup(Obj(m), q) == Lookup(Obj(c), q[1..]);
      } else {
        assert Lookup(Obj(c), q[1..]) == None;
      }
    }
  }

  /** Parting ways is symmetric. */
  lemma {:induction false} DivergeSymmetric(p: seq<string>, q: seq<string>)
    requires Diverge(p, q)
    ensures Diverge(q, p)
    decreases |p|
  {
    if p[0] == q[0] {
      DivergeSymmetric(p[1..], q[1..]);
    }
  }

  /** No path of `ps` is a prefix of another: each pair parts ways. */
  predicate Separated(ps: seq<seq<string>>) {
    forall i, j :: 0 <= i < j < |ps| ==> Diverge(ps[i], ps[j])
  }

  /** In a separated list of two or more paths, no path is empty. */
  lemma SeparatedNonEmpty(ps: seq<seq<string>>, i: nat)
    requires Separated(ps) && 2 <= |ps| && i < |ps|
    ensures ps[i] != []
  {
    if i == 0 {
      assert Diverge(ps[0], ps[1]);
    } else {
      assert Diverge(ps[0], ps[i]);
    }
  }

  /**
   * Two separated lists whose paths start with keys from disjoint sets are
   * separated together.
   */
  lemma SeparatedConcat(a: seq<seq<string>>, b: seq<seq<string>>, ha: set<string>, hb: set<string>)
    requires Separated(a) && Separated(b) && ha !! hb
    requires forall i :: 0 <= i < |a| ==> a[i] != [] && a[i][0] in ha
    requires forall j :: 0 <= j < |b| ==> b[j] != [] && b[j][0] in hb
    ensures Separated(a + b)
    ensures forall i :: 0 <= i < |a + b| ==> (a + b)[i] != [] && (a + b)[i][0] in ha + hb
  {
    var ps := a + b;
    forall i, j | 0 <= i < j < |ps|
      ensures Diverge(ps[i], ps[j])
    {
      if j < |a| {
        assert ps[i] == a[i] && ps[j] == a[j];
      } else if i >= |a| {
        assert ps[i] == b[i - |a|] && ps[j] == b[j - |a|];
      } else {
        assert ps[i] == a[i] && ps[j] == b[j - |a|];
        assert ps[i][0] in ha && ps[j][0] in hb;
      }
    }
  }

  /** Distinct paths of the same length part ways. */
  lemma {:induction false} DistinctSameLength(p: seq<string>, q: seq<string>)
    requires |p| == |q| > 0 && p != q
    ensures Diverge(p, q)
    decreases |p|
  {
    if p[0] == q[0] {
      assert p[1..] != q[1..] by { assert p == [p[0]] + p[1..] && q == [q[0]] + q[1..]; }
      DistinctSameLength(p[1..], q[1..]);
    }
  }

  /**
   * Distinct paths are separated when they come in two depths that never
   * share a first key: three keys deep under `h`, two keys deep elsewhere.
   */
  lemma SeparatedByShape(ps: seq<seq<string>>, h: string)
    requires forall i, j :: 0 <= i < j < |ps| ==> ps[i] != ps[j]
    requires forall i :: 0 <= i < |ps| ==>
               (|ps[i]| == 3 && ps[i][0] == h) || (|ps[i]| == 2 && ps[i][0] != h)
    ensures Separated(ps)
  {
    forall i, j | 0 <= i < j < |ps|
      ensures Diverge(ps[i], ps[j])
    {
      if |ps[i]| == |ps[j]| {
        DistinctSameLength(ps[i], ps[j]);
      }
    }
  }

  /** Writing back the value a path already holds changes nothing. */
  lemma {:induction false} SetOfGet(m: Fields, path: seq<string>, v: Json)
    requires path != [] && Lookup(Obj(m), path) == Some(v)
    ensures SetPath(m, path, v) == m
    decreases |path|
  {
    if |path| > 1 {
      SetOfGet(m[path[0]].fields, path[1..], v);
      assert Child(m, path[0]) == m[path[0]].fields;
    }
  }

  /** Setting along the empty path is a no-op. */
  lemma SetEmptyPath(m: Fields, v: Json)
    ensures SetPath(m, [], v) == m
  {
  }

  // ---------------------------------------------------------------------------
  // Merge: the override's leaves win, the rest of the base survives
  // ---------------------------------------------------------------------------

  /** Every non-dict value the override holds is found at the same path after the merge. */
  lemma {:induction false} MergeLeafWins(base: Fields, over: Fields, path: seq<string>, v: Json)
    requires path != [] && Lookup(Obj(over), path) == Some(v) && !v.Obj?
    ensures Lookup(Obj(Merge(base, over)), path) == Some(v)
    decreases |path|
  {
    var k := path[0];
    var r := Merge(base, over);
    assert k in r;
    if |path| == 1 {
      assert r[k] == v;
    } else if k in base && base[k].Obj? && over[k].Obj? {
      MergeLeafWins(base[k].fields, over[k].fields, path[1..], v);
      assert r[k] == Obj(Merge(base[k].fields, over[k].fields));
    } else {
      assert r[k] == over[k];
    }
  }

  /** A value of the base at a path the override does not reach survives the merge. */
  lemma {:induction false} MergeKeepsBase(base: Fields, over: Fields, path: seq<string>, v: Json)
    requires Lookup(Obj(base), path) == Some(v) && Untouched(over, path)
    ensures Lookup(Obj(Merge(base, over)), path) == Some(v)
    decreases |path|
  {
    var k := path[0];
    var r := Merge(base, over);
    if k !in over {
      assert r[k] == base[k];
    } else {
      assert |path| > 1;
      MergeKeepsBase(base[k].fields, over[k].fields, path[1..], v);
      assert r[k] == Obj(Merge(base[k].fields, over[k].fields));
    }
  }

  /** Merging a dict into itself changes nothing. */
  lemma {:induction false} MergeIdempotent(m: Fields)
    ensures Merge(m, m) == m
    decreases Obj(m)
  {
    forall k | k in m
      ensures Merge(m, m)[k] == m[k]
    {
      if m[k].Obj? {
        MergeIdempotent(m[k].fields);
      }
    }
  }

  /** An override without nested dicts is a plain update. */
  lemma FlatMergeIsUpdate(base: Fields, over: Fields)
    requires forall k :: k in over ==> !over[k].Obj?
    ensures Merge(base, over) == base + over
  {
  }

  // ---------------------------------------------------------------------------
  // load_template_data
  // ---------------------------------------------------------------------------

  /** `DEFAULT_TEMPLATE`. */
  function DefaultTemplate(): Fields {
    map[
      "server" := Obj(map["host" := Str("127.0.0.1"), "port" := Num(5050)]),
      "features" := Obj(map["work" := Bool(true), "home" := Bool(true), "mobile" := Bool(false),
                            "assistant_embeddings" := Bool(false)]),
      "paths" := Obj(map["desktop_export" := Str(""), "icons_dir" := Str(""), "avatar_path" := Str(""),
                         "rag_docs_dir" := Str(""), "db_path" := Str("monky.db")]),
      "integrations" := Obj(map[
        "openrouter_key" := Str(""), "openrouter_model" := Str("openrouter/auto"),
        "genesis_key" := Str(""), "genesis_model" := Str("llama-3.3-70b-instruct"),
        "default_model" := Str("monky-local"), "openai_key" := Str(""),
        "openai_model" := Str("gpt-4o-mini"), "openai_base" := Str("https://api.openai.com/v1"),
        "qwen_key" := Str(""), "qwen_model" := Str("qwen-turbo"),
        "qwen_base" := Str("https://dashscope-intl.aliyuncs.com/compatible-mode/v1"),
        "ollama_host" := Str("http://localhost:11434"), "ollama_home_model" := Str("llama3"),
        "genesis_base" := Str("https://api.ai.us.lmco.com/v1")]),
      "security" := Obj(map["vault_passphrase" := Str(""), "vault_pin" := Str("1234")]),
      "network" := Obj(map["sync_relay_url" := Str(""), "host_ip" := Str(""), "router_ip" := Str("")]),
      "apps" := Obj(map["default" := Str("work")]),
      "storage" := Obj(map[
        "work" := Obj(map["provider" := Str("local"), "root" := Str("storage/work")]),
        "home" := Obj(map["provider" := Str("local"), "root" := Str("storage/home")]),
        "shared" := Obj(map["provider" := Str("filesystem"), "sync_provider" := Str("google_drive"),
                            "mount_path" := Str("storage/shared")])]),
      "connectivity" := Obj(map["poll_seconds" := Num(20)])
    ]
  }

  /** The dict a file contributes: its decoded value when it exists, decodes and is a dict. */
  function FileDict(text: Option<string>, decode: string -> Option<Json>): Option<Fields> {
    if text.Some? && decode(text.value).Some? && decode(text.value).value.Obj? then
      Some(decode(text.value).value.fields)
    else None
  }

  /** `base` merged with a file's dict, if it contributes one. */
  function MergeFile(base: Fields, file: Option<Fields>): Fields {
    if file.Some? then Merge(base, file.value) else base
  }

  /** The configuration `load_template_data` builds: defaults, then the template file, then the config file. */
  function TemplateData(template: Option<string>, config: Option<string>,
                        decode: string -> Option<Json>): Fields
  {
    MergeFile(MergeFile(DefaultTemplate(), FileDict(template, decode)), FileDict(config, decode))
  }

  /**
   * `load_template_data()`. A file is `None` when it does not exist; `decode`
   * stands for reading it and `json.loads`, `None` when either raises.
   */
  method LoadTemplateData(template: Option<string>, config: Option<string>,
                          decode: string -> Option<Json>) returns (data: Dict)
    ensures fresh(data)
    ensures data.entries == TemplateData(template, config, decode)
  {
    data := new Dict(DefaultTemplate());
    var fromTemplate := FileDict(template, decode);
    if fromTemplate.Some? {
      var _ := data.DeepUpdate(fromTemplate.value);
    }
    var fromConfig := FileDict(config, decode);
    if fromConfig.Some? {
      var _ := data.DeepUpdate(fromConfig.value);
    }
  }

  /** The config file's leaves win over the template file's and the defaults'. */
  lemma ConfigFileWins(template: Option<string>, config: Option<string>, decode: string -> Option<Json>,
                       path: seq<string>, v: Json)
    requires FileDict(config, decode).Some?
    requires path != [] && Lookup(Obj(FileDict(config, decode).value), path) == Some(v) && !v.Obj?
    ensures Lookup(Obj(TemplateData(template, config, decode)), path) == Some(v)
  {
    MergeLeafWins(MergeFile(DefaultTemplate(), FileDict(template, decode)),
                  FileDict(config, decode).value, path, v);
  }

  /** Where the config file does not reach, the template file's leaves win over the defaults. */
  lemma TemplateFileWins(template: Option<string>, config: Option<string>, decode: string -> Option<Json>,
                         path: seq<string>, v: Json)
    requires FileDict(template, decode).Some?
    requires path != [] && Lookup(Obj(FileDict(template, decode).value), path) == Some(v) && !v.Obj?
    requires FileDict(config, decode).None? || Untouched(FileDict(config, decode).value, path)
    ensures Lookup(Obj(TemplateData(template, config, decode)), path) == Some(v)
  {
    var mid := Merge(DefaultTemplate(), FileDict(template, decode).value);
    MergeLeafWins(DefaultTemplate(), FileDict(template, decode).value, path, v);
    if FileDict(config, decode).Some? {
      MergeKeepsBase(mid, FileDict(config, decode).value, path, v);
    }
  }

  /** A default survives where neither file reaches it. */
  lemma DefaultSurvives(template: Option<string>, config: Option<string>, decode: string -> Option<Json>,
                        path: seq<string>, v: Json)
    requires Lookup(Obj(DefaultTemplate()), path) == Some(v)
    requires FileDict(template, decode).None? || Untouched(FileDict(template, decode).value, path)
    requires FileDict(config, decode).None? || Untouched(FileDict(config, decode).value, path)
    ensures Lookup(Obj(TemplateData(template, config, decode)), path) == Some(v)
  {
    var mid := MergeFile(DefaultTemplate(), FileDict(template, decode));
    if FileDict(template, decode).Some? {
      MergeKeepsBase(DefaultTemplate(), FileDict(template, decode).value, path, v);
    }
    if FileDict(config, decode).Some? {
      MergeKeepsBase(mid, FileDict(config, decode).value, path, v);
    }
  }
}
