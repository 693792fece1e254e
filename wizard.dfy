/**
 * The setup wizard's input rules (setup_wizard.py): `prompt` and
 * `prompt_bool`, the field tables, the GUI's `save_config` and the CLI's
 * `run_cli_wizard`. What the user typed is given as input: the text of each
 * GUI entry and checkbox, or the answer `input()` returned for each CLI
 * question (`None` when it raised `EOFError`).
 */
module Wizard {
  import opened Wrappers
  import opened JsonValue
  import opened PyText
  import opened ConfigTree

  // ---------------------------------------------------------------------------
  // prompt and prompt_bool
  // ---------------------------------------------------------------------------

  /** One answer to `input()`: the line typed, or `None` for end of input. */
  type Answer = Option<string>

  /** An answer that is missing or all whitespace. */
  predicate Blank(answer: Answer) {
    answer.None? || Strip(answer.value) == ""
  }

  /** `prompt(text, default)`: the stripped answer, or `default` when it is blank. */
  function Prompt(answer: Answer, default: string): (r: string)
    ensures Blank(answer) ==> r == default
    ensures !Blank(answer) ==> r == Strip(answer.value) && r != ""
    ensures !Blank(answer) ==> Strip(r) == r
  {
    var value := if answer.Some? then Strip(answer.value) else "";
    if value != "" then
      StripKeepsTrimmed(value);
      value
    else default
  }

  /** Typing back what `prompt` returned gives the same value, whatever the default. */
  lemma PromptReentered(answer: Answer, default: string, other: string)
    requires !Blank(answer)
    ensures !Blank(Some(Prompt(answer, default)))
    ensures Prompt(Some(Prompt(answer, default)), other) == Prompt(answer, default)
  {
  }

  /** The answers `prompt_bool` reads as yes. */
  const YesWords: set<string> := {"y", "yes", "1", "true"}

  /** `prompt_bool(text, default)`: `default` on a blank answer, else whether it is a yes-word in any case. */
  function PromptBool(answer: Answer, default: bool): (r: bool)
    ensures Blank(answer) ==> r == default
    ensures !Blank(answer) ==> (r <==> Lower(Strip(answer.value)) in YesWords)
  {
    var value := if answer.Some? then Lower(Strip(answer.value)) else "";
    if value == "" then default else value in YesWords
  }

  /** Case does not matter: answers that differ only in ASCII case get the same reading. */
  lemma PromptBoolIgnoresCase(a: string, b: string, default: bool)
    requires Lower(Strip(a)) == Lower(Strip(b))
    ensures PromptBool(Some(a), default) == PromptBool(Some(b), default)
  {
    assert |Lower(Strip(a))| == |Strip(a)| && |Lower(Strip(b))| == |Strip(b)|;
  }

  // ---------------------------------------------------------------------------
  // Field tables
  // ---------------------------------------------------------------------------

  /** A text entry: its caption, where it lives in the config, and whether it is coerced with `int`. */
  datatype EntryField = EntryField(caption: string, path: seq<string>, isInt: bool)

  /** A checkbox: its caption and where its flag lives. */
  datatype ToggleField = ToggleField(caption: string, path: seq<string>)

  function Text(caption: string, section: string, key: string): EntryField {
    EntryField(caption, [section, key], false)
  }

  /** `ENTRY_FIELDS`, in order (the browse buttons are left out). */
  function EntryFields(): seq<EntryField> {
    ConnectionFields() + LocalFields() + StorageFields()
  }

  /** The entries under `server`, `integrations` and `security`. */
  function ConnectionFields(): seq<EntryField> {
    [ Text("HTTP Host", "server", "host"),
      EntryField("HTTP Port", ["server", "port"], true),
      Text("OpenRouter API key", "integrations", "openrouter_key"),
      Text("OpenRouter model", "integrations", "openrouter_model"),
      Text("Genesis API key", "integrations", "genesis_key"),
      Text("Genesis model", "integrations", "genesis_model"),
      Text("Default model", "integrations", "default_model"),
      Text("OpenAI API key", "integrations", "openai_key"),
      Text("OpenAI model", "integrations", "openai_model"),
      Text("OpenAI base URL", "integrations", "openai_base"),
      Text("Qwen API key", "integrations", "qwen_key"),
      Text("Qwen model", "integrations", "qwen_model"),
      Text("Qwen base URL", "integrations", "qwen_base"),
      Text("Ollama host", "integrations", "ollama_host"),
      Text("Home Ollama model", "integrations", "ollama_home_model"),
      Text("Genesis base URL", "integrations", "genesis_base"),
      Text("Vault passphrase", "security", "vault_passphrase"),
      Text("Vault PIN", "security", "vault_pin") ]
  }

  /** The entries under `paths`, `network`, `apps` and `connectivity`. */
  function LocalFields(): seq<EntryField> {
    [ Text("Desktop export directory", "paths", "desktop_export"),
      Text("Icons directory", "paths", "icons_dir"),
      Text("Avatar path", "paths", "avatar_path"),
      Text("RAG docs directory", "paths", "rag_docs_dir"),
      Text("SQLite database", "paths", "db_path"),
      Text("Sync relay URL", "network", "sync_relay_url"),
      Text("Host IP", "network", "host_ip"),
      Text("Router IP", "network", "router_ip"),
      Text("Default cockpit (work/home/m)", "apps", "default"),
      EntryField("Connectivity poll (s)", ["connectivity", "poll_seconds"], true) ]
  }

  /** The entries under `storage`. */
  function StorageFields(): seq<EntryField> {
    [ EntryField("Work storage root", ["storage", "work", "root"], false),
      EntryField("Shared storage mount", ["storage", "shared", "mount_path"], false),
      EntryField("Home storage root", ["storage", "home", "root"], false),
      EntryField("Shared storage provider", ["storage", "shared", "provider"], false),
      EntryField("Shared sync provider", ["storage", "shared", "sync_provider"], false) ]
  }

  /** `TOGGLE_FIELDS`, in order. */
  function ToggleFields(): seq<ToggleField> {
    [ ToggleField("Work MONKY", ["features", "work"]),
      ToggleField("Home MONKY", ["features", "home"]),
      ToggleField("Mobile MONKY", ["features", "mobile"]),
      ToggleField("Assistant embeddings", ["features", "assistant_embeddings"]) ]
  }

  function EntryPaths(fields: seq<EntryField>): seq<seq<string>> {
    seq(|fields|, i requires 0 <= i < |fields| => fields[i].path)
  }

  /** The i-th entry path is the i-th field's path. */
  lemma EntryPathsAt(fields: seq<EntryField>)
    ensures |EntryPaths(fields)| == |fields|
    ensures forall i :: 0 <= i < |fields| ==> EntryPaths(fields)[i] == fields[i].path
  {
  }

  function TogglePaths(toggles: seq<ToggleField>): seq<seq<string>> {
    seq(|toggles|, i requires 0 <= i < |toggles| => toggles[i].path)
  }

  /**
   * The config slots the two tables write, in table order, written out by
   * section. `FieldSlotsListed` ties them to the tables; proving the slots
   * separated group by group, rather than over the projected tables as a
   * whole, keeps each proof within the solver's budget.
   */
  ghost function FieldSlots(): seq<seq<string>> {
    ConnectionSlots() + LocalSlots() + StorageSlots() + FeatureSlots()
  }

  /** The slots under `server`, `integrations` and `security`. */
  ghost function ConnectionSlots(): seq<seq<string>> {
    [ ["server", "host"], ["server", "port"], ["integrations", "openrouter_key"],
      ["integrations", "openrouter_model"], ["integrations", "genesis_key"], ["integrations", "genesis_model"],
      ["integrations", "default_model"], ["integrations", "openai_key"], ["integrations", "openai_model"],
      ["integrations", "openai_base"], ["integrations", "qwen_key"], ["integrations", "qwen_model"],
      ["integrations", "qwen_base"], ["integrations", "ollama_host"], ["integrations", "ollama_home_model"],
      ["integrations", "genesis_base"], ["security", "vault_passphrase"], ["security", "vault_pin"] ]
  }

  /** The slots under `paths`, `network`, `apps` and `connectivity`. */
  ghost function LocalSlots(): seq<seq<string>> {
    [ ["paths", "desktop_export"], ["paths", "icons_dir"], ["paths", "avatar_path"], ["paths", "rag_docs_dir"],
      ["paths", "db_path"], ["network", "sync_relay_url"], ["network", "host_ip"], ["network", "router_ip"],
      ["apps", "default"], ["connectivity", "poll_seconds"] ]
  }

  /** The slots under `storage`, three keys deep. */
  ghost function StorageSlots(): seq<seq<string>> {
    [ ["storage", "work", "root"], ["storage", "shared", "mount_path"], ["storage", "home", "root"],
      ["storage", "shared", "provider"], ["storage", "shared", "sync_provider"] ]
  }

  /** The slots under `features`, one per checkbox. */
  ghost function FeatureSlots(): seq<seq<string>> {
    [ ["features", "work"], ["features", "home"], ["features", "mobile"], ["features", "assistant_embeddings"] ]
  }

  lemma FieldSlotsListed()
    ensures EntryPaths(EntryFields()) + TogglePaths(ToggleFields()) == FieldSlots()
  {
    EntrySlotsListed();
    assert TogglePaths(ToggleFields()) == FeatureSlots();
  }

  /** The entry fields fill the connection, local and storage slots, in order. */
  lemma EntrySlotsListed()
    ensures EntryPaths(EntryFields()) == ConnectionSlots() + LocalSlots() + StorageSlots()
  {
    EntryPathsAppend(ConnectionFields(), LocalFields());
    EntryPathsAppend(ConnectionFields() + LocalFields(), StorageFields());
    assert EntryPaths(ConnectionFields()) == ConnectionSlots();
    assert EntryPaths(LocalFields()) == LocalSlots();
    assert EntryPaths(StorageFields()) == StorageSlots();
  }

  lemma EntryPathsAppend(a: seq<EntryField>, b: seq<EntryField>)
    ensures EntryPaths(a + b) == EntryPaths(a) + EntryPaths(b)
  {
  }

  /** No field's path is a prefix of another's, so each field owns its own slot in the config. */
  lemma FieldsSeparated()
    ensures Separated(EntryPaths(EntryFields()) + TogglePaths(ToggleFields()))
  {
    FieldSlotsListed();
    SlotsSeparated();
  }

  /** Every entry field names at least one key. */
  lemma EntryPathsNonEmpty(i: nat)
    requires i < |EntryFields()|
    ensures EntryFields()[i].path != []
  {
    var ps := EntryPaths(EntryFields()) + TogglePaths(ToggleFields());
    FieldsSeparated();
    assert ps[i] == EntryFields()[i].path;
    SeparatedNonEmpty(ps, i);
  }

  /** Each group of slots is separated, and slots of different groups start with different sections. */
  lemma SlotsSeparated()
    ensures Separated(FieldSlots())
  {
    var c, l, st, f := ConnectionSlots(), LocalSlots(), StorageSlots(), FeatureSlots();
    var hc, hl, hs, hf := {"server", "integrations", "security"}, {"paths", "network", "apps", "connectivity"},
                          {"storage"}, {"features"};
    ConnectionSlotsSeparated();
    LocalSlotsSeparated();
    StorageSlotsSeparated();
    FeatureSlotsSeparated();
    assert forall i :: 0 <= i < |c| ==> c[i] != [] && c[i][0] in hc;
    assert forall i :: 0 <= i < |l| ==> l[i] != [] && l[i][0] in hl;
    assert forall i :: 0 <= i < |st| ==> st[i] != [] && st[i][0] in hs;
    assert forall i :: 0 <= i < |f| ==> f[i] != [] && f[i][0] in hf;
    SeparatedConcat(c, l, hc, hl);
    SeparatedConcat(c + l, st, hc + hl, hs);
    SeparatedConcat(c + l + st, f, hc + hl + hs, hf);
  }

  lemma ConnectionSlotsSeparated()
    ensures Separated(ConnectionSlots())
  {
    var ps := ConnectionSlots();
    assert forall i, j :: 0 <= i < j < |ps| ==> ps[i] != ps[j];
    assert forall i :: 0 <= i < |ps| ==> |ps[i]| == 2 && ps[i][0] != "storage";
    SeparatedByShape(ps, "storage");
  }

  lemma LocalSlotsSeparated()
    ensures Separated(LocalSlots())
  {
    var ps := LocalSlots();
    assert forall i, j :: 0 <= i < j < |ps| ==> ps[i] != ps[j];
    assert forall i :: 0 <= i < |ps| ==> |ps[i]| == 2 && ps[i][0] != "storage";
    SeparatedByShape(ps, "storage");
  }

  lemma StorageSlotsSeparated()
    ensures Separated(StorageSlots())
  {
    var ps := StorageSlots();
    assert forall i, j :: 0 <= i < j < |ps| ==> ps[i] != ps[j];
    assert forall i :: 0 <= i < |ps| ==> |ps[i]| == 3 && ps[i][0] == "storage";
    SeparatedByShape(ps, "storage");
  }

  lemma FeatureSlotsSeparated()
    ensures Separated(FeatureSlots())
  {
    var ps := FeatureSlots();
    assert forall i, j :: 0 <= i < j < |ps| ==> ps[i] != ps[j];
    assert forall i :: 0 <= i < |ps| ==> |ps[i]| == 2 && ps[i][0] != "storage";
    SeparatedByShape(ps, "storage");
  }

  // ---------------------------------------------------------------------------
  // A sequence of writes, and why separated writes do not interfere
  // ---------------------------------------------------------------------------

  /** Write `vs[i]` at `ps[i]` in order; `None` leaves that slot alone. */
  function ApplyAll(m: Fields, ps: seq<seq<string>>, vs: seq<Option<Json>>): Fields
    requires |ps| == |vs|
    decreases |ps|
  {
    if ps == [] then m
    else ApplyAll(if vs[0].Some? then SetPath(m, ps[0], vs[0].value) else m, ps[1..], vs[1..])
  }

  /** Writes at paths that all part ways with `q` leave `q` as it was. */
  lemma {:induction false} ApplyAllFrame(m: Fields, ps: seq<seq<string>>, vs: seq<Option<Json>>, q: seq<string>)
    requires |ps| == |vs|
    requires forall j :: 0 <= j < |ps| ==> Diverge(ps[j], q)
    ensures Lookup(Obj(ApplyAll(m, ps, vs)), q) == Lookup(Obj(m), q)
    decreases |ps|
  {
    if ps != [] {
      var m1 := if vs[0].Some? then SetPath(m, ps[0], vs[0].value) else m;
      if vs[0].Some? {
        SetFrame(m, ps[0], q, vs[0].value);
      }
      ApplyAllFrame(m1, ps[1..], vs[1..], q);
    }
  }

  /** With separated paths, slot `i` ends up holding `vs[i]`, or its old value when `vs[i]` is `None`. */
  lemma {:induction false} ApplyAllAt(m: Fields, ps: seq<seq<string>>, vs: seq<Option<Json>>, i: nat)
    requires |ps| == |vs| && i < |ps| && Separated(ps) && ps[i] != []
    ensures Lookup(Obj(ApplyAll(m, ps, vs)), ps[i]) ==
              if vs[i].Some? then Some(vs[i].value) else Lookup(Obj(m), ps[i])
    decreases |ps|
  {
    var m1 := if vs[0].Some? then SetPath(m, ps[0], vs[0].value) else m;
    SeparatedTail(ps);
    if i == 0 {
      forall j | 0 <= j < |ps[1..]|
        ensures Diverge(ps[1..][j], ps[0])
      {
        assert ps[1..][j] == ps[j + 1];
        DivergeSymmetric(ps[0], ps[j + 1]);
      }
      ApplyAllFrame(m1, ps[1..], vs[1..], ps[0]);
      if vs[0].Some? {
        GetAfterSet(m, ps[0], vs[0].value);
      }
    } else {
      ApplyAllAt(m1, ps[1..], vs[1..], i - 1);
      assert ps[1..][i - 1] == ps[i];
      if vs[0].Some? {
        SetFrame(m, ps[0], ps[i], vs[0].value);
      }
    }
  }

  // ---------------------------------------------------------------------------
  // WizardApp.save_config
  // ---------------------------------------------------------------------------

  /** What one GUI entry writes: `None` keeps the old value (a blank integer entry). */
  function GuiWrite(f: EntryField, text: string): Option<Json> {
    var raw := Strip(text);
    if !f.isInt then Some(Str(raw))
    else if raw == "" then None
    else if ParseInt(raw).Some? then Some(Num(ParseInt(raw).value))
    else None
  }

  /** A non-blank integer entry that `int` rejects: the save stops there. */
  predicate GuiRejects(f: EntryField, text: string) {
    f.isInt && Strip(text) != "" && ParseInt(Strip(text)).None?
  }

  /** The config after the entry loop, and whether it stopped at a rejected entry. */
  datatype Saved = Saved(config: Fields, aborted: bool)

  /** The entry loop of `save_config`, one field at a time. */
  function GuiEntries(m: Fields, fields: seq<EntryField>, texts: seq<string>): Saved
    requires |texts| == |fields|
    decreases |fields|
  {
    if fields == [] then Saved(m, false)
    else if GuiRejects(fields[0], texts[0]) then Saved(m, true)
    else
      var w := GuiWrite(fields[0], texts[0]);
      GuiEntries(if w.Some? then SetPath(m, fields[0].path, w.value) else m, fields[1..], texts[1..])
  }

  /** The checkbox loop of `save_config`. */
  function GuiToggles(m: Fields, toggles: seq<ToggleField>, checks: seq<bool>): Fields
    requires |checks| == |toggles|
  {
    ApplyAll(m, TogglePaths(toggles), seq(|checks|, i requires 0 <= i < |checks| => Some(Bool(checks[i]))))
  }

  /** The save stops exactly when some integer entry holds text that `int` rejects. */
  lemma {:induction false} GuiAbortsIff(m: Fields, fields: seq<EntryField>, texts: seq<string>)
    requires |texts| == |fields|
    ensures GuiEntries(m, fields, texts).aborted <==>
              exists i :: 0 <= i < |fields| && GuiRejects(fields[i], texts[i])
    decreases |fields|
  {
    if fields != [] && !GuiRejects(fields[0], texts[0]) {
      var w := GuiWrite(fields[0], texts[0]);
      GuiAbortsIff(if w.Some? then SetPath(m, fields[0].path, w.value) else m, fields[1..], texts[1..]);
      forall i | 1 <= i < |fields|
        ensures GuiRejects(fields[1..][i - 1], texts[1..][i - 1]) == GuiRejects(fields[i], texts[i])
      {
        assert fields[1..][i - 1] == fields[i] && texts[1..][i - 1] == texts[i];
      }
    }
  }

  /** A save that goes through is the writes of every entry, in order. */
  lemma {:induction false} GuiEntriesWrites(m: Fields, fields: seq<EntryField>, texts: seq<string>)
    requires |texts| == |fields|
    requires !GuiEntries(m, fields, texts).aborted
    ensures GuiEntries(m, fields, texts).config ==
              ApplyAll(m, EntryPaths(fields), seq(|fields|, i requires 0 <= i < |fields| => GuiWrite(fields[i], texts[i])))
    decreases |fields|
  {
    if fields != [] {
      var w := GuiWrite(fields[0], texts[0]);
      var m1 := if w.Some? then SetPath(m, fields[0].path, w.value) else m;
      GuiEntriesWrites(m1, fields[1..], texts[1..]);
      var vs := seq(|fields|, i requires 0 <= i < |fields| => GuiWrite(fields[i], texts[i]));
      assert EntryPaths(fields)[1..] == EntryPaths(fields[1..]);
      assert vs[1..] == seq(|fields[1..]|, i requires 0 <= i < |fields[1..]| => GuiWrite(fields[1..][i], texts[1..][i]));
    }
  }

  /** Separated paths stay separated without their first one. */
  lemma SeparatedTail(ps: seq<seq<string>>)
    requires ps != [] && Separated(ps)
    ensures Separated(ps[1..])
  {
    forall a, b | 0 <= a < b < |ps[1..]|
      ensures Diverge(ps[1..][a], ps[1..][b])
    {
      assert ps[1..][a] == ps[a + 1] && ps[1..][b] == ps[b + 1];
    }
  }

  /** The entry paths and the toggle paths, separated together, are each separated and apart. */
  lemma SeparatedParts(fields: seq<EntryField>, toggles: seq<ToggleField>)
    requires Separated(EntryPaths(fields) + TogglePaths(toggles))
    ensures Separated(EntryPaths(fields))
    ensures forall i, j :: 0 <= i < |fields| && 0 <= j < |toggles| ==> Diverge(toggles[j].path, fields[i].path)
  {
    var ps, ts := EntryPaths(fields), TogglePaths(toggles);
    forall a, b | 0 <= a < b < |ps|
      ensures Diverge(ps[a], ps[b])
    {
      assert ps[a] == (ps + ts)[a] && ps[b] == (ps + ts)[b];
    }
    forall i, j | 0 <= i < |fields| && 0 <= j < |toggles|
      ensures Diverge(toggles[j].path, fields[i].path)
    {
      assert (ps + ts)[i] == fields[i].path && (ps + ts)[|ps| + j] == toggles[j].path;
      DivergeSymmetric(fields[i].path, toggles[j].path);
    }
  }

  /** The entry loop of `save_config` on `config`; `true` when it stops at a rejected entry. */
  method SaveEntries(config: Dict, fields: seq<EntryField>, texts: seq<string>) returns (aborted: bool)
    requires |texts| == |fields|
    modifies config
    ensures config.entries == GuiEntries(old(config.entries), fields, texts).config
    ensures aborted == GuiEntries(old(config.entries), fields, texts).aborted
  {
    ghost var start := config.entries;
    var i := 0;
    while i < |fields|
      invariant 0 <= i <= |fields|
      invariant GuiEntries(config.entries, fields[i..], texts[i..]) == GuiEntries(start, fields, texts)
    {
      assert fields[i..][0] == fields[i] && texts[i..][0] == texts[i];
      assert fields[i..][1..] == fields[i + 1..] && texts[i..][1..] == texts[i + 1..];
      var f := fields[i];
      var raw := Strip(texts[i]);
      if f.isInt {
        if raw == "" {
          i := i + 1;
          continue;
        }
        var n := ParseInt(raw);
        if n.None? {
          return true;
        }
        config.SetNested(f.path, Num(n.value));
      } else {
        config.SetNested(f.path, Str(raw));
      }
      i := i + 1;
    }
    return false;
  }

  /** The checkbox loop of `save_config`: each flag is stored at its path. */
  method SaveToggles(config: Dict, toggles: seq<ToggleField>, checks: seq<bool>)
    requires |checks| == |toggles|
    modifies config
    ensures config.entries == GuiToggles(old(config.entries), toggles, checks)
  {
    ghost var start := config.entries;
    ghost var ps := TogglePaths(toggles);
    ghost var vs := seq(|checks|, k requires 0 <= k < |checks| => Some(Bool(checks[k])));
    var j := 0;
    while j < |toggles|
      invariant 0 <= j <= |toggles|
      invariant ApplyAll(config.entries, ps[j..], vs[j..]) == ApplyAll(start, ps, vs)
    {
      assert ps[j..][1..] == ps[j + 1..] && vs[j..][1..] == vs[j + 1..];
      config.SetNested(toggles[j].path, Bool(checks[j]));
      j := j + 1;
    }
  }

  /**
   * The window of the GUI wizard. `template` is the dict the wizard loaded;
   * `save_config` edits it in place (it is aliased, not copied).
   */
  class WizardApp {
    var template: Dict

    constructor (template: Dict)
      ensures this.template == template
    {
      this.template := template;
    }

    /**
     * `save_config`, given the text of each entry and the state of each
     * checkbox. Returns what `write_config` writes, or `None` when a
     * rejected integer entry stops the save before it; the template keeps
     * the entries stored before that one.
     */
    method SaveConfig(texts: seq<string>, checks: seq<bool>) returns (written: Option<Fields>)
      requires |texts| == |EntryFields()| && |checks| == |ToggleFields()|
      modifies template
      ensures var s := GuiEntries(old(template.entries), EntryFields(), texts);
              if s.aborted then template.entries == s.config && written == None
              else template.entries == GuiToggles(s.config, ToggleFields(), checks)
                   && written == Some(template.entries)
    {
      var config := template;
      var aborted := SaveEntries(config, EntryFields(), texts);
      if aborted {
        return None;
      }
      SaveToggles(config, ToggleFields(), checks);
      written := Some(config.entries);
    }
  }

  /**
   * What a saved entry's slot holds in `after`, the config written from
   * `before`: the stripped text, or the integer `int` reads from it; a blank
   * integer entry leaves the slot as it was.
   */
  predicate GuiStored(before: Fields, after: Fields, f: EntryField, text: string) {
    var raw := Strip(text);
    var now := Lookup(Obj(after), f.path);
    if !f.isInt then now == Some(Str(raw))
    else if raw == "" then now == Lookup(Obj(before), f.path)
    else ParseInt(raw).Some? && now == Some(Num(ParseInt(raw).value))
  }

  /**
   * After a save that goes through, each entry's slot holds its stripped
   * text, or its integer; a blank integer entry keeps the previous value.
   */
  lemma GuiOutcome(m: Fields, fields: seq<EntryField>, toggles: seq<ToggleField>,
                   texts: seq<string>, checks: seq<bool>, i: nat)
    requires |texts| == |fields| && |checks| == |toggles| && i < |fields|
    requires Separated(EntryPaths(fields) + TogglePaths(toggles)) && fields[i].path != []
    requires !GuiEntries(m, fields, texts).aborted
    ensures GuiStored(m, GuiToggles(GuiEntries(m, fields, texts).config, toggles, checks), fields[i], texts[i])
  {
    var ps := EntryPaths(fields);
    SeparatedParts(fields, toggles);
    GuiAbortsIff(m, fields, texts);
    assert !GuiRejects(fields[i], texts[i]);
    GuiEntriesWrites(m, fields, texts);
    var vs := seq(|fields|, k requires 0 <= k < |fields| => GuiWrite(fields[k], texts[k]));
    ApplyAllAt(m, ps, vs, i);
    var config := GuiEntries(m, fields, texts).config;
    var cs := seq(|checks|, k requires 0 <= k < |checks| => Some(Bool(checks[k])));
    ApplyAllFrame(config, TogglePaths(toggles), cs, fields[i].path);
  }

  /** `GuiOutcome` for the wizard's own tables. */
  lemma GuiFieldOutcome(m: Fields, texts: seq<string>, checks: seq<bool>, i: nat)
    requires |texts| == |EntryFields()| && |checks| == |ToggleFields()| && i < |texts|
    requires !GuiEntries(m, EntryFields(), texts).aborted
    ensures GuiStored(m, GuiToggles(GuiEntries(m, EntryFields(), texts).config, ToggleFields(), checks),
                      EntryFields()[i], texts[i])
  {
    FieldsSeparated();
    EntryPathsNonEmpty(i);
    GuiOutcome(m, EntryFields(), ToggleFields(), texts, checks, i);
  }

  // ---------------------------------------------------------------------------
  // run_cli_wizard
  // ---------------------------------------------------------------------------

  /** `"" if current is None else str(current)`; `show` stands for `str` of a list or dict. */
  function Shown(current: Json, show: Json -> string): string {
    match current
    case Null => ""
    case Bool(b) => if b then "True" else "False"
    case Num(n) => IntToDecimal(n)
    case Str(s) => s
    case _ => show(current)
  }

  /** What one CLI question writes, given the config it is asked on; `None` leaves the field as it is. */
  function CliWrite(m: Fields, f: EntryField, answer: Answer, show: Json -> string): Option<Json> {
    var current := Lookup(Obj(m), f.path).GetOr(Str(""));
    var value := Prompt(answer, Shown(current, show));
    if value == "" then None
    else if !f.isInt then Some(Str(value))
    else if ParseInt(value).Some? then Some(Num(ParseInt(value).value))
    else None
  }

  /** The entry loop of `run_cli_wizard`. */
  function CliEntries(m: Fields, fields: seq<EntryField>, answers: seq<Answer>, show: Json -> string): Fields
    requires |answers| == |fields|
    decreases |fields|
  {
    if fields == [] then m
    else
      var w := CliWrite(m, fields[0], answers[0], show);
      CliEntries(if w.Some? then SetPath(m, fields[0].path, w.value) else m, fields[1..], answers[1..], show)
  }

  /** The flag one CLI yes/no question stores; it defaults to the current flag, `True` when absent. */
  function CliFlag(m: Fields, t: ToggleField, answer: Answer): bool {
    PromptBool(answer, Truthy(Lookup(Obj(m), t.path).GetOr(Bool(true))))
  }

  /** The yes/no loop of `run_cli_wizard`. */
  function CliToggles(m: Fields, toggles: seq<ToggleField>, answers: seq<Answer>): Fields
    requires |answers| == |toggles|
    decreases |toggles|
  {
    if toggles == [] then m
    else CliToggles(SetPath(m, toggles[0].path, Bool(CliFlag(m, toggles[0], answers[0]))),
                    toggles[1..], answers[1..])
  }

  /**
   * One entry question of `run_cli_wizard`: shows the current value as the
   * default and returns what to store, or `None` when the field is kept.
   */
  method AskEntry(data: Dict, f: EntryField, answer: Answer, show: Json -> string) returns (w: Option<Json>)
    ensures w == CliWrite(data.entries, f, answer, show)
  {
    var current := data.GetNested(f.path, Str(""));
    var value := Prompt(answer, Shown(current, show));
    w := None;
    if value != "" {
      if f.isInt {
        var n := ParseInt(value);
        if n.Some? {
          w := Some(Num(n.value));
        }
      } else {
        w := Some(Str(value));
      }
    }
  }

  /** The entry loop of `run_cli_wizard` on `data`. */
  method AskEntries(data: Dict, fields: seq<EntryField>, answers: seq<Answer>, show: Json -> string)
    requires |answers| == |fields|
    modifies data
    ensures data.entries == CliEntries(old(data.entries), fields, answers, show)
  {
    ghost var start := data.entries;
    var i := 0;
    while i < |fields|
      invariant 0 <= i <= |fields|
      invariant CliEntries(data.entries, fields[i..], answers[i..], show) == CliEntries(start, fields, answers, show)
    {
      assert fields[i..][0] == fields[i] && answers[i..][0] == answers[i];
      assert fields[i..][1..] == fields[i + 1..] && answers[i..][1..] == answers[i + 1..];
      var w := AskEntry(data, fields[i], answers[i], show);
      if w.Some? {
        data.SetNested(fields[i].path, w.value);
      }
      i := i + 1;
    }
  }

  /** The yes/no loop of `run_cli_wizard` on `data`. */
  method AskToggles(data: Dict, toggles: seq<ToggleField>, answers: seq<Answer>)
    requires |answers| == |toggles|
    modifies data
    ensures data.entries == CliToggles(old(data.entries), toggles, answers)
  {
    ghost var start := data.entries;
    var j := 0;
    while j < |toggles|
      invariant 0 <= j <= |toggles|
      invariant CliToggles(data.entries, toggles[j..], answers[j..]) == CliToggles(start, toggles, answers)
    {
      assert toggles[j..][0] == toggles[j] && answers[j..][0] == answers[j];
      assert toggles[j..][1..] == toggles[j + 1..] && answers[j..][1..] == answers[j + 1..];
      var current := data.GetNested(toggles[j].path, Bool(true));
      var result := PromptBool(answers[j], Truthy(current));
      data.SetNested(toggles[j].path, Bool(result));
      j := j + 1;
    }
  }

  /** Every entry question, then every yes/no question, on `data`. */
  method AskAll(data: Dict, fields: seq<EntryField>, toggles: seq<ToggleField>,
                answers: seq<Answer>, toggleAnswers: seq<Answer>, show: Json -> string)
    requires |answers| == |fields| && |toggleAnswers| == |toggles|
    modifies data
    ensures data.entries == CliToggles(CliEntries(old(data.entries), fields, answers, show), toggles, toggleAnswers)
  {
    AskEntries(data, fields, answers, show);
    AskToggles(data, toggles, toggleAnswers);
  }

  /**
   * `run_cli_wizard`: loads the configuration from the template and config
   * files, asks every entry question and then every yes/no question, and
   * returns what `write_config` writes.
   */
  method RunCliWizard(template: Option<string>, config: Option<string>, decode: string -> Option<Json>,
                      answers: seq<Answer>, toggleAnswers: seq<Answer>, show: Json -> string)
    returns (written: Fields)
    requires |answers| == |EntryFields()| && |toggleAnswers| == |ToggleFields()|
    ensures written == CliToggles(CliEntries(TemplateData(template, config, decode), EntryFields(), answers, show),
                                  ToggleFields(), toggleAnswers)
  {
    var data := LoadTemplateData(template, config, decode);
    AskAll(data, EntryFields(), ToggleFields(), answers, toggleAnswers, show);
    written := data.entries;
  }

  /** A question's write does not depend on writes at paths that part ways with its own. */
  lemma CliWriteFrame(m: Fields, p: seq<string>, v: Json, f: EntryField, answer: Answer, show: Json -> string)
    requires Diverge(p, f.path)
    ensures CliWrite(SetPath(m, p, v), f, answer, show) == CliWrite(m, f, answer, show)
  {
    SetFrame(m, p, f.path, v);
  }

  /** The write each question makes when asked on `m`. */
  function CliWrites(m: Fields, fields: seq<EntryField>, answers: seq<Answer>, show: Json -> string)
    : (ws: seq<Option<Json>>)
    requires |answers| == |fields|
    ensures |ws| == |fields|
    decreases |fields|
  {
    if fields == [] then []
    else [CliWrite(m, fields[0], answers[0], show)] + CliWrites(m, fields[1..], answers[1..], show)
  }

  /** The `i`-th write is the `i`-th question's. */
  lemma {:induction false} CliWritesAt(m: Fields, fields: seq<EntryField>, answers: seq<Answer>,
                                       show: Json -> string, i: nat)
    requires |answers| == |fields| && i < |fields|
    ensures CliWrites(m, fields, answers, show)[i] == CliWrite(m, fields[i], answers[i], show)
    decreases i
  {
    if i > 0 {
      CliWritesAt(m, fields[1..], answers[1..], show, i - 1);
      assert fields[1..][i - 1] == fields[i] && answers[1..][i - 1] == answers[i];
    }
  }

  /** Questions whose paths all part ways with `p` write the same after a write at `p`. */
  lemma {:induction false} CliWritesFrame(m: Fields, p: seq<string>, v: Json, fields: seq<EntryField>,
                                          answers: seq<Answer>, show: Json -> string)
    requires |answers| == |fields|
    requires forall k :: 0 <= k < |fields| ==> Diverge(p, fields[k].path)
    ensures CliWrites(SetPath(m, p, v), fields, answers, show) == CliWrites(m, fields, answers, show)
    decreases |fields|
  {
    if fields != [] {
      CliWriteFrame(m, p, v, fields[0], answers[0], show);
      assert forall k :: 0 <= k < |fields[1..]| ==> fields[1..][k] == fields[k + 1];
      CliWritesFrame(m, p, v, fields[1..], answers[1..], show);
    }
  }

  /**
   * With separated fields, the CLI's entry loop is the writes each question
   * makes when asked on the starting config: no answer affects another field.
   */
  lemma {:induction false} CliEntriesWrites(m: Fields, fields: seq<EntryField>, answers: seq<Answer>,
                                            show: Json -> string)
    requires |answers| == |fields| && Separated(EntryPaths(fields))
    ensures CliEntries(m, fields, answers, show) == ApplyAll(m, EntryPaths(fields), CliWrites(m, fields, answers, show))
    decreases |fields|
  {
    if fields != [] {
      var ps := EntryPaths(fields);
      EntryPathsAt(fields);
      var w := CliWrite(m, fields[0], answers[0], show);
      var m1 := if w.Some? then SetPath(m, fields[0].path, w.value) else m;
      assert ps[1..] == EntryPaths(fields[1..]);
      SeparatedTail(ps);
      CliEntriesWrites(m1, fields[1..], answers[1..], show);
      var ws := CliWrites(m, fields, answers, show);
      if w.Some? {
        forall k | 0 <= k < |fields[1..]|
          ensures Diverge(fields[0].path, fields[1..][k].path)
        {
          assert ps[0] == fields[0].path && ps[k + 1] == fields[1..][k].path;
        }
        CliWritesFrame(m, fields[0].path, w.value, fields[1..], answers[1..], show);
      }
      assert ws[0] == w && ws[1..] == CliWrites(m, fields[1..], answers[1..], show);
      assert ApplyAll(m, ps, ws) == ApplyAll(m1, ps[1..], ws[1..]);
    }
  }

  /** After the entry questions, each field holds what its own question wrote, or what it held. */
  lemma CliOutcome(m: Fields, fields: seq<EntryField>, answers: seq<Answer>, show: Json -> string, i: nat)
    requires |answers| == |fields| && i < |fields| && Separated(EntryPaths(fields)) && fields[i].path != []
    ensures var w := CliWrite(m, fields[i], answers[i], show);
            Lookup(Obj(CliEntries(m, fields, answers, show)), fields[i].path) ==
              if w.Some? then Some(w.value) else Lookup(Obj(m), fields[i].path)
  {
    CliEntriesWrites(m, fields, answers, show);
    CliWritesAt(m, fields, answers, show, i);
    ApplyAllAt(m, EntryPaths(fields), CliWrites(m, fields, answers, show), i);
  }

  /** `CliOutcome` for the wizard's own entry table. */
  lemma CliFieldOutcome(m: Fields, answers: seq<Answer>, show: Json -> string, i: nat)
    requires |answers| == |EntryFields()| && i < |answers|
    ensures var f := EntryFields()[i];
            var w := CliWrite(m, f, answers[i], show);
            Lookup(Obj(CliEntries(m, EntryFields(), answers, show)), f.path) ==
              if w.Some? then Some(w.value) else Lookup(Obj(m), f.path)
  {
    FieldsSeparated();
    SeparatedParts(EntryFields(), ToggleFields());
    EntryPathsNonEmpty(i);
    CliOutcome(m, EntryFields(), answers, show, i);
  }

  /** An integer field whose answer `int` rejects is left unchanged. */
  lemma CliRejectedIntKeeps(m: Fields, f: EntryField, answer: Answer, show: Json -> string)
    requires f.isInt
    requires ParseInt(Prompt(answer, Shown(Lookup(Obj(m), f.path).GetOr(Str("")), show))).None?
    ensures CliWrite(m, f, answer, show).None?
  {
  }

  /**
   * Pressing Enter keeps the value shown: a string field keeps its string,
   * an integer field keeps its integer (`int(str(n)) == n`).
   */
  lemma CliBlankKeeps(m: Fields, f: EntryField, answer: Answer, show: Json -> string)
    requires Blank(answer) && f.path != []
    requires var current := Lookup(Obj(m), f.path);
             current.None? || current.value.Null? || (!f.isInt && current.value.Str?)
             || (f.isInt && current.value.Num?)
    ensures var w := CliWrite(m, f, answer, show);
            w.None? || SetPath(m, f.path, w.value) == m
  {
    var current := Lookup(Obj(m), f.path);
    if current.Some? && current.value.Num? && f.isInt {
      DecimalRoundTrip(current.value.n);
      SetOfGet(m, f.path, current.value);
    } else if current.Some? && current.value.Str? && !f.isInt {
      SetOfGet(m, f.path, current.value);
    }
  }

  /** A string field shown as something else is overwritten by that text on a blank answer. */
  lemma CliBlankRewritesAsText(m: Fields, f: EntryField, answer: Answer, show: Json -> string, n: int)
    requires Blank(answer) && !f.isInt && Lookup(Obj(m), f.path) == Some(Num(n))
    ensures CliWrite(m, f, answer, show) == Some(Str(IntToDecimal(n)))
  {
  }
}
