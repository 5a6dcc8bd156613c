/** `SettingsManager` of `src/utils/settings_manager.py`: the default user
    settings, the recursive merge of saved settings over them, and the load
    step that applies it.  Settings are JSON values; reading and writing the
    file are left out, the parsed file content is an input. */
module Settings {
  import opened Wrappers

  /** A JSON value as `json.load` returns it; objects are dictionaries. */
  datatype Json =
    | JNull
    | JBool(b: bool)
    | JNum(n: int)
    | JStr(s: string)
    | JArr(items: seq<Json>)
    | JObj(fields: map<string, Json>)

  // ---------------------------------------------------------------------------
  // `_deep_update`

  /** The value a key of the update leaves behind: two dictionaries are
      merged, anything else is replaced by the update's value. */
  function MergeValue(base: Json, update: Json): Json
    decreases update, 1
  {
    if base.JObj? && update.JObj? then JObj(Merged(base.fields, update.fields)) else update
  }

  /** The dictionary `_deep_update(base, update)` leaves in `base`. */
  function Merged(base: map<string, Json>, update: map<string, Json>): (r: map<string, Json>)
    decreases JObj(update), 0
  {
    map k | k in base.Keys + update.Keys ::
      if k !in update then base[k]
      else if k in base then MergeValue(base[k], update[k])
      else update[k]
  }

  /** The state after the loop has handled the update keys in `done`. */
  function PartlyMerged(base: map<string, Json>, update: map<string, Json>, done: set<string>): map<string, Json>
    requires done <= update.Keys
  {
    map k | k in base.Keys + done ::
      if k !in done then base[k]
      else if k in base then MergeValue(base[k], update[k])
      else update[k]
  }

  /** `_deep_update(base_dict, update_dict)`: for each key of the update,
      merge into a dictionary both sides hold, otherwise store the update's
      value.  Dictionaries are values here; the sharing that in-place updates
      cause is modelled in `SettingsManager.LoadSettings`. */
  method DeepUpdate(base: map<string, Json>, update: map<string, Json>) returns (r: map<string, Json>)
    ensures r == Merged(base, update)
    decreases JObj(update)
  {
    r := base;
    var keys := update.Keys;
    while keys != {}
      invariant keys <= update.Keys
      invariant r == PartlyMerged(base, update, update.Keys - keys)
      decreases keys
    {
      var key :| key in keys;
      ghost var done := update.Keys - keys;
      assert key !in done;
      if key in r && r[key].JObj? && update[key].JObj? {
        assert r[key] == base[key];
        var sub := DeepUpdate(r[key].fields, update[key].fields);
        r := r[key := JObj(sub)];
      } else {
        r := r[key := update[key]];
      }
      keys := keys - {key};
      assert update.Keys - keys == done + {key};
    }
    assert update.Keys - keys == update.Keys;
  }

  /** After the merge every key of either side is present, and only those. */
  lemma MergedKeys(base: map<string, Json>, update: map<string, Json>)
    ensures Merged(base, update).Keys == base.Keys + update.Keys
  {
  }

  /** An empty update changes nothing. */
  lemma MergeEmpty(base: map<string, Json>)
    ensures Merged(base, map[]) == base
  {
    var r := Merged(base, map[]);
    assert r.Keys == base.Keys;
    forall k | k in base ensures r[k] == base[k] { }
  }

  /** Merging a value with itself gives it back. */
  lemma {:induction false} MergeSelf(v: Json)
    ensures MergeValue(v, v) == v
    decreases v
  {
    if v.JObj? {
      var m := Merged(v.fields, v.fields);
      forall k | k in v.fields ensures m[k] == v.fields[k] {
        MergeSelf(v.fields[k]);
      }
      assert m == v.fields;
    }
  }

  /** Applying the same update twice equals applying it once. */
  lemma {:induction false} MergeValueIdempotent(base: Json, update: Json)
    ensures MergeValue(MergeValue(base, update), update) == MergeValue(base, update)
    decreases update, 1
  {
    if base.JObj? && update.JObj? {
      MergedIdempotent(base.fields, update.fields);
    } else {
      MergeSelf(update);
    }
  }

  lemma {:induction false} MergedIdempotent(base: map<string, Json>, update: map<string, Json>)
    ensures Merged(Merged(base, update), update) == Merged(base, update)
    decreases JObj(update), 0
  {
    var once := Merged(base, update);
    var twice := Merged(once, update);
    forall k | k in update ensures twice[k] == once[k] {
      if k in base {
        MergeValueIdempotent(base[k], update[k]);
      } else {
        MergeSelf(update[k]);
      }
    }
    assert twice == once;
  }

  /** The value at a path of keys, if every step finds a dictionary holding
      the next key. */
  function Lookup(v: Json, path: seq<string>): Option<Json>
    decreases |path|
  {
    if path == [] then Some(v)
    else if v.JObj? && path[0] in v.fields then Lookup(v.fields[path[0]], path[1..])
    else None
  }

  /** Values that only the base holds survive at every nesting level, as long
      as the update holds dictionaries (or nothing) on the way down. */
  lemma {:induction false} BaseOnlyKept(base: Json, update: Json, path: seq<string>)
    requires Lookup(base, path).Some? && Lookup(update, path).None?
    requires forall n :: 0 <= n < |path| ==> Lookup(update, path[..n]).None? || Lookup(update, path[..n]).value.JObj?
    ensures Lookup(MergeValue(base, update), path) == Lookup(base, path)
    decreases |path|
  {
    assert path != [];
    assert path[..0] == [];
    var k := path[0];
    assert base.JObj? && k in base.fields;
    assert update.JObj?;
    var m := MergeValue(base, update);
    assert m == JObj(Merged(base.fields, update.fields));
    if k in update.fields {
      assert m.fields[k] == MergeValue(base.fields[k], update.fields[k]);
      forall n | 0 <= n < |path[1..]|
        ensures Lookup(update.fields[k], path[1..][..n]).None? || Lookup(update.fields[k], path[1..][..n]).value.JObj?
      {
        assert path[..n + 1][1..] == path[1..][..n];
        assert Lookup(update, path[..n + 1]) == Lookup(update.fields[k], path[1..][..n]);
      }
      assert Lookup(update, path) == Lookup(update.fields[k], path[1..]);
      BaseOnlyKept(base.fields[k], update.fields[k], path[1..]);
    } else {
      assert m.fields[k] == base.fields[k];
    }
  }

  /** Values the update holds that are not dictionaries end up in the result,
      at every nesting level. */
  lemma {:induction false} UpdateLeafWins(base: Json, update: Json, path: seq<string>)
    requires path != [] && base.JObj? && update.JObj?
    requires Lookup(update, path).Some? && !Lookup(update, path).value.JObj?
    ensures Lookup(MergeValue(base, update), path) == Lookup(update, path)
    decreases |path|
  {
    var k := path[0];
    var m := MergeValue(base, update);
    assert m == JObj(Merged(base.fields, update.fields));
    assert k in update.fields;
    if |path| == 1 {
      assert path[1..] == [];
      assert Lookup(update, path) == Some(update.fields[k]);
      assert k in base.fields ==> MergeValue(base.fields[k], update.fields[k]) == update.fields[k];
      assert m.fields[k] == update.fields[k];
      assert Lookup(m, path) == Some(m.fields[k]);
    } else {
      var u := update.fields[k];
      assert Lookup(update, path) == Lookup(u, path[1..]);
      assert u.JObj?;
      if k in base.fields && base.fields[k].JObj? {
        UpdateLeafWins(base.fields[k], u, path[1..]);
      } else {
        assert k in base.fields ==> MergeValue(base.fields[k], u) == u;
        assert m.fields[k] == u;
      }
    }
  }

  // ---------------------------------------------------------------------------
  // The settings manager

  /** `default_settings`. */
  function Defaults(): (d: map<string, Json>)
    ensures d.Keys == {"ftp", "directories", "search", "ui"}
  {
    map[
      "ftp" := JObj(map[
        "host" := JStr(""),
        "port" := JNum(21),
        "username" := JStr(""),
        "password" := JStr(""),
        "remember_password" := JBool(false)]),
      "directories" := JObj(map[
        "source_directory" := JStr("SAMSUNG"),
        "send_file_directory" := JStr("Send File"),
        "receive_file_directory" := JStr("Receive File")]),
      "search" := JObj(map[
        "default_file_pattern" := JStr("TCO_*_KMC_*.xml"),
        "case_sensitive" := JBool(false),
        "max_threads" := JNum(8)]),
      "ui" := JObj(map[
        "last_date_range" := JStr("Last 7 Days"),
        "last_search_mode" := JStr("Text Contains")])]
  }

  /** The defaults after a merge into their shallow copy: a top-level value
      that is a dictionary is shared with the copy, so where the saved
      settings hold a dictionary for the same key the defaults see the merged
      dictionary too. */
  function SharedAfterMerge(defaults: map<string, Json>, saved: map<string, Json>): (d: map<string, Json>)
    ensures d.Keys == defaults.Keys
  {
    map k | k in defaults ::
      if defaults[k].JObj? && k in saved && saved[k].JObj? then MergeValue(defaults[k], saved[k])
      else defaults[k]
  }

  class SettingsManager {
    var defaultSettings: map<string, Json>

    constructor()
      ensures defaultSettings == Defaults()
    {
      defaultSettings := Defaults();
    }

    /** `load_settings`, with `saved` the parsed settings file (`None` when
        there is no file or it cannot be read or parsed).  A file whose top
        level is not an object makes the merge fail; the defaults are
        returned then. */
    method LoadSettings(saved: Option<Json>) returns (settings: map<string, Json>)
      modifies this
      ensures defaultSettings.Keys == old(defaultSettings).Keys
      ensures settings.Keys >= old(defaultSettings).Keys
      ensures saved.Some? && saved.value.JObj? ==>
        settings == Merged(old(defaultSettings), saved.value.fields)
        && defaultSettings == SharedAfterMerge(old(defaultSettings), saved.value.fields)
      ensures !(saved.Some? && saved.value.JObj?) ==>
        settings == old(defaultSettings) && defaultSettings == old(defaultSettings)
    {
      settings := defaultSettings;
      if saved.Some? && saved.value.JObj? {
        settings := DeepUpdate(settings, saved.value.fields);
        MergedKeys(defaultSettings, saved.value.fields);
        defaultSettings := SharedAfterMerge(defaultSettings, saved.value.fields);
      }
    }
  }

  /** A saved host reaches the defaults through the shared dictionary: after
      one load with a saved `ftp.host`, a later load without a settings file
      still returns that host instead of the default empty one. */
  method StaleDefaultsAfterLoad() returns (host: Json)
    ensures host == JStr("ftp.example")
  {
    var manager := new SettingsManager();
    var saved := JObj(map["ftp" := JObj(map["host" := JStr("ftp.example")])]);
    var first := manager.LoadSettings(Some(saved));
    var second := manager.LoadSettings(None);
    assert "ftp" in Defaults();
    host := if "ftp" in second && second["ftp"].JObj? && "host" in second["ftp"].fields
            then second["ftp"].fields["host"] else JNull;
  }
}
