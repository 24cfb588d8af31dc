/** The weights store (`WeightsManager`): a weights table loaded from the
    weights file or from the configured defaults, merged with updates in
    place, reset to the defaults, and written back to the file after every
    change. Python dicts are objects here (`WeightTable`), so that two names
    for the same dict can be told apart from two equal dicts. */
module Weights {
  import opened Common

  /** `DEFAULT_WEIGHTS['version']`. */
  const WeightsVersion: int := 1

  /** `DEFAULT_WEIGHTS['weights']` as the configuration declares it. */
  const DefaultWeights: map<string, real> :=
    map["base" := 1.0, "curve" := 1.0, "role" := 1.0, "duplication" := 1.0,
        "synergy" := 1.0, "archetype" := 1.0, "meta" := 1.0]

  /** A weights dict, updated in place. */
  class WeightTable {
    var entries: map<string, real>

    constructor (entries: map<string, real>)
      ensures this.entries == entries
    {
      this.entries := entries;
    }
  }

  /** The weights file: absent, not parseable as JSON, or a JSON object with
      a version and possibly a `weights` entry. */
  datatype FileState = Missing | Unreadable | Stored(version: int, weights: Option<map<string, real>>)

  class WeightsFile {
    var state: FileState

    constructor (state: FileState)
      ensures this.state == state
    {
      this.state := state;
    }
  }

  /** `dict.update`: the entries of `update` replace or join those of
      `current`. */
  function Merge(current: map<string, real>, update: map<string, real>): (r: map<string, real>)
    ensures forall k :: k in update ==> k in r && r[k] == update[k]
    ensures forall k :: k !in update ==> (k in r <==> k in current)
    ensures forall k :: k !in update && k in current ==> r[k] == current[k]
  {
    current + update
  }

  /** When `_load_weights` falls back to the default table: the file is
      missing, unreadable, or has no `weights` entry. */
  predicate UsesDefaults(s: FileState) {
    !s.Stored? || s.weights.None?
  }

  /** `_save_weights(weights)`. */
  method SaveWeights(file: WeightsFile, weights: map<string, real>)
    modifies file
    ensures file.state == Stored(WeightsVersion, Some(weights))
  {
    file.state := Stored(WeightsVersion, Some(weights));
  }

  /** `_load_weights` as written: every fallback path returns the default
      table object itself, not a copy. A missing file is first created with
      the defaults. */
  method LoadWeightsAsWritten(file: WeightsFile, defaults: WeightTable) returns (t: WeightTable)
    modifies file
    ensures file.state == if old(file.state).Missing? then Stored(WeightsVersion, Some(defaults.entries)) else old(file.state)
    ensures UsesDefaults(old(file.state)) ==> t == defaults
    ensures !UsesDefaults(old(file.state)) ==> fresh(t) && t.entries == old(file.state).weights.value
    ensures defaults.entries == old(defaults.entries)
  {
    match file.state
    case Missing =>
      SaveWeights(file, defaults.entries);
      t := defaults;
    case Unreadable =>
      t := defaults;
    case Stored(_, w) =>
      if w.Some? {
        t := new WeightTable(w.value);
      } else {
        t := defaults;
      }
  }

  /** `_load_weights` returning a copy of the default table on every
      fallback path, as `reset_to_default` does. */
  method LoadWeights(file: WeightsFile, defaults: WeightTable) returns (t: WeightTable)
    modifies file
    ensures file.state == if old(file.state).Missing? then Stored(WeightsVersion, Some(defaults.entries)) else old(file.state)
    ensures fresh(t)
    ensures UsesDefaults(old(file.state)) ==> t.entries == defaults.entries
    ensures !UsesDefaults(old(file.state)) ==> t.entries == old(file.state).weights.value
    ensures defaults.entries == old(defaults.entries)
  {
    match file.state
    case Missing =>
      SaveWeights(file, defaults.entries);
      t := new WeightTable(defaults.entries);
    case Unreadable =>
      t := new WeightTable(defaults.entries);
    case Stored(_, w) =>
      t := new WeightTable(if w.Some? then w.value else defaults.entries);
  }

  class WeightsManager {
    const file: WeightsFile
    /** The process-wide `DEFAULT_WEIGHTS['weights']` dict. */
    const defaults: WeightTable
    var weights: WeightTable

    /** The current weights are not the default table itself, so updating them
        leaves the defaults alone. */
    predicate Valid()
      reads this
    {
      weights != defaults
    }

    /** `WeightsManager()` with the copying loader. */
    constructor (file: WeightsFile, defaults: WeightTable)
      modifies file
      ensures this.file == file && this.defaults == defaults
      ensures fresh(weights) && Valid()
      ensures UsesDefaults(old(file.state)) ==> weights.entries == defaults.entries
      ensures !UsesDefaults(old(file.state)) ==> weights.entries == old(file.state).weights.value
      ensures file.state == if old(file.state).Missing? then Stored(WeightsVersion, Some(defaults.entries)) else old(file.state)
      ensures defaults.entries == old(defaults.entries)
    {
      this.file := file;
      this.defaults := defaults;
      var t := LoadWeights(file, defaults);
      weights := t;
    }

    /** `WeightsManager()` as written, sharing the default table on every
        fallback path. */
    constructor AsWritten(file: WeightsFile, defaults: WeightTable)
      modifies file
      ensures this.file == file && this.defaults == defaults
      ensures UsesDefaults(old(file.state)) ==> weights == defaults
      ensures !UsesDefaults(old(file.state)) ==> fresh(weights) && weights.entries == old(file.state).weights.value
      ensures file.state == if old(file.state).Missing? then Stored(WeightsVersion, Some(defaults.entries)) else old(file.state)
      ensures defaults.entries == old(defaults.entries)
    {
      this.file := file;
      this.defaults := defaults;
      var t := LoadWeightsAsWritten(file, defaults);
      weights := t;
    }

    /** `get_weights`: a new dict with the current entries. */
    method GetWeights() returns (w: WeightTable)
      ensures fresh(w) && w.entries == weights.entries
    {
      w := new WeightTable(weights.entries);
    }

    /** `update_weights`: merges `update` into the current table in place and
        writes the result to the file. The default table changes with it
        exactly when it is the current table. */
    method UpdateWeights(update: map<string, real>)
      modifies weights, file
      ensures weights == old(weights)
      ensures weights.entries == Merge(old(weights.entries), update)
      ensures file.state == Stored(WeightsVersion, Some(weights.entries))
      ensures Valid() <==> old(Valid())
      ensures Valid() ==> defaults.entries == old(defaults.entries)
    {
      weights.entries := Merge(weights.entries, update);
      SaveWeights(file, weights.entries);
    }

    /** `reset_to_default`: a copy of the default table, as it is now, becomes
        the current table and is written to the file. */
    method ResetToDefault()
      modifies this, file
      ensures fresh(weights) && Valid()
      ensures weights.entries == defaults.entries
      ensures file.state == Stored(WeightsVersion, Some(defaults.entries))
      ensures defaults.entries == old(defaults.entries)
    {
      weights := new WeightTable(defaults.entries);
      SaveWeights(file, weights.entries);
    }
  }

  /** With no weights file, the manager as written hands out the default
      table itself: after `update_weights({"base": 2.0})`,
      `reset_to_default()` restores 2.0 rather than the configured 1.0, and
      the process-wide default table now holds 2.0. */
  method ResetAfterUpdateAsWritten() returns (restored: map<string, real>, globalDefaults: map<string, real>)
    ensures "base" in restored && restored["base"] == 2.0
    ensures restored != DefaultWeights && globalDefaults != DefaultWeights
  {
    var defaults := new WeightTable(DefaultWeights);
    var file := new WeightsFile(Missing);
    var manager := new WeightsManager.AsWritten(file, defaults);
    manager.UpdateWeights(map["base" := 2.0]);
    manager.ResetToDefault();
    restored := manager.weights.entries;
    globalDefaults := defaults.entries;
    assert restored["base"] != DefaultWeights["base"];
  }

  /** The same sequence with the copying loader restores the configured
      defaults and leaves the default table untouched. */
  method ResetAfterUpdate() returns (restored: map<string, real>, globalDefaults: map<string, real>)
    ensures restored == DefaultWeights && globalDefaults == DefaultWeights
  {
    var defaults := new WeightTable(DefaultWeights);
    var file := new WeightsFile(Missing);
    var manager := new WeightsManager(file, defaults);
    manager.UpdateWeights(map["base" := 2.0]);
    manager.ResetToDefault();
    restored := manager.weights.entries;
    globalDefaults := defaults.entries;
  }

  /** Changing the dict `get_weights` returned does not change the stored
      weights. */
  method CopyIsIndependent(manager: WeightsManager, k: string, v: real) returns (stored: map<string, real>, copy: map<string, real>)
    ensures stored == manager.weights.entries
    ensures k in copy && copy[k] == v
  {
    var w := manager.GetWeights();
    w.entries := w.entries[k := v];
    stored := manager.weights.entries;
    copy := w.entries;
  }
}
