/** The key/value configuration store: an in-memory map that is written back in full to the
    configuration file on every change. */
module Configuration {
  import opened Errors
  import opened JsonValues

  /** The configuration a missing or corrupt file is replaced by. */
  function DefaultConfig(): map<string, Json> {
    map["version" := JNum(1)]
  }

  /** What the configuration file holds: nothing, text that is not JSON, or a saved snapshot. */
  datatype ConfigFile = Missing | Corrupt | Saved(snapshot: map<string, Json>)

  /** dict.get: the value stored under `key`, or None. */
  function Entry(config: map<string, Json>, key: string): Option<Json> {
    if key in config then Some(config[key]) else None
  }

  class ConfigurationService {
    var config: map<string, Json>
    var file: ConfigFile

    /** The file always holds a snapshot of the whole in-memory map. */
    ghost predicate Valid()
      reads this
    {
      file == Saved(config)
    }

    /** Loads the configuration file; a missing or corrupt file is recreated with the
        default configuration. */
    constructor (disk: ConfigFile)
      ensures Valid()
      ensures disk.Saved? ==> config == disk.snapshot
      ensures !disk.Saved? ==> config == DefaultConfig()
      ensures !disk.Saved? ==> Get("version") == Some(JNum(1))
      ensures !disk.Saved? ==> forall k :: k != "version" ==> Get(k) == None
    {
      config := map[];
      file := disk;
      new;
      ReadConfig();
    }

    /** The value stored under `key`, or None when the key was never written. */
    function Get(key: string): (r: Option<Json>)
      reads this
      ensures r.Some? <==> key in config
      ensures r.Some? ==> r.value == config[key]
    {
      Entry(config, key)
    }

    /** Stores `value` under `key` and persists the whole map. */
    method WriteKey(key: string, value: Json)
      modifies this
      ensures Valid()
      ensures config == old(config)[key := value]
      ensures Get(key) == Some(value)
      ensures forall k :: k != key ==> Get(k) == old(Get(k))
    {
      config := config[key := value];
      SaveConfig();
    }

    method CreateDefaultConfig()
      modifies this
      ensures Valid() && config == DefaultConfig()
    {
      config := DefaultConfig();
      SaveConfig();
    }

    /** Reads the file into the map; when there is nothing usable to read, the default
        configuration replaces it and is persisted. */
    method ReadConfig()
      modifies this
      ensures Valid()
      ensures old(file).Saved? ==> config == old(file).snapshot && file == old(file)
      ensures !old(file).Saved? ==> config == DefaultConfig()
    {
      match file
      case Saved(snapshot) =>
        config := snapshot;
      case Missing =>
        CreateDefaultConfig();
      case Corrupt =>
        CreateDefaultConfig();
    }

    /** Rewrites the whole file from the in-memory map. */
    method SaveConfig()
      modifies this`file
      ensures Valid()
    {
      file := Saved(config);
    }
  }

  /** A store loaded from what another store has persisted holds the same map: nothing
      written through WriteKey is lost across a restart. */
  method Reload(store: ConfigurationService) returns (reloaded: ConfigurationService)
    requires store.Valid()
    ensures fresh(reloaded) && reloaded.Valid()
    ensures reloaded.config == store.config
    ensures forall k :: reloaded.Get(k) == store.Get(k)
  {
    reloaded := new ConfigurationService(store.file);
  }
}
