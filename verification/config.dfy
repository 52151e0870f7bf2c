/**
 * The configuration store: dotted-key lookup in the loaded JSON document,
 * the per-section accessors, and the process-wide instance created by the
 * first `get_config` call. Reading the file is an input.
 */
module Config {
  import opened Wrappers
  import opened Json
  import Text

  /** A loaded configuration: where it came from and the document read. */
  datatype Config = Config(path: string, config: Json)

  /**
   * The descent of `Config.get`: follow `keys` through nested dictionaries,
   * answering `default` as soon as a key is missing or the value reached is
   * not a dictionary.
   */
  function Lookup(v: Json, keys: seq<string>, default: Json): (r: Json)
    ensures |keys| == 0 ==> r == v
    ensures |keys| > 0 && (!v.JObj? || keys[0] !in v.fields) ==> r == default
    ensures |keys| > 0 && v.JObj? && keys[0] in v.fields ==> r == Lookup(v.fields[keys[0]], keys[1..], default)
    decreases |keys|
  {
    if |keys| == 0 then v
    else if v.JObj? && keys[0] in v.fields then Lookup(v.fields[keys[0]], keys[1..], default)
    else default
  }

  /**
   * `Config.get`: the key is split on '.' and looked up segment by segment.
   * A key without '.' reads one entry of the document; a key spelled from
   * dot-free segments reads the nested path those segments name.
   */
  function Get(c: Config, key: string, default: Json): (r: Json)
    ensures r == Lookup(c.config, Text.Split(key, '.'), default)
    ensures '.' !in key ==>
      r == (if c.config.JObj? && key in c.config.fields then c.config.fields[key] else default)
    ensures forall keys ::
      (|keys| > 0 && (forall i :: 0 <= i < |keys| ==> '.' !in keys[i]) && key == Text.Join(keys, '.'))
      ==> r == Lookup(c.config, keys, default)
  {
    JoinSplitAll('.');
    Lookup(c.config, Text.Split(key, '.'), default)
  }

  /** Splitting undoes joining for every list of separator-free parts. */
  lemma JoinSplitAll(sep: char)
    ensures forall parts :: |parts| > 0 && (forall i :: 0 <= i < |parts| ==> sep !in parts[i]) ==>
      Text.Split(Text.Join(parts, sep), sep) == parts
  {
    forall parts | |parts| > 0 && (forall i :: 0 <= i < |parts| ==> sep !in parts[i])
      ensures Text.Split(Text.Join(parts, sep), sep) == parts
    {
      Text.JoinSplit(parts, sep);
    }
  }

  /** The document with `x` stored at `keys`, creating dictionaries on the way. */
  function Put(v: Json, keys: seq<string>, x: Json): (r: Json)
    ensures |keys| > 0 ==> r.JObj?
    decreases |keys|
  {
    if |keys| == 0 then x
    else
      var m := if v.JObj? then v.fields else map[];
      var child := if keys[0] in m then m[keys[0]] else JObj(map[]);
      JObj(m[keys[0] := Put(child, keys[1..], x)])
  }

  /** Looking up a path returns what was stored there, whatever the default. */
  lemma {:induction false} LookupPut(v: Json, keys: seq<string>, x: Json, default: Json)
    ensures Lookup(Put(v, keys, x), keys, default) == x
    decreases |keys|
  {
    if |keys| > 0 {
      var m := if v.JObj? then v.fields else map[];
      var child := if keys[0] in m then m[keys[0]] else JObj(map[]);
      LookupPut(child, keys[1..], x, default);
    }
  }

  /** A stored `null` comes back as `null`, not as the default. */
  lemma StoredNullIsReturned(v: Json, keys: seq<string>, default: Json)
    ensures Lookup(Put(v, keys, JNull), keys, default) == JNull
  {
    LookupPut(v, keys, JNull, default);
  }

  /** Writing one path leaves a path that branches off it untouched. */
  lemma {:induction false} PutElsewhere(v: Json, keys: seq<string>, other: seq<string>, x: Json, default: Json)
    requires |keys| > 0 && |other| > 0 && keys[0] != other[0]
    requires v.JObj?
    ensures Lookup(Put(v, keys, x), other, default) == Lookup(v, other, default)
  {
  }

  /**
   * The section properties (`asterdex`, `deepseek`, `trading`,
   * `strategies`, `risk_management`, and `logging` for `logging_config`):
   * the section, or `{}` when absent. A document that is not a dictionary
   * has no `get` and raises.
   */
  function Section(c: Config, name: string): (r: Attempt<Json>)
    ensures r.Ok? <==> c.config.JObj?
    ensures c.config.JObj? && name !in c.config.fields ==> r == Ok(JObj(map[]))
    ensures c.config.JObj? && name in c.config.fields ==> r == Ok(c.config.fields[name])
    ensures c.config.JObj? && '.' !in name ==> r == Ok(Get(c, name, JObj(map[])))
  {
    if !c.config.JObj? then Raised else Ok(if name in c.config.fields then c.config.fields[name] else JObj(map[]))
  }

  const SectionNames := ["asterdex", "deepseek", "trading", "strategies", "risk_management", "logging"]

  /**
   * `get_config`: the first call loads the configuration from `path` (or
   * the default location) and keeps it; later calls return the kept one.
   * `load` stands for reading and parsing the file, which raises when it is
   * missing or malformed; a failed first call keeps nothing.
   */
  function GetConfig(instance: Option<Config>, path: Option<string>, defaultPath: string,
                     load: string -> Attempt<Json>): (r: (Attempt<Config>, Option<Config>))
    ensures instance.Some? ==> r == (Ok(instance.value), instance)
    ensures instance.None? && r.0.Ok? ==> r.1 == Some(r.0.value) && r.0.value.path == path.GetOr(defaultPath)
    ensures instance.None? && r.0.Raised? ==> r.1.None?
    ensures instance.None? ==> (r.0.Ok? <==> load(path.GetOr(defaultPath)).Ok?)
    ensures instance.None? && r.0.Ok? ==> r.0.value.config == load(path.GetOr(defaultPath)).value
  {
    if instance.Some? then (Ok(instance.value), instance)
    else
      var p := path.GetOr(defaultPath);
      match load(p)
      case Raised => (Raised, None)
      case Ok(doc) => (Ok(Config(p, doc)), Some(Config(p, doc)))
  }

  /** After a successful first call, every later call returns that same configuration, whatever path it passes. */
  lemma FirstCallWins(path: Option<string>, later: Option<string>, defaultPath: string,
                      load: string -> Attempt<Json>, reload: string -> Attempt<Json>)
    requires GetConfig(None, path, defaultPath, load).0.Ok?
    ensures var (first, kept) := GetConfig(None, path, defaultPath, load);
      GetConfig(kept, later, defaultPath, reload) == (first, kept)
  {
  }
}
