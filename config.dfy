/**
 * The configuration loader: built-in defaults, optionally replaced by a
 * parsed TOML file whose missing `scan`, `files` and `device` sections are
 * filled in from the defaults.
 */
module Config {

  /** A decoded TOML value (floats and dates are not modelled). */
  datatype Value =
    | Str(s: string)
    | Int(i: int)
    | Bool(b: bool)
    | List(items: seq<Value>)
    | Table(entries: map<string, Value>)

  /**
   * What reading the configuration file produced: no file at the path, an
   * error while opening or parsing it, or the parsed top-level table.
   */
  datatype ConfigFile = Absent | Unreadable(reason: string) | Parsed(table: map<string, Value>)

  /** The sections that a loaded file is guaranteed to have. */
  const Sections: set<string> := {"scan", "files", "device"}

  function Defaults(): (d: map<string, Value>)
    ensures d.Keys == Sections + {"server"}
  {
    map[
      "server" := Str("http://scan.home"),
      "device" := Int(1),
      "scan" := Table(map["resolution" := Int(200), "mode" := Str("Color"), "quality" := Str("high")]),
      "files" := Table(map["output_dir" := Str("scans")])
    ]
  }

  /** The parsed table with every missing section taken from the defaults. */
  function Backfilled(table: map<string, Value>): (r: map<string, Value>)
  {
    map k | k in table.Keys + Sections :: if k in table then table[k] else Defaults()[k]
  }

  /** Loading: the defaults unless the file was read and parsed. */
  method LoadConfig(file: ConfigFile) returns (config: map<string, Value>)
    ensures !file.Parsed? ==> config == Defaults()
    ensures file.Parsed? ==> config.Keys == file.table.Keys + Sections
    ensures file.Parsed? ==> forall k :: k in file.table ==> config[k] == file.table[k]
    ensures file.Parsed? ==> forall k :: k in Sections && k !in file.table ==> config[k] == Defaults()[k]
    ensures file.Parsed? ==> config == Backfilled(file.table)
  {
    match file
    case Absent =>
      config := Defaults();
    case Unreadable(_) =>
      config := Defaults();
    case Parsed(table) =>
      config := table;
      if "scan" !in config {
        config := config["scan" := Defaults()["scan"]];
      }
      if "files" !in config {
        config := config["files" := Defaults()["files"]];
      }
      if "device" !in config {
        config := config["device" := Defaults()["device"]];
      }
  }

  /** Backfilling adds nothing more to a table that already went through it. */
  lemma BackfilledIdempotent(table: map<string, Value>)
    ensures Backfilled(Backfilled(table)) == Backfilled(table)
  {
  }

  /** A file identical to the defaults loads exactly as a missing file does. */
  lemma DefaultsAreBackfilled()
    ensures Backfilled(Defaults()) == Defaults()
  {
  }

  /**
   * Only the listed sections are backfilled: a file without `server` loads
   * into a table without `server`, although the defaults have one.
   */
  lemma ServerIsNotBackfilled(table: map<string, Value>)
    requires "server" !in table
    ensures "server" !in Backfilled(table) && "server" in Defaults()
  {
  }
}
