/** Saving and loading a pattern config as a JSON file
    (src/app/lib/patterns/fileUtils.ts). The JSON is modelled once parsed:
    a record whose fields may be absent. */
module FileUtils {
  import opened Wrappers
  import opened Patterns

  /** The parsed content of a config file; `None` is a missing field. */
  datatype ConfigFile = ConfigFile(pattern: Option<string>, params: Option<Params>, timestamp: Option<string>)

  /** What the file reader hands to the loader. */
  datatype FileText = Unreadable | NotJson | Parsed(content: ConfigFile)

  datatype LoadError = ReadFailed | ParseFailed | InvalidStructure(message: string)

  const INVALID_STRUCTURE: string := "Invalid config file structure."

  /** The record written on save: the config's tag and params unchanged, plus
      the time of saving. */
  function SavePatternConfig(config: PatternConfig, timestamp: string): (f: ConfigFile)
    ensures f.pattern == Some(config.kind) && f.params == Some(config.params)
    ensures f.timestamp == Some(timestamp)
  {
    ConfigFile(Some(config.kind), Some(config.params), Some(timestamp))
  }

  /** JavaScript truthiness of a parsed string field: present and non-empty. */
  predicate TruthyString(s: Option<string>)
  {
    s.Some? && s.value != ""
  }

  /** JavaScript truthiness of a parsed object field: present, even when empty. */
  predicate TruthyObject(o: Option<Params>)
  {
    o.Some?
  }

  /** `content.pattern && content.params`: a non-empty tag and a params object,
      which may be empty. */
  predicate HasPatternAndParams(f: ConfigFile)
    ensures HasPatternAndParams(f) <==> f.pattern.Some? && |f.pattern.value| > 0 && f.params.Some?
  {
    TruthyString(f.pattern) && TruthyObject(f.params)
  }

  /** Accepts a parsed file exactly when it has a truthy `pattern` and
      `params`, and then takes them as the config's tag and params without
      checking either; otherwise rejects with the structure error. A file that
      cannot be read or parsed is rejected with no config. */
  function LoadPatternConfig(file: FileText): (r: Result<PatternConfig, LoadError>)
    ensures r.Ok? <==> file.Parsed? && HasPatternAndParams(file.content)
    ensures r.Ok? ==> r.value.kind == file.content.pattern.value && r.value.params == file.content.params.value
    ensures file.Parsed? && !HasPatternAndParams(file.content) ==> r == Err(InvalidStructure(INVALID_STRUCTURE))
    ensures file.Unreadable? ==> r == Err(ReadFailed)
    ensures file.NotJson? ==> r == Err(ParseFailed)
  {
    match file
    case Unreadable => Err(ReadFailed)
    case NotJson => Err(ParseFailed)
    case Parsed(content) =>
      if HasPatternAndParams(content) then Ok(PatternConfig(content.pattern.value, content.params.value))
      else Err(InvalidStructure(INVALID_STRUCTURE))
  }

  /** Loading what was saved gives back the original config, whatever the
      timestamp, for any config with a non-empty tag. */
  lemma SaveThenLoad(config: PatternConfig, timestamp: string)
    requires config.kind != ""
    ensures LoadPatternConfig(Parsed(SavePatternConfig(config, timestamp))) == Ok(config)
  {
  }

  /** The timestamp plays no part in loading. */
  lemma LoadIgnoresTimestamp(f: ConfigFile, t: Option<string>)
    ensures LoadPatternConfig(Parsed(f.(timestamp := t))) == LoadPatternConfig(Parsed(f))
  {
  }

  /** The loader does not check the family: a tag that is neither vortex nor
      spiral, with params of any vocabulary, is accepted as it is. */
  lemma LoadAcceptsAnyFamily(tag: string, params: Params)
    requires tag != "" && tag != VORTEX && tag != SPIRAL
    ensures LoadPatternConfig(Parsed(ConfigFile(Some(tag), Some(params), None))) == Ok(PatternConfig(tag, params))
  {
  }
}
