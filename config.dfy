/**
 * The optional configuration file: its record, its conversion to a
 * placement, and the steps that load it (src/config.rs).
 */
module Config {
  import opened Wrappers
  import opened Metadata

  /** The configuration file's record: keys `top`, `left`, `right-pad`, `top-pad`. */
  datatype Conf = Conf(top: bool, left: bool, rightPad: real, topPad: real)

  /** The placement the program uses. */
  datatype Config = Config(location: ScreenLoc, offset: Offset)

  /**
   * The corner is a top corner iff `top` and a left corner iff `left`;
   * the pads become the offset, right pad first.
   */
  function ConvertToConfig(conf: Conf): (c: Config)
    ensures (c.location == TopLeft || c.location == TopRight) <==> conf.top
    ensures (c.location == TopLeft || c.location == BottomLeft) <==> conf.left
    ensures c.offset == (conf.rightPad, conf.topPad)
  {
    var location :=
      if conf.top && conf.left then TopLeft
      else if conf.top && !conf.left then TopRight
      else if !conf.top && conf.left then BottomLeft
      else if !conf.top && !conf.left then BottomRight
      else BottomRight;
    Config(location, (conf.rightPad, conf.topPad))
  }

  /** The four (top, left) pairs and their corners. */
  lemma ConvertTable(rightPad: real, topPad: real)
    ensures ConvertToConfig(Conf(true, true, rightPad, topPad)).location == TopLeft
    ensures ConvertToConfig(Conf(true, false, rightPad, topPad)).location == TopRight
    ensures ConvertToConfig(Conf(false, true, rightPad, topPad)).location == BottomLeft
    ensures ConvertToConfig(Conf(false, false, rightPad, topPad)).location == BottomRight
  {
  }

  /** Distinct (top, left) pairs give distinct corners. */
  lemma ConvertInjective(a: Conf, b: Conf)
    ensures ConvertToConfig(a).location == ConvertToConfig(b).location <==> a.top == b.top && a.left == b.left
  {
  }

  /** A directory path, which may fail conversion to UTF-8 text. */
  datatype Path = Utf8(text: string) | NotUtf8

  const ConfigFileName := "/now-playing-rs.yml"

  /**
   * What `get_config` asks of the system: the user's configuration
   * directory (`None` when the home directory is unknown), reading a file
   * (`None` when unreadable) and parsing the YAML record (`None` when
   * malformed).
   */
  datatype System = System(
    configDir: Option<Path>,
    readFile: string -> Option<string>,
    parse: string -> Option<Conf>)

  /**
   * Loads the configuration: `None` at any failing step, the converted
   * record otherwise; a non-UTF-8 directory aborts at its `unwrap`.
   */
  function GetConfig(sys: System): (r: Result<Option<Config>, Panic>)
    ensures r.Err? ==> r.error == ConfigPathNotUtf8
    ensures r == Err(ConfigPathNotUtf8) <==> sys.configDir == Some(NotUtf8)
    ensures r == Ok(None) <==>
              || sys.configDir.None?
              || (sys.configDir.Some? && sys.configDir.value.Utf8? &&
                  var text := sys.readFile(sys.configDir.value.text + ConfigFileName);
                  text.None? || sys.parse(text.value).None?)
    ensures r.Ok? && r.value.Some? ==>
              && sys.configDir.Some? && sys.configDir.value.Utf8?
              && var text := sys.readFile(sys.configDir.value.text + ConfigFileName);
              && text.Some? && sys.parse(text.value).Some?
              && r.value.value == ConvertToConfig(sys.parse(text.value).value)
    ensures sys.configDir.Some? && sys.configDir.value.Utf8? ==>
              var text := sys.readFile(sys.configDir.value.text + ConfigFileName);
              text.Some? && sys.parse(text.value).Some? ==>
                r == Ok(Some(ConvertToConfig(sys.parse(text.value).value)))
  {
    match sys.configDir
    case None => Ok(None)
    case Some(dir) =>
      match dir
      case NotUtf8 => Err(ConfigPathNotUtf8)
      case Utf8(path) =>
        match sys.readFile(path + ConfigFileName)
        case None => Ok(None)
        case Some(text) =>
          match sys.parse(text)
          case None => Ok(None)
          case Some(conf) => Ok(Some(ConvertToConfig(conf)))
  }
}
