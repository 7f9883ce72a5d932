/**
 * The git configuration as a map from (section, subsection, key) to the stored text.
 *
 * Every setter of the stored-config classes writes and saves at once, so a write is a map update.
 */
module Config {
  import opened Wrappers
  import opened Strings

  datatype ConfigKey = ConfigKey(section: string, subsection: Option<string>, name: string)

  type Config = map<ConfigKey, string>

  const GitProcessSection: string := "gitProcess"

  /** `StoredConfig.getString`: the stored value, or nothing. */
  function GetString(c: Config, section: string, subsection: Option<string>, name: string): (r: Option<string>)
    ensures r.Some? <==> ConfigKey(section, subsection, name) in c
    ensures r.Some? ==> r.value == c[ConfigKey(section, subsection, name)]
  {
    var k := ConfigKey(section, subsection, name);
    if k in c then Some(c[k]) else None
  }

  function SetString(c: Config, section: string, subsection: Option<string>, name: string, value: string): (r: Config)
    ensures r.Keys == c.Keys + {ConfigKey(section, subsection, name)}
  {
    c[ConfigKey(section, subsection, name) := value]
  }

  /** A write is read back, and leaves every other entry as it was. */
  lemma GetAfterSet(c: Config, section: string, subsection: Option<string>, name: string, value: string,
                    s2: string, sub2: Option<string>, n2: string)
    ensures GetString(SetString(c, section, subsection, name, value), s2, sub2, n2)
         == if (s2, sub2, n2) == (section, subsection, name) then Some(value) else GetString(c, s2, sub2, n2)
  {
  }

  /** The section names present (`StoredConfig.getSections`). */
  function Sections(c: Config): set<string>
  {
    set k | k in c :: k.section
  }

  /** The subsection names of `section` (`StoredConfig.getSubsections`). */
  function Subsections(c: Config, section: string): set<string>
  {
    set k | k in c && k.section == section && k.subsection.Some? :: k.subsection.value
  }

  /** The texts git reads as true or false, compared ignoring case; anything else is not a boolean. */
  function ParseBoolean(text: string): (r: Option<bool>)
    ensures r == Some(true) <==> ToLower(text) in ["yes", "true", "1", "on"]
    ensures r == Some(false) <==> ToLower(text) in ["no", "false", "0", "off"]
  {
    var t := ToLower(text);
    if t == "yes" || t == "true" || t == "1" || t == "on" then Some(true)
    else if t == "no" || t == "false" || t == "0" || t == "off" then Some(false)
    else None
  }

  /**
   * `StoredConfig.getBoolean`: the default when unset, the parsed value when it is a boolean,
   * and an `IllegalArgumentException` for any other text.
   */
  function GetBoolean(c: Config, section: string, subsection: Option<string>, name: string, default: bool): (r: Try<bool>)
    ensures GetString(c, section, subsection, name).None? ==> r == Ok(default)
    ensures GetString(c, section, subsection, name).Some? ==>
              var v := ParseBoolean(GetString(c, section, subsection, name).value);
              (r.Ok? <==> v.Some?) && (r.Ok? ==> r.value == v.value)
  {
    match GetString(c, section, subsection, name)
    case None => Ok(default)
    case Some(text) =>
      match ParseBoolean(text)
      case Some(b) => Ok(b)
      case None => Thrown(IllegalArgument("Invalid boolean value: " + name + "=" + text))
  }

  /** `StoredConfig.setBoolean` stores the text `true` or `false`. */
  function SetBoolean(c: Config, section: string, subsection: Option<string>, name: string, value: bool): Config
  {
    SetString(c, section, subsection, name, if value then "true" else "false")
  }

  /** A boolean write is read back whatever the default. */
  lemma GetBooleanAfterSet(c: Config, section: string, subsection: Option<string>, name: string, value: bool, default: bool)
    ensures GetBoolean(SetBoolean(c, section, subsection, name, value), section, subsection, name, default) == Ok(value)
  {
    if value {
      assert ToLower("true") == "true";
    } else {
      assert ToLower("false") == "false";
    }
  }
}
