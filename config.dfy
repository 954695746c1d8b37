/**
 * The plugin's configuration record (`ChatLogsConfig`) and the completeness
 * test that `GetConnectionString` performs before it builds a connection
 * string.
 */
module Config {
  import opened Wrappers

  /** A C# `int`. */
  type Int32 = x: int | -0x8000_0000 <= x < 0x8000_0000

  /**
   * The six settings. The four text settings are C# `string` properties, which
   * a configuration file can set to `null`; `None` stands for that.
   */
  datatype ChatLogsConfig = ChatLogsConfig(
    databaseHost: Option<string>,
    databasePort: Int32,
    databaseUser: Option<string>,
    databasePassword: Option<string>,
    databaseName: Option<string>,
    ignoreCommands: bool)

  /** The settings a freshly constructed `ChatLogsConfig` holds. */
  function DefaultConfig(): (c: ChatLogsConfig)
    ensures c.databasePort == 3306 && c.ignoreCommands
    ensures c.databaseHost == c.databaseUser == c.databasePassword == c.databaseName == Some("")
  {
    ChatLogsConfig(Some(""), 3306, Some(""), Some(""), Some(""), true)
  }

  /**
   * The characters .NET's `char.IsWhiteSpace` accepts: the Unicode space,
   * line and paragraph separators, the controls U+0009 to U+000D, and U+0085.
   */
  predicate IsWhiteSpace(c: char)
  {
    var n := c as int;
    (0x09 <= n <= 0x0D) || n == 0x20 || n == 0x85 || n == 0xA0 || n == 0x1680 ||
    (0x2000 <= n <= 0x200A) || n == 0x2028 || n == 0x2029 || n == 0x202F ||
    n == 0x205F || n == 0x3000
  }

  /** True when every character of `s` is white space (so also for ""). */
  function AllWhiteSpace(s: string): (r: bool)
    ensures r <==> forall i :: 0 <= i < |s| ==> IsWhiteSpace(s[i])
  {
    if s == [] then true
    else if !IsWhiteSpace(s[0]) then false
    else
      var rest := AllWhiteSpace(s[1..]);
      assert forall i :: 1 <= i < |s| ==> s[i] == s[1..][i - 1];
      rest
  }

  /** .NET's `string.IsNullOrWhiteSpace`. */
  function IsNullOrWhiteSpace(s: Option<string>): (r: bool)
    ensures r <==> s.None? || forall i :: 0 <= i < |s.value| ==> IsWhiteSpace(s.value[i])
  {
    match s
    case None => true
    case Some(t) => AllWhiteSpace(t)
  }

  /** A setting that holds at least one character other than white space. */
  predicate Filled(s: Option<string>)
  {
    s.Some? && exists i :: 0 <= i < |s.value| && !IsWhiteSpace(s.value[i])
  }

  /**
   * The condition under which `GetConnectionString` logs that the
   * configuration is incomplete: host, name, user or password is null or
   * white space. The port and the command flag take no part.
   */
  function IsIncomplete(c: ChatLogsConfig): (r: bool)
    ensures !r <==> Filled(c.databaseHost) && Filled(c.databaseName) &&
                    Filled(c.databaseUser) && Filled(c.databasePassword)
  {
    IsNullOrWhiteSpace(c.databaseHost) || IsNullOrWhiteSpace(c.databaseName) ||
    IsNullOrWhiteSpace(c.databaseUser) || IsNullOrWhiteSpace(c.databasePassword)
  }

  /**
   * What `GetConnectionString` hands to the connection-string builder, and
   * whether it logged the "configuration is incomplete" error first. The
   * builder's own text format is not part of this model.
   */
  datatype ConnectionSettings = ConnectionSettings(
    loggedIncomplete: bool,
    server: Option<string>,
    database: Option<string>,
    userId: Option<string>,
    password: Option<string>,
    port: Int32)

  /**
   * Incompleteness is only logged: settings are returned for every
   * configuration, and they are the configuration's own values.
   */
  function GetConnectionString(c: ChatLogsConfig): (r: ConnectionSettings)
    ensures r.loggedIncomplete <==> !(Filled(c.databaseHost) && Filled(c.databaseName) &&
                                      Filled(c.databaseUser) && Filled(c.databasePassword))
    ensures r.server == c.databaseHost && r.database == c.databaseName
    ensures r.userId == c.databaseUser && r.password == c.databasePassword
    ensures r.port == c.databasePort
  {
    ConnectionSettings(IsIncomplete(c), c.databaseHost, c.databaseName,
                       c.databaseUser, c.databasePassword, c.databasePort)
  }

  /** The configuration a plugin starts with is incomplete: its text settings are all "". */
  lemma DefaultConfigIsIncomplete()
    ensures IsIncomplete(DefaultConfig())
    ensures GetConnectionString(DefaultConfig()).loggedIncomplete
  {
  }

  /** Changing the port or the command flag never changes the completeness verdict. */
  lemma IncompleteIgnoresPortAndFlag(c: ChatLogsConfig, port: Int32, ignore: bool)
    ensures IsIncomplete(c.(databasePort := port, ignoreCommands := ignore)) == IsIncomplete(c)
  {
  }
}
