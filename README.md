# ChatLogs: a Dafny model of the chat-event handler

ChatLogs is a CounterStrikeSharp plugin. It writes each in-game chat message to
a MySQL table `chatlogs` with the columns team, playername, steamid and message.
This project models what the plugin decides, not how it talks to MySQL:

- `wrappers.dfy`: `Option`, which stands in for a C# `null`.
- `config.dfy` (module `Config`): the `ChatLogsConfig` record and its defaults.
  It also holds .NET's `string.IsNullOrWhiteSpace` and the completeness test
  that `GetConnectionString` runs. That test only logs an error. It never stops
  the connection settings from being returned.
- `chatlogs.dfy` (module `ChatLogs`): the decision logic of `OnEventPlayerChat`.
  This covers the guard, the `IgnoreCommands` filter, the team-label `switch`
  and the row that is built. The same module has the plugin class
  `ChatLogsPlugin`. Its `rows` field holds the rows this plugin instance has
  inserted into the table, and its `errors` field the errors it has logged.
  Rows already in the table from earlier runs are not part of the model. Its handler method appends at most one
  row and always answers `Continue`.

Some things come from outside the plugin, so the model takes them as inputs:

- The host resolves the sending player from the event's user id. The model
  takes that player as an `Option<Player>` parameter.
- The database connection and the insert either succeed or fail. The model
  takes the outcome as a `bool insertOk` parameter.
- The host's `CsTeam` enum is not part of this model. The three team numbers
  are constants with the host's values: Spectator 1, Terrorist 2,
  CounterTerrorist 3. The proofs only use the fact that they are distinct.
- A player's SteamID is modelled as an unsigned 64-bit number, as the host's
  player controller declares it. Turning it into the `VARCHAR` column is left
  to the database.

The handler checks only that the text is not `null`. It does not check that
the text is non-empty. So `""` passes the guard, is not a command
(`StartsWith` is false for it) and is recorded (`ChatLogs.EmptyTextRecorded`).

## Model

| member | source | states |
|---|---|---|
| `Config.DefaultConfig` | src/ChatLogs.cs:14-19 | A fresh configuration has port 3306, `IgnoreCommands` true, and "" for host, user, password and database name |
| `Config.AllWhiteSpace` | src/ChatLogs.cs:44 | True exactly when every character of the string is white space; the empty string counts as white space |
| `Config.IsNullOrWhiteSpace` | src/ChatLogs.cs:44 | True exactly for null or a string whose every character is white space |
| `Config.IsIncomplete` | src/ChatLogs.cs:44-47 | The configuration is complete exactly when host, name, user and password each hold a character that is not white space |
| `Config.GetConnectionString` | src/ChatLogs.cs:42-58 | The incompleteness error is logged exactly when one of the four text settings is blank; settings are returned in every case and carry the configuration's own host, name, user, password and port |
| `Config.DefaultConfigIsIncomplete` | src/ChatLogs.cs:14-19 | The default configuration is incomplete, so building its connection string logs the error |
| `Config.IncompleteIgnoresPortAndFlag` | src/ChatLogs.cs:44 | The port and `IgnoreCommands` take no part in the completeness verdict |
| `ChatLogs.StartsWith` | src/ChatLogs.cs:97 | `StartsWith(c)` holds exactly when `[c]` is a prefix of the text, so it is false for "" |
| `ChatLogs.TeamSwitch` | src/ChatLogs.cs:104-110 | `[T]`, `[CT]` and `[SPEC]` exactly for the Terrorist, CounterTerrorist and Spectator numbers; `[NONE]` exactly for every other number; never `[ALL]` |
| `ChatLogs.TeamLabel` | src/ChatLogs.cs:101-111 | The label is one of the five labels; it is `[ALL]` exactly when the message is not team-only; a team-only message gets the team switch's label |
| `ChatLogs.Decide` | src/ChatLogs.cs:92-127 | No row exactly when the player is missing or invalid, the text is null, or `IgnoreCommands` is set and the text starts with `!` or `/`; otherwise the row carries the text verbatim, the player's name and SteamID, and the label `TeamLabel` gives for the team-only flag and the player's team number |
| `ChatLogs.Recorded` | src/ChatLogs.cs:113-130 | One call yields at most one row; exactly one when a row was decided and the insert succeeded, and it is the decided row |
| `ChatLogs.Logged` | src/ChatLogs.cs:113-136 | A dropped event logs nothing; an event that reaches the insert logs the incompleteness error exactly when the configuration is incomplete, and logs an insert failure exactly when the insert fails; each at most once, the incompleteness error first |
| `ChatLogs.ChatLogsPlugin.constructor` | src/ChatLogs.cs:29 | The plugin starts with the default configuration, no rows inserted and no logged errors |
| `ChatLogs.ChatLogsPlugin.OnConfigParsed` | src/ChatLogs.cs:31-34 | The parsed configuration replaces the current one; the table and the error log do not change |
| `ChatLogs.ChatLogsPlugin.OnEventPlayerChat` | src/ChatLogs.cs:88-139 | Returns `Continue` on every path; the configuration does not change; the table becomes the old table plus the recorded rows, and the error log grows by the logged errors |
| `ChatLogs.RecordedWhenPassing` | src/ChatLogs.cs:92-130 | A valid player's non-null text that is not a filtered command gives exactly one row when the insert succeeds |
| `ChatLogs.GuardDrops` | src/ChatLogs.cs:92-93 | A missing or invalid player, or a null text, gives no row and no logged error |
| `ChatLogs.CommandsDroppedWhenIgnored` | src/ChatLogs.cs:95-99 | With `IgnoreCommands` set, text with prefix `!` or `/` gives no row |
| `ChatLogs.CommandsKeptWhenNotIgnored` | src/ChatLogs.cs:95-99 | With `IgnoreCommands` clear, any text that passes the guard, commands included, gives a row carrying that text |
| `ChatLogs.EmptyTextRecorded` | src/ChatLogs.cs:92-127 | The empty text from a valid player is recorded as an empty message |
| `ChatLogs.RowsAfterGrowth` | src/ChatLogs.cs:113-138 | Over any sequence of events the old rows stay a prefix, and the table grows by exactly the number of events that pass guard and filter and whose insert succeeds; that number is at most the number of events |
| `ChatLogs.RowsComeFromEvents` | src/ChatLogs.cs:127 | Every row added over a sequence of events carries the text of one of those events |
| `ChatLogs.TerroristTeamMessage` | src/ChatLogs.cs:101-110 | A team-only "go go" from a valid Terrorist becomes the row (`[T]`, name, SteamID, "go go") |
| `ChatLogs.DefaultDropsHelpCommand` | src/ChatLogs.cs:19 | Under the default configuration, `!help` is not recorded |

## Left out

- `CreateTable` (src/ChatLogs.cs:60-86) is not modelled. Its only logic is the `CREATE TABLE IF NOT EXISTS` statement, which the database runs. Its failure is caught and only logged.
- The MySQL connection, the command and the parameter binding are not modelled. The table is an abstract sequence of rows, and success of the connection plus insert is the `insertOk` input.
- The `MySqlConnectionStringBuilder` text format and the `(uint)` cast of the port are not modelled. They belong to an external library. `Config.GetConnectionString` returns the settings handed to the builder.
- The plugin metadata, `Load`, event registration and `Utilities.GetPlayerFromUserid` are not modelled. They are calls into the host. The resolved player is an input.
- The wording of the log messages is not modelled. Only which error is logged is kept, as a `LoggedError` value.
- The server-side timestamp and the primary key on (steamid, timestamp) are not modelled. They are database behaviour. A key collision shows up in the model as a failed insert.
- The event's `Userid` field is not modelled. The handler reads it only to look up the player.
