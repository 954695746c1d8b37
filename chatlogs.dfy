/**
 * The chat-event handler of the ChatLogs plugin: which chat events become a
 * row of the `chatlogs` table, and which row.
 *
 * The database is an abstract table `rows`; whether the connection and the
 * insert succeed is an input of each call. The player the host resolves from
 * the event's user id is an input too.
 */
module ChatLogs {
  import opened Wrappers
  import opened Config

  /** A C# `ulong`, the type of a player's SteamID. */
  type UInt64 = x: int | 0 <= x < 0x1_0000_0000_0000_0000

  /**
   * The host's `CsTeam` numbers for the three named teams. Only their being
   * distinct matters to the handler.
   */
  const Spectator: int := 1
  const Terrorist: int := 2
  const CounterTerrorist: int := 3

  /** The host's `HookResult`; the handler only ever answers `Continue`. */
  datatype HookResult = Continue | Changed | Handled | Stop

  /** The fields of the resolved player controller that the handler reads. */
  datatype Player = Player(isValid: bool, teamNum: int, playerName: string, steamId: UInt64)

  /** A chat event: its text (possibly null) and whether it was sent to the team only. */
  datatype ChatEvent = ChatEvent(text: Option<string>, teamOnly: bool)

  /** The columns the handler inserts; the timestamp is assigned by the database. */
  datatype Row = Row(team: string, playerName: string, steamId: UInt64, message: string)

  /** The errors the plugin logs while handling a chat event. */
  datatype LoggedError = ConfigurationIncomplete | InsertFailed

  /** The five team labels a row can carry. */
  const Labels: set<string> := {"[ALL]", "[T]", "[CT]", "[SPEC]", "[NONE]"}

  /** C#'s `s.StartsWith(c)`: false for the empty string. */
  function StartsWith(s: string, c: char): (r: bool)
    ensures r <==> [c] <= s
  {
    |s| > 0 && s[0] == c
  }

  /** The command filter's test: the text begins with `!` or `/`. */
  predicate IsCommand(text: string)
  {
    StartsWith(text, '!') || StartsWith(text, '/')
  }

  /** The team `switch`: a named team's label, `[NONE]` for every other number. */
  function TeamSwitch(teamNum: int): (r: string)
    ensures r in Labels - {"[ALL]"}
    ensures r == "[T]" <==> teamNum == Terrorist
    ensures r == "[CT]" <==> teamNum == CounterTerrorist
    ensures r == "[SPEC]" <==> teamNum == Spectator
    ensures r == "[NONE]" <==> teamNum !in {Terrorist, CounterTerrorist, Spectator}
  {
    if teamNum == Terrorist then "[T]"
    else if teamNum == CounterTerrorist then "[CT]"
    else if teamNum == Spectator then "[SPEC]"
    else "[NONE]"
  }

  /** The label of a message: `[ALL]` exactly when it is not team-only. */
  function TeamLabel(teamOnly: bool, teamNum: int): (r: string)
    ensures r in Labels
    ensures r == "[ALL]" <==> !teamOnly
    ensures teamOnly ==> r == TeamSwitch(teamNum)
  {
    if teamOnly then TeamSwitch(teamNum) else "[ALL]"
  }

  /** The guard: a player was resolved, is valid, and the text is not null. */
  predicate PassesGuard(ev: ChatEvent, player: Option<Player>)
  {
    player.Some? && player.value.isValid && ev.text.Some?
  }

  /**
   * The row a chat event becomes, or `None` when the guard or the command
   * filter drops it. Only a null text is dropped; the empty text is kept.
   */
  function Decide(cfg: ChatLogsConfig, ev: ChatEvent, player: Option<Player>): (r: Option<Row>)
    ensures r.None? <==>
      player.None? || !player.value.isValid || ev.text.None? ||
      (cfg.ignoreCommands && |ev.text.value| > 0 && ev.text.value[0] in {'!', '/'})
    ensures r.Some? ==>
      r.value.message == ev.text.value &&
      r.value.playerName == player.value.playerName &&
      r.value.steamId == player.value.steamId &&
      r.value.team == TeamLabel(ev.teamOnly, player.value.teamNum)
  {
    if !PassesGuard(ev, player) then None
    else if cfg.ignoreCommands && IsCommand(ev.text.value) then None
    else
      var p := player.value;
      Some(Row(TeamLabel(ev.teamOnly, p.teamNum), p.playerName, p.steamId, ev.text.value))
  }

  /** The rows one call adds to the table: the decided row, if the insert succeeds. */
  function Recorded(cfg: ChatLogsConfig, ev: ChatEvent, player: Option<Player>, insertOk: bool): (r: seq<Row>)
    ensures |r| <= 1
    ensures |r| == 1 <==> insertOk && Decide(cfg, ev, player).Some?
    ensures |r| == 1 ==> r[0] == Decide(cfg, ev, player).value
  {
    match Decide(cfg, ev, player)
    case Some(row) => if insertOk then [row] else []
    case None => []
  }

  /**
   * The errors one call logs: an event that reaches the insert first builds
   * the connection string (which may log that the configuration is
   * incomplete) and then logs a failed insert.
   */
  function Logged(cfg: ChatLogsConfig, ev: ChatEvent, player: Option<Player>, insertOk: bool): (r: seq<LoggedError>)
    ensures Decide(cfg, ev, player).None? ==> r == []
    ensures InsertFailed in r <==> Decide(cfg, ev, player).Some? && !insertOk
    ensures ConfigurationIncomplete in r <==> Decide(cfg, ev, player).Some? && IsIncomplete(cfg)
    ensures |r| == (if Decide(cfg, ev, player).Some? && IsIncomplete(cfg) then 1 else 0) +
                   (if Decide(cfg, ev, player).Some? && !insertOk then 1 else 0)
    ensures |r| == 2 ==> r == [ConfigurationIncomplete, InsertFailed]
  {
    if Decide(cfg, ev, player).None? then []
    else
      (if GetConnectionString(cfg).loggedIncomplete then [ConfigurationIncomplete] else []) +
      (if insertOk then [] else [InsertFailed])
  }

  /** One handled event: the event, the player the host resolved, and whether the insert succeeded. */
  datatype Delivery = Delivery(ev: ChatEvent, player: Option<Player>, insertOk: bool)

  /** The table after a sequence of chat events under one configuration. */
  function RowsAfter(cfg: ChatLogsConfig, rows: seq<Row>, deliveries: seq<Delivery>): seq<Row>
    decreases |deliveries|
  {
    if deliveries == [] then rows
    else
      var d := deliveries[0];
      RowsAfter(cfg, rows + Recorded(cfg, d.ev, d.player, d.insertOk), deliveries[1..])
  }

  /** The number of events in `deliveries` that end in a row. */
  function Qualifying(cfg: ChatLogsConfig, deliveries: seq<Delivery>): nat
    decreases |deliveries|
  {
    if deliveries == [] then 0
    else
      var d := deliveries[0];
      (if d.insertOk && Decide(cfg, d.ev, d.player).Some? then 1 else 0) + Qualifying(cfg, deliveries[1..])
  }

  /** The plugin object: its configuration and the table it writes to. */
  class ChatLogsPlugin {
    var config: ChatLogsConfig
    /** The rows this plugin instance has inserted into the `chatlogs` table, oldest first. */
    var rows: seq<Row>
    /** The errors this plugin instance has logged, oldest first. */
    var errors: seq<LoggedError>

    constructor ()
      ensures config == DefaultConfig() && rows == [] && errors == []
    {
      config := DefaultConfig();
      rows := [];
      errors := [];
    }

    /** `OnConfigParsed`: the parsed configuration replaces the current one. */
    method OnConfigParsed(c: ChatLogsConfig)
      modifies this
      ensures config == c
      ensures rows == old(rows) && errors == old(errors)
    {
      config := c;
    }

    /**
     * `OnEventPlayerChat`: appends at most one row, the decided one, and only
     * when the insert succeeds; leaves the existing rows and the
     * configuration alone; answers `Continue` on every path.
     */
    method OnEventPlayerChat(ev: ChatEvent, player: Option<Player>, insertOk: bool) returns (res: HookResult)
      modifies this
      ensures res == Continue
      ensures config == old(config)
      ensures rows == old(rows) + Recorded(config, ev, player, insertOk)
      ensures errors == old(errors) + Logged(config, ev, player, insertOk)
    {
      if player.None? || !player.value.isValid || ev.text.None? {
        return Continue;
      }
      var p, text := player.value, ev.text.value;

      if config.ignoreCommands {
        if StartsWith(text, '!') || StartsWith(text, '/') {
          return Continue;
        }
      }

      var playerTeam := "[ALL]";
      if ev.teamOnly {
        playerTeam := TeamSwitch(p.teamNum);
      }

      var settings := GetConnectionString(config);
      if settings.loggedIncomplete {
        errors := errors + [ConfigurationIncomplete];
      }
      if !insertOk {
        errors := errors + [InsertFailed];
        return Continue;
      }
      rows := rows + [Row(playerTeam, p.playerName, p.steamId, text)];
      return Continue;
    }
  }

  /** A valid player's non-null text that the filter lets through is recorded when the insert succeeds. */
  lemma RecordedWhenPassing(cfg: ChatLogsConfig, ev: ChatEvent, player: Option<Player>, insertOk: bool)
    ensures PassesGuard(ev, player) && !(cfg.ignoreCommands && IsCommand(ev.text.value)) && insertOk ==>
      |Recorded(cfg, ev, player, insertOk)| == 1
  {
  }

  /** A missing or invalid player, or a null text, produces no row and logs nothing. */
  lemma GuardDrops(cfg: ChatLogsConfig, ev: ChatEvent, player: Option<Player>, insertOk: bool)
    requires !PassesGuard(ev, player)
    ensures Decide(cfg, ev, player) == None
    ensures Recorded(cfg, ev, player, insertOk) == [] && Logged(cfg, ev, player, insertOk) == []
  {
  }

  /** With `IgnoreCommands` set, text starting with `!` or `/` produces no row. */
  lemma CommandsDroppedWhenIgnored(cfg: ChatLogsConfig, ev: ChatEvent, player: Option<Player>, insertOk: bool)
    requires cfg.ignoreCommands && ev.text.Some?
    requires [ '!' ] <= ev.text.value || [ '/' ] <= ev.text.value
    ensures Decide(cfg, ev, player) == None
    ensures Recorded(cfg, ev, player, insertOk) == []
  {
  }

  /** With `IgnoreCommands` clear, a command is recorded like any other text. */
  lemma CommandsKeptWhenNotIgnored(cfg: ChatLogsConfig, ev: ChatEvent, player: Option<Player>)
    requires !cfg.ignoreCommands && PassesGuard(ev, player)
    ensures Decide(cfg, ev, player).Some?
    ensures Decide(cfg, ev, player).value.message == ev.text.value
    ensures Recorded(cfg, ev, player, true) == [Decide(cfg, ev, player).value]
  {
  }

  /** The empty text passes the guard, is not a command, and is recorded verbatim. */
  lemma EmptyTextRecorded(cfg: ChatLogsConfig, teamOnly: bool, p: Player)
    requires p.isValid
    ensures Decide(cfg, ChatEvent(Some(""), teamOnly), Some(p)) ==
      Some(Row(TeamLabel(teamOnly, p.teamNum), p.playerName, p.steamId, ""))
  {
  }

  /**
   * Over any sequence of chat events, the table keeps its old rows as a
   * prefix and grows by exactly one row per event that passes the guard and
   * the filter and whose insert succeeds.
   */
  lemma {:induction false} RowsAfterGrowth(cfg: ChatLogsConfig, rows: seq<Row>, deliveries: seq<Delivery>)
    ensures |RowsAfter(cfg, rows, deliveries)| == |rows| + Qualifying(cfg, deliveries)
    ensures RowsAfter(cfg, rows, deliveries)[..|rows|] == rows
    ensures Qualifying(cfg, deliveries) <= |deliveries|
    decreases |deliveries|
  {
    if deliveries != [] {
      var d := deliveries[0];
      var next := rows + Recorded(cfg, d.ev, d.player, d.insertOk);
      RowsAfterGrowth(cfg, next, deliveries[1..]);
      assert RowsAfter(cfg, next, deliveries[1..])[..|rows|] == next[..|rows|];
    }
  }

  /** Every row in the table after a sequence of events is an old row or the text of one of the events. */
  lemma {:induction false} RowsComeFromEvents(cfg: ChatLogsConfig, rows: seq<Row>, deliveries: seq<Delivery>, k: nat)
    requires |rows| <= k < |RowsAfter(cfg, rows, deliveries)|
    ensures exists j :: 0 <= j < |deliveries| && deliveries[j].ev.text == Some(RowsAfter(cfg, rows, deliveries)[k].message)
    decreases |deliveries|
  {
    var d := deliveries[0];
    var next := rows + Recorded(cfg, d.ev, d.player, d.insertOk);
    if k < |next| {
      RowsAfterGrowth(cfg, next, deliveries[1..]);
      assert RowsAfter(cfg, next, deliveries[1..])[k] == next[k];
      assert deliveries[0].ev.text == Some(next[k].message);
    } else {
      RowsComeFromEvents(cfg, next, deliveries[1..], k);
      var j :| 0 <= j < |deliveries[1..]| && deliveries[1..][j].ev.text == Some(RowsAfter(cfg, next, deliveries[1..])[k].message);
      assert deliveries[j + 1] == deliveries[1..][j];
    }
  }

  /** A message from a valid player on the Terrorist team, sent to the team, becomes a `[T]` row. */
  lemma TerroristTeamMessage(cfg: ChatLogsConfig, name: string, id: UInt64)
    ensures Decide(cfg, ChatEvent(Some("go go"), true), Some(Player(true, Terrorist, name, id))) ==
      Some(Row("[T]", name, id, "go go"))
  {
  }

  /** Under the default configuration, `!help` is dropped. */
  lemma DefaultDropsHelpCommand(p: Player)
    ensures Decide(DefaultConfig(), ChatEvent(Some("!help"), false), Some(p)) == None
  {
  }
}
