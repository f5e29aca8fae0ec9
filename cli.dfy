/** The control session's parser: one request line becomes a batch of
    commands (src/cli.rs). The socket, the listener thread and the command
    bus channels are not modelled; `ResponseText` is what the session writes
    back for a batch of replies. */
module Cli {
  import opened Wrappers
  import opened Text
  import opened Metric

  /** `Command`; the source's `Command::None` is `NoCommand` here. */
  datatype Command = Start | Stop | List | Set | Store | NoCommand

  /** `CliCommand`. Its getters (`get_command`, `get_metric_type`, ...) are the
      datatype's destructors, so they return exactly what it was built with. */
  datatype CliCommand = CliCommand(
    cmd: Command,
    metricType: Option<MetricType>,
    refreshRate: Option<u8>,
    enabled: Option<bool>,
    state: Option<MetricState>)

  /** The keyword of a command kind. */
  function Keyword(c: Command): (s: string)
    requires c != NoCommand
    ensures GetCommand(s) == c
  {
    match c
    case Start => "start"
    case Stop => "stop"
    case List => "list"
    case Set => "set"
    case Store => "store"
  }

  /** `get_command`: exactly the five keywords name a command. */
  function GetCommand(s: string): (c: Command)
    ensures c != NoCommand <==> s in {"start", "stop", "list", "set", "store"}
  {
    match s
    case "start" => Start
    case "stop" => Stop
    case "list" => List
    case "set" => Set
    case "store" => Store
    case _ => NoCommand
  }

  /** One command of kind `cmd` per metric kind, in `get_metric_types` order. */
  function ForEachKind(cmd: Command, refreshRate: Option<u8>, enabled: Option<bool>): (cs: seq<CliCommand>)
    ensures |cs| == 3
    ensures forall i :: 0 <= i < 3 ==> cs[i] == CliCommand(cmd, Some(MetricTypes()[i]), refreshRate, enabled, None)
  {
    [CliCommand(cmd, Some(CPU), refreshRate, enabled, None),
     CliCommand(cmd, Some(Memory), refreshRate, enabled, None),
     CliCommand(cmd, Some(IO), refreshRate, enabled, None)]
  }

  /** Pushes one command per metric kind onto `commands`: the loop shared by
      the four `parse_*_command` functions. */
  method PushForEachKind(commands: seq<CliCommand>, cmd: Command, refreshRate: Option<u8>, enabled: Option<bool>)
    returns (pushed: seq<CliCommand>)
    ensures pushed == commands + ForEachKind(cmd, refreshRate, enabled)
  {
    pushed := commands;
    var kinds := MetricTypes();
    for i := 0 to |kinds|
      invariant pushed == commands + ForEachKind(cmd, refreshRate, enabled)[..i]
    {
      pushed := pushed + [CliCommand(cmd, Some(kinds[i]), refreshRate, enabled, None)];
      assert ForEachKind(cmd, refreshRate, enabled)[..i + 1]
          == ForEachKind(cmd, refreshRate, enabled)[..i] + [CliCommand(cmd, Some(kinds[i]), refreshRate, enabled, None)];
    }
  }

  /** What `start [metric [rate [enabled]]]` expands to. A rate token that is
      not a `u8`, or an enabled token that is not a `bool`, panics. */
  function StartCommands(args: seq<string>): (r: Result<seq<CliCommand>>)
    ensures r.Panic? <==> (|args| > 1 && ParseU8(args[1]).None?) || (|args| > 2 && ParseBool(args[2]).None?)
    ensures r.Ok? && args == [] ==> r.value == ForEachKind(Start, None, None)
    ensures r.Ok? && args != [] ==>
      && |r.value| == 1
      && r.value[0].cmd == Start && r.value[0].state == None
      && r.value[0].metricType == Some(StrToMetric(args[0]))
      && r.value[0].refreshRate == (if |args| > 1 then ParseU8(args[1]) else None)
      && r.value[0].enabled == (if |args| > 2 then ParseBool(args[2]) else None)
  {
    if |args| > 1 && ParseU8(args[1]).None? then
      Panic("called `Result::unwrap()` on an `Err` value: ParseIntError")
    else if |args| > 2 && ParseBool(args[2]).None? then
      Panic("called `Result::unwrap()` on an `Err` value: ParseBoolError")
    else
      var refreshRate := if |args| > 1 then ParseU8(args[1]) else None;
      var enabled := if |args| > 2 then ParseBool(args[2]) else None;
      if args != [] then Ok([CliCommand(Start, Some(StrToMetric(args[0])), refreshRate, enabled, None)])
      else Ok(ForEachKind(Start, refreshRate, enabled))
  }

  /** `parse_start_command`: consumes the tokens front first. */
  method ParseStartCommand(args: seq<string>) returns (r: Result<seq<CliCommand>>)
    ensures r == StartCommands(args)
  {
    var rest := args;
    var commands: seq<CliCommand> := [];
    var metricType: Option<MetricType> := None;
    var refreshRate: Option<u8> := None;
    var enabled: Option<bool> := None;
    if rest != [] {
      metricType := Some(StrToMetric(rest[0]));
      rest := rest[1..];
    }
    assert args != [] ==> rest == args[1..];
    if rest != [] {
      refreshRate := ParseU8(rest[0]);
      if refreshRate.None? {
        return Panic("called `Result::unwrap()` on an `Err` value: ParseIntError");
      }
      rest := rest[1..];
    }
    assert |args| > 1 ==> rest == args[2..];
    if rest != [] {
      enabled := ParseBool(rest[0]);
      if enabled.None? {
        return Panic("called `Result::unwrap()` on an `Err` value: ParseBoolError");
      }
      rest := rest[1..];
    }
    if metricType.Some? {
      commands := commands + [CliCommand(Start, metricType, refreshRate, enabled, None)];
    } else {
      commands := PushForEachKind(commands, Start, refreshRate, enabled);
    }
    if args == [] {
      assert commands == ForEachKind(Start, None, None);
      assert StartCommands(args) == Ok(ForEachKind(Start, None, None));
    } else {
      assert commands == [CliCommand(Start, Some(StrToMetric(args[0])), refreshRate, enabled, None)];
      assert StartCommands(args) == Ok(commands);
    }
    r := Ok(commands);
  }

  /** What `stop [metric]` expands to. */
  function StopCommands(args: seq<string>): (cs: seq<CliCommand>)
    ensures args == [] ==> cs == ForEachKind(Stop, None, None)
    ensures args != [] ==> cs == [CliCommand(Stop, Some(StrToMetric(args[0])), None, None, None)]
  {
    if args != [] then [CliCommand(Stop, Some(StrToMetric(args[0])), None, None, None)]
    else ForEachKind(Stop, None, None)
  }

  /** `parse_stop_command`. */
  method ParseStopCommand(args: seq<string>) returns (commands: seq<CliCommand>)
    ensures commands == StopCommands(args)
    ensures forall i :: 0 <= i < |commands| ==> commands[i].cmd == Stop && commands[i].metricType.Some?
  {
    commands := [];
    var metricType: Option<MetricType> := None;
    if args != [] {
      metricType := Some(StrToMetric(args[0]));
    }
    if metricType.Some? {
      commands := commands + [CliCommand(Stop, metricType, None, None, None)];
    } else {
      commands := PushForEachKind(commands, Stop, None, None);
    }
  }

  /** What `list [state]` expands to: a valid state gives one filtered
      command; no token or an unknown one gives one command per kind. */
  function ListCommands(args: seq<string>): (cs: seq<CliCommand>)
    ensures args != [] && StrToState(args[0]).Some? ==> cs == [CliCommand(List, None, None, None, StrToState(args[0]))]
    ensures (args == [] || StrToState(args[0]).None?) ==> cs == ForEachKind(List, None, None)
  {
    var state := if args != [] then StrToState(args[0]) else None;
    if state.Some? then [CliCommand(List, None, None, None, state)]
    else ForEachKind(List, None, None)
  }

  /** `parse_list_command`. */
  method ParseListCommand(args: seq<string>) returns (commands: seq<CliCommand>)
    ensures commands == ListCommands(args)
  {
    commands := [];
    var state: Option<MetricState> := None;
    if args != [] {
      state := StrToState(args[0]);
    }
    if state.Some? {
      commands := commands + [CliCommand(List, None, None, None, state)];
    } else {
      commands := PushForEachKind(commands, List, None, None);
    }
  }

  /** The last of `toks` that `parse` accepts, as `parse` reads it. */
  function LastParsed<T>(toks: seq<string>, parse: string -> Option<T>): Option<T> {
    if toks == [] then None
    else if parse(toks[|toks| - 1]).Some? then parse(toks[|toks| - 1])
    else LastParsed(toks[..|toks| - 1], parse)
  }

  /** `LastParsed` finds a value exactly when some token parses, and no
      token after the one it finds parses. */
  lemma {:induction false} LastParsedIsLast<T>(toks: seq<string>, parse: string -> Option<T>)
    ensures LastParsed(toks, parse).None? <==> forall i :: 0 <= i < |toks| ==> parse(toks[i]).None?
    ensures LastParsed(toks, parse).Some? ==>
      exists i :: 0 <= i < |toks| && parse(toks[i]) == LastParsed(toks, parse) && NoneAfter(toks, parse, i)
  {
    if toks != [] {
      var n := |toks| - 1;
      var init := toks[..n];
      if parse(toks[n]).Some? {
        assert NoneAfter(toks, parse, n);
      } else {
        LastParsedIsLast(init, parse);
        assert forall i :: 0 <= i < n ==> init[i] == toks[i];
        if LastParsed(init, parse).Some? {
          var i :| 0 <= i < n && parse(init[i]) == LastParsed(init, parse) && NoneAfter(init, parse, i);
          assert NoneAfter(toks, parse, i);
        }
      }
    }
  }

  ghost predicate NoneAfter<T>(toks: seq<string>, parse: string -> Option<T>, i: nat) {
    forall j :: i < j < |toks| ==> parse(toks[j]).None?
  }

  /** The second and third tokens of `set`, the ones typed by parse success. */
  function ValueTokens(args: seq<string>): seq<string> {
    if |args| <= 1 then [] else if |args| <= 3 then args[1..] else args[1..3]
  }

  /** One value token of `set`, tried as a `u8` first and then as a `bool`; it
      replaces the field of its type and is dropped if it is neither. */
  function SetValue(tok: string, refreshRate: Option<u8>, enabled: Option<bool>): (Option<u8>, Option<bool>) {
    if ParseU8(tok).Some? then (ParseU8(tok), enabled)
    else if ParseBool(tok).Some? then (refreshRate, ParseBool(tok))
    else (refreshRate, enabled)
  }

  /** What `set [metric [value [value]]]` expands to. Without a metric token it
      is one (empty) command per kind; with one, a single command for it. */
  function SetCommands(args: seq<string>): (cs: seq<CliCommand>)
    ensures args == [] ==> cs == ForEachKind(Set, None, None)
    ensures args != [] ==> |cs| == 1 && cs[0].cmd == Set && cs[0].metricType == Some(StrToMetric(args[0])) && cs[0].state.None?
  {
    var (r1, e1) := if |args| > 1 then SetValue(args[1], None, None) else (None, None);
    var (r2, e2) := if |args| > 2 then SetValue(args[2], r1, e1) else (r1, e1);
    if args != [] then [CliCommand(Set, Some(StrToMetric(args[0])), r2, e2, None)]
    else ForEachKind(Set, None, None)
  }

  /** Of the (at most two) value tokens of `set`, the last that is a rate
      gives the rate and the last that is a flag gives the flag; any further
      token is ignored. */
  lemma SetCommandsValues(args: seq<string>)
    requires args != []
    ensures SetCommands(args)[0].refreshRate == LastParsed(ValueTokens(args), ParseU8)
    ensures SetCommands(args)[0].enabled == LastParsed(ValueTokens(args), ParseBool)
  {
    if |args| == 2 {
      LastOfOne(args[1]);
    } else if |args| > 2 {
      assert ValueTokens(args) == [args[1], args[2]];
      LastOfTwo(args[1], args[2]);
    }
  }

  lemma LastOfOne(a: string)
    ensures LastParsed([a], ParseU8) == ParseU8(a)
    ensures LastParsed([a], ParseBool) == ParseBool(a)
  {
    assert [a][..0] == [];
  }

  lemma LastOfTwo(a: string, b: string)
    ensures LastParsed([a, b], ParseU8) == if ParseU8(b).Some? then ParseU8(b) else ParseU8(a)
    ensures LastParsed([a, b], ParseBool) == if ParseBool(b).Some? then ParseBool(b) else ParseBool(a)
  {
    assert [a, b][..1] == [a];
    LastOfOne(a);
  }

  /** `parse_set_command`. */
  method ParseSetCommand(args: seq<string>) returns (commands: seq<CliCommand>)
    ensures commands == SetCommands(args)
  {
    var rest := args;
    commands := [];
    var metricType: Option<MetricType> := None;
    var refreshRate: Option<u8> := None;
    var enabled: Option<bool> := None;
    if rest != [] {
      metricType := Some(StrToMetric(rest[0]));
      rest := rest[1..];
    }
    if rest != [] {
      var arg := rest[0];
      rest := rest[1..];
      var asRate := ParseU8(arg);
      if asRate.Some? {
        refreshRate := asRate;
      } else {
        var asFlag := ParseBool(arg);
        if asFlag.Some? {
          enabled := asFlag;
        }
      }
    }
    if rest != [] {
      var arg := rest[0];
      rest := rest[1..];
      var asRate := ParseU8(arg);
      if asRate.Some? {
        refreshRate := asRate;
      } else {
        var asFlag := ParseBool(arg);
        if asFlag.Some? {
          enabled := asFlag;
        }
      }
    }
    if metricType.Some? {
      commands := commands + [CliCommand(Set, metricType, refreshRate, enabled, None)];
    } else {
      commands := PushForEachKind(commands, Set, refreshRate, enabled);
    }
  }

  /** What a request line expands to. A line without tokens panics (the source
      removes the first token unconditionally); a first token that is not a
      keyword gives an empty batch. */
  function LineCommands(line: string): (r: Result<seq<CliCommand>>)
    ensures Tokenize(line) == [] ==> r.Panic?
    ensures Tokenize(line) != [] && GetCommand(Tokenize(line)[0]) == NoCommand ==> r == Ok([])
    ensures Tokenize(line) != [] && GetCommand(Tokenize(line)[0]) == Store ==> r == Ok([CliCommand(Store, None, None, None, None)])
    ensures r.Ok? ==> forall i :: 0 <= i < |r.value| ==> r.value[i].cmd == GetCommand(Tokenize(line)[0])
  {
    var args := Tokenize(line);
    if args == [] then Panic("removal index (is 0) should be < len (is 0)")
    else
      match GetCommand(args[0])
      case Start => StartCommands(args[1..])
      case Stop => Ok(StopCommands(args[1..]))
      case List => Ok(ListCommands(args[1..]))
      case Set => Ok(SetCommands(args[1..]))
      case Store => Ok([CliCommand(Store, None, None, None, None)])
      case NoCommand => Ok([])
  }

  /** `parse_args`. */
  method ParseArgs(line: string) returns (r: Result<seq<CliCommand>>)
    ensures r == LineCommands(line)
  {
    var tokens := Tokenize(line);
    if tokens == [] {
      return Panic("removal index (is 0) should be < len (is 0)");
    }
    var command := GetCommand(tokens[0]);
    var args := tokens[1..];
    var commands: seq<CliCommand> := [];
    match command {
      case Start =>
        r := ParseStartCommand(args);
        return;
      case Stop =>
        commands := ParseStopCommand(args);
      case List =>
        commands := ParseListCommand(args);
      case Set =>
        commands := ParseSetCommand(args);
      case Store =>
        commands := commands + [CliCommand(Store, None, None, None, None)];
        assert commands == [CliCommand(Store, None, None, None, None)];
      case NoCommand =>
    }
    r := Ok(commands);
  }

  /** What the session writes back for a batch of replies: each reply, in
      order, with nothing between them. */
  function ResponseText(replies: seq<string>): (text: string)
    ensures replies == [] ==> text == ""
    ensures |replies| == 1 ==> text == replies[0]
  {
    if replies == [] then "" else ResponseText(replies[..|replies| - 1]) + replies[|replies| - 1]
  }

  /** Two batches of replies written one after the other read as one batch:
      no separator is added between replies. */
  lemma {:induction false} ResponseTextAppend(a: seq<string>, b: seq<string>)
    ensures ResponseText(a + b) == ResponseText(a) + ResponseText(b)
  {
    if b == [] {
      assert a + b == a;
    } else {
      var init, last := b[..|b| - 1], b[|b| - 1];
      assert (a + b)[..|a + b| - 1] == a + init;
      ResponseTextAppend(a, init);
    }
  }
}
