/** The command-line client `lkmonitorctl` (src/bin/lkmonitorctl.rs): the
    checks on the user's values, the request line it sends to the service and
    the way it prints the service's reply. */
module Client {
  import opened Wrappers
  import opened Text
  import opened Metric
  import opened Seqs
  import Cli
  import Monitor

  /** What a clap `value_parser` returns: the accepted value or the message. */
  datatype Checked = Accepted(value: string) | Rejected(message: string)

  const AllowedMetrics: seq<string> := ["cpu", "memory", "io"]
  const AllowedStates: seq<string> := ["running", "stopped", "disabled"]

  /** `{:?}` of a list of plain strings: `["a", "b"]`. */
  function DebugList(xs: seq<string>): string {
    "[" + DebugItems(xs) + "]"
  }

  function DebugItems(xs: seq<string>): string {
    if xs == [] then ""
    else if |xs| == 1 then "\"" + xs[0] + "\""
    else "\"" + xs[0] + "\", " + DebugItems(xs[1..])
  }

  /** `validate_metric`: exactly the names the service knows a kind by. */
  function ValidateMetric(metric: string): (r: Checked)
    ensures r.Accepted? <==> IsKnown(StrToMetric(metric))
    ensures r.Accepted? ==> r.value == metric
    ensures r.Rejected? ==> "Invalid metric: '" + metric + "'. Allowed values are: " <= r.message
  {
    if metric in AllowedMetrics then Accepted(metric)
    else Rejected("Invalid metric: '" + metric + "'. Allowed values are: " + DebugList(AllowedMetrics))
  }

  /** `validate_state`: the state names the service knows, except
      "initialized". The rejection message says "metric" as well. */
  function ValidateState(state: string): (r: Checked)
    ensures r.Accepted? <==> StrToState(state).Some? && StrToState(state) != Some(Initialized)
    ensures r.Accepted? ==> r.value == state
    ensures r.Rejected? ==> "Invalid metric: '" + state + "'. Allowed values are: " <= r.message
  {
    if state in AllowedStates then Accepted(state)
    else Rejected("Invalid metric: '" + state + "'. Allowed values are: " + DebugList(AllowedStates))
  }

  /** The subcommands as clap hands them over (`Commands`). */
  datatype Commands =
    | List(state: Option<string>)
    | Start(metric: Option<string>, rate: Option<u8>)
    | Stop(metric: Option<string>)
    | Set(metricName: string, rate: Option<u8>, enabled: Option<bool>)
    | Store

  /** Every value passed its `value_parser`; clap exits before `main` sees
      any other. */
  predicate Validated(c: Commands) {
    match c
    case List(state) => state.None? || ValidateState(state.value).Accepted?
    case Start(metric, _) => metric.None? || ValidateMetric(metric.value).Accepted?
    case Stop(metric) => metric.None? || ValidateMetric(metric.value).Accepted?
    case Set(metricName, _, _) => ValidateMetric(metricName).Accepted?
    case Store => true
  }

  /** The request line `main` sends, or `None` where it reports an error and
      exits without sending. */
  function RequestLine(c: Commands): (line: Option<string>)
    ensures line.None? <==> (c.Start? && c.metric.None? && c.rate.Some?) || (c.Set? && c.rate.None? && c.enabled.None?)
  {
    match c
    case List(state) =>
      if state.Some? then Some("list " + state.value + "\n") else Some("list\n")
    case Start(metric, rate) =>
      if metric.Some? && rate.Some? then Some("start " + metric.value + " " + U8ToString(rate.value) + "\n")
      else if metric.Some? then Some("start " + metric.value + "\n")
      else if rate.Some? then None
      else Some("start\n")
    case Stop(metric) =>
      if metric.Some? then Some("stop " + metric.value + "\n") else Some("stop\n")
    case Set(metricName, rate, enabled) =>
      if rate.Some? && enabled.Some? then
        Some("set " + metricName + " " + U8ToString(rate.value) + " " + BoolToString(enabled.value) + "\n")
      else if rate.Some? then Some("set " + metricName + " " + U8ToString(rate.value) + "\n")
      else if enabled.Some? then Some("set " + metricName + " " + BoolToString(enabled.value) + "\n")
      else None
    case Store => Some("store\n")
  }

  function Word(o: Option<string>): seq<string> {
    if o.Some? then [o.value] else []
  }

  function RateWord(o: Option<u8>): seq<string> {
    if o.Some? then [U8ToString(o.value)] else []
  }

  function FlagWord(o: Option<bool>): seq<string> {
    if o.Some? then [BoolToString(o.value)] else []
  }

  /** The subcommand's keyword followed by the values the user gave, as
      displayed, in declaration order. */
  function RequestWords(c: Commands): seq<string> {
    match c
    case List(state) => ["list"] + Word(state)
    case Start(metric, rate) => ["start"] + Word(metric) + RateWord(rate)
    case Stop(metric) => ["stop"] + Word(metric)
    case Set(metricName, rate, enabled) => ["set", metricName] + RateWord(rate) + FlagWord(enabled)
    case Store => ["store"]
  }

  /** A line of a keyword and one value. */
  lemma LineOfTwo(k: string, a: string)
    ensures k + " " + a + "\n" == JoinWords([k, a]) + "\n"
  {
    assert [k, a][1..] == [a];
  }

  lemma JoinOfThree(a: string, b: string, c: string)
    ensures JoinWords([a, b, c]) == a + " " + b + " " + c
  {
    assert [a, b, c][1..] == [b, c];
    assert [b, c][1..] == [c];
    assert JoinWords([b, c]) == b + " " + c;
    assert a + " " + (b + " " + c) == a + " " + b + " " + c;
  }

  /** A line of a keyword and two values. */
  lemma LineOfThree(k: string, a: string, b: string)
    ensures k + " " + a + " " + b + "\n" == JoinWords([k, a, b]) + "\n"
  {
    JoinOfThree(k, a, b);
  }

  /** A line of a keyword and three values. */
  lemma LineOfFour(k: string, a: string, b: string, c: string)
    ensures k + " " + a + " " + b + " " + c + "\n" == JoinWords([k, a, b, c]) + "\n"
  {
    assert [k, a, b, c][1..] == [a, b, c];
    JoinOfThree(a, b, c);
    assert k + " " + (a + " " + b + " " + c) == k + " " + a + " " + b + " " + c;
  }

  /** Every request line is its words separated by single spaces and ended
      by a newline. */
  lemma RequestLineIsWords(c: Commands)
    requires RequestLine(c).Some?
    ensures RequestLine(c).value == JoinWords(RequestWords(c)) + "\n"
  {
    match c
    case List(state) =>
      if state.Some? {
        assert "list " == "list" + " ";
        LineOfTwo("list", state.value);
      }
    case Start(metric, rate) =>
      if metric.Some? && rate.Some? {
        assert "start " == "start" + " ";
        assert RequestWords(c) == ["start", metric.value, U8ToString(rate.value)];
        LineOfThree("start", metric.value, U8ToString(rate.value));
      } else if metric.Some? {
        assert "start " == "start" + " ";
        LineOfTwo("start", metric.value);
      }
    case Stop(metric) =>
      if metric.Some? {
        assert "stop " == "stop" + " ";
        LineOfTwo("stop", metric.value);
      }
    case Set(metricName, rate, enabled) =>
      assert "set " == "set" + " ";
      if rate.Some? && enabled.Some? {
        assert RequestWords(c) == ["set", metricName, U8ToString(rate.value), BoolToString(enabled.value)];
        LineOfFour("set", metricName, U8ToString(rate.value), BoolToString(enabled.value));
      } else if rate.Some? {
        assert RequestWords(c) == ["set", metricName, U8ToString(rate.value)];
        LineOfThree("set", metricName, U8ToString(rate.value));
      } else {
        assert RequestWords(c) == ["set", metricName, BoolToString(enabled.value)];
        LineOfThree("set", metricName, BoolToString(enabled.value));
      }
    case Store =>
  }

  /** The service-side commands a request is meant to produce. */
  function Intended(c: Commands): seq<Cli.CliCommand> {
    match c
    case List(state) =>
      if state.Some? then [Cli.CliCommand(Cli.List, None, None, None, StrToState(state.value))]
      else Cli.ForEachKind(Cli.List, None, None)
    case Start(metric, rate) =>
      if metric.Some? then [Cli.CliCommand(Cli.Start, Some(StrToMetric(metric.value)), rate, None, None)]
      else Cli.ForEachKind(Cli.Start, None, None)
    case Stop(metric) =>
      if metric.Some? then [Cli.CliCommand(Cli.Stop, Some(StrToMetric(metric.value)), None, None, None)]
      else Cli.ForEachKind(Cli.Stop, None, None)
    case Set(metricName, rate, enabled) =>
      [Cli.CliCommand(Cli.Set, Some(StrToMetric(metricName)), rate, enabled, None)]
    case Store => [Cli.CliCommand(Cli.Store, None, None, None, None)]
  }

  /** The keywords and the accepted names are single tokens. */
  lemma NameIsWord(w: string)
    requires w in ["list", "start", "stop", "set", "store"] + AllowedMetrics + AllowedStates
    ensures IsWord(w)
  {
  }

  predicate AllWords(ws: seq<string>) {
    forall i :: 0 <= i < |ws| ==> IsWord(ws[i])
  }

  lemma AllWordsAppend(a: seq<string>, b: seq<string>)
    requires AllWords(a) && AllWords(b)
    ensures AllWords(a + b)
  {
  }

  lemma KeywordWords(w: string)
    requires w in ["list", "start", "stop", "set", "store"]
    ensures AllWords([w])
  {
    NameIsWord(w);
  }

  lemma NameWords(o: Option<string>)
    requires o.Some? ==> o.value in AllowedMetrics + AllowedStates
    ensures AllWords(Word(o))
  {
    if o.Some? {
      NameIsWord(o.value);
    }
  }

  lemma RateWords(o: Option<u8>)
    ensures AllWords(RateWord(o))
  {
    if o.Some? {
      U8ToStringIsWord(o.value);
    }
  }

  lemma FlagWords(o: Option<bool>)
    ensures AllWords(FlagWord(o))
  {
    if o.Some? {
      BoolToStringIsWord(o.value);
    }
  }

  /** Every word of a request formed from accepted values is one token: no
      value holds whitespace and none is empty. */
  lemma RequestWordsAreWords(c: Commands)
    requires Validated(c)
    ensures AllWords(RequestWords(c))
  {
    match c {
    case List(state) =>
      KeywordWords("list");
      NameWords(state);
      AllWordsAppend(["list"], Word(state));
    case Start(metric, rate) =>
      KeywordWords("start");
      NameWords(metric);
      RateWords(rate);
      AllWordsAppend(["start"], Word(metric));
      AllWordsAppend(["start"] + Word(metric), RateWord(rate));
    case Stop(metric) =>
      KeywordWords("stop");
      NameWords(metric);
      AllWordsAppend(["stop"], Word(metric));
    case Set(metricName, rate, enabled) =>
      KeywordWords("set");
      NameWords(Some(metricName));
      assert ["set", metricName] == ["set"] + Word(Some(metricName));
      AllWordsAppend(["set"], Word(Some(metricName)));
      RateWords(rate);
      FlagWords(enabled);
      AllWordsAppend(["set", metricName], RateWord(rate));
      AllWordsAppend(["set", metricName] + RateWord(rate), FlagWord(enabled));
    case Store =>
      KeywordWords("store");
    }
  }

  /** The service's `split_whitespace` gives back the words of a request
      formed from accepted values. */
  lemma RequestTokens(c: Commands)
    requires Validated(c) && RequestLine(c).Some?
    ensures Tokenize(RequestLine(c).value) == RequestWords(c)
  {
    RequestLineIsWords(c);
    RequestWordsAreWords(c);
    TokenizeJoinWords(RequestWords(c));
  }

  /** A `set` request: the service reads back the metric and exactly the
      values given. */
  lemma SetRoundTrip(c: Commands, line: string)
    requires c.Set? && Validated(c) && Tokenize(line) == RequestWords(c)
    ensures Cli.LineCommands(line) == Ok(Intended(c))
  {
    SetArguments(c);
    assert Cli.GetCommand(Tokenize(line)[0]) == Cli.Set;
  }

  /** The values after `set` give back the metric and exactly the values
      given. */
  lemma SetArguments(c: Commands)
    requires c.Set? && Validated(c)
    ensures Cli.SetCommands(RequestWords(c)[1..]) == Intended(c)
  {
    var args := RequestWords(c)[1..];
    Cli.SetCommandsValues(args);
    if c.rate.Some? {
      U8ToStringParses(c.rate.value);
      U8ToStringIsWord(c.rate.value);
    }
    if c.enabled.Some? {
      BoolToStringIsNotU8(c.enabled.value);
    }
    if c.rate.Some? && c.enabled.Some? {
      assert Cli.ValueTokens(args) == [U8ToString(c.rate.value), BoolToString(c.enabled.value)];
      Cli.LastOfTwo(U8ToString(c.rate.value), BoolToString(c.enabled.value));
    } else if c.rate.Some? {
      assert Cli.ValueTokens(args) == [U8ToString(c.rate.value)];
      Cli.LastOfOne(U8ToString(c.rate.value));
    } else if c.enabled.Some? {
      assert Cli.ValueTokens(args) == [BoolToString(c.enabled.value)];
      Cli.LastOfOne(BoolToString(c.enabled.value));
    }
  }

  /** A `start` request: the service reads back the metric and the rate, if
      given, or starts every kind. */
  lemma StartRoundTrip(c: Commands, line: string)
    requires c.Start? && Validated(c) && Tokenize(line) == RequestWords(c)
    requires c.metric.Some? || c.rate.None?
    ensures Cli.LineCommands(line) == Ok(Intended(c))
  {
    var args := RequestWords(c)[1..];
    if c.metric.Some? && c.rate.Some? {
      U8ToStringParses(c.rate.value);
      assert args == [c.metric.value, U8ToString(c.rate.value)];
    } else if c.metric.Some? {
      assert args == [c.metric.value];
    }
  }

  /** A `stop` request: the service reads back the metric, or stops every
      kind. */
  lemma StopRoundTrip(c: Commands, line: string)
    requires c.Stop? && Validated(c) && Tokenize(line) == RequestWords(c)
    ensures Cli.LineCommands(line) == Ok(Intended(c))
  {
  }

  /** A `list` request: the service reads back the state, or lists every
      kind. */
  lemma ListRoundTrip(c: Commands, line: string)
    requires c.List? && Validated(c) && Tokenize(line) == RequestWords(c)
    ensures Cli.LineCommands(line) == Ok(Intended(c))
  {
  }

  /** None of the intended commands makes the service panic. */
  lemma IntendedDispatchable(c: Commands)
    requires Validated(c)
    ensures forall i :: 0 <= i < |Intended(c)| ==> Monitor.Dispatchable(Intended(c)[i])
  {
  }

  /** Whatever the user asks for, a request that is sent is parsed by the
      service into exactly the intended commands, and none of them makes the
      service panic. */
  lemma RequestRoundTrip(c: Commands)
    requires Validated(c) && RequestLine(c).Some?
    ensures Cli.LineCommands(RequestLine(c).value) == Ok(Intended(c))
    ensures forall i :: 0 <= i < |Intended(c)| ==> Monitor.Dispatchable(Intended(c)[i])
  {
    IntendedDispatchable(c);
    var line := RequestLine(c).value;
    RequestTokens(c);
    match c
    case List(_) => ListRoundTrip(c, line);
    case Start(_, _) => StartRoundTrip(c, line);
    case Stop(_) => StopRoundTrip(c, line);
    case Set(_, _, _) => SetRoundTrip(c, line);
    case Store =>
  }

  /** `read_line`: the text up to and including the first newline, or all
      of it when there is none. */
  function ReadLine(s: string): (line: string)
    ensures line <= s
    ensures '\n' !in s ==> line == s
  {
    if s == [] then ""
    else if s[0] == '\n' then "\n"
    else [s[0]] + ReadLine(s[1..])
  }

  /** The pieces that are not empty, in order. */
  function NonEmpty(pieces: seq<string>): (r: seq<string>)
    ensures forall i :: 0 <= i < |r| ==> r[i] != [] && r[i] in pieces
    ensures forall p :: p in r <==> p in pieces && p != []
  {
    if pieces == [] then []
    else
      var last := pieces[|pieces| - 1];
      NonEmpty(pieces[..|pieces| - 1]) + (if last == [] then [] else [last])
  }

  /** Filtering keeps order: the kept pieces of `a + b` are those of `a`
      followed by those of `b`. */
  lemma {:induction false} NonEmptyAppend(a: seq<string>, b: seq<string>)
    ensures NonEmpty(a + b) == NonEmpty(a) + NonEmpty(b)
  {
    if b != [] {
      var init, last := b[..|b| - 1], b[|b| - 1];
      assert (a + b)[..|a + b| - 1] == a + init;
      NonEmptyAppend(a, init);
    } else {
      assert a + b == a;
    }
  }

  /** What the client prints for a response line: one line per non-empty
      piece between semicolons of the trimmed response. */
  function Printed(response: string): (lines: seq<string>)
    ensures forall i :: 0 <= i < |lines| ==> lines[i] != [] && ';' !in lines[i]
  {
    NonEmpty(SplitOn(Trim(response), ';'))
  }

  /** The loop over `response.trim().split(';')`. */
  method ResponseLines(response: string) returns (lines: seq<string>)
    ensures lines == Printed(response)
  {
    var pieces := SplitOn(Trim(response), ';');
    lines := [];
    for i := 0 to |pieces|
      invariant lines == NonEmpty(pieces[..i])
    {
      assert pieces[..i + 1][..i] == pieces[..i];
      if pieces[i] != [] {
        lines := lines + [pieces[i]];
      }
    }
    assert pieces[..|pieces|] == pieces;
  }

  /** Messages each closed by a semicolon, one after another, as the
      service's replies are written to the socket. */
  function Terminated(xs: seq<string>): (s: string)
    ensures xs == [] <==> s == []
    ensures s != [] ==> s[|s| - 1] == ';'
  {
    if xs == [] then "" else xs[0] + ";" + Terminated(xs[1..])
  }

  /** A piece of a reply as the service forms it: some text without a
      semicolon or a newline. */
  predicate IsMessage(x: string) {
    x != [] && ';' !in x && '\n' !in x
  }

  predicate Messages(xs: seq<string>) {
    forall i :: 0 <= i < |xs| ==> IsMessage(xs[i])
  }

  lemma {:induction false} SplitTerminated(xs: seq<string>)
    requires forall i :: 0 <= i < |xs| ==> IsMessage(xs[i])
    ensures SplitOn(Terminated(xs), ';') == xs + [""]
  {
    if xs != [] {
      var x, rest := xs[0], xs[1..];
      var t := Terminated(rest);
      assert Terminated(xs) == x + [';'] + t;
      SplitOnPiece(x, ';', t);
      SplitTerminated(rest);
      HeadTail(xs);
      AppendAssoc([x], rest, "");
    }
  }

  lemma {:induction false} NonEmptyOfNonEmpty(xs: seq<string>)
    requires forall i :: 0 <= i < |xs| ==> xs[i] != []
    ensures NonEmpty(xs) == xs
  {
    if xs != [] {
      NonEmptyOfNonEmpty(xs[..|xs| - 1]);
    }
  }

  lemma {:induction false} NoNewlineInTerminated(xs: seq<string>)
    requires forall i :: 0 <= i < |xs| ==> IsMessage(xs[i])
    ensures '\n' !in Terminated(xs)
  {
    if xs != [] {
      NoNewlineInTerminated(xs[1..]);
    }
  }

  /** The client prints back, one per line, exactly the messages the service
      sent, provided the first does not start with whitespace (which `trim`
      would remove). */
  lemma PrintedTerminated(xs: seq<string>)
    requires Messages(xs)
    requires xs != [] ==> xs[0] != [] && !IsWhitespace(xs[0][0])
    ensures Printed(ReadLine(Terminated(xs))) == xs
  {
    var t := Terminated(xs);
    ReceivedAsSent(xs);
    assert Printed(ReadLine(t)) == NonEmpty(SplitOn(t, ';'));
    PiecesOfTerminated(xs);
  }

  /** Splitting the terminated text and dropping the empty pieces gives back
      the messages. */
  lemma PiecesOfTerminated(xs: seq<string>)
    requires Messages(xs)
    ensures NonEmpty(SplitOn(Terminated(xs), ';')) == xs
  {
    SplitTerminated(xs);
    NonEmptyDropsEmpty(xs);
    NonEmptyOfNonEmpty(xs);
  }

  /** Reading and trimming the line leaves the service's text as sent. */
  lemma ReceivedAsSent(xs: seq<string>)
    requires Messages(xs)
    requires xs != [] ==> xs[0] != [] && !IsWhitespace(xs[0][0])
    ensures Trim(ReadLine(Terminated(xs))) == Terminated(xs)
  {
    var s := Terminated(xs);
    NoNewlineInTerminated(xs);
    if xs != [] {
      assert s[0] == xs[0][0];
      SemicolonIsNotWhitespace();
    }
    TrimUnchanged(s);
  }

  lemma NonEmptyDropsEmpty(xs: seq<string>)
    ensures NonEmpty(xs + [""]) == NonEmpty(xs)
  {
    assert (xs + [""])[..|xs|] == xs;
  }

  /** The service's replies for messages `xs`: each closed by a semicolon. */
  function Closed(xs: seq<string>): (replies: seq<string>)
    ensures |replies| == |xs|
  {
    if xs == [] then [] else Closed(xs[..|xs| - 1]) + [xs[|xs| - 1] + ";"]
  }

  /** One message more closes the text with that message. */
  lemma {:induction false} TerminatedSnoc(xs: seq<string>, x: string)
    ensures Terminated(xs + [x]) == Terminated(xs) + x + ";"
  {
    if xs != [] {
      assert (xs + [x])[1..] == xs[1..] + [x];
      TerminatedSnoc(xs[1..], x);
    } else {
      assert [x][1..] == [];
    }
  }

  /** Writing the closed replies one after another, as the session does, is
      the terminated text of the messages. */
  lemma {:induction false} ResponseIsTerminated(xs: seq<string>)
    ensures Cli.ResponseText(Closed(xs)) == Terminated(xs)
  {
    if xs != [] {
      var init := xs[..|xs| - 1];
      var last := xs[|xs| - 1];
      ResponseIsTerminated(init);
      assert Closed(xs)[..|xs| - 1] == Closed(init);
      TerminatedSnoc(init, last);
      InitLast(xs);
    }
  }

  /** End to end: replies that are each one message closed by a semicolon
      are printed by the client one message per line, in order. */
  lemma PrintedReplies(xs: seq<string>)
    requires Messages(xs)
    requires xs != [] ==> xs[0] != [] && !IsWhitespace(xs[0][0])
    ensures Printed(ReadLine(Cli.ResponseText(Closed(xs)))) == xs
  {
    ResponseIsTerminated(xs);
    PrintedTerminated(xs);
  }

  /** The guard `!command.len() > 0` as written: `!` on a `usize` is the
      bitwise complement, so only a length of `usize::MAX` fails it. */
  function GuardAsWritten(len: nat): (send: bool)
    requires len < 0x1_0000_0000_0000_0000
    ensures send <==> len != 0xFFFF_FFFF_FFFF_FFFF
  {
    (0xFFFF_FFFF_FFFF_FFFF - len) > 0
  }

  /** The empty request passes the guard as written. */
  lemma GuardAsWrittenLetsEmptyThrough()
    ensures GuardAsWritten(|""|)
  {
  }

  /** The guard as intended: send only a non-empty request. */
  function ShouldSend(command: string): (send: bool)
    ensures send <==> command != []
  {
    |command| > 0
  }

  /** Every request `main` forms passes the intended guard. */
  lemma RequestsAreSent(c: Commands)
    requires RequestLine(c).Some?
    ensures ShouldSend(RequestLine(c).value)
  {
    RequestLineIsWords(c);
  }

  /** A request made of values clap accepted is a few dozen characters
      long, so the guard as written lets it through as well: on every
      request `main` can form, the two guards agree. */
  lemma FormedRequestsPassBothGuards(c: Commands)
    requires Validated(c) && RequestLine(c).Some?
    ensures |RequestLine(c).value| < 0x1_0000_0000_0000_0000
    ensures GuardAsWritten(|RequestLine(c).value|) && ShouldSend(RequestLine(c).value)
  {
    RequestsAreSent(c);
    match c
    case List(state) =>
    case Start(metric, rate) =>
      if rate.Some? { U8ToStringParses(rate.value); }
    case Stop(metric) =>
    case Set(metricName, rate, enabled) =>
      if rate.Some? { U8ToStringParses(rate.value); }
    case Store =>
  }

  /** `main` after clap and `connect`: form the request, send it when there
      is one and it passes the intended guard, read the reply line from what
      `respond` answers and print its pieces. */
  method Control(c: Commands, respond: string -> string) returns (request: Option<string>, printed: seq<string>)
    ensures request == RequestLine(c)
    ensures request.None? ==> printed == []
    ensures request.Some? ==> printed == Printed(ReadLine(respond(request.value)))
  {
    request := RequestLine(c);
    printed := [];
    if request.Some? {
      RequestsAreSent(c);
      if ShouldSend(request.value) {
        var response := ReadLine(respond(request.value));
        printed := ResponseLines(response);
      }
    }
  }
}
