/** CommandDelegator.js: the engine's line protocol. Each input line names a
    method of the delegator (after `toCamelCase`), which is called with the
    remaining words; the handlers update the bot's settings and the
    exchange proxy.

    The first half states the handling of input as functions on `Session`,
    producing the writes in order as `Effect`s; the class `CommandDelegator`
    at the end performs them on a `Bot` and an `ExchangeDataProxy` object and
    is proved to agree. */
module Commands {
  import opened Wrappers
  import opened Strings
  import opened JsNumbers
  import opened Utils
  import opened Exchange

  /** A value stored in `bot.gameSettings`: an integer read by `parseInt`
      (`None` is NaN), or the text given (`None` is undefined). */
  datatype Setting = Numeric(number: Option<int>) | Verbatim(text: Option<string>)

  /** What handling input does outside the two objects, in order: a write to
      standard output or standard error, or a call of the bot's `step` with its
      time bank. */
  datatype Effect = Stdout(text: string) | Stderr(text: string) | BotStep(timebank: Option<int>)

  /** The state the handlers act on: the bot's settings and the proxy's state. */
  datatype Session = Session(gameSettings: map<string, Setting>, proxy: ProxyState)

  /** The outcome of handling some input: the new session, the effects in
      order, and whether a TypeError ended the handling. */
  datatype Step = Step(session: Session, effects: seq<Effect>, halted: bool)

  /** The settings stored as integers. */
  const NumericSettings: set<string> :=
    {"timebank", "time_per_move", "candle_interval", "candles_total", "candles_given", "initial_stack"}

  /** `data[i]`, undefined past the end. */
  function Arg(data: seq<string>, i: nat): Option<string>
  {
    if i < |data| then Some(data[i]) else None
  }

  /** The text JavaScript makes of a string that may be undefined. */
  function Text(a: Option<string>): string
  {
    if a.Some? then a.value else "undefined"
  }

  /** `effects` happen first, then those of `next`. */
  function Then(effects: seq<Effect>, next: Step): Step
  {
    Step(next.session, effects + next.effects, next.halted)
  }

  /** `action`: on `order`, the bot takes its turn with the time bank read by
      `parseInt`, and the order queue is flushed to standard output. */
  function ActionStep(s: Session, data: seq<string>, show: real -> string): Step
  {
    if Arg(data, 0) == Some("order") then
      Step(s, [BotStep(ParseInt(Text(Arg(data, 1)))), Stdout(OrderCommand(s.proxy.orders, show))], false)
    else Step(s, [], false)
  }

  /** `settings`: `candle_format` sets the proxy's format, the timing and size
      settings are stored as integers, and any other key is stored as given.
      Setting the format without a value is a TypeError. */
  function SettingsStep(s: Session, data: seq<string>): Step
  {
    var key := Arg(data, 0);
    var value := Arg(data, 1);
    if key == Some("candle_format") then
      if value.None? then Step(s, [], true)
      else Step(s.(proxy := FormatSet(s.proxy, value.value)), [], false)
    else if key.Some? && key.value in NumericSettings then
      Step(s.(gameSettings := s.gameSettings[key.value := Numeric(ParseInt(Text(value)))]), [], false)
    else
      Step(s.(gameSettings := s.gameSettings[Text(key) := Verbatim(value)]), [], false)
  }

  /** `updateGame`: `next_candles` adds a candle batch, `stacks` replaces the
      balances (a refused batch changes nothing), and any other key is
      reported on standard error. A missing batch is a TypeError. */
  function UpdateGameStep(s: Session, data: seq<string>): Step
  {
    var key := Arg(data, 0);
    if key == Some("next_candles") then
      if |data| < 2 then Step(s, [], true)
      else
        var r := CandlesAdded(s.proxy, data[1], false);
        Step(if r.Success? then s.(proxy := r.value) else s, [], false)
    else if key == Some("stacks") then
      if |data| < 2 then Step(s, [], true)
      else
        var r := StacksUpdated(s.proxy, data[1]);
        Step(if r.Success? then s.(proxy := r.value) else s, [], false)
    else
      Step(s, [Stderr("Cannot parse game data input with key " + Text(key) + "\n")], false)
  }

  /** `update`: only `game` updates are acted on. */
  function UpdateStep(s: Session, data: seq<string>): Step
  {
    if Arg(data, 0) == Some("game") then UpdateGameStep(s, data[1..]) else Step(s, [], false)
  }

  /** The report for a line naming no method. */
  function UnableToExecute(command: string, data: seq<string>): string
  {
    "Unable to execute command: " + command + ", with data: " + Join(data, ',') + "\n"
  }

  /** Methods every object inherits whose result is not written: a boolean or the object itself. */
  predicate SilentInherited(command: string)
  {
    command == "hasOwnProperty" || command == "isPrototypeOf" || command == "propertyIsEnumerable" || command == "valueOf"
  }

  /** Looking the command up on the delegator and calling it with the words.
      Besides the three handlers, `updateGame` can be called directly;
      `handleLine` with words and the class `constructor` throw a TypeError;
      the inherited `toString` and `toLocaleString` answer `[object Object]`,
      which is written; the other inherited methods answer nothing written. */
  function Dispatch(s: Session, command: string, data: seq<string>, show: real -> string): Step
  {
    if command == "action" then ActionStep(s, data, show)
    else if command == "settings" then SettingsStep(s, data)
    else if command == "update" then UpdateStep(s, data)
    else if command == "updateGame" then UpdateGameStep(s, data)
    else if command == "handleLine" then Step(s, [], |data| > 0)
    else if command == "constructor" then Step(s, [], true)
    else if command == "toString" || command == "toLocaleString" then Step(s, [Stdout("[object Object]\n")], false)
    else if SilentInherited(command) then Step(s, [], false)
    else Step(s, [Stderr(UnableToExecute(command, data))], false)
  }

  /** One line: trimmed, split on spaces, the first word normalised by `toCamelCase`. */
  function LineStep(s: Session, line: string, show: real -> string): Step
  {
    var parts := Split(Trim(line), ' ');
    Dispatch(s, ToCamelCase(parts[0]), parts[1..], show)
  }

  /** The handling of one line, as a value. */
  function LineHandler(show: real -> string): (Session, string) -> Step
  {
    (s: Session, line: string) => LineStep(s, line, show)
  }

  /** The loop of `handleLine` for a given handling of one line: the lines in
      order, until one of them throws. */
  function RunLines(s: Session, lines: seq<string>, handle: (Session, string) -> Step): Step
    decreases |lines|
  {
    if |lines| == 0 then Step(s, [], false)
    else
      var first := handle(s, lines[0]);
      if first.halted then first else Then(first.effects, RunLines(first.session, lines[1..], handle))
  }

  /** One turn of the loop of `handleLine`: the first line is handled, after
      what came before, and the rest follow unless it threw. */
  lemma RunLinesCons(effects: seq<Effect>, s: Session, lines: seq<string>, handle: (Session, string) -> Step,
                     t: Session, out: seq<Effect>, halted: bool)
    requires |lines| > 0 && handle(s, lines[0]) == Step(t, out, halted)
    ensures halted ==> Then(effects, RunLines(s, lines, handle)) == Step(t, effects + out, true)
    ensures !halted ==> Then(effects, RunLines(s, lines, handle)) == Then(effects + out, RunLines(t, lines[1..], handle))
  {
    if !halted {
      assert effects + (out + RunLines(t, lines[1..], handle).effects) == effects + out + RunLines(t, lines[1..], handle).effects;
    }
  }

  /** `handleLine`: empty input does nothing; otherwise the trimmed input is
      handled line by line. */
  function InputStep(s: Session, data: string, show: real -> string): Step
  {
    if |data| == 0 then Step(s, [], false) else RunLines(s, Split(Trim(data), '\n'), LineHandler(show))
  }

  // ---------------------------------------------------------------------------
  // Properties of the protocol
  // ---------------------------------------------------------------------------

  /** Empty input has no effect at all. */
  lemma InputEmpty(s: Session, show: real -> string)
    ensures InputStep(s, "", show) == Step(s, [], false)
  {
  }

  /** Handling `a + b` is handling `a`, then — unless `a` threw — handling `b`
      from where `a` left the session. */
  lemma {:induction false} RunLinesAppend(s: Session, a: seq<string>, b: seq<string>, handle: (Session, string) -> Step)
    ensures var first := RunLines(s, a, handle);
            RunLines(s, a + b, handle) == if first.halted then first else Then(first.effects, RunLines(first.session, b, handle))
    decreases |a|
  {
    if |a| == 0 {
      assert a + b == b;
    } else {
      var line := handle(s, a[0]);
      assert (a + b)[0] == a[0] && (a + b)[1..] == a[1..] + b;
      if !line.halted {
        RunLinesAppend(line.session, a[1..], b, handle);
      }
    }
  }

  /** A line that throws ends the handling: nothing after it happens. */
  lemma RunLinesStopAtThrow(s: Session, line: string, rest: seq<string>, handle: (Session, string) -> Step)
    requires handle(s, line).halted
    ensures RunLines(s, [line] + rest, handle) == handle(s, line)
  {
    assert ([line] + rest)[0] == line;
  }

  /** A command name that is no method of the delegator is reported with the
      words that followed it, and changes nothing. */
  lemma UnknownCommandReported(s: Session, command: string, data: seq<string>, show: real -> string)
    requires command !in {"action", "settings", "update", "updateGame", "handleLine", "constructor", "toString", "toLocaleString"}
    requires !SilentInherited(command)
    ensures Dispatch(s, command, data, show) == Step(s, [Stderr(UnableToExecute(command, data))], false)
  {
  }

  /** Exactly the `action order` line writes the order command to standard
      output and calls the bot; no handler changes the session when it writes. */
  lemma ActionEffects(s: Session, data: seq<string>, show: real -> string)
    ensures var r := ActionStep(s, data, show);
            && r.session == s && !r.halted
            && (r.effects != [] <==> |data| > 0 && data[0] == "order")
            && (r.effects != [] ==> r.effects == [BotStep(ParseInt(Text(Arg(data, 1)))), Stdout(OrderCommand(s.proxy.orders, show))])
  {
  }

  /** `action order N`: the bot gets time bank `N`, and the queue is flushed. */
  lemma ActionOrderLine(s: Session, n: nat, show: real -> string)
    ensures LineStep(s, "action order " + NatToString(n), show)
         == Step(s, [BotStep(Some(n)), Stdout(OrderCommand(s.proxy.orders, show))], false)
  {
    var digits := NatToString(n);
    var line := "action order " + digits;
    TrimmedWords("action", "order", digits);
    assert line == "action" + [' '] + "order" + [' '] + digits;
    KeepsName("action");
    ParseIntNatToString(n);
    assert Split(Trim(line), ' ')[1..] == ["order", digits];
  }

  /** `update game stacks B`: the balances are replaced by the batch `B` when it
      is accepted, and left as they were when it is refused. */
  lemma UpdateStacksLine(s: Session, batch: string, show: real -> string)
    requires |batch| > 0 && ' ' !in batch && !IsWhitespace(batch[|batch| - 1])
    ensures LineStep(s, "update game stacks " + batch, show)
         == Step(if StacksUpdated(s.proxy, batch).Success? then s.(proxy := StacksUpdated(s.proxy, batch).value) else s, [], false)
  {
    UpdateStacksWords(batch);
    KeepsName("update");
    UpdateStacksDispatch(s, batch, show);
  }

  /** The words of an `update game stacks B` line. */
  lemma UpdateStacksWords(batch: string)
    requires |batch| > 0 && ' ' !in batch && !IsWhitespace(batch[|batch| - 1])
    ensures Split(Trim("update game stacks " + batch), ' ') == ["update", "game", "stacks", batch]
  {
    var line := "update game stacks " + batch;
    TrimWhole(line);
    assert "update game stacks " == "update" + " " + "game" + " " + "stacks" + " ";
    assert line == "update" + " " + ("game" + " " + ("stacks" + " " + batch));
    SplitFirstWord("update", "game" + " " + ("stacks" + " " + batch));
    SplitFirstWord("game", "stacks" + " " + batch);
    SplitFirstWord("stacks", batch);
    SplitWord(batch);
  }

  lemma UpdateStacksDispatch(s: Session, batch: string, show: real -> string)
    ensures Dispatch(s, "update", ["game", "stacks", batch], show)
         == Step(if StacksUpdated(s.proxy, batch).Success? then s.(proxy := StacksUpdated(s.proxy, batch).value) else s, [], false)
  {
    assert ["game", "stacks", batch][1..] == ["stacks", batch];
  }

  /** The first word of a line split on spaces. */
  lemma SplitFirstWord(w: string, rest: string)
    requires ' ' !in w
    ensures Split(w + " " + rest, ' ') == [w] + Split(rest, ' ')
  {
    assert w + " " + rest == w + ([' '] + rest);
    SplitPrefix(w, [' '] + rest, ' ');
    assert ([' '] + rest)[1..] == rest;
    assert w + "" == w;
  }

  /** A word without spaces splits into itself. */
  lemma SplitWord(w: string)
    requires ' ' !in w
    ensures Split(w, ' ') == [w]
  {
    SplitPrefix(w, "", ' ');
    assert w + "" == w;
  }

  /** Splitting three space-free words joined by spaces, after trimming. */
  lemma TrimmedWords(a: string, b: string, c: string)
    requires |a| > 0 && |c| > 0 && !IsWhitespace(a[0]) && !IsWhitespace(c[|c| - 1])
    requires ' ' !in a && ' ' !in b && ' ' !in c
    ensures Split(Trim(a + " " + b + " " + c), ' ') == [a, b, c]
  {
    var line := a + " " + b + " " + c;
    assert line == a + [' '] + b + [' '] + c;
    TrimWhole(line);
    SplitThree(a, b, c, ' ');
  }

  /** A string that neither starts nor ends with whitespace is its own trim. */
  lemma TrimWhole(s: string)
    requires |s| > 0 && !IsWhitespace(s[0]) && !IsWhitespace(s[|s| - 1])
    ensures Trim(s) == s
  {
    assert TrimStart(s) == s;
    assert TrimEnd(s) == s;
  }

  /** The handler names are their own camel case. */
  lemma KeepsName(name: string)
    requires name == "action" || name == "settings" || name == "update"
    ensures ToCamelCase(name) == name
  {
    assert '/' !in name && '_' !in name;
    ToCamelCaseKeeps(name);
  }

  /** `settings candle_format F` makes `F`'s comma-separated names the format;
      without `F` it throws. The bot's settings are untouched. */
  lemma CandleFormatSetting(s: Session, data: seq<string>)
    requires |data| > 0 && data[0] == "candle_format"
    ensures var r := SettingsStep(s, data);
            && r.effects == []
            && (r.halted <==> |data| == 1)
            && (!r.halted ==>
                  var names := r.session.proxy.candleFormat;
                  && r.session.gameSettings == s.gameSettings
                  && |names| >= 1 && (forall i :: 0 <= i < |names| ==> ',' !in names[i])
                  && Join(names, ',') == data[1]
                  && r.session.proxy == s.proxy.(candleFormat := names))
  {
  }

  /** A timing or size setting given in digits is stored as that integer; the
      proxy is untouched. */
  lemma NumericSetting(s: Session, key: string, n: nat)
    requires key in NumericSettings
    ensures var r := SettingsStep(s, [key, NatToString(n)]);
            && !r.halted && r.effects == []
            && r.session == s.(gameSettings := s.gameSettings[key := Numeric(Some(n))])
  {
    assert key != "candle_format";
    ParseIntNatToString(n);
  }

  /** Any other setting is stored as given, under its key (`undefined` when there is none). */
  lemma VerbatimSetting(s: Session, data: seq<string>)
    requires |data| == 0 || (data[0] != "candle_format" && data[0] !in NumericSettings)
    ensures var r := SettingsStep(s, data);
            && !r.halted && r.effects == []
            && r.session == s.(gameSettings := s.gameSettings[Text(Arg(data, 0)) := Verbatim(Arg(data, 1))])
  {
  }

  /** A game update with an unknown key is reported and changes nothing. */
  lemma UnknownGameKey(s: Session, data: seq<string>)
    requires |data| == 0 || (data[0] != "next_candles" && data[0] != "stacks")
    ensures UpdateGameStep(s, data) == Step(s, [Stderr("Cannot parse game data input with key " + Text(Arg(data, 0)) + "\n")], false)
  {
  }

  /** A candle batch from the engine adds one candle per group to its pair's
      series, in input order, or changes nothing when it is refused. It
      registers no markets and touches neither balances, orders nor settings. */
  lemma NextCandlesKeepsOrders(s: Session, batch: string)
    ensures var r := UpdateGameStep(s, ["next_candles", batch]);
            var added := CandlesAdded(s.proxy, batch, false);
            && !r.halted && r.effects == []
            && r.session.gameSettings == s.gameSettings
            && r.session.proxy.markets == s.proxy.markets
            && r.session.proxy.orders == s.proxy.orders
            && r.session.proxy.stacks == s.proxy.stacks
            && (added.Failure? ==> r.session == s)
            && (added.Success? ==>
                  var cs := ParseGroups(s.proxy.candleFormat, Split(batch, ';'), false).value;
                  && |cs| == |Split(batch, ';')|
                  && AllHavePair(cs, false)
                  && forall pair :: Series(r.session.proxy.candles, pair) == Series(s.proxy.candles, pair) + StoredFor(cs, pair))
  {
    var r := CandlesAdded(s.proxy, batch, false);
    if r.Success? {
      AddCandlesOnePerGroup(s.proxy, batch, false);
    }
  }

  /** `update game D` is `updateGame` with `D`. */
  lemma UpdateGameDispatch(s: Session, data: seq<string>, show: real -> string)
    ensures Dispatch(s, "update", ["game"] + data, show) == UpdateGameStep(s, data)
  {
    assert (["game"] + data)[1..] == data;
  }

  /** `update` with anything but `game` is ignored: nothing changes and nothing is written. */
  lemma UpdateIgnoresOthers(s: Session, data: seq<string>, show: real -> string)
    requires |data| == 0 || data[0] != "game"
    ensures Dispatch(s, "update", data, show) == Step(s, [], false)
  {
  }

  /** `update game next_candles B` commits `B` without registering markets, or
      changes nothing when `B` is refused; nothing is written. */
  lemma NextCandlesDispatch(s: Session, batch: string, show: real -> string)
    ensures Dispatch(s, "update", ["game", "next_candles", batch], show)
         == Step(if CandlesAdded(s.proxy, batch, false).Success? then s.(proxy := CandlesAdded(s.proxy, batch, false).value) else s, [], false)
  {
    UpdateGameDispatch(s, ["next_candles", batch], show);
    assert ["game"] + ["next_candles", batch] == ["game", "next_candles", batch];
  }

  /** Whatever the line, `toCamelCase` can never produce `__proto__`-style
      names: the command looked up has no `_` before a lower-case letter. */
  lemma CommandNamesNormalised(line: string)
    ensures NoMatch(ToCamelCase(Split(Trim(line), ' ')[0]))
  {
    ToCamelCaseNoMatch(Split(Trim(line), ' ')[0]);
  }

  // ---------------------------------------------------------------------------
  // The objects
  // ---------------------------------------------------------------------------

  /** The bot, as far as the delegator uses it: its settings table. Its
      `step` is not part of this model; calling it is an effect. */
  class Bot {
    var gameSettings: map<string, Setting>

    constructor(gameSettings: map<string, Setting>)
      ensures this.gameSettings == gameSettings
    {
      this.gameSettings := gameSettings;
    }
  }

  /** The delegator, holding the bot and the proxy it drives. */
  class CommandDelegator {
    const bot: Bot
    const dataProxy: ExchangeDataProxy

    constructor(bot: Bot, dataProxy: ExchangeDataProxy)
      ensures this.bot == bot && this.dataProxy == dataProxy
    {
      this.bot := bot;
      this.dataProxy := dataProxy;
    }

    /** The session the two objects hold. */
    function Current(): Session
      reads this, bot, dataProxy
    {
      Session(bot.gameSettings, dataProxy.State())
    }

    /** `action`. */
    method Action(data: seq<string>, show: real -> string) returns (effects: seq<Effect>)
      ensures ActionStep(Current(), data, show) == Step(Current(), effects, false)
    {
      effects := [];
      if Arg(data, 0) == Some("order") {
        var timebank := ParseInt(Text(Arg(data, 1)));
        effects := [BotStep(timebank), Stdout(dataProxy.FlushOrders(show))];
      }
    }

    /** `settings`. */
    method Settings(data: seq<string>) returns (halted: bool)
      modifies bot, dataProxy
      ensures SettingsStep(old(Current()), data) == Step(Current(), [], halted)
    {
      var key := Arg(data, 0);
      var value := Arg(data, 1);
      if key == Some("candle_format") {
        if value.None? {
          return true;
        }
        dataProxy.SetCandleFormat(value.value);
      } else if key.Some? && key.value in NumericSettings {
        bot.gameSettings := bot.gameSettings[key.value := Numeric(ParseInt(Text(value)))];
      } else {
        bot.gameSettings := bot.gameSettings[Text(key) := Verbatim(value)];
      }
      return false;
    }

    /** `updateGame`. */
    method UpdateGame(data: seq<string>) returns (effects: seq<Effect>, halted: bool)
      modifies dataProxy
      ensures UpdateGameStep(old(Current()), data) == Step(Current(), effects, halted)
    {
      var key := Arg(data, 0);
      if key == Some("next_candles") {
        if |data| < 2 {
          return [], true;
        }
        var _ := dataProxy.AddCandleByString(data[1], false);
      } else if key == Some("stacks") {
        if |data| < 2 {
          return [], true;
        }
        var _ := dataProxy.UpdateStacks(data[1]);
      } else {
        return [Stderr("Cannot parse game data input with key " + Text(key) + "\n")], false;
      }
      return [], false;
    }

    /** `update`. */
    method Update(data: seq<string>) returns (effects: seq<Effect>, halted: bool)
      modifies dataProxy
      ensures UpdateStep(old(Current()), data) == Step(Current(), effects, halted)
    {
      if Arg(data, 0) == Some("game") {
        effects, halted := UpdateGame(data[1..]);
      } else {
        effects, halted := [], false;
      }
    }

    /** One line's command, looked up by name. */
    method Invoke(command: string, data: seq<string>, show: real -> string) returns (effects: seq<Effect>, halted: bool)
      modifies bot, dataProxy
      ensures Dispatch(old(Current()), command, data, show) == Step(Current(), effects, halted)
    {
      if command == "action" {
        effects := Action(data, show);
        halted := false;
      } else if command == "settings" {
        halted := Settings(data);
        effects := [];
      } else if command == "update" {
        effects, halted := Update(data);
      } else if command == "updateGame" {
        effects, halted := UpdateGame(data);
      } else if command == "handleLine" {
        effects, halted := [], |data| > 0;
      } else if command == "constructor" {
        effects, halted := [], true;
      } else if command == "toString" || command == "toLocaleString" {
        effects, halted := [Stdout("[object Object]\n")], false;
      } else if SilentInherited(command) {
        effects, halted := [], false;
      } else {
        effects, halted := [Stderr(UnableToExecute(command, data))], false;
      }
    }

    /** `handleLine`: the input is trimmed and split into lines, which are
        taken off the front one by one and handled until none is left or one
        throws. */
    method HandleLine(data: string, show: real -> string) returns (effects: seq<Effect>, halted: bool)
      modifies bot, dataProxy
      ensures InputStep(old(Current()), data, show) == Step(Current(), effects, halted)
    {
      effects, halted := [], false;
      if |data| == 0 {
        return;
      }
      var lines := Split(Trim(data), '\n');
      while 0 < |lines|
        invariant RunLines(old(Current()), Split(Trim(data), '\n'), LineHandler(show)) == Then(effects, RunLines(Current(), lines, LineHandler(show)))
        decreases |lines|
      {
        ghost var before := Current();
        var out, stop := HandleOne(lines[0], show);
        RunLinesCons(effects, before, lines, LineHandler(show), Current(), out, stop);
        lines := lines[1..];
        effects := effects + out;
        if stop {
          return effects, true;
        }
      }
    }

    /** One line of `handleLine`: trimmed, split on spaces, and the method named
        by its first word invoked with the rest. */
    method HandleOne(input: string, show: real -> string) returns (effects: seq<Effect>, halted: bool)
      modifies bot, dataProxy
      ensures LineHandler(show)(old(Current()), input) == Step(Current(), effects, halted)
    {
      var line := Trim(input);
      var lineParts := Split(line, ' ');
      var command := ToCamelCase(lineParts[0]);
      effects, halted := Invoke(command, lineParts[1..], show);
    }
  }
}
