/** The cmdline interpreter: the positional calling convention `call`, the
    read-classify-dispatch loop `Interpret`, the script runner `Run` and the
    interpreter's configuration (`Setup`). Lines arrive as events that already
    carry what the shell-word tokeniser made of them; a script file is the
    sequence of events its lines produce. */
module Interpreter {
  import opened GoStrings
  import opened Registry

  /** What `call` does with a handler and its textual arguments. */
  datatype CallOutcome = Invoked(args: seq<string>) | ParamCountMismatch

  function Blanks(n: nat): (r: seq<string>)
    ensures |r| == n && forall i | 0 <= i < n :: r[i] == ""
  {
    seq(n, _ => "")
  }

  /** The calling convention of `call`: too few arguments are padded with empty
      strings up to the declared count, too many are refused, and an exact count
      is passed through. */
  function Coerce(arity: nat, args: seq<string>): (r: CallOutcome)
    ensures r.ParamCountMismatch? <==> |args| > arity
    ensures r.Invoked? ==> |r.args| == arity && r.args[..|args|] == args
    ensures r.Invoked? ==> forall i | |args| <= i < arity :: r.args[i] == ""
  {
    if |args| > arity then ParamCountMismatch else Invoked(args + Blanks(arity - |args|))
  }

  /** An exact argument count reaches the handler unchanged, in order. */
  lemma CoerceExact(arity: nat, args: seq<string>)
    requires |args| == arity
    ensures Coerce(arity, args) == Invoked(args)
  {
    assert args + Blanks(0) == args;
  }

  /** `call`: pads in a counted loop, or refuses. */
  method Call(fn: Handler, params: seq<string>) returns (outcome: CallOutcome)
    ensures outcome == Coerce(fn.Arity(), params)
  {
    var extra := fn.Arity() - |params|;
    var ps := params;
    if extra > 0 {
      for i := 0 to extra
        invariant ps == params + Blanks(i)
      {
        ps := ps + [""];
      }
    } else if extra < 0 {
      return ParamCountMismatch;
    }
    return Invoked(ps);
  }

  /** What the tokeniser made of a line: the words of its first command, or an error. */
  datatype Lexed = Words(command: string, args: seq<string>) | LexError

  /** What one `Readline` call returns: a line, an interrupt with the partial line, or EOF. */
  datatype Event = Line(text: string, lexed: Lexed) | Interrupt(partial: string) | EndOfInput

  /** How the loop treats one line. */
  datatype Action =
    | Skip
    | Dispatch(name: string, args: seq<string>)
    | RunScripts(files: seq<string>)
    | Fallback(line: string)

  /** What the loop makes happen, in order. */
  datatype Effect =
    | Called(name: string, fn: Handler, args: seq<string>)  // a registered handler ran with these arguments
    | Refused(name: string)                                 // "params count not match"
    | PassedThrough(handler: string, line: string)          // the fallback handler got the line
    | OpenFailed(path: string)                              // a script could not be opened
    | TooDeep(path: string)                                 // nesting bound reached

  /** The default fallback, which echoes the line. */
  const EchoFallback: string := "echo"

  predicate BlankOrComment(line: string) {
    line == "" || line[0] == '#'
  }

  /** Interrupt on an empty line, or end of input: the loop stops. */
  predicate Stops(e: Event) {
    e.EndOfInput? || (e.Interrupt? && e.partial == "")
  }

  /** The classification of one line: blank and comment lines and lines the
      tokeniser rejects are skipped; a registered first word is dispatched with
      the other words; an unregistered line starting with "run" runs each other
      word as a script (nothing if there is none); anything else goes to the
      fallback handler, trimmed. */
  function Classify(funcs: map<string, FuncInfo>, text: string, lexed: Lexed): (a: Action)
    ensures BlankOrComment(TrimSpace(text)) || lexed.LexError? ==> a.Skip?
    ensures a.Dispatch? <==> !BlankOrComment(TrimSpace(text)) && lexed.Words? && lexed.command in funcs
    ensures a.Dispatch? ==> a.name == lexed.command && a.args == lexed.args
    ensures a.RunScripts? <==>
      && !BlankOrComment(TrimSpace(text)) && lexed.Words? && lexed.command !in funcs
      && "run" <= TrimSpace(text) && lexed.args != []
    ensures a.RunScripts? ==> a.files == lexed.args
    ensures a.Fallback? <==>
      !BlankOrComment(TrimSpace(text)) && lexed.Words? && lexed.command !in funcs && !("run" <= TrimSpace(text))
    ensures a.Fallback? ==> a.line == TrimSpace(text)
  {
    var line := TrimSpace(text);
    if BlankOrComment(line) then Skip
    else match lexed
      case LexError => Skip
      case Words(cmd, args) =>
        if cmd in funcs then Dispatch(cmd, args)
        else if "run" <= line then (if args == [] then Skip else RunScripts(args))
        else Fallback(line)
  }

  /** What the loop reads besides its input: the registry, the installed
      fallback handler, and the script files by path. */
  datatype Env = Env(funcs: map<string, FuncInfo>, fallback: string, scripts: map<string, seq<Event>>)

  /** The effects of reading `events` to the end or to the first stop. Nested
      scripts may go `fuel` levels deep. */
  function Session(env: Env, events: seq<Event>, fuel: nat): seq<Effect>
    decreases fuel, |events|, 2, 0
  {
    if events == [] then []
    else match events[0]
      case EndOfInput => []
      case Interrupt(partial) => if partial == "" then [] else Session(env, events[1..], fuel)
      case Line(text, lexed) =>
        Perform(env, Classify(env.funcs, text, lexed), fuel) + Session(env, events[1..], fuel)
  }

  /** The effects of one classified line. */
  function Perform(env: Env, a: Action, fuel: nat): seq<Effect>
    requires a.Dispatch? ==> a.name in env.funcs
    decreases fuel, 0, 1, 0
  {
    match a
    case Skip => []
    case Dispatch(name, args) =>
      var fn := env.funcs[name].fn;
      (match Coerce(fn.Arity(), args)
       case ParamCountMismatch => [Refused(name)]
       case Invoked(params) =>
         if fn.ScriptRunner? then RunScript(env, params[0], fuel) else [Called(name, fn, params)])
    case RunScripts(files) => RunEach(env, files, fuel)
    case Fallback(line) => [PassedThrough(env.fallback, line)]
  }

  /** `Run` on each path, in order. */
  function RunEach(env: Env, files: seq<string>, fuel: nat): seq<Effect>
    decreases fuel, 0, 0, |files| + 1
  {
    if files == [] then [] else RunScript(env, files[0], fuel) + RunEach(env, files[1..], fuel)
  }

  /** `Run`: a missing file is reported, otherwise its lines are interpreted. */
  function RunScript(env: Env, path: string, fuel: nat): seq<Effect>
    decreases fuel, 0, 0, 0
  {
    if path !in env.scripts then [OpenFailed(path)]
    else if fuel == 0 then [TooDeep(path)]
    else Session(env, env.scripts[path], fuel - 1)
  }

  /** Everything after a stopping event is ignored. */
  lemma {:induction false} SessionStops(env: Env, events: seq<Event>, i: nat, fuel: nat)
    requires i < |events| && Stops(events[i])
    ensures Session(env, events, fuel) == Session(env, events[..i], fuel)
    decreases i
  {
    if i == 0 {
      assert events[..0] == [];
    } else {
      assert events[..i][0] == events[0];
      assert events[..i][1..] == events[1..][..i - 1];
      SessionStops(env, events[1..], i - 1, fuel);
    }
  }

  /** Reading two streams one after the other, when the first has no stop. */
  lemma {:induction false} SessionAppend(env: Env, a: seq<Event>, b: seq<Event>, fuel: nat)
    requires forall i | 0 <= i < |a| :: !Stops(a[i])
    ensures Session(env, a + b, fuel) == Session(env, a, fuel) + Session(env, b, fuel)
    decreases |a|
  {
    if a == [] {
      assert a + b == b;
    } else {
      assert (a + b)[0] == a[0];
      assert (a + b)[1..] == a[1..] + b;
      SessionAppend(env, a[1..], b, fuel);
    }
  }

  /** An interrupt on a non-empty line does not end the loop. */
  lemma InterruptContinues(env: Env, partial: string, rest: seq<Event>, fuel: nat)
    requires partial != ""
    ensures Session(env, [Interrupt(partial)] + rest, fuel) == Session(env, rest, fuel)
  {
    assert ([Interrupt(partial)] + rest)[1..] == rest;
  }

  /** A line that trims to nothing or to a comment has no effect. */
  lemma SkippedLine(env: Env, text: string, lexed: Lexed, rest: seq<Event>, fuel: nat)
    requires BlankOrComment(TrimSpace(text))
    ensures Session(env, [Line(text, lexed)] + rest, fuel) == Session(env, rest, fuel)
  {
    assert ([Line(text, lexed)] + rest)[1..] == rest;
  }

  /** `run f` with `run` registered goes through `call` to the script runner. */
  lemma RegisteredRunOneFile(env: Env, text: string, target: string, fuel: nat)
    requires !BlankOrComment(TrimSpace(text))
    requires "run" in env.funcs && env.funcs["run"].fn == ScriptRunner
    ensures Session(env, [Line(text, Words("run", [target]))], fuel) == RunScript(env, target, fuel)
  {
    var l := Line(text, Words("run", [target]));
    assert [l][1..] == [];
    CoerceExact(1, [target]);
    assert Session(env, [l], fuel) == RunScript(env, target, fuel) + [];
  }

  /** A script made of a comment, a blank line and `run target` runs the target
      as if its lines stood there, when `run` is the registered script runner. */
  lemma NestedScriptInlined(env: Env, comment: Event, blank: Event, runText: string, target: string, fuel: nat)
    requires comment.Line? && BlankOrComment(TrimSpace(comment.text))
    requires blank.Line? && TrimSpace(blank.text) == ""
    requires !BlankOrComment(TrimSpace(runText))
    requires "run" in env.funcs && env.funcs["run"].fn == ScriptRunner
    requires target in env.scripts && fuel > 0
    ensures Session(env, [comment, blank, Line(runText, Words("run", [target]))], fuel)
         == Session(env, env.scripts[target], fuel - 1)
  {
    var runLine := Line(runText, Words("run", [target]));
    SkipTwo(env, comment, blank, runLine, fuel);
    RunLineEntersScript(env, runText, target, fuel);
  }

  lemma RunLineEntersScript(env: Env, runText: string, target: string, fuel: nat)
    requires !BlankOrComment(TrimSpace(runText))
    requires "run" in env.funcs && env.funcs["run"].fn == ScriptRunner
    requires target in env.scripts && fuel > 0
    ensures Session(env, [Line(runText, Words("run", [target]))], fuel) == Session(env, env.scripts[target], fuel - 1)
  {
    RegisteredRunOneFile(env, runText, target, fuel);
    EnterScript(env, target, fuel);
  }

  lemma SkipTwo(env: Env, comment: Event, blank: Event, last: Event, fuel: nat)
    requires comment.Line? && BlankOrComment(TrimSpace(comment.text))
    requires blank.Line? && BlankOrComment(TrimSpace(blank.text))
    ensures Session(env, [comment, blank, last], fuel) == Session(env, [last], fuel)
  {
    var all := [comment, blank, last];
    SkipFirst(env, all, fuel);
    assert all[1..] == [blank, last];
    SkipFirst(env, all[1..], fuel);
    assert all[1..][1..] == [last];
  }

  lemma SkipFirst(env: Env, events: seq<Event>, fuel: nat)
    requires events != [] && events[0].Line? && BlankOrComment(TrimSpace(events[0].text))
    ensures Session(env, events, fuel) == Session(env, events[1..], fuel)
  {
  }

  lemma EnterScript(env: Env, target: string, fuel: nat)
    requires target in env.scripts && fuel > 0
    ensures RunScript(env, target, fuel) == Session(env, env.scripts[target], fuel - 1)
  {
  }

  /** `run a b` with `run` registered hits the count mismatch: nothing is run. */
  lemma RegisteredRunRefusesTwoFiles(env: Env, text: string, a: string, b: string, fuel: nat)
    requires !BlankOrComment(TrimSpace(text))
    requires "run" in env.funcs && env.funcs["run"].fn == ScriptRunner
    ensures Session(env, [Line(text, Words("run", [a, b]))], fuel) == [Refused("run")]
  {
    assert [Line(text, Words("run", [a, b]))][1..] == [];
  }

  /** An unregistered first word on a line that starts with "run" (such as
      `runx a b`) runs every other word as a script, in order. */
  lemma UnregisteredRunPrefix(env: Env, text: string, cmd: string, files: seq<string>, fuel: nat)
    requires !BlankOrComment(TrimSpace(text)) && "run" <= TrimSpace(text) && cmd !in env.funcs
    ensures Session(env, [Line(text, Words(cmd, files))], fuel) == RunEach(env, files, fuel)
    ensures files == [] ==> Session(env, [Line(text, Words(cmd, files))], fuel) == []
  {
    assert [Line(text, Words(cmd, files))][1..] == [];
  }

  /** An unregistered word that is not the script keyword reaches the fallback
      handler exactly once, with the trimmed line. */
  lemma FallbackOnce(env: Env, text: string, cmd: string, args: seq<string>, fuel: nat)
    requires !BlankOrComment(TrimSpace(text)) && !("run" <= TrimSpace(text)) && cmd !in env.funcs
    ensures Session(env, [Line(text, Words(cmd, args))], fuel) == [PassedThrough(env.fallback, TrimSpace(text))]
  {
    assert [Line(text, Words(cmd, args))][1..] == [];
  }

  /** A script that runs itself is cut at the nesting bound. */
  lemma {:induction false} SelfRunIsCut(env: Env, path: string, text: string, fuel: nat)
    requires path in env.scripts && env.scripts[path] == [Line(text, Words("run", [path]))]
    requires !BlankOrComment(TrimSpace(text))
    requires "run" in env.funcs && env.funcs["run"].fn == ScriptRunner
    ensures RunScript(env, path, fuel) == [TooDeep(path)]
    decreases fuel
  {
    if fuel > 0 {
      var l := Line(text, Words("run", [path]));
      assert [l][1..] == [];
      CoerceExact(1, [path]);
      assert Session(env, [l], fuel - 1) == RunScript(env, path, fuel - 1) + [];
      SelfRunIsCut(env, path, text, fuel - 1);
    }
  }

  /** The session from a stopping event on has no effect. */
  lemma SessionAtStop(env: Env, events: seq<Event>, i: nat, fuel: nat)
    requires i < |events| && Stops(events[i])
    ensures Session(env, events[i..], fuel) == []
  {
    assert events[i..][0] == events[i];
  }

  /** An interrupt on a partial line is passed over. */
  lemma SessionAtInterrupt(env: Env, events: seq<Event>, i: nat, fuel: nat)
    requires i < |events| && events[i].Interrupt? && events[i].partial != ""
    ensures Session(env, events[i..], fuel) == Session(env, events[i + 1..], fuel)
  {
    assert events[i..][0] == events[i] && events[i..][1..] == events[i + 1..];
  }

  /** A line has its own effects, then the rest of the session follows. */
  lemma SessionAtLine(env: Env, events: seq<Event>, i: nat, fuel: nat)
    requires i < |events| && events[i].Line?
    ensures Session(env, events[i..], fuel) ==
      Perform(env, Classify(env.funcs, events[i].text, events[i].lexed), fuel) + Session(env, events[i + 1..], fuel)
  {
    assert events[i..][0] == events[i] && events[i..][1..] == events[i + 1..];
  }

  class Shell {
    /** conf.Prompt, conf.HistoryFile */
    var prompt: string
    var historyFile: string
    /** The name of the installed defaultFunc. */
    var fallback: string

    /** The package's initial configuration. */
    constructor ()
      ensures prompt == "cmdline" && historyFile == "/tmp/cmdline.tmp" && fallback == EchoFallback
    {
      prompt := "cmdline";
      historyFile := "/tmp/cmdline.tmp";
      fallback := EchoFallback;
    }

    /** `Setup`: replaces the prompt, the history file and the fallback handler. */
    method Setup(prompt: string, historyFile: string, fn: string)
      modifies this
      ensures this.prompt == prompt && this.historyFile == historyFile && fallback == fn
    {
      this.prompt := prompt;
      this.historyFile := historyFile;
      fallback := fn;
    }

    /** `Interpret`: the read loop over `events`. */
    method Interpret(table: CommandTable, scripts: map<string, seq<Event>>, events: seq<Event>, fuel: nat)
      returns (effects: seq<Effect>)
      ensures effects == Session(Env(table.funcs, fallback, scripts), events, fuel)
      decreases fuel, 3
    {
      var env := Env(table.funcs, fallback, scripts);
      effects := [];
      var i := 0;
      while i < |events|
        invariant 0 <= i <= |events|
        invariant effects + Session(env, events[i..], fuel) == Session(env, events, fuel)
      {
        var ev := events[i];
        if ev.EndOfInput? || (ev.Interrupt? && ev.partial == "") {
          SessionAtStop(env, events, i, fuel);
          break;
        }
        if ev.Interrupt? {
          SessionAtInterrupt(env, events, i, fuel);
          i := i + 1;
          continue;
        }
        var done := Step(table, scripts, ev.text, ev.lexed, fuel);
        SessionAtLine(env, events, i, fuel);
        assert effects + done + Session(env, events[i + 1..], fuel)
            == effects + (done + Session(env, events[i + 1..], fuel));
        effects := effects + done;
        i := i + 1;
      }
      if i == |events| {
        assert events[i..] == [];
      }
    }

    /** The body of the loop for one line. */
    method Step(table: CommandTable, scripts: map<string, seq<Event>>, text: string, lexed: Lexed, fuel: nat)
      returns (effects: seq<Effect>)
      ensures effects == Perform(Env(table.funcs, fallback, scripts), Classify(table.funcs, text, lexed), fuel)
      decreases fuel, 2
    {
      effects := [];
      var line := TrimSpace(text);
      if line == "" || line[0] == '#' {
        return;
      }
      if lexed.LexError? {
        return;
      }
      var cmd, args := lexed.command, lexed.args;
      var found := table.GetFunc(cmd);
      if found.Found? {
        var outcome := Call(found.fn, args);
        if outcome.ParamCountMismatch? {
          effects := [Refused(cmd)];
        } else if found.fn.ScriptRunner? {
          effects := Run(table, scripts, outcome.args[0], fuel);
        } else {
          effects := [Called(cmd, found.fn, outcome.args)];
        }
      } else if "run" <= line {
        if |args| == 0 {
          return;
        }
        effects := RunAll(table, scripts, args, fuel);
      } else {
        effects := [PassedThrough(fallback, line)];
      }
    }

    /** The loop that runs each word of a `run...` line as a script. */
    method RunAll(table: CommandTable, scripts: map<string, seq<Event>>, files: seq<string>, fuel: nat)
      returns (effects: seq<Effect>)
      ensures effects == RunEach(Env(table.funcs, fallback, scripts), files, fuel)
      decreases fuel, 1
    {
      var env := Env(table.funcs, fallback, scripts);
      effects := [];
      for j := 0 to |files|
        invariant effects + RunEach(env, files[j..], fuel) == RunEach(env, files, fuel)
      {
        assert files[j..][0] == files[j] && files[j..][1..] == files[j + 1..];
        var nested := Run(table, scripts, files[j], fuel);
        assert effects + nested + RunEach(env, files[j + 1..], fuel)
            == effects + (nested + RunEach(env, files[j + 1..], fuel));
        effects := effects + nested;
      }
      assert files[|files|..] == [];
    }

    /** `Run`: open the script and interpret it. */
    method Run(table: CommandTable, scripts: map<string, seq<Event>>, path: string, fuel: nat)
      returns (effects: seq<Effect>)
      ensures effects == RunScript(Env(table.funcs, fallback, scripts), path, fuel)
      decreases fuel, 0
    {
      if path !in scripts {
        return [OpenFailed(path)];
      }
      if fuel == 0 {
        return [TooDeep(path)];
      }
      effects := Interpret(table, scripts, scripts[path], fuel - 1);
    }
  }
}
