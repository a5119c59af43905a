/** The command registry of the cmdline package: a table from command name to
    the command's metadata, filled by `Regist`, read by `GetFunc`, by `Help`
    and by the tab-completion builders. */
module Registry {

  /** One parameter's help metadata. The type is descriptive only: nothing checks it. */
  datatype Param = Param(name: string, typ: string, necessity: bool, desc: string)

  /** The function stored with a command. The interpreter's own script runner `Run`
      is told apart, because dispatching it runs a nested script; every other
      handler is known by its name and its number of string parameters. */
  datatype Handler = ScriptRunner | Native(tag: string, arity: nat)
  {
    /** The number of parameters the handler declares (reflect's NumIn). */
    function Arity(): nat {
      match this
      case ScriptRunner => 1
      case Native(_, n) => n
    }
  }

  datatype FuncInfo = FuncInfo(group: string, name: string, fn: Handler, help: string,
                               usage: string, params: seq<Param>)

  /** What `GetFunc` returns: the handler, or the "not regist" error. */
  datatype Lookup = Found(fn: Handler) | NotRegistered(message: string)

  /** Every entry is filed under its own name. */
  ghost predicate WellKeyed(m: map<string, FuncInfo>) {
    forall k | k in m :: m[k].name == k
  }

  /** One registration: insert if absent, so the first registration of a name wins. */
  function Register(m: map<string, FuncInfo>, f: FuncInfo): (r: map<string, FuncInfo>)
    ensures r.Keys == m.Keys + {f.name}
    ensures forall k | k in m :: r[k] == m[k]
    ensures f.name !in m ==> r[f.name] == f
    ensures WellKeyed(m) ==> WellKeyed(r)
  {
    if f.name in m then m else m[f.name := f]
  }

  /** A sequence of registrations, in order. */
  function RegisterAll(m: map<string, FuncInfo>, fs: seq<FuncInfo>): map<string, FuncInfo>
    decreases |fs|
  {
    if fs == [] then m else RegisterAll(Register(m, fs[0]), fs[1..])
  }

  /** After a run of registrations a name is present iff it was present before or
      was registered; an old entry is kept, and a new one is the first
      registration under that name. */
  lemma {:induction false} FirstRegistrationWins(m: map<string, FuncInfo>, fs: seq<FuncInfo>, k: string)
    ensures k in RegisterAll(m, fs) <==> k in m || exists i | 0 <= i < |fs| :: fs[i].name == k
    ensures k in m ==> RegisterAll(m, fs)[k] == m[k]
    ensures k !in m ==> forall i | 0 <= i < |fs| && fs[i].name == k && (forall j | 0 <= j < i :: fs[j].name != k) ::
      RegisterAll(m, fs)[k] == fs[i]
    decreases |fs|
  {
    if fs != [] {
      var m' := Register(m, fs[0]);
      FirstRegistrationWins(m', fs[1..], k);
      forall i | 1 <= i < |fs| ensures fs[1..][i - 1] == fs[i] { }
      if k !in m && k in m' {
        assert fs[0].name == k;
        forall i | 0 <= i < |fs| && fs[i].name == k && (forall j | 0 <= j < i :: fs[j].name != k)
          ensures i == 0
        {
          assert fs[0].name == k;
        }
      }
      if k !in m' {
        assert fs[0].name != k;
        forall i | 0 <= i < |fs| && fs[i].name == k && (forall j | 0 <= j < i :: fs[j].name != k)
          ensures RegisterAll(m, fs)[k] == fs[i]
        {
          assert i > 0;
          assert fs[1..][i - 1] == fs[i];
          assert forall j | 0 <= j < i - 1 :: fs[1..][j] == fs[j + 1];
        }
      }
    }
  }

  /** The grouping `Help("")` prints: every registered command appears in the
      group named by its `group`, and nowhere else, and no group is empty. */
  ghost predicate IsGrouping(groups: map<string, map<string, FuncInfo>>, m: map<string, FuncInfo>) {
    && (forall k | k in m :: m[k].group in groups && k in groups[m[k].group] && groups[m[k].group][k] == m[k])
    && (forall g, k | g in groups && k in groups[g] :: k in m && m[k].group == g)
    && (forall g | g in groups :: groups[g] != map[])
  }

  /** The grouping is a function of the table: there is only one. */
  lemma GroupingUnique(a: map<string, map<string, FuncInfo>>, b: map<string, map<string, FuncInfo>>,
                       m: map<string, FuncInfo>)
    requires IsGrouping(a, m) && IsGrouping(b, m)
    ensures a == b
  {
    forall g | g in a ensures g in b && a[g] == b[g] {
      var k :| k in a[g];
      assert m[k].group == g;
      assert g in b;
      forall k' | k' in a[g] ensures k' in b[g] && a[g][k'] == b[g][k'] {
        assert m[k'].group == g;
      }
      forall k' | k' in b[g] ensures k' in a[g] {
        assert m[k'].group == g;
      }
    }
    forall g | g in b ensures g in a {
      var k :| k in b[g];
      assert m[k].group == g;
    }
  }

  /** Label of a parameter's necessity in the help page. */
  function NecessityLabel(necessity: bool): string {
    if necessity then "必填" else "可选"
  }

  /** The help line of one parameter: `    <name>  (type), label, desc`. */
  function ParamLine(p: Param): string {
    "    <" + p.name + ">  (" + p.typ + "), " + NecessityLabel(p.necessity) + ", " + p.desc
  }

  /** A page of help output. Map iteration order is unspecified in Go, so the
      overview is the grouping itself, not its printed order. */
  datatype HelpPage =
    | Overview(groups: map<string, map<string, FuncInfo>>)
    | Detail(name: string, help: string, usage: string, lines: seq<string>)
    | Unknown(name: string)

  /** A tab-completion item: a fixed word with its sub-items, or a dynamic list
      (the files of a directory, or the registered command names). */
  datatype Completion =
    | Item(word: string, children: seq<Completion>)
    | FilesIn(dir: string)
    | CommandNames

  /** The shell words that come first in the completer, each completing file names. */
  const ShellWords: seq<string> := ["python", "sh", "bash"]

  function ParamItem(p: Param): Completion {
    Item("<" + p.name + ">", [])
  }

  /** The completer entry of one command: its parameters, then files, then command names. */
  ghost predicate IsCommandItem(c: Completion, f: FuncInfo) {
    && c.Item?
    && |c.children| == |f.params| + 2
    && (forall i | 0 <= i < |f.params| :: c.children[i] == ParamItem(f.params[i]))
    && c.children[|f.params|] == FilesIn("./")
    && c.children[|f.params| + 1] == CommandNames
  }

  /** The commands the package registers on its own, in the order its files
      initialise (cmdline.go, command.go, interpreter.go): `help`, then `clear`,
      `exit` and `vim`, then the script runner `run`. */
  function PackageInit(): seq<FuncInfo> {
    [ FuncInfo("cmdline", "help", Native("help", 1), "显示帮助信息", "help <command>",
               [Param("command", "string", false, "指令名")]),
      FuncInfo("cmdline", "clear", Native("clear", 0), "清屏", "clear", []),
      FuncInfo("cmdline", "exit", Native("exit", 0), "退出", "exit", []),
      FuncInfo("cmdline", "vim", Native("vim", 1), "打开vim编辑器", "vim <filename>",
               [Param("filename", "string", true, "文件名")]),
      FuncInfo("cmdline", "run", ScriptRunner, "执行脚本文件", "run <filename>",
               [Param("filename", "string", true, "脚本文件名")]) ]
  }

  /** The table the package starts with holds exactly its five commands, each
      with its handler, and `run` is the script runner. */
  lemma PackageInitRegistered()
    ensures var r := RegisterAll(map[], PackageInit());
      && WellKeyed(r) && r.Keys == {"help", "clear", "exit", "vim", "run"}
      && r["help"].fn == Native("help", 1) && r["clear"].fn == Native("clear", 0)
      && r["exit"].fn == Native("exit", 0) && r["vim"].fn == Native("vim", 1)
      && r["run"].fn == ScriptRunner
  {
    var init := PackageInit();
    PackageInitNames();
    assert init == [init[0], init[1], init[2], init[3], init[4]];
    RegisterFive(map[], init[0], init[1], init[2], init[3], init[4]);
  }

  /** The names and handlers of the package's commands, in order. */
  lemma PackageInitNames()
    ensures |PackageInit()| == 5
    ensures PackageInit()[0].name == "help" && PackageInit()[1].name == "clear"
    ensures PackageInit()[2].name == "exit" && PackageInit()[3].name == "vim"
    ensures PackageInit()[4].name == "run"
    ensures PackageInit()[0].fn == Native("help", 1) && PackageInit()[1].fn == Native("clear", 0)
    ensures PackageInit()[2].fn == Native("exit", 0) && PackageInit()[3].fn == Native("vim", 1)
    ensures PackageInit()[4].fn == ScriptRunner
  {
  }

  /** Five registrations under distinct new names file each under its name. */
  lemma RegisterFive(m: map<string, FuncInfo>, f0: FuncInfo, f1: FuncInfo, f2: FuncInfo, f3: FuncInfo, f4: FuncInfo)
    requires f0.name !in m && f1.name !in m && f2.name !in m && f3.name !in m && f4.name !in m
    requires f0.name != f1.name && f0.name != f2.name && f0.name != f3.name && f0.name != f4.name
    requires f1.name != f2.name && f1.name != f3.name && f1.name != f4.name
    requires f2.name != f3.name && f2.name != f4.name && f3.name != f4.name
    ensures RegisterAll(m, [f0, f1, f2, f3, f4])
         == m[f0.name := f0][f1.name := f1][f2.name := f2][f3.name := f3][f4.name := f4]
  {
    var m1 := m[f0.name := f0];
    var m2 := m1[f1.name := f1];
    var m3 := m2[f2.name := f2];
    var m4 := m3[f3.name := f3];
    calc {
      RegisterAll(m, [f0, f1, f2, f3, f4]);
      { RegisterFresh(m, f0, [f1, f2, f3, f4]); }
      RegisterAll(m1, [f1, f2, f3, f4]);
      { RegisterFresh(m1, f1, [f2, f3, f4]); }
      RegisterAll(m2, [f2, f3, f4]);
      { RegisterFresh(m2, f2, [f3, f4]); }
      RegisterAll(m3, [f3, f4]);
      { RegisterFresh(m3, f3, [f4]); }
      RegisterAll(m4, [f4]);
      { RegisterFresh(m4, f4, []); }
      RegisterAll(m4[f4.name := f4], []);
    }
  }

  /** Registering a fresh name first adds it, then the rest follows. */
  lemma RegisterFresh(m: map<string, FuncInfo>, f: FuncInfo, rest: seq<FuncInfo>)
    requires f.name !in m
    ensures RegisterAll(m, [f] + rest) == RegisterAll(m[f.name := f], rest)
  {
    assert ([f] + rest)[1..] == rest;
  }

  /** Whatever is registered after the package's own commands, `run` stays the
      script runner and `help` stays the help command. */
  lemma PackageCommandsKept(fs: seq<FuncInfo>)
    ensures var t := RegisterAll(RegisterAll(map[], PackageInit()), fs);
      && "run" in t && t["run"].fn == ScriptRunner
      && "help" in t && t["help"].fn == Native("help", 1)
  {
    var m := RegisterAll(map[], PackageInit());
    PackageInitRegistered();
    FirstRegistrationWins(m, fs, "run");
    FirstRegistrationWins(m, fs, "help");
  }

  class CommandTable {
    /** funcMap */
    var funcs: map<string, FuncInfo>

    ghost predicate Valid()
      reads this
    {
      WellKeyed(funcs)
    }

    /** The package's initialisation: the `make` of an empty table, then the
        registrations of `help`, `clear`, `exit`, `vim` and `run`. */
    constructor ()
      ensures Valid() && funcs == RegisterAll(map[], PackageInit())
      ensures funcs.Keys == {"help", "clear", "exit", "vim", "run"}
      ensures funcs["run"].fn == ScriptRunner && funcs["help"].fn == Native("help", 1)
      ensures funcs["exit"].fn == Native("exit", 0)
    {
      PackageInitRegistered();
      funcs := RegisterAll(map[], PackageInit());
    }

    /** `Regist`: a name already present leaves the table as it is; a fresh name
        gets exactly the given metadata and no other entry changes. */
    method Regist(group: string, name: string, fn: Handler, help: string, usage: string, params: seq<Param>)
      requires Valid()
      modifies this
      ensures Valid()
      ensures funcs == Register(old(funcs), FuncInfo(group, name, fn, help, usage, params))
      ensures name in funcs
      ensures name in old(funcs) ==> funcs == old(funcs)
    {
      if name in funcs {
        return;
      }
      funcs := funcs[name := FuncInfo(group, name, fn, help, usage, params)];
    }

    /** `GetFunc`: the stored handler when the name is registered, an error otherwise. */
    function GetFunc(name: string): (r: Lookup)
      reads this
      ensures r.Found? <==> name in funcs
      ensures r.Found? ==> r.fn == funcs[name].fn
      ensures r.NotRegistered? ==> r.message == "func '" + name + "' not regist"
    {
      if name in funcs then Found(funcs[name].fn)
      else NotRegistered("func '" + name + "' not regist")
    }

    /** The grouping loop of `Help("")`. */
    method GroupCommands() returns (groups: map<string, map<string, FuncInfo>>)
      ensures IsGrouping(groups, funcs)
    {
      groups := map[];
      var rest := funcs.Keys;
      while rest != {}
        invariant rest <= funcs.Keys
        invariant forall k | k in funcs && k !in rest ::
          funcs[k].group in groups && k in groups[funcs[k].group] && groups[funcs[k].group][k] == funcs[k]
        invariant forall g, k | g in groups && k in groups[g] :: k in funcs && k !in rest && funcs[k].group == g
        invariant forall g | g in groups :: groups[g] != map[]
        decreases rest
      {
        var k :| k in rest;
        var f := funcs[k];
        if f.group in groups {
          groups := groups[f.group := groups[f.group][k := f]];
        } else {
          groups := groups[f.group := map[k := f]];
        }
        rest := rest - {k};
      }
    }

    /** The parameter loop of `Help(name)`: one line per parameter, in order. */
    static method DescribeParams(ps: seq<Param>) returns (lines: seq<string>)
      ensures |lines| == |ps|
      ensures forall i | 0 <= i < |ps| :: lines[i] == ParamLine(ps[i])
    {
      lines := [];
      for i := 0 to |ps|
        invariant |lines| == i
        invariant forall j | 0 <= j < i :: lines[j] == ParamLine(ps[j])
      {
        lines := lines + [ParamLine(ps[i])];
      }
    }

    /** `Help`: the grouped overview for "", a command's page when it is
        registered, and the "not registered" message otherwise. */
    method Help(name: string) returns (page: HelpPage)
      ensures name == "" ==> page.Overview? && IsGrouping(page.groups, funcs)
      ensures name != "" && name in funcs ==>
        && page.Detail?
        && page.name == funcs[name].name && page.help == funcs[name].help
        && page.usage == funcs[name].usage
        && |page.lines| == |funcs[name].params|
        && (forall i | 0 <= i < |page.lines| :: page.lines[i] == ParamLine(funcs[name].params[i]))
      ensures name != "" && name !in funcs ==> page == Unknown(name)
    {
      if name == "" {
        var groups := GroupCommands();
        return Overview(groups);
      }
      if name in funcs {
        var f := funcs[name];
        var lines := DescribeParams(f.params);
        return Detail(f.name, f.help, f.usage, lines);
      }
      return Unknown(name);
    }

    /** `listFuncs`: one name per registered command, each command once. */
    method ListFuncs() returns (names: seq<string>)
      requires Valid()
      ensures |names| == |funcs|
      ensures forall i | 0 <= i < |names| :: names[i] in funcs
      ensures forall i, j | 0 <= i < j < |names| :: names[i] != names[j]
      ensures forall k | k in funcs :: k in names
    {
      names := [];
      var rest := funcs.Keys;
      while rest != {}
        invariant rest <= funcs.Keys
        invariant |names| + |rest| == |funcs.Keys|
        invariant forall i | 0 <= i < |names| :: names[i] in funcs && names[i] !in rest
        invariant forall i, j | 0 <= i < j < |names| :: names[i] != names[j]
        invariant forall k | k in funcs && k !in rest :: k in names
        decreases rest
      {
        var k :| k in rest;
        names := names + [funcs[k].name];
        rest := rest - {k};
      }
    }

    /** The sub-items of one command in `GetCompleter`. */
    static method CommandItem(k: string, f: FuncInfo) returns (c: Completion)
      ensures c.Item? && c.word == k && IsCommandItem(c, f)
    {
      var sub: seq<Completion> := [];
      for i := 0 to |f.params|
        invariant |sub| == i
        invariant forall j | 0 <= j < i :: sub[j] == ParamItem(f.params[j])
      {
        sub := sub + [ParamItem(f.params[i])];
      }
      sub := sub + [FilesIn("./")];
      sub := sub + [CommandNames];
      c := Item(k, sub);
    }

    /** `GetCompleter`: the three shell words, then one entry per registered command. */
    method GetCompleter() returns (top: seq<Completion>)
      ensures |top| == |ShellWords| + |funcs|
      ensures forall i | 0 <= i < |ShellWords| :: top[i] == Item(ShellWords[i], [FilesIn("./")])
      ensures forall i | |ShellWords| <= i < |top| ::
        top[i].Item? && top[i].word in funcs && IsCommandItem(top[i], funcs[top[i].word])
      ensures forall i, j | |ShellWords| <= i < j < |top| :: top[i].word != top[j].word
      ensures forall k | k in funcs :: exists i | |ShellWords| <= i < |top| :: top[i].word == k
    {
      top := [];
      for i := 0 to |ShellWords|
        invariant |top| == i
        invariant forall j | 0 <= j < i :: top[j] == Item(ShellWords[j], [FilesIn("./")])
      {
        top := top + [Item(ShellWords[i], [FilesIn("./")])];
      }
      var n := |ShellWords|;
      var rest := funcs.Keys;
      while rest != {}
        invariant rest <= funcs.Keys
        invariant |top| - n + |rest| == |funcs.Keys| && |top| >= n
        invariant forall j | 0 <= j < n :: top[j] == Item(ShellWords[j], [FilesIn("./")])
        invariant forall i | n <= i < |top| ::
          top[i].Item? && top[i].word in funcs && top[i].word !in rest && IsCommandItem(top[i], funcs[top[i].word])
        invariant forall i, j | n <= i < j < |top| :: top[i].word != top[j].word
        invariant forall k | k in funcs && k !in rest :: exists i | n <= i < |top| :: top[i].word == k
        decreases rest
      {
        var k :| k in rest;
        var c := CommandItem(k, funcs[k]);
        ghost var before := top;
        top := top + [c];
        assert top[|before|].word == k;
        assert forall i | 0 <= i < |before| :: top[i] == before[i];
        rest := rest - {k};
      }
    }
  }
}
