/** The mssh built-in commands: a pool of SSH clients keyed by host, filled by
    `connect` and emptied by `release`; a barrier counting the units of work
    started in the background, waited for by `done`; and the file transfers
    `put` and `get`, one unit per connected host, with their path arithmetic.
    The network is not modelled: each unit is given the outcome of its SSH calls. */
module Pool {
  import opened GoStrings
  import opened GoPath
  import opened Registry

  /** What the model keeps of an `*ssh.Client`: the login it was made with, the
      address it dialled and its connect timeout in seconds. */
  datatype Handle = Handle(user: string, password: string, addr: string, timeout: int)

  /** A pool entry: the client and the home directory the host reported. */
  datatype Client = Client(cli: Handle, homePath: string)

  /** The SSH call of a unit that failed. */
  datatype Stage = Dial | NewSession | Pwd | Copy

  /** What the network did for one unit: every call answered (with the output of
      `pwd` for a connect), or the first call that failed. */
  datatype Outcome = Answered(output: string) | Broke(stage: Stage)

  /** A unit of background work, with the values it captured when it was started. */
  datatype Task =
    | ConnectTask(user: string, password: string, host: string, port: string, timeout: string)
    | PutTask(host: string, client: Client, file: string, dstDir: string)
    | GetTask(host: string, client: Client, file: string)
  {
    function Host(): string {
      match this
      case ConnectTask(_, _, h, _, _) => h
      case PutTask(h, _, _, _) => h
      case GetTask(h, _, _) => h
    }
  }

  /** What a unit logs when it finishes. */
  datatype Report =
    | AlreadyConnected(host: string)
    | BadTimeout(host: string, timeout: string)
    | ConnectFailed(host: string, stage: Stage)
    | Connected(host: string)
    | SessionFailed(host: string)
    | CopyFailed(host: string, file: string)
    | PutDone(host: string, source: string, dest: string)
    | GetDone(host: string, file: string, localPath: string)
    | Released(host: string, closeFailed: bool)
    | NotConnected(host: string)

  /** A finished unit: the pool it leaves and its report. */
  datatype Completed = Completed(clients: map<string, Client>, report: Report)

  /** Finished units, in order: the pool they leave and their reports. */
  datatype Drained = Drained(clients: map<string, Client>, reports: seq<Report>)

  function OrDefault(s: string, default: string): string {
    if s == "" then default else s
  }

  /** The port dialled: 22 unless one is given. */
  function DialPort(port: string): string { OrDefault(port, "22") }

  /** The timeout text converted: 5 unless one is given. */
  function TimeoutText(timeout: string): string { OrDefault(timeout, "5") }

  /** The connect unit. A host already in the pool is left alone; otherwise the
      timeout must parse as an integer and dial, session and `pwd` must all succeed
      before the host is added, with the trimmed output of `pwd` as its home.
      A connect has no copy stage; an outcome naming it is reported as a failed
      connect at that stage, like any other failed stage. */
  function ConnectUnit(clients: map<string, Client>, user: string, password: string, host: string,
                       port: string, timeout: string, net: Outcome): (r: Completed)
    ensures host in clients ==> r == Completed(clients, AlreadyConnected(host))
    ensures host !in clients && Atoi(TimeoutText(timeout)).None? ==>
      r == Completed(clients, BadTimeout(host, TimeoutText(timeout)))
    ensures host !in clients && Atoi(TimeoutText(timeout)).Some? && net.Broke? ==>
      r == Completed(clients, ConnectFailed(host, net.stage))
    ensures r.report.Connected? <==> host !in clients && Atoi(TimeoutText(timeout)).Some? && net.Answered?
    ensures !r.report.Connected? ==> r.clients == clients
    ensures r.report.Connected? ==> r.clients == clients[host := Client(Handle(user, password,
      host + ":" + DialPort(port), Atoi(TimeoutText(timeout)).value), TrimSpace(net.output))]
  {
    if host in clients then Completed(clients, AlreadyConnected(host))
    else
      var t := Atoi(TimeoutText(timeout));
      if t.None? then Completed(clients, BadTimeout(host, TimeoutText(timeout)))
      else match net
        case Broke(stage) => Completed(clients, ConnectFailed(host, stage))
        case Answered(output) =>
          var cli := Handle(user, password, host + ":" + DialPort(port), t.value);
          Completed(clients[host := Client(cli, TrimSpace(output))], Connected(host))
  }

  /** With no port and no timeout given, the host is dialled on port 22 with a
      five-second timeout. */
  lemma ConnectDefaults(clients: map<string, Client>, user: string, password: string, host: string,
                        port: string, timeout: string, out: string)
    requires host !in clients && port == "" && timeout == ""
    ensures ConnectUnit(clients, user, password, host, port, timeout, Answered(out))
         == Completed(clients[host := Client(Handle(user, password, host + ":22", 5), TrimSpace(out))], Connected(host))
  {
    assert TimeoutText(timeout) == Decimal(5);
    AtoiDecimal(5);
    assert host + ":" + DialPort(port) == host + ":22";
  }

  /** A timeout with anything but a digit after its first character adds
      nothing, whatever the network does. */
  lemma ConnectBadTimeout(clients: map<string, Client>, user: string, password: string, host: string,
                          port: string, timeout: string, net: Outcome)
    requires host !in clients
    requires exists i | 1 <= i < |timeout| :: !IsDigit(timeout[i])
    ensures ConnectUnit(clients, user, password, host, port, timeout, net)
         == Completed(clients, BadTimeout(host, timeout))
  {
    assert TimeoutText(timeout) == timeout;
  }

  /** The remote path a file is put to: its base name under the given directory,
      or under the host's home when none is given. */
  function PutDestination(client: Client, file: string, dstDir: string): string {
    Join([if dstDir == "" then client.homePath else dstDir, Base(file)])
  }

  /** The local file a put reads: every `@` stands for the download directory of
      the host, so that what `get` fetched can be sent back. */
  function PutSource(host: string, file: string): string {
    ReplaceAll(file, '@', "download/" + host)
  }

  /** The local path a get writes: the file's base name under `download/<host>`. */
  function GetLocalPath(host: string, file: string): string {
    Join([Join([".", "download", host]), Base(file)])
  }

  /** `join(".", "download", host)` is `download/<host>` for a plain host name. */
  lemma DownloadDir(host: string)
    requires IsName(host)
    ensures Join([".", "download", host]) == "download/" + host
  {
    JoinDotNames("download", host);
  }

  /** A get of a file with a plain base name writes `download/<host>/<base>`. */
  lemma GetLocalPathShape(host: string, file: string)
    requires IsName(host) && IsName(Base(file))
    ensures GetLocalPath(host, file) == "download/" + host + "/" + Base(file)
  {
    var d := "download/" + host;
    DownloadDir(host);
    assert GetLocalPath(host, file) == Join([d, Base(file)]);
    JoinDirName(d, Base(file));
    CleanDownloadDir(host);
  }

  lemma CleanDownloadDir(host: string)
    requires IsName(host)
    ensures Clean("download/" + host) == "download/" + host
  {
    assert "download/" + host == "download" + "/" + host;
    CleanName("download");
    CleanAppendName("download", host);
  }

  /** A get of `<dir>/<name>` writes `download/<host>/<name>`: `/etc/hostname`
      fetched from `h1` lands in `download/h1/hostname`. */
  lemma GetLocalPathUnder(host: string, dir: string, name: string)
    requires IsName(host) && IsName(name)
    ensures GetLocalPath(host, dir + "/" + name) == "download/" + host + "/" + name
  {
    BaseOfSuffix(dir, name);
    GetLocalPathShape(host, dir + "/" + name);
  }

  /** The remote file keeps the local file's base name, under the chosen
      directory cleaned: the given one, else the host's home. */
  lemma PutDestinationShape(client: Client, file: string, dstDir: string)
    requires IsName(Base(file))
    ensures var dir := if dstDir == "" then client.homePath else dstDir;
      && (dir != "" ==> PutDestination(client, file, dstDir) == Attach(Clean(dir), Base(file)))
      && (dir == "" ==> PutDestination(client, file, dstDir) == Base(file))
      && Base(PutDestination(client, file, dstDir)) == Base(file)
  {
    JoinDirName(if dstDir == "" then client.homePath else dstDir, Base(file));
  }

  /** A local path without `@` is read as it stands. */
  lemma PutSourceWithoutAt(host: string, file: string)
    requires '@' !in file
    ensures PutSource(host, file) == file
  {
  }

  /** `@/<name>` is read from the host's download directory. */
  lemma PutSourceOfAt(host: string, name: string)
    requires '@' !in name
    ensures PutSource(host, "@/" + name) == "download/" + host + "/" + name
  {
    assert "@/" + name == "@" + ("/" + name);
    ReplaceAllAppend("@", "/" + name, '@', "download/" + host);
    assert '@' !in "/" + name;
    assert ReplaceAll("@", '@', "download/" + host) == "download/" + host + ReplaceAll("", '@', "download/" + host);
  }

  /** What a get fetched can be put back as `@/<base>`: the put reads the very file
      the get wrote, and writes it under the same base name. */
  lemma GetThenPutBack(host: string, client: Client, file: string, dstDir: string)
    requires IsName(host) && IsName(Base(file)) && '@' !in Base(file)
    ensures PutSource(host, "@/" + Base(file)) == GetLocalPath(host, file)
    ensures Base(PutDestination(client, "@/" + Base(file), dstDir)) == Base(file)
  {
    GetLocalPathShape(host, file);
    PutSourceOfAt(host, Base(file));
    PutBackName(client, Base(file), dstDir);
  }

  lemma PutBackName(client: Client, name: string, dstDir: string)
    requires IsName(name)
    ensures Base(PutDestination(client, "@/" + name, dstDir)) == name
  {
    assert "@/" + name == "@" + "/" + name;
    BaseOfSuffix("@", name);
    PutDestinationShape(client, "@/" + name, dstDir);
  }

  /** The put unit as the corrected source would have it: a failed session or a
      failed copy is reported, and success only after the copy went through.
      A transfer unit has no dial or pwd stage; an outcome naming one of those
      is read as a failed copy. */
  function PutUnit(host: string, client: Client, file: string, dstDir: string, net: Outcome): (r: Report)
    ensures r.PutDone? <==> net.Answered?
    ensures r.PutDone? ==> r == PutDone(host, PutSource(host, file), PutDestination(client, file, dstDir))
    ensures net == Broke(NewSession) ==> r == SessionFailed(host)
    ensures net.Broke? && net.stage != NewSession ==> r == CopyFailed(host, PutSource(host, file))
  {
    match net
    case Broke(NewSession) => SessionFailed(host)
    case Broke(_) => CopyFailed(host, PutSource(host, file))
    case Answered(_) => PutDone(host, PutSource(host, file), PutDestination(client, file, dstDir))
  }

  /** The put unit as written: the result of the copy is dropped and the error
      tested afterwards is the one from opening the session, which is nil by then,
      so everything but a failed session is logged as a success. */
  function PutUnitAsWritten(host: string, client: Client, file: string, dstDir: string, net: Outcome): (r: Report)
    ensures r.PutDone? <==> net != Broke(NewSession)
    ensures !r.PutDone? ==> r == SessionFailed(host)
  {
    var sessionFailed := net == Broke(NewSession);
    if sessionFailed then SessionFailed(host)
    else
      var err := sessionFailed;
      if err then CopyFailed(host, PutSource(host, file))
      else PutDone(host, PutSource(host, file), PutDestination(client, file, dstDir))
  }

  /** A copy that fails is reported as a success by the put unit as written, and
      as a failure by the corrected one. */
  lemma PutCopyFailureHidden(host: string, client: Client, file: string, dstDir: string)
    ensures PutUnitAsWritten(host, client, file, dstDir, Broke(Copy)).PutDone?
    ensures PutUnit(host, client, file, dstDir, Broke(Copy)) == CopyFailed(host, PutSource(host, file))
  {
  }

  /** The two put units agree whenever the copy does not fail. */
  lemma PutUnitsAgreeWithoutCopyFailure(host: string, client: Client, file: string, dstDir: string, net: Outcome)
    requires net.Answered? || net.stage == NewSession
    ensures PutUnitAsWritten(host, client, file, dstDir, net) == PutUnit(host, client, file, dstDir, net)
  {
  }

  /** The get unit: a failed session or copy is reported, otherwise where the file went.
      As for put, an outcome naming the dial or pwd stage is read as a failed copy. */
  function GetUnit(host: string, file: string, net: Outcome): (r: Report)
    ensures r.GetDone? <==> net.Answered?
    ensures r.GetDone? ==> r == GetDone(host, file, GetLocalPath(host, file))
    ensures net == Broke(NewSession) ==> r == SessionFailed(host)
    ensures net.Broke? && net.stage != NewSession ==> r == CopyFailed(host, file)
  {
    match net
    case Broke(NewSession) => SessionFailed(host)
    case Broke(_) => CopyFailed(host, file)
    case Answered(_) => GetDone(host, file, GetLocalPath(host, file))
  }

  /** One unit run to completion against the pool as it is when the unit runs. */
  function RunTask(clients: map<string, Client>, t: Task, net: Outcome): (r: Completed)
    ensures !t.ConnectTask? ==> r.clients == clients
    ensures forall h | h in clients :: h in r.clients && r.clients[h] == clients[h]
    ensures r.clients.Keys <= clients.Keys + {t.Host()}
  {
    match t
    case ConnectTask(user, password, host, port, timeout) =>
      ConnectUnit(clients, user, password, host, port, timeout, net)
    case PutTask(host, client, file, dstDir) => Completed(clients, PutUnit(host, client, file, dstDir, net))
    case GetTask(host, _, file) => Completed(clients, GetUnit(host, file, net))
  }

  /** The outstanding units finished one after the other, in the order they were
      started, each with its own network outcome. */
  function Drain(clients: map<string, Client>, tasks: seq<Task>, nets: seq<Outcome>): (r: Drained)
    requires |nets| == |tasks|
    ensures |r.reports| == |tasks|
    decreases |tasks|
  {
    if tasks == [] then Drained(clients, [])
    else
      var one := RunTask(clients, tasks[0], nets[0]);
      var rest := Drain(one.clients, tasks[1..], nets[1..]);
      Drained(rest.clients, [one.report] + rest.reports)
  }

  /** Finishing units never drops or changes a client, and a host joins the pool
      only through a connect unit for it. */
  lemma {:induction false} DrainGrowsOnlyByConnect(clients: map<string, Client>, tasks: seq<Task>, nets: seq<Outcome>)
    requires |nets| == |tasks|
    ensures forall h | h in clients :: h in Drain(clients, tasks, nets).clients
                                    && Drain(clients, tasks, nets).clients[h] == clients[h]
    ensures forall h | h in Drain(clients, tasks, nets).clients && h !in clients ::
      exists i | 0 <= i < |tasks| :: tasks[i].ConnectTask? && tasks[i].host == h
    decreases |tasks|
  {
    if tasks != [] {
      var one := RunTask(clients, tasks[0], nets[0]);
      DrainGrowsOnlyByConnect(one.clients, tasks[1..], nets[1..]);
      var r := Drain(clients, tasks, nets);
      assert r.clients == Drain(one.clients, tasks[1..], nets[1..]).clients;
      forall h | h in r.clients && h !in clients
        ensures exists i | 0 <= i < |tasks| :: tasks[i].ConnectTask? && tasks[i].host == h
      {
        if h in one.clients {
          assert tasks[0].ConnectTask? && tasks[0].host == h;
        } else {
          var i :| 0 <= i < |tasks[1..]| && tasks[1..][i].ConnectTask? && tasks[1..][i].host == h;
          assert tasks[i + 1] == tasks[1..][i];
        }
      }
    }
  }

  /** Without connect units the pool is left as it was. */
  lemma {:induction false} DrainTransfersKeepPool(clients: map<string, Client>, tasks: seq<Task>, nets: seq<Outcome>)
    requires |nets| == |tasks|
    requires forall i | 0 <= i < |tasks| :: !tasks[i].ConnectTask?
    ensures Drain(clients, tasks, nets).clients == clients
    decreases |tasks|
  {
    if tasks != [] {
      assert !tasks[0].ConnectTask?;
      forall i | 0 <= i < |tasks[1..]| ensures !tasks[1..][i].ConnectTask? {
        assert tasks[1..][i] == tasks[i + 1];
      }
      DrainTransfersKeepPool(clients, tasks[1..], nets[1..]);
    }
  }

  /** Connecting to the same host twice: when the first unit added the host, the
      second finds it there and changes nothing. */
  lemma ConnectTwice(clients: map<string, Client>, a: Task, b: Task, n1: Outcome, n2: Outcome)
    requires a.ConnectTask? && b.ConnectTask? && a.host == b.host
    requires a.host in RunTask(clients, a, n1).clients
    ensures var first := RunTask(clients, a, n1);
      Drain(clients, [a, b], [n1, n2]) == Drained(first.clients, [first.report, AlreadyConnected(a.host)])
  {
    var first := RunTask(clients, a, n1);
    ConnectPresent(first.clients, b, n2);
    DrainFirst(clients, [a, b], [n1, n2]);
    assert [a, b][1..] == [b] && [n1, n2][1..] == [n2];
    DrainSingle(first.clients, b, n2);
  }

  lemma ConnectPresent(clients: map<string, Client>, t: Task, net: Outcome)
    requires t.ConnectTask? && t.host in clients
    ensures RunTask(clients, t, net) == Completed(clients, AlreadyConnected(t.host))
  {
  }

  lemma DrainSingle(clients: map<string, Client>, t: Task, net: Outcome)
    ensures Drain(clients, [t], [net]) == Drained(RunTask(clients, t, net).clients, [RunTask(clients, t, net).report])
  {
    assert [t][1..] == [] && [net][1..] == [];
  }

  /** The drain of the units from position `i` on starts with unit `i`. */
  lemma DrainAt(clients: map<string, Client>, tasks: seq<Task>, nets: seq<Outcome>, i: nat)
    requires |nets| == |tasks| && i < |tasks|
    ensures var one := RunTask(clients, tasks[i], nets[i]);
      && Drain(clients, tasks[i..], nets[i..]).clients == Drain(one.clients, tasks[i + 1..], nets[i + 1..]).clients
      && Drain(clients, tasks[i..], nets[i..]).reports == [one.report] + Drain(one.clients, tasks[i + 1..], nets[i + 1..]).reports
  {
    assert tasks[i..][0] == tasks[i] && tasks[i..][1..] == tasks[i + 1..];
    assert nets[i..][0] == nets[i] && nets[i..][1..] == nets[i + 1..];
  }

  lemma DrainFirst(clients: map<string, Client>, tasks: seq<Task>, nets: seq<Outcome>)
    requires |nets| == |tasks| && tasks != []
    ensures var one := RunTask(clients, tasks[0], nets[0]);
      && Drain(clients, tasks, nets).clients == Drain(one.clients, tasks[1..], nets[1..]).clients
      && Drain(clients, tasks, nets).reports == [one.report] + Drain(one.clients, tasks[1..], nets[1..]).reports
  {
  }

  /** The registrations of the built-in commands, in the order they are made. */
  function Builtins(): seq<FuncInfo> {
    [ FuncInfo("inner", "done", Native("done", 0), "等待批量任务完成", "done", []),
      FuncInfo("file", "put", Native("put", 2), "批量上传文件", "put <filePath> <remoteDir>",
               [Param("filePath", "string", true, "本地文件路径"),
                Param("remoteDir", "string", false, "远程目录, 默认用户home目录, 如: /root/")]),
      FuncInfo("file", "get", Native("get", 1),
               "批量下载文件, 本操作会将文件下载到执行目录下的download目录下服务器地址对应目录中", "get <remotePath>",
               [Param("remotePath", "string", true, "远程文件路径")]),
      FuncInfo("conn", "check", Native("check", 0), "检查连接状态", "check", []),
      FuncInfo("conn", "connect", Native("connect", 5), "连接远程主机",
               "connect <username> <password> <host> <port> <timeout>",
               [Param("username", "string", true, "用户名"),
                Param("password", "string", true, "密码"),
                Param("host", "string", true, "服务器地址"),
                Param("port", "int", false, "sshd服务端口, 默认 22"),
                Param("timeout", "int", false, "连接超时时间(单位 s), 默认 5 ")]),
      FuncInfo("conn", "release", Native("release", 1), "释放远程连接", "release <host>",
               [Param("host", "string", true, "服务器地址")]) ]
  }

  /** The names the built-ins are registered under, in order. */
  lemma BuiltinNames()
    ensures |Builtins()| == 6
    ensures Builtins()[0].name == "done" && Builtins()[1].name == "put" && Builtins()[2].name == "get"
    ensures Builtins()[3].name == "check" && Builtins()[4].name == "connect" && Builtins()[5].name == "release"
  {
  }

  /** Registering names that are distinct and new files each under its name and
      keeps every old entry. */
  lemma FreshRegistrations(m: map<string, FuncInfo>, fs: seq<FuncInfo>)
    requires forall i | 0 <= i < |fs| :: fs[i].name !in m
    requires forall i, j | 0 <= i < j < |fs| :: fs[i].name != fs[j].name
    ensures forall k :: k in RegisterAll(m, fs) <==> k in m || exists i | 0 <= i < |fs| :: fs[i].name == k
    ensures forall k | k in m :: RegisterAll(m, fs)[k] == m[k]
    ensures forall i | 0 <= i < |fs| :: RegisterAll(m, fs)[fs[i].name] == fs[i]
  {
    forall k ensures k in RegisterAll(m, fs) <==> k in m || exists i | 0 <= i < |fs| :: fs[i].name == k {
      FirstRegistrationWins(m, fs, k);
    }
    forall k | k in m ensures RegisterAll(m, fs)[k] == m[k] {
      FirstRegistrationWins(m, fs, k);
    }
    forall i | 0 <= i < |fs| ensures RegisterAll(m, fs)[fs[i].name] == fs[i] {
      FirstRegistrationWins(m, fs, fs[i].name);
    }
  }

  /** Registering the built-ins into a table without them files each under its
      name with its declared arity, and keeps what was there (such as `run`). */
  lemma BuiltinsRegistered(m: map<string, FuncInfo>)
    requires forall k | k in m :: k !in {"done", "put", "get", "check", "connect", "release"}
    ensures var r := RegisterAll(m, Builtins());
      && r.Keys == m.Keys + {"done", "put", "get", "check", "connect", "release"}
      && (forall k | k in m :: r[k] == m[k])
      && r["done"].fn == Native("done", 0) && r["put"].fn == Native("put", 2)
      && r["get"].fn == Native("get", 1) && r["check"].fn == Native("check", 0)
      && r["connect"].fn == Native("connect", 5) && r["release"].fn == Native("release", 1)
  {
    BuiltinsFresh(m);
    BuiltinsDistinct();
    var bs := Builtins();
    BuiltinNames();
    FreshRegistrations(m, bs);
    BuiltinKeys(m, bs);
    var r := RegisterAll(m, bs);
    assert r[bs[0].name] == bs[0];
    assert r[bs[1].name] == bs[1];
    assert r[bs[2].name] == bs[2];
    assert r[bs[3].name] == bs[3];
    assert r[bs[4].name] == bs[4];
    assert r[bs[5].name] == bs[5];
  }

  /** The table the program runs with: the package's own five commands, then
      the six built-ins; `run` stays the script runner. */
  lemma ProgramTable()
    ensures var t := RegisterAll(RegisterAll(map[], PackageInit()), Builtins());
      && t.Keys == {"help", "clear", "exit", "vim", "run", "done", "put", "get", "check", "connect", "release"}
      && t["run"].fn == ScriptRunner && t["help"].fn == Native("help", 1)
      && t["put"].fn == Native("put", 2) && t["connect"].fn == Native("connect", 5)
  {
    PackageInitRegistered();
    BuiltinsOverPackage(RegisterAll(map[], PackageInit()));
  }

  lemma BuiltinsOverPackage(m: map<string, FuncInfo>)
    requires m.Keys == {"help", "clear", "exit", "vim", "run"}
    requires m["run"].fn == ScriptRunner && m["help"].fn == Native("help", 1)
    ensures var t := RegisterAll(m, Builtins());
      && t.Keys == {"help", "clear", "exit", "vim", "run", "done", "put", "get", "check", "connect", "release"}
      && t["run"].fn == ScriptRunner && t["help"].fn == Native("help", 1)
      && t["put"].fn == Native("put", 2) && t["connect"].fn == Native("connect", 5)
  {
    BuiltinsRegistered(m);
  }

  lemma BuiltinsFresh(m: map<string, FuncInfo>)
    requires forall k | k in m :: k !in {"done", "put", "get", "check", "connect", "release"}
    ensures forall i | 0 <= i < |Builtins()| :: Builtins()[i].name !in m
  {
    BuiltinNames();
  }

  lemma BuiltinsDistinct()
    ensures forall i, j | 0 <= i < j < |Builtins()| :: Builtins()[i].name != Builtins()[j].name
  {
    BuiltinNames();
  }

  lemma BuiltinKeys(m: map<string, FuncInfo>, bs: seq<FuncInfo>)
    requires |bs| == 6 && bs[0].name == "done" && bs[1].name == "put" && bs[2].name == "get"
    requires bs[3].name == "check" && bs[4].name == "connect" && bs[5].name == "release"
    requires forall k :: k in RegisterAll(m, bs) <==> k in m || exists i | 0 <= i < |bs| :: bs[i].name == k
    ensures RegisterAll(m, bs).Keys == m.Keys + {"done", "put", "get", "check", "connect", "release"}
  {
    var r := RegisterAll(m, bs);
    forall k ensures k in r <==> k in m || k in {"done", "put", "get", "check", "connect", "release"} {
      if k == "done" { assert bs[0].name == k; }
      else if k == "put" { assert bs[1].name == k; }
      else if k == "get" { assert bs[2].name == k; }
      else if k == "check" { assert bs[3].name == k; }
      else if k == "connect" { assert bs[4].name == k; }
      else if k == "release" { assert bs[5].name == k; }
    }
  }

  /** The units `put` or `get` starts: one per host in the pool, each holding that
      host's client. */
  ghost predicate OnePerHost(units: seq<Task>, pool: map<string, Client>)
  {
    && |units| == |pool|
    && (forall i | 0 <= i < |units| :: units[i].Host() in pool && !units[i].ConnectTask?
                                      && units[i].client == pool[units[i].Host()])
    && (forall i, j | 0 <= i < j < |units| :: units[i].Host() != units[j].Host())
    && (forall h | h in pool :: exists i | 0 <= i < |units| :: units[i].Host() == h)
  }

  /** The unit `put` (or `get`) starts for one host of the pool. */
  function UnitFor(host: string, pool: map<string, Client>, file: string, dstDir: string, isPut: bool): (t: Task)
    requires host in pool
    ensures t.Host() == host && !t.ConnectTask? && t.client == pool[host]
    ensures t.PutTask? <==> isPut
  {
    if isPut then PutTask(host, pool[host], file, dstDir) else GetTask(host, pool[host], file)
  }

  /** Halfway through the fan-out: the hosts not `left` have exactly one unit each. */
  ghost predicate Spread(units: seq<Task>, pool: map<string, Client>, left: set<string>,
                         file: string, dstDir: string, isPut: bool)
  {
    && left <= pool.Keys
    && (forall i | 0 <= i < |units| :: units[i].Host() in pool && units[i].Host() !in left
                                      && units[i] == UnitFor(units[i].Host(), pool, file, dstDir, isPut))
    && (forall i, j | 0 <= i < j < |units| :: units[i].Host() != units[j].Host())
    && (forall h | h in pool && h !in left :: exists i | 0 <= i < |units| :: units[i].Host() == h)
  }

  lemma SpreadStep(units: seq<Task>, pool: map<string, Client>, left: set<string>, host: string,
                   file: string, dstDir: string, isPut: bool)
    requires Spread(units, pool, left, file, dstDir, isPut) && host in left
    ensures Spread(units + [UnitFor(host, pool, file, dstDir, isPut)], pool, left - {host}, file, dstDir, isPut)
  {
    var after := units + [UnitFor(host, pool, file, dstDir, isPut)];
    assert forall i | 0 <= i < |units| :: after[i] == units[i];
    forall h | h in pool && h !in left - {host} ensures exists i | 0 <= i < |after| :: after[i].Host() == h {
      if h == host {
        assert after[|units|].Host() == h;
      } else {
        var i :| 0 <= i < |units| && units[i].Host() == h;
        assert after[i].Host() == h;
      }
    }
  }

  lemma SpreadDone(units: seq<Task>, pool: map<string, Client>, file: string, dstDir: string, isPut: bool)
    requires Spread(units, pool, {}, file, dstDir, isPut) && |units| == |pool|
    ensures OnePerHost(units, pool)
  {
  }

  class ConnPool {
    /** cliMap */
    var clients: map<string, Client>
    /** The units started and not yet finished, oldest first. */
    var pending: seq<Task>
    /** The WaitGroup counter. */
    var outstanding: nat
    /** The reports of the finished units, oldest first. */
    var log: seq<Report>

    /** The counter counts the started units that have not finished. */
    ghost predicate Valid()
      reads this
    {
      outstanding == |pending|
    }

    constructor ()
      ensures Valid() && clients == map[] && pending == [] && outstanding == 0 && log == []
    {
      clients := map[];
      pending := [];
      outstanding := 0;
      log := [];
    }

    /** `launch`: one more unit is outstanding. */
    method Launch(t: Task)
      requires Valid()
      modifies this
      ensures Valid()
      ensures pending == old(pending) + [t] && outstanding == old(outstanding) + 1
      ensures clients == old(clients) && log == old(log)
    {
      pending := pending + [t];
      outstanding := outstanding + 1;
    }

    /** `Done`: returns when every outstanding unit has finished; the units finish
        in the order they were started, each with its own network outcome. */
    method Done(nets: seq<Outcome>)
      requires Valid() && |nets| == |pending|
      modifies this
      ensures Valid() && outstanding == 0 && pending == []
      ensures var d := Drain(old(clients), old(pending), nets);
        clients == d.clients && log == old(log) + d.reports
    {
      ghost var target := Drain(clients, pending, nets);
      var all := pending;
      var pool := clients;
      var reports: seq<Report> := [];
      var i := 0;
      while outstanding > 0
        invariant 0 <= i <= |all| && outstanding == |all| - i
        invariant log == old(log)
        invariant Drain(pool, all[i..], nets[i..]).clients == target.clients
        invariant reports + Drain(pool, all[i..], nets[i..]).reports == target.reports
        decreases outstanding
      {
        var done := RunTask(pool, all[i], nets[i]);
        DrainAt(pool, all, nets, i);
        ghost var rest := Drain(done.clients, all[i + 1..], nets[i + 1..]);
        assert reports + [done.report] + rest.reports == reports + ([done.report] + rest.reports);
        pool := done.clients;
        reports := reports + [done.report];
        outstanding := outstanding - 1;
        i := i + 1;
      }
      assert all[i..] == [] && nets[i..] == [];
      assert Drain(pool, all[i..], nets[i..]) == Drained(pool, []);
      assert reports + [] == reports;
      clients := pool;
      log := log + reports;
      pending := [];
    }

    /** `Connect`: the unit is started; it runs, and checks the pool, when waited for. */
    method Connect(user: string, password: string, host: string, port: string, timeout: string)
      requires Valid()
      modifies this
      ensures Valid()
      ensures pending == old(pending) + [ConnectTask(user, password, host, port, timeout)]
      ensures clients == old(clients) && log == old(log)
    {
      Launch(ConnectTask(user, password, host, port, timeout));
    }

    /** `Release`: the host leaves the pool whether or not closing its client failed. */
    method Release(host: string, closeFails: bool)
      modifies this
      ensures clients == old(clients) - {host}
      ensures host !in clients
      ensures log == old(log) + [if host in old(clients) then Released(host, closeFails) else NotConnected(host)]
      ensures pending == old(pending) && outstanding == old(outstanding)
    {
      if host in clients {
        clients := clients - {host};
        log := log + [Released(host, closeFails)];
        return;
      }
      log := log + [NotConnected(host)];
    }

    /** Starts one unit per host, in some order of the hosts. */
    method FanOut(file: string, dstDir: string, isPut: bool) returns (units: seq<Task>)
      requires Valid()
      modifies this
      ensures Valid() && OnePerHost(units, clients)
      ensures forall i | 0 <= i < |units| :: units[i] == UnitFor(units[i].Host(), clients, file, dstDir, isPut)
      ensures pending == old(pending) + units && outstanding == old(outstanding) + |units|
      ensures clients == old(clients) && log == old(log)
    {
      units := [];
      var left := clients.Keys;
      while left != {}
        invariant Valid() && clients == old(clients) && log == old(log)
        invariant pending == old(pending) + units
        invariant |units| + |left| == |clients|
        invariant Spread(units, clients, left, file, dstDir, isPut)
        decreases |left|
      {
        var host :| host in left;
        var t := UnitFor(host, clients, file, dstDir, isPut);
        SpreadStep(units, clients, left, host, file, dstDir, isPut);
        Launch(t);
        units := units + [t];
        left := left - {host};
      }
      SpreadDone(units, clients, file, dstDir, isPut);
    }

    /** `Put`: one upload per connected host, then wait for every outstanding unit. */
    method Put(file: string, dstDir: string, nets: seq<Outcome>) returns (units: seq<Task>)
      requires Valid() && |nets| == |pending| + |clients|
      modifies this
      ensures OnePerHost(units, old(clients))
      ensures forall i | 0 <= i < |units| ::
        units[i] == PutTask(units[i].Host(), old(clients)[units[i].Host()], file, dstDir)
      ensures Valid() && outstanding == 0 && pending == []
      ensures var d := Drain(old(clients), old(pending) + units, nets);
        clients == d.clients && log == old(log) + d.reports
    {
      units := FanOut(file, dstDir, true);
      Done(nets);
    }

    /** `Get`: one download per connected host, then wait for every outstanding unit. */
    method Get(file: string, nets: seq<Outcome>) returns (units: seq<Task>)
      requires Valid() && |nets| == |pending| + |clients|
      modifies this
      ensures OnePerHost(units, old(clients))
      ensures forall i | 0 <= i < |units| ::
        units[i] == GetTask(units[i].Host(), old(clients)[units[i].Host()], file)
      ensures Valid() && outstanding == 0 && pending == []
      ensures var d := Drain(old(clients), old(pending) + units, nets);
        clients == d.clients && log == old(log) + d.reports
    {
      units := FanOut(file, "", false);
      Done(nets);
    }
  }
}
