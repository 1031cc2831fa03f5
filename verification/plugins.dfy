/** The plugin manager (automation-engine/src/plugins/plugin_manager.py):
    discovery of `.lua` and `.rb` files under the plugin directory, and the
    execution of an enabled plugin by id, as a Lua function call or as a
    Ruby process.  The directory walk, the Lua runtime and the Ruby process
    are inputs; the Ruby launch is recorded on the host. */
module Plugins {
  import opened Common
  import opened Store
  import opened Host

  /** One `(root, dirs, files)` triple of `os.walk`. */
  datatype WalkEntry = WalkEntry(root: string, dirs: seq<string>, files: seq<string>)

  /** One entry of `discover_plugins`' result. */
  datatype Discovered = Discovered(name: string, path: string, pluginType: string)

  predicate IsPluginFile(name: string)
  {
    EndsWith(name, ".lua") || EndsWith(name, ".rb")
  }

  function PluginTypeOf(name: string): (t: string)
    ensures t == "lua" || t == "ruby"
    ensures t == "lua" <==> EndsWith(name, ".lua")
  {
    if EndsWith(name, ".lua") then "lua" else "ruby"
  }

  /** POSIX `os.path.join(root, name)`: an absolute name replaces the root;
      otherwise a separator is put between them unless the root is empty
      or already ends in one. */
  function PathJoin(root: string, name: string): (p: string)
    ensures EndsWith(p, name)
    ensures !(|name| > 0 && name[0] == '/') ==> |root| <= |p| && p[..|root|] == root
    ensures !(|name| > 0 && name[0] == '/') ==> |p| - |root| - |name| <= 1
  {
    if |name| > 0 && name[0] == '/' then name
    else if root == [] || root[|root| - 1] == '/' then root + name
    else root + "/" + name
  }

  function Entry(root: string, name: string): Discovered
  {
    Discovered(name, PathJoin(root, name), PluginTypeOf(name))
  }

  /** The inner loop of `discover_plugins` over the files of one directory. */
  function FilesFound(root: string, files: seq<string>): seq<Discovered>
  {
    if files == [] then []
    else FilesFound(root, files[..|files| - 1])
         + (if IsPluginFile(files[|files| - 1]) then [Entry(root, files[|files| - 1])] else [])
  }

  /** Both loops of `discover_plugins`, in walk order. */
  function DiscoverSpec(walk: seq<WalkEntry>): seq<Discovered>
  {
    if walk == [] then []
    else DiscoverSpec(walk[..|walk| - 1]) + FilesFound(walk[|walk| - 1].root, walk[|walk| - 1].files)
  }

  /** Scanning one more file of a directory is one more step. */
  lemma FilesFoundSnoc(root: string, files: seq<string>, j: nat)
    requires j < |files|
    ensures FilesFound(root, files[..j + 1])
            == FilesFound(root, files[..j]) + (if IsPluginFile(files[j]) then [Entry(root, files[j])] else [])
  {
    assert files[..j + 1][..j] == files[..j];
  }

  /** Walking one more directory is one more step. */
  lemma DiscoverSnoc(walk: seq<WalkEntry>, i: nat)
    requires i < |walk|
    ensures DiscoverSpec(walk[..i + 1]) == DiscoverSpec(walk[..i]) + FilesFound(walk[i].root, walk[i].files)
  {
    assert walk[..i + 1][..i] == walk[..i];
  }

  /** Every discovered entry is a `.lua` or `.rb` file of its directory, of
      type "lua" exactly when its name ends in `.lua` and "ruby" otherwise. */
  ghost predicate Classified(r: seq<Discovered>)
  {
    forall i :: 0 <= i < |r| ==>
      && IsPluginFile(r[i].name)
      && (r[i].pluginType == "lua" <==> EndsWith(r[i].name, ".lua"))
      && (r[i].pluginType == "ruby" <==> !EndsWith(r[i].name, ".lua"))
  }

  lemma {:induction false} FilesFoundClassified(root: string, files: seq<string>)
    ensures Classified(FilesFound(root, files))
    ensures forall i :: 0 <= i < |FilesFound(root, files)| ==>
              FilesFound(root, files)[i].name in files &&
              FilesFound(root, files)[i].path == PathJoin(root, FilesFound(root, files)[i].name)
  {
    if files != [] {
      var n := |files| - 1;
      FilesFoundClassified(root, files[..n]);
      var r := FilesFound(root, files);
      var r0 := FilesFound(root, files[..n]);
      forall i | 0 <= i < |r|
        ensures r[i].name in files && r[i].path == PathJoin(root, r[i].name)
        ensures IsPluginFile(r[i].name)
        ensures r[i].pluginType == "lua" <==> EndsWith(r[i].name, ".lua")
        ensures r[i].pluginType == "ruby" <==> !EndsWith(r[i].name, ".lua")
      {
        if i < |r0| {
          assert r[i] == r0[i];
          assert r0[i].name in files[..n];
        } else {
          assert r[i] == Entry(root, files[n]);
        }
      }
    }
  }

  /** Every discovered entry is a plugin file of some walked directory, with
      path `join(root, name)` and its type from its extension. */
  lemma {:induction false} DiscoveredAreClassified(walk: seq<WalkEntry>)
    ensures Classified(DiscoverSpec(walk))
    ensures forall i :: 0 <= i < |DiscoverSpec(walk)| ==>
              exists k :: 0 <= k < |walk| && DiscoverSpec(walk)[i].name in walk[k].files &&
                          DiscoverSpec(walk)[i].path == PathJoin(walk[k].root, DiscoverSpec(walk)[i].name)
  {
    if walk != [] {
      var n := |walk| - 1;
      DiscoveredAreClassified(walk[..n]);
      FilesFoundClassified(walk[n].root, walk[n].files);
      var r := DiscoverSpec(walk);
      var r0 := DiscoverSpec(walk[..n]);
      var tail := FilesFound(walk[n].root, walk[n].files);
      forall i | 0 <= i < |r|
        ensures IsPluginFile(r[i].name)
        ensures r[i].pluginType == "lua" <==> EndsWith(r[i].name, ".lua")
        ensures r[i].pluginType == "ruby" <==> !EndsWith(r[i].name, ".lua")
        ensures exists k :: 0 <= k < |walk| && r[i].name in walk[k].files &&
                            r[i].path == PathJoin(walk[k].root, r[i].name)
      {
        if i < |r0| {
          assert r[i] == r0[i];
          var k :| 0 <= k < n && r0[i].name in walk[..n][k].files &&
                   r0[i].path == PathJoin(walk[..n][k].root, r0[i].name);
          assert walk[..n][k] == walk[k];
        } else {
          assert r[i] == tail[i - |r0|];
        }
      }
    }
  }

  /** A plugin file of a directory is found, in the order of its directory. */
  lemma {:induction false} FilesFoundComplete(root: string, files: seq<string>, j: nat)
    requires j < |files| && IsPluginFile(files[j])
    ensures Entry(root, files[j]) in FilesFound(root, files)
  {
    var n := |files| - 1;
    if j < n {
      FilesFoundComplete(root, files[..n], j);
      assert files[..n][j] == files[j];
    }
  }

  /** Every `.lua` or `.rb` file of every walked directory is discovered. */
  lemma {:induction false} DiscoveryIsComplete(walk: seq<WalkEntry>, k: nat, j: nat)
    requires k < |walk| && j < |walk[k].files| && IsPluginFile(walk[k].files[j])
    ensures Entry(walk[k].root, walk[k].files[j]) in DiscoverSpec(walk)
  {
    var n := |walk| - 1;
    if k < n {
      DiscoveryIsComplete(walk[..n], k, j);
      assert walk[..n][k] == walk[k];
    } else {
      FilesFoundComplete(walk[k].root, walk[k].files, j);
    }
  }

  /** The number of plugin files among `files`. */
  function CountPluginFiles(files: seq<string>): nat
  {
    if files == [] then 0
    else CountPluginFiles(files[..|files| - 1]) + (if IsPluginFile(files[|files| - 1]) then 1 else 0)
  }

  /** Nothing else is discovered: one entry per plugin file. */
  lemma {:induction false} FilesFoundCount(root: string, files: seq<string>)
    ensures |FilesFound(root, files)| == CountPluginFiles(files)
  {
    if files != [] {
      FilesFoundCount(root, files[..|files| - 1]);
    }
  }

  /** A plugin's arguments as `execute_plugin` receives them. */
  datatype ArgValue =
    | ADict(entries: map<string, string>)
    | AList(items: seq<string>)
    | ANone
    | AOther

  /** `args if isinstance(args, dict) else {}`. */
  function LuaArgs(args: ArgValue): map<string, string>
  {
    if args.ADict? then args.entries else map[]
  }

  /** `args if isinstance(args, list) else []`. */
  function RubyArgs(args: ArgValue): seq<string>
  {
    if args.AList? then args.items else []
  }

  /** What `execute_plugin` and the two runners return; `success` is
      `Success(r)`. */
  datatype PluginResult =
    | RubyRan(exitCode: int, stdout: string, stderr: string, pluginPath: string)
    | LuaReturned(result: string, pluginPath: string)
    | Failure(error: string)

  predicate Success(r: PluginResult)
  {
    match r
    case RubyRan(exitCode, _, _, _) => exitCode == 0
    case LuaReturned(_, _) => true
    case Failure(_) => false
  }

  /** `['ruby', plugin_path]` extended by the arguments. */
  function RubyCommand(path: string, args: seq<string>): (c: seq<string>)
    ensures |c| == |args| + 2 && c[0] == "ruby" && c[1] == path && c[2..] == args
  {
    ["ruby", path] + args
  }

  /** The result of `execute_ruby_plugin` once `subprocess.run` ended in `o`. */
  function RubyResult(path: string, o: ProcessOutcome): (r: PluginResult)
    ensures Success(r) <==> o.Completed? && o.returnCode == 0
    ensures o.Completed? ==> r == RubyRan(o.returnCode, o.stdout, o.stderr, path)
    ensures o.TimedOut? ==> r == Failure("Plugin execution timed out (300s)")
    ensures o.NotFound? ==> r == Failure("Ruby interpreter not found")
    ensures o.Crashed? ==> r == Failure(o.message)
  {
    match o
    case Completed(code, out, err) => RubyRan(code, out, err, path)
    case TimedOut(_) => Failure("Plugin execution timed out (300s)")
    case NotFound(_) => Failure("Ruby interpreter not found")
    case Crashed(message) => Failure(message)
  }

  /** How the plugin function is called. */
  datatype LuaCallArgs = NoArgs | TableArgs(table: map<string, string>)

  /** What calling the function ends in: a value (rendered as text) or a Lua error. */
  datatype LuaCall = CallReturned(value: string) | CallRaised(message: string)

  /** The Lua runtime on one plugin file: whether reading and executing the
      file raises, the global names `lua.eval` finds bound to a value, and
      what the function does with its arguments. */
  datatype LuaPluginRun = LuaPluginRun(
    loadError: Option<string>,
    globals: set<string>,
    call: LuaCallArgs -> LuaCall)

  /** The call `execute_lua_plugin` makes, if it gets that far: with a table
      only when the arguments are a non-empty dict. */
  function LuaCallMade(functionName: string, args: map<string, string>, lua: LuaPluginRun): (c: Option<LuaCallArgs>)
    ensures c.Some? <==> lua.loadError.None? && functionName in lua.globals
    ensures c.Some? ==> (c.value == NoArgs <==> args == map[])
  {
    if lua.loadError.Some? || functionName !in lua.globals then None
    else if args != map[] then Some(TableArgs(args))
    else Some(NoArgs)
  }

  /** `execute_lua_plugin(plugin_path, function_name, args)`. */
  function LuaPluginResult(path: string, functionName: string, args: map<string, string>, lua: LuaPluginRun): (r: PluginResult)
    ensures Success(r) <==> r.LuaReturned?
    ensures r.LuaReturned? ==> r.pluginPath == path
    ensures lua.loadError.Some? ==> r == Failure(lua.loadError.value)
    ensures lua.loadError.None? && functionName !in lua.globals ==>
              r == Failure("Function " + functionName + " not found in plugin")
    ensures Success(r) <==> LuaCallMade(functionName, args, lua).Some? &&
                             lua.call(LuaCallMade(functionName, args, lua).value).CallReturned?
  {
    match LuaCallMade(functionName, args, lua)
    case None =>
      if lua.loadError.Some? then Failure(lua.loadError.value)
      else Failure("Function " + functionName + " not found in plugin")
    case Some(callArgs) =>
      match lua.call(callArgs)
      case CallReturned(value) => LuaReturned(value, path)
      case CallRaised(message) => Failure(message)
  }

  /** What one `execute_plugin` call depends on besides the database: the
      Lua runtime, and what a Ruby process ends in and the files it leaves. */
  datatype PluginEnv = PluginEnv(lua: LuaPluginRun, ruby: ProcessOutcome, rubyFilesLeft: map<string, string>)

  /** The plugin `execute_plugin` finds: the enabled plugin with that id. */
  function PluginById(t: Tables, id: PluginId): (r: Option<Plugin>)
    ensures r.Some? <==> id in t.plugins && t.plugins[id].isEnabled
    ensures r.Some? ==> r.value == t.plugins[id]
  {
    if id in t.plugins && t.plugins[id].isEnabled then Some(t.plugins[id]) else None
  }

  /** `next((p for p in plugins if str(p['id']) == plugin_id), None)`. */
  function FindPlugin(plugins: seq<Plugin>, id: PluginId): (r: Option<Plugin>)
    ensures r.None? <==> forall i :: 0 <= i < |plugins| ==> plugins[i].id != id
    ensures r.Some? ==> exists i :: 0 <= i < |plugins| && plugins[i] == r.value && r.value.id == id &&
                                    forall j :: 0 <= j < i ==> plugins[j].id != id
  {
    if plugins == [] then None
    else if plugins[0].id == id then Some(plugins[0])
    else
      var r := FindPlugin(plugins[1..], id);
      assert r.Some? ==> exists i :: 0 <= i < |plugins| - 1 && plugins[1..][i] == r.value && r.value.id == id &&
                                     forall j :: 0 <= j < i ==> plugins[1..][j].id != id;
      r
  }

  /** Searching the listing of `get_enabled_plugins` finds exactly the
      enabled plugin with that id. */
  lemma FindInEnabledListing(t: Tables, r: seq<Plugin>, id: PluginId)
    requires t.Valid()
    requires ListsEnabledPlugins(t.plugins, t.plugins.Keys, r)
    ensures FindPlugin(r, id) == PluginById(t, id)
  {
    var f := FindPlugin(r, id);
    if id in t.plugins && t.plugins[id].isEnabled {
      var i :| 0 <= i < |r| && r[i].id == id;
    }
  }

  /** The dispatch of `execute_plugin` on the plugin it found. */
  function ExecutePluginSpec(found: Option<Plugin>, pluginId: PluginId, args: ArgValue, env: PluginEnv): (r: PluginResult)
  {
    match found
    case None => Failure("Plugin " + pluginId + " not found or disabled")
    case Some(p) =>
      if p.pluginType == "lua" then LuaPluginResult(p.filePath, "main", LuaArgs(args), env.lua)
      else if p.pluginType == "ruby" then RubyResult(p.filePath, env.ruby)
      else Failure("Unsupported plugin type: " + p.pluginType)
  }

  /** The process `execute_plugin` launches: a Ruby interpreter on the
      plugin file, for a Ruby plugin only. */
  function PluginLaunches(found: Option<Plugin>, args: ArgValue, files: map<string, string>): seq<Invocation>
  {
    if found.Some? && found.value.pluginType == "ruby"
    then [Invocation(RubyCommand(found.value.filePath, RubyArgs(args)), TimeoutSeconds, files)]
    else []
  }

  /** The files after `execute_plugin`: those the Ruby process left, for a
      Ruby plugin only. */
  function PluginFilesAfter(found: Option<Plugin>, env: PluginEnv, files: map<string, string>): map<string, string>
  {
    if found.Some? && found.value.pluginType == "ruby"
    then FilesAfterRun(env.ruby, files, env.rubyFilesLeft)
    else files
  }

  /** An id that is not an enabled plugin's: a failure naming it, and
      nothing launched. */
  lemma UnknownPluginRunsNothing(t: Tables, pluginId: PluginId, args: ArgValue, env: PluginEnv, files: map<string, string>)
    requires !(pluginId in t.plugins && t.plugins[pluginId].isEnabled)
    ensures ExecutePluginSpec(PluginById(t, pluginId), pluginId, args, env)
            == Failure("Plugin " + pluginId + " not found or disabled")
    ensures !Success(ExecutePluginSpec(PluginById(t, pluginId), pluginId, args, env))
    ensures PluginLaunches(PluginById(t, pluginId), args, files) == []
    ensures PluginFilesAfter(PluginById(t, pluginId), env, files) == files
  {
  }

  /** A plugin type other than lua and ruby: a failure naming the type,
      nothing launched. */
  lemma UnsupportedPluginType(p: Plugin, args: ArgValue, env: PluginEnv, files: map<string, string>)
    requires p.pluginType != "lua" && p.pluginType != "ruby"
    ensures ExecutePluginSpec(Some(p), p.id, args, env) == Failure("Unsupported plugin type: " + p.pluginType)
    ensures PluginLaunches(Some(p), args, files) == []
    ensures PluginFilesAfter(Some(p), env, files) == files
  {
  }

  /** A Lua plugin gets the arguments only when they are a non-empty dict;
      anything else calls `main` with no arguments.  A Ruby plugin gets them
      only when they are a list; anything else runs `ruby <path>` alone. */
  lemma ArgumentsByPluginType(p: Plugin, args: ArgValue, env: PluginEnv, files: map<string, string>)
    ensures p.pluginType == "lua" && LuaCallMade("main", LuaArgs(args), env.lua).Some? ==>
              LuaCallMade("main", LuaArgs(args), env.lua).value ==
                (if args.ADict? && args.entries != map[] then TableArgs(args.entries) else NoArgs)
    ensures p.pluginType == "ruby" ==>
              PluginLaunches(Some(p), args, files)[0].command ==
                ["ruby", p.filePath] + (if args.AList? then args.items else [])
    ensures p.pluginType == "lua" ==> PluginLaunches(Some(p), args, files) == []
    ensures p.pluginType == "lua" ==> PluginFilesAfter(Some(p), env, files) == files
  {
  }

  /** A Ruby plugin succeeds exactly when the process exits with 0, and the
      exit code, both streams and the path are reported as they came. */
  lemma RubyPluginOutcome(p: Plugin, args: ArgValue, env: PluginEnv)
    requires p.pluginType == "ruby"
    ensures var r := ExecutePluginSpec(Some(p), p.id, args, env);
            && (Success(r) <==> env.ruby.Completed? && env.ruby.returnCode == 0)
            && (env.ruby.Completed? ==> r.RubyRan? && r.exitCode == env.ruby.returnCode && r.stdout == env.ruby.stdout &&
                                        r.stderr == env.ruby.stderr && r.pluginPath == p.filePath)
            && (env.ruby.TimedOut? ==> r.error == "Plugin execution timed out (300s)")
            && (env.ruby.NotFound? ==> r.error == "Ruby interpreter not found")
  {
  }

  class PluginManager {
    const db: DatabaseManager
    const machine: Machine
    const pluginDir: string

    constructor (db: DatabaseManager, machine: Machine, pluginDir: string := "/app/plugins")
      ensures this.db == db && this.machine == machine && this.pluginDir == pluginDir
    {
      this.db := db;
      this.machine := machine;
      this.pluginDir := pluginDir;
    }

    /** `discover_plugins`: nothing when the directory is missing, otherwise
        the plugin files `walk` yields, in walk order. `dirExists` stands
        for `os.path.exists(pluginDir)` and `walk` for the entries of
        `os.walk(pluginDir)`, which belong to the host. */
    method DiscoverPlugins(dirExists: bool, walk: seq<WalkEntry>) returns (discovered: seq<Discovered>)
      ensures !dirExists ==> discovered == []
      ensures dirExists ==> discovered == DiscoverSpec(walk)
    {
      discovered := [];
      if !dirExists {
        return;
      }
      var i := 0;
      while i < |walk|
        invariant 0 <= i <= |walk|
        invariant discovered == DiscoverSpec(walk[..i])
      {
        var entry := walk[i];
        ghost var before := discovered;
        var j := 0;
        while j < |entry.files|
          invariant 0 <= j <= |entry.files|
          invariant discovered == before + FilesFound(entry.root, entry.files[..j])
        {
          var file := entry.files[j];
          if IsPluginFile(file) {
            discovered := discovered + [Discovered(file, PathJoin(entry.root, file), PluginTypeOf(file))];
          }
          FilesFoundSnoc(entry.root, entry.files, j);
          j := j + 1;
        }
        assert entry.files[..j] == entry.files;
        DiscoverSnoc(walk, i);
        i := i + 1;
      }
      assert walk[..i] == walk;
    }

    /** `execute_lua_plugin`. */
    method ExecuteLuaPlugin(lua: LuaPluginRun, pluginPath: string, functionName: string := "main",
                            args: map<string, string> := map[])
      returns (r: PluginResult)
      ensures r == LuaPluginResult(pluginPath, functionName, args, lua)
    {
      if lua.loadError.Some? {
        return Failure(lua.loadError.value);
      }
      if functionName !in lua.globals {
        return Failure("Function " + functionName + " not found in plugin");
      }
      var result;
      if args != map[] {
        result := lua.call(TableArgs(args));
      } else {
        result := lua.call(NoArgs);
      }
      match result
      case CallReturned(value) => r := LuaReturned(value, pluginPath);
      case CallRaised(message) => r := Failure(message);
    }

    /** `execute_ruby_plugin`: one `ruby` launch with the 300-second timeout. */
    method ExecuteRubyPlugin(pluginPath: string, outcome: ProcessOutcome, filesLeft: map<string, string>,
                             args: seq<string> := [])
      returns (r: PluginResult)
      modifies machine
      ensures r == RubyResult(pluginPath, outcome)
      ensures machine.files == FilesAfterRun(outcome, old(machine.files), filesLeft)
      ensures machine.invocations ==
                old(machine.invocations) + [Invocation(RubyCommand(pluginPath, args), TimeoutSeconds, old(machine.files))]
    {
      var cmd := ["ruby", pluginPath];
      if args != [] {
        cmd := cmd + args;
      }
      assert cmd == RubyCommand(pluginPath, args);
      var o := machine.Run(cmd, TimeoutSeconds, outcome, filesLeft);
      r := RubyResult(pluginPath, o);
    }

    /** `execute_plugin`: look the id up among the enabled plugins and
        dispatch on its type. */
    method ExecutePlugin(pluginId: PluginId, env: PluginEnv, args: ArgValue := ANone) returns (r: PluginResult)
      requires db.Valid()
      modifies machine
      ensures r == ExecutePluginSpec(PluginById(db.State(), pluginId), pluginId, args, env)
      ensures machine.files == PluginFilesAfter(PluginById(db.State(), pluginId), env, old(machine.files))
      ensures machine.invocations ==
                old(machine.invocations) + PluginLaunches(PluginById(db.State(), pluginId), args, old(machine.files))
    {
      var plugins := db.GetEnabledPlugins();
      var plugin := FindPlugin(plugins, pluginId);
      FindInEnabledListing(db.State(), plugins, pluginId);
      if plugin.None? {
        return Failure("Plugin " + pluginId + " not found or disabled");
      }
      var path := plugin.value.filePath;
      var pluginType := plugin.value.pluginType;
      if pluginType == "lua" {
        r := ExecuteLuaPlugin(env.lua, path, args := LuaArgs(args));
      } else if pluginType == "ruby" {
        r := ExecuteRubyPlugin(path, env.ruby, env.rubyFilesLeft, RubyArgs(args));
      } else {
        r := Failure("Unsupported plugin type: " + pluginType);
      }
    }
  }
}
