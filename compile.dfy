/** The compile library: the compiler settings (normalised once when the library is loaded) and
    `doCompile`, which validates a compiler's settings, writes the source, runs the compiler
    (optionally through the sandbox) and folds the outcome into text, a success flag and the
    binary. The filesystem and the compiler process are inputs (`CompileWorld`). */
module Compile {
  import opened Wrappers
  import opened JsValues
  import opened Foreign
  import opened TextRules
  import opened Settings

  /** The fields every compiler entry must define, in the order they are checked. */
  const RequiredKeys: seq<string> := ["timeout", "source", "target", "command", "args"]
  /** The fields that are paths relative to the working directory. */
  const PathKeys: seq<string> := ["source", "target"]
  /** The cap on captured compiler output, 1 MiB. */
  const MaxBuffer: nat := 1048576

  /** Property names every object inherits from `Object.prototype`. Looking one of them up in the
      settings finds a function or an object, not `undefined`, and neither has any of the
      required fields. */
  const PrototypeNames: set<string> := {
    "constructor", "hasOwnProperty", "isPrototypeOf", "propertyIsEnumerable", "toLocaleString",
    "toString", "valueOf", "__proto__", "__defineGetter__", "__defineSetter__",
    "__lookupGetter__", "__lookupSetter__"
  }

  /** `compilerSettings[compiler]`, `None` when it is `undefined`. */
  function FindCompiler(settings: map<string, Entry>, compiler: string): (r: Option<Entry>)
    ensures r.None? <==> compiler !in settings && compiler !in PrototypeNames
    ensures compiler in settings ==> r == Some(settings[compiler])
  {
    if compiler in settings then Some(settings[compiler])
    else if compiler in PrototypeNames then Some(map[])
    else None
  }

  datatype ConfigError = NoSettings(compiler: string) | MissingField(compiler: string, key: string) {
    function ToError(): Error {
      match this
      case NoSettings(c) => Error("Error", "No settings found for compiler \"" + c + "\"")
      case MissingField(c, k) =>
        Error("Error", "Incorrect config for compiler \"" + c + "\", missing field \"" + k + "\"")
    }
  }

  /** The position of the first key the entry leaves `undefined`. */
  function FirstMissing(e: Entry, keys: seq<string>): (r: Option<nat>)
    ensures r.None? <==> forall k :: 0 <= k < |keys| ==> Defines(e, keys[k])
    ensures r.Some? ==> r.value < |keys| && !Defines(e, keys[r.value]) &&
                        forall k :: 0 <= k < r.value ==> Defines(e, keys[k])
    decreases |keys|
  {
    if keys == [] then None
    else if !Defines(e, keys[0]) then Some(0)
    else match FirstMissing(e, keys[1..])
      case None => None
      case Some(i) => Some(i + 1)
  }

  /** A key that is missing after only defined keys is the one `FirstMissing` finds. */
  lemma {:induction false} FirstMissingIsFirst(e: Entry, keys: seq<string>, i: nat)
    requires i < |keys| && !Defines(e, keys[i])
    requires forall j :: 0 <= j < i ==> Defines(e, keys[j])
    ensures FirstMissing(e, keys) == Some(i)
    decreases |keys|
  {
    if i > 0 {
      FirstMissingIsFirst(e, keys[1..], i - 1);
    }
  }

  /** The two checks `doCompile` makes before it touches anything. */
  function Validate(settings: map<string, Entry>, compiler: string): Option<ConfigError> {
    match FindCompiler(settings, compiler)
    case None => Some(NoSettings(compiler))
    case Some(e) =>
      match FirstMissing(e, RequiredKeys)
      case None => None
      case Some(i) => Some(MissingField(compiler, RequiredKeys[i]))
  }

  /** Validation reports "no settings" exactly for an unknown compiler, otherwise exactly the first
      required field (in the fixed order) that is missing, and passes exactly when all are there. */
  lemma ValidateSpec(settings: map<string, Entry>, compiler: string)
    ensures Validate(settings, compiler) == Some(NoSettings(compiler)) <==>
            compiler !in settings && compiler !in PrototypeNames
    ensures forall i :: 0 <= i < |RequiredKeys| ==>
      (Validate(settings, compiler) == Some(MissingField(compiler, RequiredKeys[i])) <==>
        FindCompiler(settings, compiler).Some? &&
        !Defines(FindCompiler(settings, compiler).value, RequiredKeys[i]) &&
        forall j :: 0 <= j < i ==> Defines(FindCompiler(settings, compiler).value, RequiredKeys[j]))
    ensures Validate(settings, compiler).None? <==>
      FindCompiler(settings, compiler).Some? &&
      forall k :: k in RequiredKeys ==> Defines(FindCompiler(settings, compiler).value, k)
  {
    var found := FindCompiler(settings, compiler);
    if found.Some? {
      var e := found.value;
      var m := FirstMissing(e, RequiredKeys);
      forall i | 0 <= i < |RequiredKeys|
        ensures Validate(settings, compiler) == Some(MissingField(compiler, RequiredKeys[i])) <==>
          !Defines(e, RequiredKeys[i]) && forall j :: 0 <= j < i ==> Defines(e, RequiredKeys[j])
      {
        if !Defines(e, RequiredKeys[i]) && forall j :: 0 <= j < i ==> Defines(e, RequiredKeys[j]) {
          FirstMissingIsFirst(e, RequiredKeys, i);
        }
      }
      if m.None? {
        forall k | k in RequiredKeys ensures Defines(e, k) {
          var i :| 0 <= i < |RequiredKeys| && RequiredKeys[i] == k;
        }
      }
    }
  }

  /** `path.resolve(workingDirectory, config[key])` for each key in turn, on a copy of the entry. */
  function ResolveKeys(e: Entry, wd: string, keys: seq<string>, host: Host): Result<Entry, Error>
    decreases |keys|
  {
    if keys == [] then Success(e)
    else
      var v := Field(e, keys[0]);
      if !v.Str? then Failure(host.pathTypeError(v))
      else ResolveKeys(e[keys[0] := Str(host.resolve([wd, v.s]))], wd, keys[1..], host)
  }

  /** Only `source` and `target` change: each becomes its path resolved against the working
      directory; a value that is not a string makes `path.resolve` throw. */
  lemma ResolvePathsSpec(e: Entry, wd: string, host: Host)
    ensures var r := ResolveKeys(e, wd, PathKeys, host);
      (r.Failure? <==> !Field(e, "source").Str? || !Field(e, "target").Str?) &&
      (!Field(e, "source").Str? ==> r == Failure(host.pathTypeError(Field(e, "source")))) &&
      (Field(e, "source").Str? && !Field(e, "target").Str? ==> r == Failure(host.pathTypeError(Field(e, "target")))) &&
      (r.Success? ==>
        r.value.Keys == e.Keys &&
        r.value["source"] == Str(host.resolve([wd, Field(e, "source").s])) &&
        r.value["target"] == Str(host.resolve([wd, Field(e, "target").s])) &&
        forall k :: k in e && k !in PathKeys ==> r.value[k] == e[k])
  {
    var src := Field(e, "source");
    if src.Str? {
      var e1 := e["source" := Str(host.resolve([wd, src.s]))];
      assert PathKeys[1..] == ["target"];
      assert Field(e1, "target") == Field(e, "target");
      var tgt := Field(e, "target");
      if tgt.Str? {
        var e2 := e1["target" := Str(host.resolve([wd, tgt.s]))];
        assert ResolveKeys(e1, wd, ["target"], host) == ResolveKeys(e2, wd, [], host);
      }
    }
  }

  /** Everything `doCompile` works out before its first side effect: the checked entry with its
      paths resolved, or the error it throws. */
  function Prepare(settings: map<string, Entry>, compiler: string, wd: string, host: Host): Result<Entry, Error> {
    match Validate(settings, compiler)
    case Some(err) => Failure(err.ToError())
    case None => ResolveKeys(FindCompiler(settings, compiler).value, wd, PathKeys, host)
  }

  /** The executable and the argument vector handed to `execFile`. */
  datatype Invocation = Invocation(file: Value, args: seq<Value>)

  function Strs(xs: seq<string>): seq<Value> {
    seq(|xs|, i requires 0 <= i < |xs| => Str(xs[i]))
  }

  /** Without a sandbox (the configuration says `null`) the compiler command runs directly; with
      one, the sandbox executable runs, given its own arguments, then the compiler command, then
      the compiler's arguments. Any other configured value reaches `path.resolve`, which throws
      a TypeError for a value that is not a string. */
  function MakeInvocation(cfg: Entry, sandbox: Value, host: Host): (r: Result<Invocation, Error>)
    ensures r.Failure? <==> !sandbox.Null? && !sandbox.Str?
    ensures r.Failure? ==> r.error == host.pathTypeError(sandbox)
    ensures r.Success? ==> |r.value.args| >= |host.parseArgs(Field(cfg, "args"))|
  {
    if sandbox.Null? then Success(Invocation(Field(cfg, "command"), Strs(host.parseArgs(Field(cfg, "args")))))
    else if sandbox.Str? then
      Success(Invocation(Str(host.resolve([sandbox.s])),
                         Strs(host.parseArgs(Field(cfg, "sandboxArgs"))) + [Field(cfg, "command")] +
                         Strs(host.parseArgs(Field(cfg, "args")))))
    else Failure(host.pathTypeError(sandbox))
  }

  /** The sandboxed invocation wraps the direct one: its arguments are the sandbox's own arguments
      followed by the direct invocation's file and arguments. */
  lemma SandboxWrapsDirect(cfg: Entry, path: string, host: Host)
    ensures var direct := MakeInvocation(cfg, Null, host);
      var boxed := MakeInvocation(cfg, Str(path), host);
      var prefix := Strs(host.parseArgs(Field(cfg, "sandboxArgs")));
      direct.Success? && boxed.Success? &&
      direct.value.file == Field(cfg, "command") &&
      boxed.value.file == Str(host.resolve([path])) &&
      boxed.value.args == prefix + [direct.value.file] + direct.value.args &&
      |boxed.value.args| == |prefix| + 1 + |direct.value.args| &&
      boxed.value.args[|prefix|] == Field(cfg, "command") &&
      boxed.value.args[|prefix| + 1..] == direct.value.args
  {
  }

  /** `compileConfig.env || {}` */
  function EnvOf(cfg: Entry): Value {
    if Truthy(Field(cfg, "env")) then Field(cfg, "env") else Obj([])
  }

  /** How `execFile` settled: resolved with both outputs, or rejected with the output captured so
      far and an error message (failure to start, non-zero exit, timeout, output cap). */
  datatype ExecResult = ExecOk(stdout: Bytes, stderr: Bytes) | ExecErr(stdout: Bytes, message: string)

  /** What the filesystem and the compiler process do in one call of `doCompile`. */
  datatype CompileWorld = CompileWorld(
    writeSource: Outcome<Error>,
    exec: ExecResult,
    statTarget: Result<nat, Error>,
    readTarget: Result<Bytes, Error>)

  /** The side effects of `doCompile`, in order. */
  datatype Effect =
    | WriteFile(path: string, data: Value)
    | ExecFile(file: Value, args: seq<Value>, cwd: string, env: Value, timeout: Value, maxBuffer: nat)
    | Stat(path: string)
    | ReadFile(path: string)

  datatype CompileLimits = CompileLimits(sizeOfText: Limit, sizeOfBin: Limit)

  datatype CompileResult = CompileResult(text: string, success: bool, binaryBuffer: Option<Bytes>)

  /** The compiler's output and the error's message, joined by a newline. */
  function CombinedOutput(exec: ExecResult, host: Host): string {
    match exec
    case ExecOk(out, err) => host.iconv(out) + "\n" + host.iconv(err)
    case ExecErr(out, message) => host.iconv(out) + "\n" + message
  }

  function PathOf(cfg: Entry, key: string): string {
    if Field(cfg, key).Str? then Field(cfg, key).s else ""
  }

  /** The module state of the compile library. */
  class CompileLibrary {
    /** the keys of the settings in `for..in` order */
    var order: seq<string>
    var settings: map<string, Entry>
    /** the configured sandbox executable, `null` for none */
    const sandbox: Value
    const host: Host

    ghost predicate Valid()
      reads this
    {
      Distinct(order) && forall k :: k in settings <==> k in order
    }

    constructor (order0: seq<string>, settings0: map<string, Entry>, sandbox0: Value, host0: Host)
      requires Distinct(order0) && forall k :: k in settings0 <==> k in order0
      ensures Valid()
      ensures order == order0 && settings == settings0 && sandbox == sandbox0 && host == host0
    {
      order, settings, sandbox, host := order0, settings0, sandbox0, host0;
    }

    /** One turn of the settings loop: merge every base named by the entry's `extend` into the
        entry (each merge written back at once, so a later base sees the earlier ones when it is
        the entry itself), then the entry's own fields, then drop `extend`. */
    method ExtendEntry(key: string) returns (err: Option<Error>)
      requires key in settings
      modifies this
      ensures order == old(order) && settings.Keys == old(settings).Keys
      ensures err.Some? ==> settings == old(settings)
      ensures NormalizeEntry(old(settings), key, host) ==
              if err.Some? then Failure(err.value) else Success(settings)
    {
      var e := settings[key];
      var ext := Field(e, ExtendKey);
      if !Truthy(ext) {
        return None;
      }
      if !ext.Arr? {
        return Some(ForEachTypeError);
      }
      ghost var before := settings;
      var rest := e - {ExtendKey};
      var bases := ext.items;
      var j := 0;
      while j < |bases|
        invariant 0 <= j <= |bases|
        invariant key in settings && order == old(order)
        invariant MergeBases(settings, key, bases[j..], host) == MergeBases(before, key, bases, host)
      {
        assert bases[j..][1..] == bases[j + 1..];
        settings := settings[key := Merge(settings[key], EntryOrEmpty(settings, BaseName(bases[j], host)))];
        j := j + 1;
      }
      settings := settings[key := Merge(settings[key], rest) - {ExtendKey}];
      return None;
    }

    /** The settings loop run when the library is loaded. It stops at the first entry whose
        `extend` is truthy but not an array, throwing the TypeError that `forEach` raises. */
    method Normalize() returns (err: Option<Error>)
      requires Valid()
      modifies this
      ensures Valid() && order == old(order)
      ensures NormState(settings, err) == NormalizeAll(old(settings), order, host)
    {
      ghost var start := settings;
      var i := 0;
      while i < |order|
        invariant 0 <= i <= |order|
        invariant Valid() && order == old(order)
        invariant NormalizeAll(settings, order[i..], host) == NormalizeAll(start, order, host)
      {
        var key := order[i];
        assert order[i..][0] == key && order[i..][1..] == order[i + 1..];
        var stepErr := ExtendEntry(key);
        if stepErr.Some? {
          return stepErr;
        }
        i := i + 1;
      }
      return None;
    }

    /** `compile.doCompile({ workingDirectory, code, compiler, limits })`. The settings are only
        read: the method has no `modifies` clause. */
    method DoCompile(workingDirectory: string, code: Value, compiler: string, limits: CompileLimits, world: CompileWorld)
      returns (r: Result<CompileResult, Error>, effects: seq<Effect>)
      // validation and path resolution come before any side effect
      ensures Validate(settings, compiler).Some? ==>
                r == Failure(Validate(settings, compiler).value.ToError()) && effects == []
      ensures Prepare(settings, compiler, workingDirectory, host).Failure? ==>
                r == Failure(Prepare(settings, compiler, workingDirectory, host).error) && effects == []
      // then the source is written, and the compiler runs only if that worked
      ensures var p := Prepare(settings, compiler, workingDirectory, host);
        p.Success? ==>
          |effects| >= 1 && effects[0] == WriteFile(PathOf(p.value, "source"), code) &&
          (world.writeSource.Fail? ==> r == Failure(world.writeSource.error) && effects == effects[..1])
      // resolving a sandbox that is not a string throws once the source is written
      ensures var p := Prepare(settings, compiler, workingDirectory, host);
        p.Success? && world.writeSource.Pass? && MakeInvocation(p.value, sandbox, host).Failure? ==>
          r == Failure(MakeInvocation(p.value, sandbox, host).error) && effects == effects[..1]
      ensures var p := Prepare(settings, compiler, workingDirectory, host);
        p.Success? && world.writeSource.Pass? && MakeInvocation(p.value, sandbox, host).Success? ==>
          var inv := MakeInvocation(p.value, sandbox, host).value;
          var target := PathOf(p.value, "target");
          |effects| >= 2 &&
          effects[1] == ExecFile(inv.file, inv.args, workingDirectory, EnvOf(p.value), Field(p.value, "timeout"), MaxBuffer) &&
          effects[2..] == (if !world.exec.ExecOk? then []
                           else if world.statTarget.Failure? || Exceeds(world.statTarget.value, limits.sizeOfBin) then [Stat(target)]
                           else [Stat(target), ReadFile(target)])
      // the outcome
      ensures r.Success? ==>
        Prepare(settings, compiler, workingDirectory, host).Success? && world.writeSource.Pass? &&
        MakeInvocation(Prepare(settings, compiler, workingDirectory, host).value, sandbox, host).Success? &&
        (r.value.success <==> world.exec.ExecOk? && world.statTarget.Success? &&
                              !Exceeds(world.statTarget.value, limits.sizeOfBin)) &&
        (r.value.binaryBuffer.Some? <==> r.value.success) &&
        (r.value.success ==> world.readTarget.Success? && r.value.binaryBuffer == Some(world.readTarget.value)) &&
        (r.value.text == if world.exec.ExecOk? && world.statTarget.Success? && Exceeds(world.statTarget.value, limits.sizeOfBin)
                         then BinaryLimitMessage
                         else Truncate(Trim(CombinedOutput(world.exec, host)), limits.sizeOfText))
      // the errors a successful compile can still run into
      ensures Prepare(settings, compiler, workingDirectory, host).Success? && world.writeSource.Pass? &&
              MakeInvocation(Prepare(settings, compiler, workingDirectory, host).value, sandbox, host).Success? ==>
        (r.Success? <==> (!world.exec.ExecOk? ||
           (world.statTarget.Success? && (Exceeds(world.statTarget.value, limits.sizeOfBin) || world.readTarget.Success?)))) &&
        (r.Failure? ==> r.error == if world.statTarget.Failure? then world.statTarget.error else world.readTarget.error)
    {
      var prepared := Configure(workingDirectory, compiler);
      if prepared.Failure? {
        return Failure(prepared.error), [];
      }
      var config := prepared.value;
      ResolvePathsSpec(FindCompiler(settings, compiler).value, workingDirectory, host);

      effects := [WriteFile(config["source"].s, code)];
      if world.writeSource.Fail? {
        return Failure(world.writeSource.error), effects;
      }

      var rest;
      r, rest := Execute(config, workingDirectory, limits, world);
      effects := effects + rest;
      if rest != [] {
        assert effects[1] == rest[0] && effects[2..] == rest[1..];
      }
    }

    /** The checks `doCompile` makes before any side effect: the compiler's entry exists and
        defines every required field, then the source and target paths are resolved against
        the working directory. */
    method Configure(workingDirectory: string, compiler: string) returns (r: Result<Entry, Error>)
      ensures r == Prepare(settings, compiler, workingDirectory, host)
    {
      var found := FindCompiler(settings, compiler);
      if found.None? {
        return Failure(NoSettings(compiler).ToError());
      }
      var entry := found.value;
      for i := 0 to |RequiredKeys|
        invariant forall j :: 0 <= j < i ==> Defines(entry, RequiredKeys[j])
      {
        if !Defines(entry, RequiredKeys[i]) {
          return Failure(MissingField(compiler, RequiredKeys[i]).ToError());
        }
      }
      assert Validate(settings, compiler).None?;

      var config := entry;
      for i := 0 to |PathKeys|
        invariant ResolveKeys(config, workingDirectory, PathKeys[i..], host) ==
                  ResolveKeys(entry, workingDirectory, PathKeys, host)
      {
        var v := Field(config, PathKeys[i]);
        if !v.Str? {
          return Failure(host.pathTypeError(v));
        }
        assert PathKeys[i..][1..] == PathKeys[i + 1..];
        config := config[PathKeys[i] := Str(host.resolve([workingDirectory, v.s]))];
      }
      return Success(config);
    }

    /** The part of `doCompile` after the source is written: resolve the sandbox, run the compiler, trim and cap its
        output, then check the binary's size and read it. */
    method Execute(config: Entry, workingDirectory: string, limits: CompileLimits, world: CompileWorld)
      returns (r: Result<CompileResult, Error>, effects: seq<Effect>)
      ensures MakeInvocation(config, sandbox, host).Failure? ==>
        r == Failure(MakeInvocation(config, sandbox, host).error) && effects == []
      ensures MakeInvocation(config, sandbox, host).Success? ==>
        var inv := MakeInvocation(config, sandbox, host).value;
        var target := PathOf(config, "target");
        |effects| >= 1 &&
        effects[0] == ExecFile(inv.file, inv.args, workingDirectory, EnvOf(config), Field(config, "timeout"), MaxBuffer) &&
        effects[1..] == (if !world.exec.ExecOk? then []
                         else if world.statTarget.Failure? || Exceeds(world.statTarget.value, limits.sizeOfBin) then [Stat(target)]
                         else [Stat(target), ReadFile(target)])
      ensures MakeInvocation(config, sandbox, host).Success? ==>
        (r.Success? <==> (!world.exec.ExecOk? ||
           (world.statTarget.Success? && (Exceeds(world.statTarget.value, limits.sizeOfBin) || world.readTarget.Success?))))
      ensures MakeInvocation(config, sandbox, host).Success? && r.Failure? ==> r.error == if world.statTarget.Failure? then world.statTarget.error else world.readTarget.error
      ensures r.Success? ==>
        MakeInvocation(config, sandbox, host).Success? &&
        (r.value.success <==> world.exec.ExecOk? && world.statTarget.Success? &&
                              !Exceeds(world.statTarget.value, limits.sizeOfBin)) &&
        (r.value.binaryBuffer.Some? <==> r.value.success) &&
        (r.value.success ==> world.readTarget.Success? && r.value.binaryBuffer == Some(world.readTarget.value)) &&
        (r.value.text == if world.exec.ExecOk? && world.statTarget.Success? && Exceeds(world.statTarget.value, limits.sizeOfBin)
                         then BinaryLimitMessage
                         else Truncate(Trim(CombinedOutput(world.exec, host)), limits.sizeOfText))
    {
      var invocation := MakeInvocation(config, sandbox, host);
      if invocation.Failure? {
        return Failure(invocation.error), [];
      }
      var inv := invocation.value;
      effects := [ExecFile(inv.file, inv.args, workingDirectory, EnvOf(config), Field(config, "timeout"), MaxBuffer)];
      var success: bool, stdout: string, stderr: string;
      match world.exec {
        case ExecOk(out, err) =>
          stdout, stderr, success := host.iconv(out), host.iconv(err), true;
        case ExecErr(out, message) =>
          stdout, stderr, success := host.iconv(out), message, false;
      }
      var text := Trim(stdout + "\n" + stderr);
      text := Truncate(text, limits.sizeOfText);

      var binaryBuffer: Option<Bytes> := None;
      if success {
        var target := PathOf(config, "target");
        effects := effects + [Stat(target)];
        if world.statTarget.Failure? {
          return Failure(world.statTarget.error), effects;
        }
        if Exceeds(world.statTarget.value, limits.sizeOfBin) {
          text := BinaryLimitMessage;
          success := false;
        } else {
          effects := effects + [ReadFile(target)];
          if world.readTarget.Failure? {
            return Failure(world.readTarget.error), effects;
          }
          binaryBuffer := Some(world.readTarget.value);
        }
      }
      r := Success(CompileResult(text, success, binaryBuffer));
    }
  }
}
